# SN32F240 PWM driver, core clock and SYS1 helpers in Dafny

This project models three small pieces of the SN32F240 ChibiOS HAL and proves
properties of them.

- **The CT16B1 PWM low-level driver.** The timer is the class `PwmLld.Ct16b1`,
  whose fields are its registers: PRE, CT, TC, TMRCTRL, PWMCTRL, PWMCTRL2,
  PWMENB, PWMIOENB, IC, RIS and the 24 match registers. It also keeps a ghost log
  of the order in which the driver writes them. The driver PWMD1 is the class
  `PwmLld.PwmDriver`, and its methods are `pwm_lld_init`, `pwm_lld_start`,
  `pwm_lld_stop`, the channel enable/disable functions, the four notification
  functions and `pwm_lld_serve_interrupt`.
  - The framework owns the driver state, the period and the configuration, so
    they are inputs. The global `SystemCoreClock` is an input too.
  - Channel callbacks are recorded as a ghost trace of channel indices.
  - The 24 unrolled polarity `switch` statements of `pwm_lld_start` are a loop
    (`FoldWord`). It is proved against the recursive definition `FoldModes`.
- **The core-clock derivation of `system_SN32F240.c`.**
  - The configuration macros are a `Config` value.
  - `SYS0_PLLCTRL_VAL` is the `bv32` packing `PllCtrlVal`, proved to round-trip
    within the documented field widths.
  - `SystemCoreClockUpdate` is a method on the global `SystemCoreClock`. It is
    proved against the specification function `CoreClock`. It divides left to
    right in `uint32_t`, and the PLL product wraps modulo 2^32.
- **The SYS1 read-modify-write macros of `sn32_sys1.h`.** They are methods of
  `Sys1.Registers`, over `bv32` registers AHBCLKEN, PRST and APBCP0..2. Each
  method's postcondition ties the new register value to a pure bit operation
  (`SetBits`, `ClearBits`, `SelectPreValue`). Lemmas prove the "only these bits
  change" properties of those operations.

**How the PWM registers and masks are represented.** The timer registers that
the driver treats as bit masks are sets of bit positions (`PwmLld.Bits`). This
covers TMRCTRL, PWMCTRL, PWMCTRL2, PWMENB, PWMIOENB, IC and RIS.
- The mask constants the driver uses are defined in device headers that are not
  part of this model. They are the parameter `PwmLld.Masks`, which is constrained
  only by what the driver relies on:
  - each per-channel bit is a single bit below 32;
  - each channel's two mode bits differ;
  - channels that share a control word use disjoint mode bits.
- PRE, CT, TC and the match registers hold counts and are `U32` values.

**Where this model follows the code rather than its description.**
- With the default configuration (IHRC into the PLL, M = 24, PSEL = 3) the core
  clock is 48 MHz (`DefaultCoreClock`). The code divides by the raw PSEL code and
  then by 2. That equals a division by the documented P = 6 (`PllMatchesDatasheet`),
  not by P followed by a further halving, which would give 24 MHz.
- The prescaler-select macros OR their code in and never clear the nibble first,
  and that is what is modelled.

## Model

| member | source | states |
|---|---|---|
| PwmLld.Switch | os/hal/ports/SN32/LLD/SN32F24xB/CT/hal_pwm_lld.c:147-386 | one channel's fall-through switch on the word being built: ACTIVE_LOW ORs in MODE_1 and then MODE_2, ACTIVE_HIGH ORs in MODE_2, and any other mode leaves the word as it is |
| PwmLld.FoldModes | os/hal/ports/SN32/LLD/SN32F24xB/CT/hal_pwm_lld.c:145-386 | the switches of a range of channels applied in channel order to a word starting at 0 |
| PwmLld.FoldModesWithin | os/hal/ports/SN32/LLD/SN32F24xB/CT/hal_pwm_lld.c:145-386 | a polarity word holds only mode bits of the channels folded into it |
| PwmLld.FoldModesAway | os/hal/ports/SN32/LLD/SN32F24xB/CT/hal_pwm_lld.c:145-386 | a channel of the same word outside the folded range finds none of its mode bits set |
| PwmLld.FoldModesChannel | os/hal/ports/SN32/LLD/SN32F24xB/CT/hal_pwm_lld.c:145-386 | each channel's switch touches only its own two bits: the word restricted to them is exactly what that channel's case sets |
| PwmLld.PolarityEncoding | os/hal/ports/SN32/LLD/SN32F24xB/CT/hal_pwm_lld.c:147-386 | in the word of its range (0-15 in pwmctrl, 16-23 in pwmctrl2), MODE_1 is set iff the channel is ACTIVE_LOW, and MODE_2 iff it is ACTIVE_LOW or ACTIVE_HIGH |
| PwmLld.WordsEncode | os/hal/ports/SN32/LLD/SN32F24xB/CT/hal_pwm_lld.c:145-386 | the two words built by the switches encode all 24 channels' polarities |
| PwmLld.FoldModesIdle | os/hal/ports/SN32/LLD/SN32F24xB/CT/hal_pwm_lld.c:145-386 | channels in neither output mode (the `default` case) add nothing to a word |
| PwmLld.PolarityLostAsWritten | os/hal/ports/SN32/LLD/SN32F24xB/CT/hal_pwm_lld.c:388-389 | with channel 0 ACTIVE_LOW and channels 16-23 idle, pwmctrl has channel 0's MODE_1 bit but the value left in PWMCTRL is empty, so whatever PWMCTRL2 holds the two registers do not encode the configuration |
| PwmLld.FoldWord | os/hal/ports/SN32/LLD/SN32F24xB/CT/hal_pwm_lld.c:145-386 | the loop of fall-through switches over channels lo..hi-1 computes exactly the fold of those channels' modes |
| PwmLld.PolarityWords | os/hal/ports/SN32/LLD/SN32F24xB/CT/hal_pwm_lld.c:145-386 | pwmctrl is the word of channels 0-15 and pwmctrl2 the word of channels 16-23 |
| PwmLld.PrescalerCheck | os/hal/ports/SN32/LLD/SN32F24xB/CT/hal_pwm_lld.c:138-140 | the debug assertion: psc fits 16 bits and `(psc + 1) * frequency`, in `uint32_t`, gives the clock back |
| PwmLld.Prescaler | os/hal/ports/SN32/LLD/SN32F24xB/CT/hal_pwm_lld.c:137 | psc is clock/frequency - 1 when frequency <= clock, and wraps to 0xFFFFFFFF when frequency > clock |
| PwmLld.PrescalerCheckExact | os/hal/ports/SN32/LLD/SN32F24xB/CT/hal_pwm_lld.c:137-141 | the debug assertion holds iff frequency divides clock with a quotient in 1..0x10000, and then PRE = clock/frequency - 1 |
| PwmLld.Dispatched | os/hal/ports/SN32/LLD/SN32F24xB/CT/hal_pwm_lld.c:531-603 | the channels whose callbacks the chain of tests runs, in the order it runs them: a channel is appended when its match flag is set in RIS and its callback is non-null |
| PwmLld.DispatchedMembers | os/hal/ports/SN32/LLD/SN32F24xB/CT/hal_pwm_lld.c:531-603 | channel i's callback runs iff its match flag is set in the RIS snapshot and its callback is non-null |
| PwmLld.DispatchedAscending | os/hal/ports/SN32/LLD/SN32F24xB/CT/hal_pwm_lld.c:531-603 | callbacks run in strictly ascending channel order, so none runs twice |
| PwmLld.PwmDriver.Init | os/hal/ports/SN32/LLD/SN32F24xB/CT/hal_pwm_lld.c:87-95 | PWMD1 is bound to CT16B1 with its channel count, and the callback trace is empty |
| PwmLld.PwmDriver.Activate | os/hal/ports/SN32/LLD/SN32F24xB/CT/hal_pwm_lld.c:110-129 | from STOP: the CT16B1 clock gate is switched on, the timer is reset, clock latches SystemCoreClock, and PWMCTRL, PWMCTRL2, PWMENB, PWMIOENB become 1, written in that order |
| PwmLld.PwmDriver.Halt | os/hal/ports/SN32/LLD/SN32F24xB/CT/hal_pwm_lld.c:130-134 | on re-configuration: TMRCTRL = CEN_DIS, then TC = 0 |
| PwmLld.PwmDriver.Program | os/hal/ports/SN32/LLD/SN32F24xB/CT/hal_pwm_lld.c:136-393 | ok iff the prescaler assertion holds; if it fails nothing is written; otherwise PRE, CT = period-1 (wrapping), PWMCTRL twice (ending with pwmctrl2), IC = 1, and CEN_EN ORed into TMRCTRL last with its other bits kept |
| PwmLld.PwmDriver.ProgramIntended | os/hal/ports/SN32/LLD/SN32F24xB/CT/hal_pwm_lld.c:388-389 | the corrected write: PWMCTRL gets pwmctrl, PWMCTRL2 gets pwmctrl2, and every channel's polarity is encoded |
| PwmLld.PwmDriver.Start | os/hal/ports/SN32/LLD/SN32F24xB/CT/hal_pwm_lld.c:106-394 | the two paths by state: from STOP the clock gate is on, the clock latched, and PWMCTRL2, PWMENB, PWMIOENB are 1; on re-configuration TC = 0, TMRCTRL is CEN_DIS (plus CEN_EN when ok) and the match registers and AHBCLKEN are kept; ok iff the prescaler assertion holds, and then PRE, CT, PWMCTRL and IC take the programmed values; the driver's own writes are logged in order |
| PwmLld.PwmDriver.Stop | os/hal/ports/SN32/LLD/SN32F24xB/CT/hal_pwm_lld.c:403-419 | nothing changes unless READY; in READY, TMRCTRL = CEN_DIS, IC = 1, and the CT16B1 bit of AHBCLKEN is cleared |
| PwmLld.PwmDriver.EnableChannel | os/hal/ports/SN32/LLD/SN32F24xB/CT/hal_pwm_lld.c:434-440 | only the channel's match register changes, to width |
| PwmLld.PwmDriver.DisableChannel | os/hal/ports/SN32/LLD/SN32F24xB/CT/hal_pwm_lld.c:454-458 | the channel's match register becomes 0 and its output-disable bit is ORed into PWMIOENB |
| PwmLld.PwmDriver.EnablePeriodicNotification | os/hal/ports/SN32/LLD/SN32F24xB/CT/hal_pwm_lld.c:469-471 | changes nothing (not supported) |
| PwmLld.PwmDriver.DisablePeriodicNotification | os/hal/ports/SN32/LLD/SN32F24xB/CT/hal_pwm_lld.c:482-484 | changes nothing (not supported) |
| PwmLld.PwmDriver.EnableChannelNotification | os/hal/ports/SN32/LLD/SN32F24xB/CT/hal_pwm_lld.c:497-500 | changes nothing (not supported) |
| PwmLld.PwmDriver.DisableChannelNotification | os/hal/ports/SN32/LLD/SN32F24xB/CT/hal_pwm_lld.c:513-516 | changes nothing (not supported) |
| PwmLld.PwmDriver.ServeInterrupt | os/hal/ports/SN32/LLD/SN32F24xB/CT/hal_pwm_lld.c:528-603 | from one RIS snapshot, the trace grows by exactly the dispatched channels, in ascending order |
| SystemClock.PllCtrlVal | os/common/ext/SONiX/SN32F2xx/system_SN32F240.c:144 | `SYS0_PLLCTRL_VAL`: ENABLE shifted to 15, CLKIN to 12, FSEL to 8, PSEL to 5, and MSEL, ORed together |
| SystemClock.PllCtrlRoundTrip | os/common/ext/SONiX/SN32F2xx/system_SN32F240.c:144 | within the documented widths every field is recovered by shift-and-mask, and the word fits 16 bits |
| SystemClock.PackFields | os/common/ext/SONiX/SN32F2xx/system_SN32F240.c:144 | ENABLE at bit 15, CLKIN at 12, FSEL at 8, PSEL at 5 and MSEL at 0 occupy disjoint bits |
| SystemClock.PllCtrlInjective | os/common/ext/SONiX/SN32F2xx/system_SN32F240.c:144 | within the widths, distinct field values give distinct PLLCTRL words |
| SystemClock.PllCtrlOverlapOutOfRange | os/common/ext/SONiX/SN32F2xx/system_SN32F240.c:144 | out of range the packing is lossy: MSEL = 32 collides with PSEL's low bit |
| SystemClock.DefaultPllCtrl | os/common/ext/SONiX/SN32F2xx/system_SN32F240.c:101-144 | the default fields pack to 0x8078 |
| SystemClock.PllClock | os/common/ext/SONiX/SN32F2xx/system_SN32F240.c:177-186 | the PLL frequency: F = 1 for FSEL 0 else 2, then `src / F * MSEL / PSEL / 2` left to right in `uint32_t`, with src IHRC for CLKIN 0 and EHS otherwise |
| SystemClock.SwitchedClock | os/common/ext/SONiX/SN32F2xx/system_SN32F240.c:159-194 | the value of SystemCoreClock after the source switch: the fixed frequencies for 0, 1 and 3, EHS_FREQ MHz for 2, the PLL formula (or 50 MHz without clock setup) for 4, and the previous value otherwise |
| SystemClock.CoreClock | os/common/ext/SONiX/SN32F2xx/system_SN32F240.c:159-231 | the switched value divided by the AHB divisor, as line 231 leaves it |
| SystemClock.AhbDivisor | os/common/ext/SONiX/SN32F2xx/system_SN32F240.c:196-229 | AHBCP n in 0..9 selects 2^n; any other value leaves the divisor at 0 |
| SystemClock.ClockState.SystemCoreClockUpdate | os/common/ext/SONiX/SN32F2xx/system_SN32F240.c:155-234 | SystemCoreClock ends as the selected source frequency divided by the AHB divisor |
| SystemClock.ClockState.SwitchSource | os/common/ext/SONiX/SN32F2xx/system_SN32F240.c:159-194 | the source switch: fixed, configured or PLL frequency, and the previous value for SYSCLKST 5..7 |
| SystemClock.ClockState.DivideByAhb | os/common/ext/SONiX/SN32F2xx/system_SN32F240.c:196-231 | the in-place division by the table divisor |
| SystemClock.SourceFrequencies | os/common/ext/SONiX/SN32F2xx/system_SN32F240.c:139-194 | for any well-formed configuration SYSCLKST 0, 1, 3 give 12 MHz, 32 kHz and 32.768 kHz and 5..7 keep the previous value; with clock setup, 2 gives EHS_FREQ MHz |
| SystemClock.CoreClockDivides | os/common/ext/SONiX/SN32F2xx/system_SN32F240.c:196-231 | the core clock is the source clock / 2^AHBCP: never larger, and equal for AHBCP = 0 |
| SystemClock.PllProductFits | os/common/ext/SONiX/SN32F2xx/system_SN32F240.c:177-186 | in the documented ranges the product src / F * MSEL does not wrap |
| SystemClock.PllMatchesDatasheet | os/common/ext/SONiX/SN32F2xx/system_SN32F240.c:177-186 | in the documented ranges the code computes (F_CLKIN / F * M) / P with P the documented divider of the PSEL code |
| SystemClock.DefaultCoreClock | os/common/ext/SONiX/SN32F2xx/system_SN32F240.c:92-234 | the defaults (PLL from IHRC, M = 24, PSEL = 3, AHBCP = 0) give 48 MHz |
| Sys1.SetBits | os/hal/ports/SN32/SN32F240/sn32_sys1.h:61-64 | the mask bits end set and every other bit is kept |
| Sys1.ClearBits | os/hal/ports/SN32/SN32F240/sn32_sys1.h:73-76 | the mask bits end clear and every other bit is kept |
| Sys1.SelectPreValue | os/hal/ports/SN32/SN32F240/sn32_sys1.h:255-258 | pre = 0 leaves the register unchanged, and no bit already set is cleared |
| Sys1.SelectPreOwnNibble | os/hal/ports/SN32/SN32F240/sn32_sys1.h:255-258 | a code below 16 changes no bit outside its nibble |
| Sys1.SelectPreNibble | os/hal/ports/SN32/SN32F240/sn32_sys1.h:291-294 | a code below 16 is ORed into its own nibble |
| Sys1.AhbBit | os/hal/ports/SN32/SN32F240/sn32_sys1.h:137-769 | every enable/disable mask is a single bit below 25 |
| Sys1.ResetBit | os/hal/ports/SN32/SN32F240/sn32_sys1.h:151-776 | every reset mask is a single bit below 26 |
| Sys1.Shift | os/hal/ports/SN32/SN32F240/sn32_sys1.h:255-834 | every prescaler shift is a multiple of 4 no greater than 28 |
| Sys1.Registers.EnableAHB | os/hal/ports/SN32/SN32F240/sn32_sys1.h:61-64 | AHBCLKEN = AHBCLKEN OR mask, and nothing else changes |
| Sys1.Registers.DisableAHB | os/hal/ports/SN32/SN32F240/sn32_sys1.h:73-76 | AHBCLKEN = AHBCLKEN AND NOT mask, and nothing else changes |
| Sys1.Registers.Reset | os/hal/ports/SN32/SN32F240/sn32_sys1.h:85-89 | PRST is written twice, first with the mask raised and then with it cleared |
| Sys1.Registers.SelectAPB0 | os/hal/ports/SN32/SN32F240/sn32_sys1.h:98-101 | APBCP0 = APBCP0 OR mask |
| Sys1.Registers.SelectAPB1 | os/hal/ports/SN32/SN32F240/sn32_sys1.h:110-113 | APBCP1 = APBCP1 OR mask |
| Sys1.Registers.SelectAPB2 | os/hal/ports/SN32/SN32F240/sn32_sys1.h:122-125 | APBCP2 = APBCP2 OR mask |
| Sys1.Registers.EnablePeripheral | os/hal/ports/SN32/SN32F240/sn32_sys1.h:137-762 | sets exactly the peripheral's AHB enable bit |
| Sys1.Registers.DisablePeripheral | os/hal/ports/SN32/SN32F240/sn32_sys1.h:144-769 | clears exactly the peripheral's AHB enable bit |
| Sys1.Registers.ResetPeripheral | os/hal/ports/SN32/SN32F240/sn32_sys1.h:151-776 | pulses exactly the line's PRST bit |
| Sys1.Registers.SelectAt | os/hal/ports/SN32/SN32F240/sn32_sys1.h:98-125 | only the chosen APBCP register changes, and only when the code is nonzero |
| Sys1.Registers.SelectPrescaler | os/hal/ports/SN32/SN32F240/sn32_sys1.h:255-834 | the APBCP register of the peripheral's bus gets the code at its shift when nonzero; the other two are unchanged |
| Sys1.Registers.EnableCLKOUT | os/hal/ports/SN32/SN32F240/sn32_sys1.h:799-802 | no-op for 0; otherwise the value shifted by 28 is ORed into AHBCLKEN |
| Sys1.Registers.DisableCLKOUT | os/hal/ports/SN32/SN32F240/sn32_sys1.h:809-812 | the CLKOUTSEL field becomes 0 and every other bit is kept |
| Sys1.DisableIdempotent | os/hal/ports/SN32/SN32F240/sn32_sys1.h:73-76 | disabling twice equals disabling once |
| Sys1.ResetNetEffect | os/hal/ports/SN32/SN32F240/sn32_sys1.h:85-89 | after the reset pulse the mask bits are clear and the others are as before |
| Sys1.AhbBitsDistinct | os/hal/ports/SN32/SN32F240/sn32_sys1.h:137-769 | no two peripherals share an AHB enable bit |
| Sys1.EnableKeepsOtherPeripherals | os/hal/ports/SN32/SN32F240/sn32_sys1.h:137-769 | enabling or disabling one peripheral leaves every other peripheral's enable bit unchanged |
| Sys1.ResetBitsDistinct | os/hal/ports/SN32/SN32F240/sn32_sys1.h:151-776 | no two reset lines share a PRST bit |
| Sys1.ResetBitsVersusEnableBits | os/hal/ports/SN32/SN32F240/sn32_sys1.h:183-222 | the USB (25) and LCD (15) reset bits differ from their enable bits (1 and 2); every other peripheral's reset bit is its enable bit |
| Sys1.ShiftsDistinct | os/hal/ports/SN32/SN32F240/sn32_sys1.h:255-834 | two prescaler selects on the same APB register use distinct shifts |
| Sys1.SelectKeepsOtherPrescalers | os/hal/ports/SN32/SN32F240/sn32_sys1.h:255-834 | selecting one prescaler with a code below 16 leaves every other prescaler nibble of that register unchanged |
| Sys1.NibblesDisjoint | os/hal/ports/SN32/SN32F240/sn32_sys1.h:255-834 | ORing a code into one nibble leaves any other nibble alone |

## Findings

| source | as written | input that shows it | evidently intended | confidence | as-written member | corrected member |
|---|---|---|---|---|---|---|
| os/hal/ports/SN32/LLD/SN32F24xB/CT/hal_pwm_lld.c:388-389 | both polarity words are written to PWMCTRL. The second write overwrites the first, and PWMCTRL2 never receives channels 16-23 | channel 0 ACTIVE_LOW and channels 16-23 idle: PWMCTRL ends empty instead of holding channel 0's MODE_1 and MODE_2 bits | line 389 writes PWMCTRL2, so each word lands in its own register | high (the line pattern and the register names), not executed | PwmLld.PolarityLostAsWritten (with PwmLld.PwmDriver.Program) | PwmLld.PwmDriver.ProgramIntended |

## Left out

- PwmLld.PwmDriver.Start: it calls `Program` as written, so it keeps the PWMCTRL overwrite from the finding above. `ProgramIntended` is the corrected step.
- PwmLld.PwmDriver.Program: only the debug-build `osalDbgAssert` is modelled. A failing prescaler check stops the driver with nothing more written. In a release build the assertion vanishes and the wrapped prescaler would be written.
- PwmLld.PwmDriver.Start: requires a nonzero frequency, because the C division by zero is undefined. It also requires a table of at least 24 channels, because the driver reads `channels[0]` to `channels[23]`.
- PwmLld.PwmDriver.Start: `CT16B1_Init` and `CT16B1_Reset` are defined outside this model. `CT16B1_Init` is modelled as switching the CT16B1 clock gate on in AHBCLKEN, the counterpart of the bit `pwm_lld_stop` clears; this is an assumption drawn from the name. `CT16B1_Reset` (`ResetTimer`) leaves PRE, CT, TC, TMRCTRL and the match registers with unknown values. So from STOP, Start states nothing about TC or the match registers, nor about PRE and CT when the check fails, and it states only that CEN_EN is set in TMRCTRL. The registers the reset writes are not in the write log.
- PwmLld.PwmDriver.Start: `nvicEnableVector` is a call into code outside this model and is left out.
- PwmLld.PwmDriver.Stop: `nvicDisableVector` is a foreign call and is left out. The AHBCLKEN bit-field write is modelled as `sys1DisableCT16B1`, which clears the same bit.
- PwmLld.PwmDriver.Init: `pwmObjectInit` belongs to the generic framework and is left out.
- PwmLld.PwmDriver.ServeInterrupt: the overall-callback test at hal_pwm_lld.c:604-605 is left out. It reads the IC register through `gptp`, which is not declared in this file, so it has no defined meaning here.
- PwmLld.PwmDriver.ServeInterrupt: callbacks are recorded as a trace of channel indices. What they do, and any interleaving of the interrupt with foreground code, is not modelled.
- The CT16B1 interrupt wrapper (hal_pwm_lld.c:67-74) is left out. It is an OSAL prologue/epilogue around `pwm_lld_serve_interrupt`.
- PwmLld.PwmDriver.EnableChannel: the code writes a register named `MRchannel` literally. The model writes match register `channel`, as the function's documentation describes.
- PwmLld.PwmDriver.DisableChannel: likewise, `mskCT16_PWMchannelIOEN_DIS` is modelled as channel `channel`'s output-disable bit.
- `pwmctrl2` is used but not declared in `pwm_lld_start` (hal_pwm_lld.c:146). It is modelled as a local word like `pwmctrl`.
- PwmLld.Masks: the silicon bit positions are not modelled. They come from device headers that are not part of this model, and the masks are parameters with only the distinctness the driver relies on.
- PwmLld.Bits: the bit-mask registers are sets of bit positions, not 32-bit words. The 32-bit width is kept by requiring every mask position to be below 32.
- The driver lifecycle state, period and configuration are inputs, because the generic framework owns them.
- SystemClock.PllCtrlVal: the fields are restricted to values below 256, so every shift of `SYS0_PLLCTRL_VAL` stays within a C `int`.
- SystemClock.SourceDefined: with clock setup it excludes `PLL_PSEL == 0` for the PLL source. The division by PLL_PSEL at system_SN32F240.c:184 and 186 would be a division by zero, which is undefined in C.
- SystemClock.Config.WellFormed: requires `EHS_FREQ * 1000000` below 2^31. A larger value overflows the signed `int` product at system_SN32F240.c:168 and 186, which is undefined in C, so the model does not give it a value.
- Sys1.Registers.SelectAt: `pre << shift` is computed on 32 bits, so bits shifted past bit 31 are dropped. In C, `pre<<28` for a `pre` of 8 or more overflows an `int` and is undefined. This affects `sys1SelectCT16B2PRE` (sn32_sys1.h:329) and `sys1SelectCT32B2PRE` (sn32_sys1.h:437), and the same holds for `Sys1.Registers.SelectPrescaler`.
- SystemClock.ClockState.SwitchSource: the EHS branch compiled without `SYS_CLOCK_SETUP` divides by `AHB_prescaler` while it is still 0 (system_SN32F240.c:171). That is undefined behaviour in C, so `SourceDefined` excludes it.
- SystemClock.ClockState.SystemCoreClockUpdate: requires AHBCP in 0..9. Any other value leaves the divisor at 0, and line 231 divides by zero.
- SystemClock.ClockState.SystemCoreClockUpdate: SYSCLKST is the 3-bit field read from CLKCFG, and AHBCP is the whole register; both are parameters.
- `SystemInit` (system_SN32F240.c:245-306) is left out. It waits on hardware ready bits and writes registers once, with no further statable behaviour.
- Sys1.Registers.EnableCLKOUT: the shift is on 32 bits, so bits shifted past bit 31 are dropped. In C, `clkval << 28` on an `int` of 8 or more is undefined.
- Sys1.Registers.DisableCLKOUT: the CLKOUTSEL field mask is a parameter whose lowest bit is 28, because its width is defined in a device header that is not part of this model.
- The dummy read-backs `(void)SN_SYS1->...` in the SYS1 macros are left out. They synchronise the bus and have no logical effect.
