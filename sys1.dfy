/**
 * The SYS1 helper macros of the SN32F240: read-modify-write operations on the
 * AHB clock-enable register (AHBCLKEN), the peripheral reset register (PRST)
 * and the three APB clock-prescaler registers (APBCP0, APBCP1, APBCP2).
 *
 * Each generic macro is a method of `Registers` whose postcondition ties the new
 * register value to one of the pure bit operations below; the per-peripheral
 * macros are table lookups (`AhbBit`, `ResetBit`, `Bus`, `Shift`) feeding the
 * generic ones.
 */
module Sys1 {

  /** A single-bit mask. */
  function Bit(n: bv32): (m: bv32)
    requires n < 32
    ensures m != 0
    ensures m & (m - 1) == 0
  {
    1 << n
  }

  /** `reg |= mask`: the mask bits end set, every other bit is kept. */
  function SetBits(reg: bv32, mask: bv32): (r: bv32)
    ensures r & mask == mask
    ensures r & !mask == reg & !mask
  {
    reg | mask
  }

  /** `reg &= ~mask`: the mask bits end clear, every other bit is kept. */
  function ClearBits(reg: bv32, mask: bv32): (r: bv32)
    ensures r & mask == 0
    ensures r & !mask == reg & !mask
  {
    reg & !mask
  }

  /** The 4-bit prescaler field at `shift` of an APBCP register. */
  function Nibble(reg: bv32, shift: bv32): bv32
    requires shift <= 28
  {
    (reg >> shift) & 0xF
  }

  /**
   * The value an APBCP register takes under a `sys1Select*PRE(pre)` macro: nothing
   * happens for `pre == 0`, otherwise `pre << shift` is ORed in, so no bit already
   * set is ever cleared.
   */
  function SelectPreValue(reg: bv32, pre: bv32, shift: bv32): (r: bv32)
    requires shift <= 28
    ensures pre == 0 ==> r == reg
    ensures r & reg == reg
  {
    if pre > 0 then reg | (pre << shift) else reg
  }

  /** A prescaler code below 16 changes no bit outside its own nibble. */
  lemma SelectPreOwnNibble(reg: bv32, pre: bv32, shift: bv32)
    requires shift <= 28 && pre < 16
    ensures SelectPreValue(reg, pre, shift) & !(0xF << shift) == reg & !(0xF << shift)
  {
  }

  /** A prescaler code below 16 is ORed into its own nibble. */
  lemma SelectPreNibble(reg: bv32, pre: bv32, shift: bv32)
    requires shift <= 28 && pre < 16
    ensures Nibble(SelectPreValue(reg, pre, shift), shift) == Nibble(reg, shift) | pre
  {
  }

  /** The peripherals that have an AHB clock-enable bit. */
  datatype Peripheral =
    | GPIO | USB | LCD
    | CT16B0 | CT16B1 | CT16B2 | CT32B0 | CT32B1 | CT32B2
    | ADC | SPI0 | SPI1 | USART0 | USART1 | I2C1 | I2C0 | I2S | RTC | WDT

  /** The AHBCLKEN bit switched by `sys1Enable<p>` / `sys1Disable<p>`. */
  function AhbBit(p: Peripheral): (n: bv32)
    ensures n < 25
  {
    match p
    case GPIO => 0
    case USB => 1
    case LCD => 2
    case CT16B0 => 5
    case CT16B1 => 6
    case CT16B2 => 7
    case CT32B0 => 8
    case CT32B1 => 9
    case CT32B2 => 10
    case ADC => 11
    case SPI0 => 12
    case SPI1 => 13
    case USART0 => 16
    case USART1 => 17
    case I2C1 => 20
    case I2C0 => 21
    case I2S => 22
    case RTC => 23
    case WDT => 24
  }

  /** The reset lines pulsed by `sys1Reset<x>`: four GPIO ports, and every other peripheral. */
  datatype ResetLine = GpioPort(port: nat) | PeripheralReset(p: Peripheral)
  {
    predicate Valid() {
      match this
      case GpioPort(n) => n < 4
      case PeripheralReset(p) => p != GPIO
    }
  }

  /** The PRST bit pulsed by `sys1Reset<x>`. */
  function ResetBit(l: ResetLine): (n: bv32)
    requires l.Valid()
    ensures n < 26
  {
    match l
    case GpioPort(n) => n as bv32
    case PeripheralReset(p) =>
      match p
      case USB => 25
      case LCD => 15
      case _ => AhbBit(p)
  }

  /** The APB clock-prescaler registers a `sys1Select*PRE` macro may write. */
  datatype Apb = APB0 | APB1 | APB2

  /** The targets of the `sys1Select*PRE` macros. */
  datatype PreSelect =
    | CT16B0Pre | CT16B1Pre | CT32B0Pre | CT32B1Pre | ADCPre | SPI0Pre | SPI1Pre | CT32B2Pre
    | USART0Pre | USART1Pre | I2C0Pre | I2SPre | SystickPre | WDTPre | I2C1Pre | CT16B2Pre
    | ClkoutPre

  /** The register a prescaler select writes. */
  function Bus(s: PreSelect): Apb
  {
    match s
    case CT16B0Pre | CT16B1Pre | CT32B0Pre | CT32B1Pre | ADCPre | SPI0Pre | SPI1Pre | CT32B2Pre => APB0
    case USART0Pre | USART1Pre | I2C0Pre | I2SPre | SystickPre | WDTPre | I2C1Pre | CT16B2Pre => APB1
    case ClkoutPre => APB2
  }

  /** The shift a prescaler select applies to its code. */
  function Shift(s: PreSelect): (n: bv32)
    ensures n <= 28 && n % 4 == 0
  {
    match s
    case CT16B0Pre => 0
    case CT16B1Pre => 4
    case CT32B0Pre => 8
    case CT32B1Pre => 12
    case ADCPre => 16
    case SPI0Pre => 20
    case SPI1Pre => 24
    case CT32B2Pre => 28
    case USART0Pre => 0
    case USART1Pre => 4
    case I2C0Pre => 8
    case I2SPre => 12
    case SystickPre => 16
    case WDTPre => 20
    case I2C1Pre => 24
    case CT16B2Pre => 28
    case ClkoutPre => 0
  }

  /** The first bit of the CLKOUTSEL field of AHBCLKEN, as `sys1EnableCLKOUT` shifts it. */
  const CLKOUT_SHIFT: bv32 := 28

  /** The SYS1 registers the helpers touch. */
  class Registers {
    var ahbclken: bv32
    var prst: bv32
    var apbcp0: bv32
    var apbcp1: bv32
    var apbcp2: bv32
    /** Every value written to PRST, in order (a reset is a pulse of two writes). */
    ghost var prstWrites: seq<bv32>

    constructor (ahbclken: bv32, prst: bv32, apbcp0: bv32, apbcp1: bv32, apbcp2: bv32)
      ensures this.ahbclken == ahbclken && this.prst == prst
      ensures this.apbcp0 == apbcp0 && this.apbcp1 == apbcp1 && this.apbcp2 == apbcp2
      ensures prstWrites == []
    {
      this.ahbclken, this.prst := ahbclken, prst;
      this.apbcp0, this.apbcp1, this.apbcp2 := apbcp0, apbcp1, apbcp2;
      prstWrites := [];
    }

    /** `sys1EnableAHB(mask)`. */
    method EnableAHB(mask: bv32)
      modifies this`ahbclken
      ensures ahbclken == SetBits(old(ahbclken), mask)
    {
      ahbclken := ahbclken | mask;
    }

    /** `sys1DisableAHB(mask)`. */
    method DisableAHB(mask: bv32)
      modifies this`ahbclken
      ensures ahbclken == ClearBits(old(ahbclken), mask)
    {
      ahbclken := ahbclken & !mask;
    }

    /** `sys1Reset(mask)`: the mask bits are raised, then lowered again. */
    method Reset(mask: bv32)
      modifies this`prst, this`prstWrites
      ensures prstWrites == old(prstWrites) + [SetBits(old(prst), mask), prst]
      ensures prst == ClearBits(old(prst), mask)
    {
      prst := prst | mask;
      prstWrites := prstWrites + [prst];
      prst := prst & !mask;
      prstWrites := prstWrites + [prst];
    }

    /** `sys1SelectAPB0(mask)`. */
    method SelectAPB0(mask: bv32)
      modifies this`apbcp0
      ensures apbcp0 == SetBits(old(apbcp0), mask)
    {
      apbcp0 := apbcp0 | mask;
    }

    /** `sys1SelectAPB1(mask)`. */
    method SelectAPB1(mask: bv32)
      modifies this`apbcp1
      ensures apbcp1 == SetBits(old(apbcp1), mask)
    {
      apbcp1 := apbcp1 | mask;
    }

    /** `sys1SelectAPB2(mask)`. */
    method SelectAPB2(mask: bv32)
      modifies this`apbcp2
      ensures apbcp2 == SetBits(old(apbcp2), mask)
    {
      apbcp2 := apbcp2 | mask;
    }

    /** `sys1Enable<p>()`. */
    method EnablePeripheral(p: Peripheral)
      modifies this`ahbclken
      ensures ahbclken == SetBits(old(ahbclken), Bit(AhbBit(p)))
    {
      EnableAHB(Bit(AhbBit(p)));
    }

    /** `sys1Disable<p>()`. */
    method DisablePeripheral(p: Peripheral)
      modifies this`ahbclken
      ensures ahbclken == ClearBits(old(ahbclken), Bit(AhbBit(p)))
    {
      DisableAHB(Bit(AhbBit(p)));
    }

    /** `sys1Reset<l>()`. */
    method ResetPeripheral(l: ResetLine)
      requires l.Valid()
      modifies this`prst, this`prstWrites
      ensures prstWrites == old(prstWrites) + [SetBits(old(prst), Bit(ResetBit(l))), prst]
      ensures prst == ClearBits(old(prst), Bit(ResetBit(l)))
    {
      Reset(Bit(ResetBit(l)));
    }

    /** A prescaler code ORed in at `shift` of the APBCP register of `bus`, when nonzero. */
    method SelectAt(bus: Apb, pre: bv32, shift: bv32)
      requires shift <= 28
      modifies this`apbcp0, this`apbcp1, this`apbcp2
      ensures apbcp0 == if bus == APB0 then SelectPreValue(old(apbcp0), pre, shift) else old(apbcp0)
      ensures apbcp1 == if bus == APB1 then SelectPreValue(old(apbcp1), pre, shift) else old(apbcp1)
      ensures apbcp2 == if bus == APB2 then SelectPreValue(old(apbcp2), pre, shift) else old(apbcp2)
    {
      if pre > 0 {
        var mask := pre << shift;
        match bus
        case APB0 => SelectAPB0(mask);
        case APB1 => SelectAPB1(mask);
        case APB2 => SelectAPB2(mask);
      }
    }

    /** `sys1Select<s>PRE(pre)`: only the APBCP register of `s` changes. */
    method SelectPrescaler(s: PreSelect, pre: bv32)
      modifies this`apbcp0, this`apbcp1, this`apbcp2
      ensures apbcp0 == if Bus(s) == APB0 then SelectPreValue(old(apbcp0), pre, Shift(s)) else old(apbcp0)
      ensures apbcp1 == if Bus(s) == APB1 then SelectPreValue(old(apbcp1), pre, Shift(s)) else old(apbcp1)
      ensures apbcp2 == if Bus(s) == APB2 then SelectPreValue(old(apbcp2), pre, Shift(s)) else old(apbcp2)
    {
      SelectAt(Bus(s), pre, Shift(s));
    }

    /** `sys1EnableCLKOUT(clkval)`: ORs the clock-output source into CLKOUTSEL. */
    method EnableCLKOUT(clkval: bv32)
      modifies this`ahbclken
      ensures ahbclken == if clkval > 0 then SetBits(old(ahbclken), clkval << CLKOUT_SHIFT) else old(ahbclken)
    {
      if clkval > 0 {
        EnableAHB(clkval << CLKOUT_SHIFT);
      }
    }

    /**
     * `sys1DisableCLKOUT()`: zeroes the CLKOUTSEL bit-field. Its width is defined in a
     * device header that is not part of this model, so the field mask is a parameter
     * whose lowest bit is `CLKOUT_SHIFT`.
     */
    method DisableCLKOUT(clkoutSel: bv32)
      requires clkoutSel & 0x0FFF_FFFF == 0 && clkoutSel & 0x1000_0000 != 0
      modifies this`ahbclken
      ensures ahbclken == ClearBits(old(ahbclken), clkoutSel)
    {
      ahbclken := ahbclken & !clkoutSel;
    }
  }

  /** Disabling twice is disabling once. */
  lemma DisableIdempotent(reg: bv32, mask: bv32)
    ensures ClearBits(ClearBits(reg, mask), mask) == ClearBits(reg, mask)
  {
  }

  /** The reset pulse leaves exactly the mask bits cleared and the others as they were. */
  lemma ResetNetEffect(reg: bv32, mask: bv32)
    ensures ClearBits(SetBits(reg, mask), mask) & mask == 0
    ensures ClearBits(SetBits(reg, mask), mask) & !mask == reg & !mask
  {
  }

  /** Every peripheral has its own AHB enable bit. */
  lemma AhbBitsDistinct(p: Peripheral, q: Peripheral)
    requires p != q
    ensures AhbBit(p) != AhbBit(q)
  {
  }

  /** Enabling one peripheral's clock never changes another peripheral's enable bit. */
  lemma EnableKeepsOtherPeripherals(reg: bv32, p: Peripheral, q: Peripheral)
    requires p != q
    ensures SetBits(reg, Bit(AhbBit(p))) & Bit(AhbBit(q)) == reg & Bit(AhbBit(q))
    ensures ClearBits(reg, Bit(AhbBit(p))) & Bit(AhbBit(q)) == reg & Bit(AhbBit(q))
  {
    AhbBitsDistinct(p, q);
    BitsDisjoint(AhbBit(p), AhbBit(q));
  }

  /** Distinct single-bit masks share no bit. */
  lemma BitsDisjoint(m: bv32, n: bv32)
    requires m < 32 && n < 32 && m != n
    ensures Bit(m) & Bit(n) == 0
  {
  }

  /** Every reset line has its own PRST bit. */
  lemma ResetBitsDistinct(l: ResetLine, k: ResetLine)
    requires l.Valid() && k.Valid() && l != k
    ensures ResetBit(l) != ResetBit(k)
  {
  }

  /** The USB and LCD reset bits are not their clock-enable bits; every other peripheral's are. */
  lemma ResetBitsVersusEnableBits(p: Peripheral)
    requires p != GPIO
    ensures ResetBit(PeripheralReset(p)) == AhbBit(p) <==> p !in {USB, LCD}
    ensures ResetBit(PeripheralReset(USB)) == 25 && AhbBit(USB) == 1
    ensures ResetBit(PeripheralReset(LCD)) == 15 && AhbBit(LCD) == 2
  {
  }

  /** Two prescaler selects on the same APB register use different nibbles. */
  lemma ShiftsDistinct(s: PreSelect, t: PreSelect)
    requires s != t && Bus(s) == Bus(t)
    ensures Shift(s) != Shift(t)
  {
  }

  /**
   * Selecting one peripheral's prescaler (with a code that fits its nibble) leaves
   * every other prescaler field of the same register as it was.
   */
  lemma SelectKeepsOtherPrescalers(reg: bv32, pre: bv32, s: PreSelect, t: PreSelect)
    requires s != t && Bus(s) == Bus(t) && pre < 16
    ensures Nibble(SelectPreValue(reg, pre, Shift(s)), Shift(t)) == Nibble(reg, Shift(t))
  {
    ShiftsDistinct(s, t);
    NibblesDisjoint(reg, pre, Shift(s), Shift(t));
  }

  /** ORing a code into the nibble at `a` leaves the nibble at another multiple of 4 alone. */
  lemma NibblesDisjoint(reg: bv32, pre: bv32, a: bv32, b: bv32)
    requires a <= 28 && b <= 28 && a % 4 == 0 && b % 4 == 0 && a != b && pre < 16
    ensures Nibble(SelectPreValue(reg, pre, a), b) == Nibble(reg, b)
  {
  }
}
