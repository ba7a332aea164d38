/**
 * Core-clock derivation of the SN32F240 (CMSIS `system_SN32F240.c`): the
 * compile-time clock configuration, the SYS0 PLL control word it packs, and
 * `SystemCoreClockUpdate`, which recomputes the global `SystemCoreClock` from the
 * active clock source (SYSCLKST) and the AHB prescaler register (AHBCP).
 */
module SystemClock {
  import opened Uint32

  /** Fixed oscillator frequencies in Hz. */
  const IHRC_FREQ: U32 := 12_000_000
  const ILRC_FREQ: U32 := 32_000
  const ELS_XTAL_FREQ: U32 := 32_768

  /** Clock-source codes of the SYSCLKSEL / SYSCLKST fields. */
  const IHRC: nat := 0
  const ILRC: nat := 1
  const EHS_XTAL: nat := 2
  const ELS_XTAL: nat := 3
  const PLL: nat := 4

  /** The five fields packed into the SYS0 PLLCTRL register. */
  datatype PllFields = PllFields(enable: nat, clkin: nat, fsel: nat, psel: nat, msel: nat)
  {
    /** Each field fits a byte, so every shift of the packing macro stays within a C `int`. */
    predicate Fits() {
      enable < 0x100 && clkin < 0x100 && fsel < 0x100 && psel < 0x100 && msel < 0x100
    }

    /** The field widths of the PLL control register. */
    predicate InRange() {
      enable <= 1 && clkin <= 1 && fsel <= 1 && psel <= 7 && msel <= 31
    }
  }

  /**
   * The compile-time clock configuration: `SYS_CLOCK_SETUP`, `EHS_FREQ` (MHz) and the
   * `PLL_*` macros.
   */
  datatype Config = Config(clockSetup: bool, ehsFreq: nat, pll: PllFields)
  {
    /** The configuration compiles to defined C arithmetic (`EHS_FREQ * 1000000` is an `int`). */
    predicate WellFormed() {
      ehsFreq * 1_000_000 < 0x8000_0000 && pll.Fits()
    }

    /** The ranges the configuration wizard offers. */
    predicate Documented() {
      10 <= ehsFreq <= 25 && 3 <= pll.msel <= 31 && 3 <= pll.psel <= 7
      && pll.fsel <= 1 && pll.clkin <= 1 && pll.enable <= 1
    }
  }

  /** The defaults of the configuration section. */
  const DEFAULT_CONFIG: Config := Config(true, 12, PllFields(1, 0, 0, 3, 24))

  /** Bit positions of the PLLCTRL fields. */
  const ENABLE_SHIFT: bv32 := 15
  const CLKIN_SHIFT: bv32 := 12
  const FSEL_SHIFT: bv32 := 8
  const PSEL_SHIFT: bv32 := 5

  /** `SYS0_PLLCTRL_VAL`: the fields ORed together at their positions. */
  function PllCtrlVal(f: PllFields): bv32
    requires f.Fits()
  {
    Pack(Widen(f.enable), Widen(f.clkin), Widen(f.fsel), Widen(f.psel), Widen(f.msel))
  }

  /** The register word of the five fields. */
  function Pack(enable: bv32, clkin: bv32, fsel: bv32, psel: bv32, msel: bv32): bv32
  {
    (enable << ENABLE_SHIFT) | (clkin << CLKIN_SHIFT) | (fsel << FSEL_SHIFT) | (psel << PSEL_SHIFT) | msel
  }

  /** Reads the fields back out of a PLLCTRL word by shift-and-mask. */
  function DecodePllCtrl(v: bv32): PllFields
  {
    PllFields(((v >> ENABLE_SHIFT) & 1) as nat, ((v >> CLKIN_SHIFT) & 1) as nat,
              ((v >> FSEL_SHIFT) & 1) as nat, ((v >> PSEL_SHIFT) & 7) as nat, (v & 0x1F) as nat)
  }

  /**
   * Within the field widths the packing loses nothing: every field is recovered by
   * shift-and-mask, and the word fits the 16-bit register.
   */
  lemma PllCtrlRoundTrip(f: PllFields)
    requires f.Fits() && f.InRange()
    ensures DecodePllCtrl(PllCtrlVal(f)) == f
    ensures PllCtrlVal(f) < 0x1_0000
  {
    SmallToBv(f.enable);
    SmallToBv(f.clkin);
    SmallToBv(f.fsel);
    SmallToBv(f.psel);
    SmallToBv(f.msel);
    PackFields(Widen(f.enable), Widen(f.clkin), Widen(f.fsel), Widen(f.psel), Widen(f.msel));
  }

  /** The bit-level content of the round trip: the shifted fields occupy disjoint bits. */
  lemma PackFields(enable: bv32, clkin: bv32, fsel: bv32, psel: bv32, msel: bv32)
    requires enable as nat <= 1 && clkin as nat <= 1 && fsel as nat <= 1 && psel as nat <= 7 && msel as nat <= 31
    ensures (Pack(enable, clkin, fsel, psel, msel) >> ENABLE_SHIFT) & 1 == enable
    ensures (Pack(enable, clkin, fsel, psel, msel) >> CLKIN_SHIFT) & 1 == clkin
    ensures (Pack(enable, clkin, fsel, psel, msel) >> FSEL_SHIFT) & 1 == fsel
    ensures (Pack(enable, clkin, fsel, psel, msel) >> PSEL_SHIFT) & 7 == psel
    ensures Pack(enable, clkin, fsel, psel, msel) & 0x1F == msel
    ensures Pack(enable, clkin, fsel, psel, msel) < 0x1_0000
  {
  }

  /** In range, distinct field values give distinct PLLCTRL words. */
  lemma PllCtrlInjective(f: PllFields, g: PllFields)
    requires f.Fits() && g.Fits() && f.InRange() && g.InRange() && f != g
    ensures PllCtrlVal(f) != PllCtrlVal(g)
  {
    PllCtrlRoundTrip(f);
    PllCtrlRoundTrip(g);
  }

  /** Out of range the packing is lossy: MSEL = 32 lands on the low bit of the PSEL field. */
  lemma PllCtrlOverlapOutOfRange()
    ensures PllCtrlVal(PllFields(1, 0, 0, 2, 32)) == PllCtrlVal(PllFields(1, 0, 0, 3, 0))
  {
  }

  /** The default configuration packs to 0x8078. */
  lemma DefaultPllCtrl()
    ensures PllCtrlVal(DEFAULT_CONFIG.pll) == 0x8078
  {
  }

  /** F of the PLL formula: 1 for FSEL = 0, else 2. */
  function PllF(fsel: nat): nat
  {
    if fsel == 0 then 1 else 2
  }

  /** The PLL input clock in Hz: IHRC for CLKIN = 0, the external crystal otherwise. */
  function PllInput(c: Config): nat
  {
    if c.pll.clkin == 0 then IHRC_FREQ else c.ehsFreq * 1_000_000
  }

  /**
   * The PLL output as computed in `uint32_t` arithmetic, left to right:
   * `src / F * PLL_MSEL / PLL_PSEL / 2`, the product wrapping modulo 2^32.
   */
  function PllClock(c: Config): U32
    requires c.WellFormed() && c.pll.psel != 0
  {
    Wrap(PllInput(c) / PllF(c.pll.fsel) * c.pll.msel) / c.pll.psel / 2
  }

  /** The value `SystemCoreClock` holds after the source switch (before the AHB division). */
  function SwitchedClock(c: Config, sysclkst: nat, previous: U32): U32
    requires c.WellFormed() && SourceDefined(c, sysclkst)
  {
    if sysclkst == IHRC then IHRC_FREQ
    else if sysclkst == ILRC then ILRC_FREQ
    else if sysclkst == EHS_XTAL then c.ehsFreq * 1_000_000
    else if sysclkst == ELS_XTAL then ELS_XTAL_FREQ
    else if sysclkst == PLL then (if c.clockSetup then PllClock(c) else 50_000_000)
    else previous
  }

  /**
   * The source switch divides by zero neither in the EHS branch without clock setup
   * (it divides by the prescaler before it is set) nor in the PLL branch.
   */
  predicate SourceDefined(c: Config, sysclkst: nat)
  {
    sysclkst < 8
    && (sysclkst == EHS_XTAL ==> c.clockSetup)
    && (sysclkst == PLL && c.clockSetup ==> c.pll.psel != 0)
  }

  /** 2^n. */
  function Pow2(n: nat): (r: nat)
    ensures r >= 1
  {
    if n == 0 then 1 else 2 * Pow2(n - 1)
  }

  /** The AHB divisor selected by the AHBCP register; 0 for a value outside 0..9. */
  function AhbDivisor(ahbcp: U32): (d: nat)
    ensures ahbcp <= 9 ==> d == Pow2(ahbcp)
    ensures ahbcp > 9 ==> d == 0
  {
    match ahbcp
    case 0 => 1
    case 1 => 2
    case 2 => 4
    case 3 => 8
    case 4 => 16
    case 5 => 32
    case 6 => 64
    case 7 => 128
    case 8 => 256
    case 9 => 512
    case _ => 0
  }

  /** What `SystemCoreClockUpdate` leaves in `SystemCoreClock`. */
  function CoreClock(c: Config, sysclkst: nat, ahbcp: U32, previous: U32): U32
    requires c.WellFormed() && SourceDefined(c, sysclkst) && ahbcp <= 9
  {
    SwitchedClock(c, sysclkst, previous) / AhbDivisor(ahbcp)
  }

  /** The global `SystemCoreClock`. */
  class ClockState {
    var systemCoreClock: U32

    constructor (systemCoreClock: U32)
      ensures this.systemCoreClock == systemCoreClock
    {
      this.systemCoreClock := systemCoreClock;
    }

    /**
     * `SystemCoreClockUpdate`; `sysclkst` is the SYSCLKST field of CLKCFG and
     * `ahbcp` the whole AHBCP register, both read from the hardware.
     */
    method SystemCoreClockUpdate(c: Config, sysclkst: nat, ahbcp: U32)
      requires c.WellFormed() && SourceDefined(c, sysclkst) && ahbcp <= 9
      modifies this
      ensures systemCoreClock == CoreClock(c, sysclkst, ahbcp, old(systemCoreClock))
    {
      SwitchSource(c, sysclkst);
      DivideByAhb(ahbcp);
    }

    /** The first half of `SystemCoreClockUpdate`: the frequency of the active clock source. */
    method SwitchSource(c: Config, sysclkst: nat)
      requires c.WellFormed() && SourceDefined(c, sysclkst)
      modifies this
      ensures systemCoreClock == SwitchedClock(c, sysclkst, old(systemCoreClock))
    {
      var f: nat;
      if sysclkst == 0 {
        systemCoreClock := IHRC_FREQ;
      } else if sysclkst == 1 {
        systemCoreClock := ILRC_FREQ;
      } else if sysclkst == 2 {
        if c.clockSetup {
          systemCoreClock := c.ehsFreq * 1_000_000;
        } else {
          // `10000000UL / AHB_prescaler` with the prescaler still 0: excluded by SourceDefined.
          assert false;
        }
      } else if sysclkst == 3 {
        systemCoreClock := ELS_XTAL_FREQ;
      } else if sysclkst == 4 {
        if c.clockSetup {
          if c.pll.fsel == 0 {
            f := 1;
          } else {
            f := 2;
          }
          var product: U32;
          if c.pll.clkin == 0 {
            product := Wrap(IHRC_FREQ / f * c.pll.msel);
          } else {
            product := Wrap(c.ehsFreq * 1_000_000 / f * c.pll.msel);
          }
          assert c.pll.psel != 0 && product / c.pll.psel / 2 == PllClock(c);
          systemCoreClock := product / c.pll.psel / 2;
        } else {
          systemCoreClock := 50_000_000;
        }
      }
    }

    /** The second half of `SystemCoreClockUpdate`: the division by the AHB prescaler. */
    method DivideByAhb(ahbcp: U32)
      requires ahbcp <= 9
      modifies this
      ensures systemCoreClock == old(systemCoreClock) / AhbDivisor(ahbcp)
    {
      var ahbPrescaler: U32 := 0;
      match ahbcp {
        case 0 => ahbPrescaler := 1;
        case 1 => ahbPrescaler := 2;
        case 2 => ahbPrescaler := 4;
        case 3 => ahbPrescaler := 8;
        case 4 => ahbPrescaler := 16;
        case 5 => ahbPrescaler := 32;
        case 6 => ahbPrescaler := 64;
        case 7 => ahbPrescaler := 128;
        case 8 => ahbPrescaler := 256;
        case 9 => ahbPrescaler := 512;
      }
      DivShrinks(systemCoreClock, ahbPrescaler);
      systemCoreClock := systemCoreClock / ahbPrescaler;
    }
  }

  /** The four fixed-frequency sources (EHS only with clock setup), and an unknown SYSCLKST keeping the previous value. */
  lemma SourceFrequencies(c: Config, previous: U32)
    requires c.WellFormed()
    ensures SwitchedClock(c, IHRC, previous) == 12_000_000
    ensures SwitchedClock(c, ILRC, previous) == 32_000
    ensures c.clockSetup ==> SwitchedClock(c, EHS_XTAL, previous) == c.ehsFreq * 1_000_000
    ensures SwitchedClock(c, ELS_XTAL, previous) == 32_768
    ensures forall st :: 5 <= st < 8 ==> SwitchedClock(c, st, previous) == previous
  {
  }

  /** The core clock is the source clock divided by 2^AHBCP: never more, and equal for AHBCP = 0. */
  lemma {:induction false} CoreClockDivides(c: Config, sysclkst: nat, ahbcp: U32, previous: U32)
    requires c.WellFormed() && SourceDefined(c, sysclkst) && ahbcp <= 9
    ensures CoreClock(c, sysclkst, ahbcp, previous) == SwitchedClock(c, sysclkst, previous) / Pow2(ahbcp)
    ensures CoreClock(c, sysclkst, ahbcp, previous) <= SwitchedClock(c, sysclkst, previous)
    ensures ahbcp == 0 ==> CoreClock(c, sysclkst, ahbcp, previous) == SwitchedClock(c, sysclkst, previous)
  {
    var x := SwitchedClock(c, sysclkst, previous);
    var d := AhbDivisor(ahbcp);
    assert d >= 1;
    DivShrinks(x, d);
  }

  /** Within the documented ranges the PLL product `src / F * MSEL` fits in 32 bits. */
  lemma {:induction false} PllProductFits(c: Config)
    requires c.WellFormed() && c.Documented()
    ensures PllInput(c) / PllF(c.pll.fsel) * c.pll.msel < MODULUS
  {
    var src := PllInput(c);
    assert src <= 25_000_000;
    DivShrinks(src, PllF(c.pll.fsel));
    var t := src / PllF(c.pll.fsel);
    MulBound(t, 25_000_000, c.pll.msel, 31);
  }

  /** Products of bounded factors are bounded. */
  lemma MulBound(a: nat, b: nat, m: nat, n: nat)
    requires a <= b && m <= n
    ensures a * m <= b * n
  {
    assert a * m <= b * m;
  }

  /** The output divider P the configuration comment lists for each PSEL code. */
  function DocumentedP(psel: nat): nat
    requires 3 <= psel <= 7
  {
    match psel
    case 3 => 6
    case 4 => 8
    case 5 => 10
    case 6 => 12
    case 7 => 14
  }

  /**
   * Dividing by the raw PSEL code and then by 2 is dividing by the documented P, so in
   * the documented ranges the code computes F_CLKOUT = (F_CLKIN / F * M) / P exactly.
   */
  lemma {:induction false} PllMatchesDatasheet(c: Config)
    requires c.WellFormed() && c.Documented()
    ensures PllClock(c) == PllInput(c) / PllF(c.pll.fsel) * c.pll.msel / DocumentedP(c.pll.psel)
  {
    PllProductFits(c);
    var x := PllInput(c) / PllF(c.pll.fsel) * c.pll.msel;
    assert Wrap(x) == x;
    HalveAfter(x, c.pll.psel);
  }

  /** For the PSEL codes 3..7, dividing by the code and then by 2 is dividing by twice the code. */
  lemma HalveAfter(x: nat, p: nat)
    requires 3 <= p <= 7
    ensures x / p / 2 == x / (2 * p)
  {
    match p
    case 3 =>
    case 4 =>
    case 5 =>
    case 6 =>
    case 7 =>
  }

  /** The default configuration (IHRC into the PLL, M = 24, PSEL = 3) gives 48 MHz at AHBCP = 0. */
  lemma DefaultCoreClock(previous: U32)
    ensures DEFAULT_CONFIG.WellFormed() && SourceDefined(DEFAULT_CONFIG, PLL)
    ensures CoreClock(DEFAULT_CONFIG, PLL, 0, previous) == 48_000_000
  {
  }
}
