/**
 * The PWM low-level driver of the SN32F24xB (`hal_pwm_lld.c`): driver PWMD1 on the
 * 16-bit timer CT16B1 with 24 match channels.
 *
 * The timer is a class whose fields are its registers; the driver is a class that
 * points at it. The mask constants come from register headers that are not part
 * of this model, so they are a parameter (`Masks`) constrained only by what the
 * driver relies on. Channel callbacks are recorded as a ghost trace of channel
 * indices.
 */
module PwmLld {
  import opened Uint32
  import Sys1

  /** The number of channels the start and interrupt code handle (`channels[0]` .. `channels[23]`). */
  const CHANNELS: nat := 24

  /**
   * The contents of a 32-bit CT16B1 register that the driver treats as a bit mask,
   * given by the positions of its 1 bits.
   */
  type Bits = set<nat>

  /** The register value 1: only bit 0 set. */
  const ONE: Bits := {0}

  /** The lifecycle states of the generic PWM framework that the driver tests. */
  datatype PwmState = PwmUninit | PwmStop | PwmReady

  /** One entry of the configuration's channel table: its output mode and whether a callback is set. */
  datatype ChannelConfig = ChannelConfig(mode: bv32, hasCallback: bool)

  /** The part of `PWMConfig` the driver reads. */
  datatype PwmConfig = PwmConfig(frequency: U32, channels: seq<ChannelConfig>)

  /** Channels 0..15 have their polarity bits in PWMCTRL's word, 16..23 in PWMCTRL2's. */
  function Word(c: nat): nat
  {
    if c < 16 then 0 else 1
  }

  /**
   * The header constants. `PWM_OUTPUT_MASK` and `PWM_OUTPUT_ACTIVE_LOW/HIGH` are
   * values of a channel's mode; `CT16_PWMnMODE_1/2`, `mskCT16_MRnIF`,
   * `mskCT16_PWMnIOEN_DIS` and `mskCT16_CEN_EN` are single bits, given by position;
   * `CT16_CEN_DIS` is a register value.
   */
  datatype Masks = Masks(outputMask: bv32, activeLow: bv32, activeHigh: bv32,
                         mode1: seq<nat>, mode2: seq<nat>, matchFlag: seq<nat>,
                         ioenDisable: seq<nat>, cenEnable: nat, cenDisable: Bits)
  {
    /** Both polarity bits of channel `c`. */
    function ModeBits(c: nat): Bits
      requires Sized() && c < CHANNELS
    {
      {mode1[c], mode2[c]}
    }

    /** One bit position per channel in every per-channel table. */
    predicate Sized()
    {
      |mode1| == CHANNELS && |mode2| == CHANNELS && |matchFlag| == CHANNELS && |ioenDisable| == CHANNELS
    }

    /** Distinct channels sharing a control word use disjoint mode bits. */
    predicate Apart(i: nat, j: nat)
      requires Sized()
    {
      i < CHANNELS && j < CHANNELS && i != j && Word(i) == Word(j) ==> ModeBits(i) !! ModeBits(j)
    }

    /**
     * What the driver relies on: the two switch labels differ (C rejects duplicate
     * case labels), every bit lies in a 32-bit register, each channel's two mode bits
     * differ, and channels sharing a control word use disjoint mode bits.
     */
    predicate Valid()
    {
      Sized() && activeLow != activeHigh && cenEnable < 32
      && (forall c | 0 <= c < CHANNELS ::
            mode1[c] < 32 && mode2[c] < 32 && matchFlag[c] < 32 && ioenDisable[c] < 32 && mode1[c] != mode2[c])
      && (forall i, j | 0 <= i < CHANNELS && 0 <= j < CHANNELS :: Apart(i, j))
    }
  }

  /** The cases of a channel's `switch (mode & PWM_OUTPUT_MASK)`. */
  datatype Output = ActiveLow | ActiveHigh | OtherMode

  /** Which case label a channel mode selects. */
  function Classify(k: Masks, mode: bv32): Output
  {
    var m := mode & k.outputMask;
    if m == k.activeLow then ActiveLow else if m == k.activeHigh then ActiveHigh else OtherMode
  }

  /**
   * One channel's switch applied to the word being built: ACTIVE_LOW ORs in MODE_1
   * and falls through to ACTIVE_HIGH, which ORs in MODE_2; any other mode leaves
   * the word as it is.
   */
  function Switch(k: Masks, acc: Bits, mode: bv32, c: nat): Bits
    requires k.Sized() && c < CHANNELS
  {
    acc + ChannelBits(k, mode, c)
  }

  /** The mode bits a channel's own switch sets: both, the second, or none. */
  function ChannelBits(k: Masks, mode: bv32, c: nat): Bits
    requires k.Sized() && c < CHANNELS
  {
    match Classify(k, mode)
    case ActiveLow => {k.mode1[c], k.mode2[c]}
    case ActiveHigh => {k.mode2[c]}
    case OtherMode => {}
  }

  /**
   * Word `w` encodes channel `c`'s mode: MODE_1 is set exactly for ACTIVE_LOW, MODE_2
   * exactly for ACTIVE_LOW and ACTIVE_HIGH.
   */
  predicate ChannelEncoded(k: Masks, mode: bv32, c: nat, w: Bits)
    requires k.Sized() && c < CHANNELS
  {
    (k.mode1[c] in w <==> Classify(k, mode) == ActiveLow)
    && (k.mode2[c] in w <==> Classify(k, mode) in {ActiveLow, ActiveHigh})
  }

  /**
   * The switches of channels `lo .. |prefix|-1` applied in order to 0: the polarity
   * word of a range of channels. `prefix` is the channel table up to the end of
   * the range, so channel `c` is `prefix[c]`.
   */
  function FoldModes(k: Masks, prefix: seq<ChannelConfig>, lo: nat): Bits
    requires k.Sized() && lo <= |prefix| <= CHANNELS
    decreases |prefix|
  {
    if |prefix| == lo then {}
    else
      var c := |prefix| - 1;
      Switch(k, FoldModes(k, prefix[..c], lo), prefix[c].mode, c)
  }

  /** All mode bits of channels `lo .. hi-1`. */
  function RangeModeBits(k: Masks, lo: nat, hi: nat): Bits
    requires k.Sized() && lo <= hi <= CHANNELS
    decreases hi - lo
  {
    if hi == lo then {} else RangeModeBits(k, lo, hi - 1) + k.ModeBits(hi - 1)
  }

  /** A polarity word only ever holds mode bits of the channels folded into it. */
  lemma {:induction false} FoldModesWithin(k: Masks, prefix: seq<ChannelConfig>, lo: nat)
    requires k.Sized() && lo <= |prefix| <= CHANNELS
    ensures FoldModes(k, prefix, lo) <= RangeModeBits(k, lo, |prefix|)
    decreases |prefix|
  {
    if |prefix| != lo {
      FoldModesWithin(k, prefix[..|prefix| - 1], lo);
    }
  }

  /** A range of channels that share one control word, and a channel of that word. */
  predicate OneWord(lo: nat, hi: nat, c: nat)
  {
    (hi <= 16 && c < 16) || (16 <= lo && 16 <= c < CHANNELS)
  }

  /** A channel outside the folded range (but of the same word) finds none of its bits set. */
  lemma {:induction false} FoldModesAway(k: Masks, prefix: seq<ChannelConfig>, lo: nat, c: nat)
    requires k.Valid() && lo <= |prefix| <= CHANNELS && OneWord(lo, |prefix|, c) && (c < lo || |prefix| <= c)
    ensures FoldModes(k, prefix, lo) !! k.ModeBits(c)
    decreases |prefix|
  {
    if |prefix| != lo {
      FoldModesAway(k, prefix[..|prefix| - 1], lo, c);
      assert k.Apart(|prefix| - 1, c);
    }
  }

  /**
   * Each channel's switch touches only that channel's two bits: within its word, the
   * folded value restricted to channel `c`'s bits is exactly what its own switch set.
   */
  lemma {:induction false} FoldModesChannel(k: Masks, prefix: seq<ChannelConfig>, lo: nat, c: nat)
    requires k.Valid() && lo <= c < |prefix| <= CHANNELS && OneWord(lo, |prefix|, c)
    ensures FoldModes(k, prefix, lo) * k.ModeBits(c) == ChannelBits(k, prefix[c].mode, c)
    decreases |prefix|
  {
    var last := |prefix| - 1;
    if c == last {
      FoldModesAway(k, prefix[..last], lo, c);
    } else {
      FoldModesChannel(k, prefix[..last], lo, c);
      assert k.Apart(last, c);
    }
  }

  /** The word of channels 0..15 built by `pwm_lld_start`. */
  function LowWord(k: Masks, channels: seq<ChannelConfig>): Bits
    requires k.Sized() && CHANNELS <= |channels|
  {
    FoldModes(k, channels[..16], 0)
  }

  /** The word of channels 16..23 built by `pwm_lld_start`. */
  function HighWord(k: Masks, channels: seq<ChannelConfig>): Bits
    requires k.Sized() && CHANNELS <= |channels|
  {
    FoldModes(k, channels[..CHANNELS], 16)
  }

  /**
   * The polarity encoding channel by channel, in the word of the channel's range:
   * MODE_1 is set exactly for ACTIVE_LOW, MODE_2 exactly for ACTIVE_LOW and
   * ACTIVE_HIGH.
   */
  lemma PolarityEncoding(k: Masks, channels: seq<ChannelConfig>, c: nat)
    requires k.Valid() && c < CHANNELS && CHANNELS <= |channels|
    ensures ChannelEncoded(k, channels[c].mode, c, if c < 16 then LowWord(k, channels) else HighWord(k, channels))
  {
    var w;
    if c < 16 {
      FoldModesChannel(k, channels[..16], 0, c);
      w := LowWord(k, channels);
    } else {
      FoldModesChannel(k, channels[..CHANNELS], 16, c);
      w := HighWord(k, channels);
    }
    assert k.mode1[c] != k.mode2[c];
    assert k.mode1[c] in w <==> k.mode1[c] in w * k.ModeBits(c);
    assert k.mode2[c] in w <==> k.mode2[c] in w * k.ModeBits(c);
  }

  /** Both polarity words encode every channel's mode as `PolarityEncoding` states it. */
  predicate Encodes(k: Masks, channels: seq<ChannelConfig>, low: Bits, high: Bits)
    requires k.Sized() && CHANNELS <= |channels|
  {
    forall c | 0 <= c < CHANNELS :: ChannelEncoded(k, channels[c].mode, c, if c < 16 then low else high)
  }

  /** The two words the switch statements build encode all 24 channels. */
  lemma WordsEncode(k: Masks, channels: seq<ChannelConfig>)
    requires k.Valid() && CHANNELS <= |channels|
    ensures Encodes(k, channels, LowWord(k, channels), HighWord(k, channels))
  {
    forall c | 0 <= c < CHANNELS {
      PolarityEncoding(k, channels, c);
    }
  }

  /** Channels that are neither ACTIVE_LOW nor ACTIVE_HIGH add no bit to a word. */
  lemma {:induction false} FoldModesIdle(k: Masks, prefix: seq<ChannelConfig>, lo: nat)
    requires k.Sized() && lo <= |prefix| <= CHANNELS
    requires forall c | lo <= c < |prefix| :: Classify(k, prefix[c].mode) == OtherMode
    ensures FoldModes(k, prefix, lo) == {}
    decreases |prefix|
  {
    if |prefix| != lo {
      FoldModesIdle(k, prefix[..|prefix| - 1], lo);
    }
  }

  /**
   * As the driver is written, PWMCTRL ends holding the word of channels 16..23, so a
   * configuration with channel 0 ACTIVE_LOW and no output among channels 16..23
   * leaves channel 0's MODE_1 bit out of PWMCTRL, although its own word has it:
   * whatever PWMCTRL2 holds, the two registers do not encode the configuration.
   */
  lemma PolarityLostAsWritten(k: Masks, channels: seq<ChannelConfig>)
    requires k.Valid() && CHANNELS <= |channels|
    requires Classify(k, channels[0].mode) == ActiveLow
    requires forall c | 16 <= c < CHANNELS :: Classify(k, channels[c].mode) == OtherMode
    ensures k.mode1[0] in LowWord(k, channels)
    ensures HighWord(k, channels) == {}
    ensures forall high :: !Encodes(k, channels, HighWord(k, channels), high)
  {
    PolarityEncoding(k, channels, 0);
    FoldModesIdle(k, channels[..CHANNELS], 16);
  }

  /**
   * The switch statements of channels `lo .. hi-1` (unrolled in the driver) as a
   * loop accumulating into one word.
   */
  method FoldWord(k: Masks, channels: seq<ChannelConfig>, lo: nat, hi: nat) returns (w: Bits)
    requires k.Sized() && lo <= hi <= CHANNELS && hi <= |channels|
    ensures w == FoldModes(k, channels[..hi], lo)
  {
    w := {};
    var c := lo;
    while c < hi
      invariant lo <= c <= hi
      invariant w == FoldModes(k, channels[..c], lo)
    {
      assert channels[..c + 1][..c] == channels[..c];
      var m := Classify(k, channels[c].mode);
      if m == ActiveLow {
        w := w + {k.mode1[c]};
      }
      if m == ActiveLow || m == ActiveHigh {
        w := w + {k.mode2[c]};
      }
      c := c + 1;
    }
  }

  /** The 24 switch statements of `pwm_lld_start`: channels 0..15 build `pwmctrl`, 16..23 `pwmctrl2`. */
  method PolarityWords(k: Masks, channels: seq<ChannelConfig>) returns (pwmctrl: Bits, pwmctrl2: Bits)
    requires k.Sized() && CHANNELS <= |channels|
    ensures pwmctrl == LowWord(k, channels)
    ensures pwmctrl2 == HighWord(k, channels)
  {
    pwmctrl := FoldWord(k, channels, 0, 16);
    pwmctrl2 := FoldWord(k, channels, 16, CHANNELS);
  }

  /** `psc = (clock / frequency) - 1` in `uint32_t`: below 1 the quotient wraps to 0xFFFFFFFF. */
  function Prescaler(clock: U32, frequency: U32): (psc: U32)
    requires frequency > 0
    ensures frequency <= clock ==> psc == clock / frequency - 1
    ensures clock < frequency ==> psc == 0xFFFF_FFFF
  {
    DivShrinks(clock, frequency);
    if frequency <= clock then DivAtLeastOne(clock, frequency); Wrap(clock / frequency - 1)
    else DivZero(clock, frequency); Wrap(clock / frequency - 1)
  }

  /** The debug assertion on the prescaler: it fits 16 bits and `(psc + 1) * frequency` gives the clock back. */
  predicate PrescalerCheck(clock: U32, frequency: U32, psc: U32)
  {
    psc <= 0xFFFF && Wrap(Wrap(psc + 1) * frequency) == clock
  }

  /**
   * The assertion holds exactly when the frequency divides the clock with a quotient
   * in 1..0x10000, and then the prescaler is quotient - 1.
   */
  lemma {:induction false} PrescalerCheckExact(clock: U32, frequency: U32)
    requires frequency > 0
    ensures PrescalerCheck(clock, frequency, Prescaler(clock, frequency))
        <==> clock % frequency == 0 && 1 <= clock / frequency <= 0x1_0000
    ensures PrescalerCheck(clock, frequency, Prescaler(clock, frequency))
        ==> Prescaler(clock, frequency) == clock / frequency - 1
  {
    var q := clock / frequency;
    var r := clock % frequency;
    assert clock == q * frequency + r;
    if frequency <= clock && q <= 0x1_0000 {
      assert Prescaler(clock, frequency) + 1 == q;
      assert q * frequency <= clock;
      assert Wrap(q * frequency) == q * frequency;
    }
  }

  /** The callbacks the interrupt handler runs for channels `lo .. hi-1`, in the order it runs them. */
  function Dispatched(k: Masks, ris: Bits, channels: seq<ChannelConfig>, lo: nat, hi: nat): seq<nat>
    requires k.Sized() && lo <= hi <= CHANNELS && hi <= |channels|
    decreases hi - lo
  {
    if hi == lo then []
    else Dispatched(k, ris, channels, lo, hi - 1)
         + (if k.matchFlag[hi - 1] in ris && channels[hi - 1].hasCallback then [hi - 1] else [])
  }

  /** Channel `i`'s callback runs exactly when its match flag is raised and it has a callback. */
  lemma {:induction false} DispatchedMembers(k: Masks, ris: Bits, channels: seq<ChannelConfig>, lo: nat, hi: nat, i: nat)
    requires k.Sized() && lo <= hi <= CHANNELS && hi <= |channels|
    ensures i in Dispatched(k, ris, channels, lo, hi)
        <==> lo <= i < hi && k.matchFlag[i] in ris && channels[i].hasCallback
    decreases hi - lo
  {
    if hi != lo {
      DispatchedMembers(k, ris, channels, lo, hi - 1, i);
    }
  }

  /** Strictly increasing. */
  predicate Ascending(s: seq<nat>)
  {
    forall a, b :: 0 <= a < b < |s| ==> s[a] < s[b]
  }

  /** The callbacks run in strictly ascending channel order, so none runs twice. */
  lemma {:induction false} DispatchedAscending(k: Masks, ris: Bits, channels: seq<ChannelConfig>, lo: nat, hi: nat)
    requires k.Sized() && lo <= hi <= CHANNELS && hi <= |channels|
    ensures Ascending(Dispatched(k, ris, channels, lo, hi))
    decreases hi - lo
  {
    if hi != lo {
      DispatchedAscending(k, ris, channels, lo, hi - 1);
      var d := Dispatched(k, ris, channels, lo, hi - 1);
      var e := Dispatched(k, ris, channels, lo, hi);
      forall a | 0 <= a < |d|
        ensures d[a] < hi - 1
      {
        DispatchedMembers(k, ris, channels, lo, hi - 1, d[a]);
      }
      assert e == d + (if k.matchFlag[hi - 1] in ris && channels[hi - 1].hasCallback then [hi - 1] else []);
      assert Ascending(d);
      forall a, b | 0 <= a < b < |e|
        ensures e[a] < e[b]
      {
        assert e[a] == d[a] && d[a] < hi - 1;
        if b < |d| {
          assert e[b] == d[b] && d[a] < d[b];
        } else {
          assert e[b] == hi - 1;
        }
      }
    }
  }

  /** The registers of CT16B1 the driver writes, as recorded in the write log. */
  datatype Reg = PRE | CT | TC | TMRCTRL | PWMCTRL | PWMCTRL2 | PWMENB | PWMIOENB | IC | MR(n: nat)

  /**
   * The CT16B1 register block. PRE, CT, TC and the match registers hold counts; the
   * other registers are bit masks. `writes` logs the order in which the driver
   * writes them.
   */
  class Ct16b1 {
    var pre: U32
    var ct: U32
    var tc: U32
    var tmrctrl: Bits
    var pwmctrl: Bits
    var pwmctrl2: Bits
    var pwmenb: Bits
    var pwmioenb: Bits
    var ic: Bits
    var ris: Bits
    var mr: seq<U32>
    ghost var writes: seq<Reg>

    constructor ()
      ensures |mr| == CHANNELS && writes == []
    {
      mr := seq(CHANNELS, _ => 0);
      writes := [];
    }
  }

  /** The registers `pwm_lld_start` writes, in order; a failed prescaler check halts after the first part. */
  function StartWrites(state: PwmState, ok: bool): seq<Reg>
  {
    (if state == PwmStop then [PWMCTRL, PWMCTRL2, PWMENB, PWMIOENB] else [TMRCTRL, TC])
    + (if ok then [PRE, CT, PWMCTRL, PWMCTRL, IC, TMRCTRL] else [])
  }

  /** The driver object PWMD1: its timer, the latched input clock and the channel count. */
  class PwmDriver {
    var clock: U32
    const channels: nat
    const masks: Masks
    const ct: Ct16b1
    const sys1: Sys1.Registers
    ghost var trace: seq<nat>

    predicate Valid()
      reads ct`mr
    {
      masks.Valid() && channels <= CHANNELS && |ct.mr| == CHANNELS
    }

    /** `pwm_lld_init`: binds PWMD1 to CT16B1 and sets its channel count. */
    constructor Init(channels: nat, masks: Masks, ct: Ct16b1, sys1: Sys1.Registers)
      requires masks.Valid() && channels <= CHANNELS && |ct.mr| == CHANNELS
      ensures Valid()
      ensures this.channels == channels && this.masks == masks && this.ct == ct && this.sys1 == sys1
      ensures trace == []
    {
      this.channels := channels;
      this.masks := masks;
      this.ct := ct;
      this.sys1 := sys1;
      trace := [];
    }

    /**
     * `CT16B1_Reset()`. Its definition is not part of this model: every count and
     * control register it may reset ends with a value the model does not know.
     */
    method ResetTimer()
      modifies ct`pre, ct`ct, ct`tc, ct`tmrctrl, ct`mr
      ensures |ct.mr| == CHANNELS
    {
      ct.pre, ct.ct, ct.tc, ct.tmrctrl := *, *, *, *;
      var zeros: seq<U32> := seq(CHANNELS, _ => 0);
      assert |zeros| == CHANNELS;
      var mr: seq<U32> :| |mr| == CHANNELS;
      ct.mr := mr;
    }

    /**
     * The first part of `pwm_lld_start` from STOP: `CT16B1_Init()` gates the CT16B1
     * clock on, `CT16B1_Reset()` resets the timer, then the system clock is latched
     * and PWMCTRL, PWMCTRL2, PWMENB and PWMIOENB are put at 1.
     */
    method Activate(systemCoreClock: U32)
      modifies this`clock, ct`pre, ct`ct, ct`tc, ct`tmrctrl, ct`mr, ct`pwmctrl, ct`pwmctrl2, ct`pwmenb,
        ct`pwmioenb, ct`writes, sys1`ahbclken
      ensures sys1.ahbclken == Sys1.SetBits(old(sys1.ahbclken), Sys1.Bit(Sys1.AhbBit(Sys1.CT16B1)))
      ensures |ct.mr| == CHANNELS
      ensures clock == systemCoreClock
      ensures ct.pwmctrl == ONE && ct.pwmctrl2 == ONE && ct.pwmenb == ONE && ct.pwmioenb == ONE
      ensures ct.writes == old(ct.writes) + [PWMCTRL, PWMCTRL2, PWMENB, PWMIOENB]
    {
      sys1.EnablePeripheral(Sys1.CT16B1);
      ResetTimer();
      clock := systemCoreClock;
      ct.pwmctrl := ONE;
      ct.pwmctrl2 := ONE;
      ct.pwmenb := ONE;
      ct.pwmioenb := ONE;
      ct.writes := ct.writes + [PWMCTRL, PWMCTRL2, PWMENB, PWMIOENB];
    }

    /** The first part of `pwm_lld_start` on re-configuration: stop the timer and zero the counter. */
    method Halt()
      modifies ct`tmrctrl, ct`tc, ct`writes
      ensures ct.tmrctrl == masks.cenDisable && ct.tc == 0
      ensures ct.writes == old(ct.writes) + [TMRCTRL, TC]
    {
      ct.tmrctrl := masks.cenDisable;
      ct.tc := 0;
      ct.writes := ct.writes + [TMRCTRL, TC];
    }

    /**
     * The rest of `pwm_lld_start`: the prescaler with its debug assertion (a failure
     * halts with `ok` false and nothing written), the period, the polarity words
     * (the second write lands on PWMCTRL, as the driver is written, so PWMCTRL ends
     * with channels 16..23's word), the interrupt clear, and count enable last.
     */
    method Program(config: PwmConfig, period: U32) returns (ok: bool)
      requires masks.Sized() && CHANNELS <= |config.channels| && config.frequency > 0
      modifies ct`pre, ct`ct, ct`pwmctrl, ct`ic, ct`tmrctrl, ct`writes
      ensures ok <==> PrescalerCheck(clock, config.frequency, Prescaler(clock, config.frequency))
      ensures !ok ==> unchanged(ct)
      ensures ok ==>
        ct.pre == Prescaler(clock, config.frequency) && ct.ct == Wrap(period - 1)
        && ct.pwmctrl == HighWord(masks, config.channels) && ct.ic == ONE
        && ct.tmrctrl == old(ct.tmrctrl) + {masks.cenEnable}
        && ct.writes == old(ct.writes) + [PRE, CT, PWMCTRL, PWMCTRL, IC, TMRCTRL]
    {
      var psc := Prescaler(clock, config.frequency);
      ok := PrescalerCheck(clock, config.frequency, psc);
      if !ok {
        return;
      }
      ct.pre := psc;
      ct.ct := Wrap(period - 1);

      var pwmctrl, pwmctrl2 := PolarityWords(masks, config.channels);
      ct.pwmctrl := pwmctrl;
      ct.pwmctrl := pwmctrl2;
      ct.ic := ONE;
      ct.tmrctrl := ct.tmrctrl + {masks.cenEnable};
      ct.writes := ct.writes + [PRE, CT, PWMCTRL, PWMCTRL, IC, TMRCTRL];
    }

    /**
     * `Program` with line 389 writing PWMCTRL2, as evidently intended: each word goes
     * to its own register and every channel's polarity is encoded.
     */
    method ProgramIntended(config: PwmConfig, period: U32) returns (ok: bool)
      requires Valid() && CHANNELS <= |config.channels| && config.frequency > 0
      modifies ct`pre, ct`ct, ct`pwmctrl, ct`pwmctrl2, ct`ic, ct`tmrctrl, ct`writes
      ensures ok <==> PrescalerCheck(clock, config.frequency, Prescaler(clock, config.frequency))
      ensures !ok ==> unchanged(ct)
      ensures ok ==>
        ct.pre == Prescaler(clock, config.frequency) && ct.ct == Wrap(period - 1)
        && ct.pwmctrl == LowWord(masks, config.channels) && ct.pwmctrl2 == HighWord(masks, config.channels)
        && Encodes(masks, config.channels, ct.pwmctrl, ct.pwmctrl2)
        && ct.ic == ONE && ct.tmrctrl == old(ct.tmrctrl) + {masks.cenEnable}
        && ct.writes == old(ct.writes) + [PRE, CT, PWMCTRL, PWMCTRL2, IC, TMRCTRL]
    {
      var psc := Prescaler(clock, config.frequency);
      ok := PrescalerCheck(clock, config.frequency, psc);
      if !ok {
        return;
      }
      ct.pre := psc;
      ct.ct := Wrap(period - 1);

      var pwmctrl, pwmctrl2 := PolarityWords(masks, config.channels);
      WordsEncode(masks, config.channels);
      ct.pwmctrl := pwmctrl;
      ct.pwmctrl2 := pwmctrl2;
      ct.ic := ONE;
      ct.tmrctrl := ct.tmrctrl + {masks.cenEnable};
      ct.writes := ct.writes + [PRE, CT, PWMCTRL, PWMCTRL2, IC, TMRCTRL];
    }

    /**
     * `pwm_lld_start`: from STOP it activates the timer, otherwise it halts it;
     * then it programs it. The state the framework passes is a parameter. From
     * STOP the timer reset leaves PRE, CT, TC, TMRCTRL and the match registers
     * unknown, so only what the driver itself writes afterwards is stated; the
     * write log holds the driver's own writes.
     */
    method Start(state: PwmState, config: PwmConfig, period: U32, systemCoreClock: U32) returns (ok: bool)
      requires Valid() && CHANNELS <= |config.channels| && config.frequency > 0
      modifies this`clock, ct`pre, ct`ct, ct`tc, ct`tmrctrl, ct`mr, ct`pwmctrl, ct`pwmctrl2, ct`pwmenb,
        ct`pwmioenb, ct`ic, ct`writes, sys1`ahbclken
      ensures Valid()
      ensures clock == if state == PwmStop then systemCoreClock else old(clock)
      ensures ok <==> PrescalerCheck(clock, config.frequency, Prescaler(clock, config.frequency))
      ensures ct.writes == old(ct.writes) + StartWrites(state, ok)
      ensures state == PwmStop ==>
        ct.pwmctrl2 == ONE && ct.pwmenb == ONE && ct.pwmioenb == ONE
        && sys1.ahbclken == Sys1.SetBits(old(sys1.ahbclken), Sys1.Bit(Sys1.AhbBit(Sys1.CT16B1)))
        && (ok ==> masks.cenEnable in ct.tmrctrl)
      ensures state != PwmStop ==>
        ct.pwmctrl2 == old(ct.pwmctrl2) && ct.pwmenb == old(ct.pwmenb) && ct.pwmioenb == old(ct.pwmioenb)
        && ct.tc == 0 && ct.mr == old(ct.mr) && sys1.ahbclken == old(sys1.ahbclken)
        && ct.tmrctrl == if ok then masks.cenDisable + {masks.cenEnable} else masks.cenDisable
      ensures ok ==>
        ct.pre == Prescaler(clock, config.frequency) && ct.ct == Wrap(period - 1)
        && ct.pwmctrl == HighWord(masks, config.channels) && ct.ic == ONE
      ensures !ok ==>
        ct.ic == old(ct.ic) && ct.pwmctrl == (if state == PwmStop then ONE else old(ct.pwmctrl))
        && (state != PwmStop ==> ct.pre == old(ct.pre) && ct.ct == old(ct.ct))
    {
      if state == PwmStop {
        Activate(systemCoreClock);
      } else {
        Halt();
      }
      ok := Program(config, period);
    }

    /**
     * `pwm_lld_stop`: only in READY, stops the timer, clears pending interrupts and
     * gates the CT16B1 clock off in AHBCLKEN; in any other state it does nothing.
     */
    method Stop(state: PwmState)
      requires Valid()
      modifies ct`tmrctrl, ct`ic, ct`writes, sys1`ahbclken
      ensures Valid()
      ensures state != PwmReady ==> unchanged(ct) && unchanged(sys1)
      ensures state == PwmReady ==>
        ct.tmrctrl == masks.cenDisable && ct.ic == ONE
        && ct.writes == old(ct.writes) + [TMRCTRL, IC]
        && sys1.ahbclken == Sys1.ClearBits(old(sys1.ahbclken), Sys1.Bit(Sys1.AhbBit(Sys1.CT16B1)))
    {
      if state == PwmReady {
        ct.tmrctrl := masks.cenDisable;
        ct.ic := ONE;
        ct.writes := ct.writes + [TMRCTRL, IC];
        sys1.DisablePeripheral(Sys1.CT16B1);
      }
    }

    /** `pwm_lld_enable_channel`: the new pulse width goes into the channel's match register. */
    method EnableChannel(channel: nat, width: U32)
      requires Valid() && channel < channels
      modifies ct`mr, ct`writes
      ensures Valid()
      ensures ct.mr == old(ct.mr)[channel := width]
      ensures ct.writes == old(ct.writes) + [MR(channel)]
    {
      ct.mr := ct.mr[channel := width];
      ct.writes := ct.writes + [MR(channel)];
    }

    /** `pwm_lld_disable_channel`: zero width, and the channel's output-disable bit ORed into PWMIOENB. */
    method DisableChannel(channel: nat)
      requires Valid() && channel < channels
      modifies ct`mr, ct`pwmioenb, ct`writes
      ensures Valid()
      ensures ct.mr == old(ct.mr)[channel := 0]
      ensures ct.pwmioenb == old(ct.pwmioenb) + {masks.ioenDisable[channel]}
      ensures ct.writes == old(ct.writes) + [MR(channel), PWMIOENB]
    {
      ct.mr := ct.mr[channel := 0];
      ct.pwmioenb := ct.pwmioenb + {masks.ioenDisable[channel]};
      ct.writes := ct.writes + [MR(channel), PWMIOENB];
    }

    /** `pwm_lld_enable_periodic_notification`: not supported, changes nothing. */
    method EnablePeriodicNotification()
      ensures unchanged(this, ct)
    {
    }

    /** `pwm_lld_disable_periodic_notification`: not supported, changes nothing. */
    method DisablePeriodicNotification()
      ensures unchanged(this, ct)
    {
    }

    /** `pwm_lld_enable_channel_notification`: not supported, changes nothing. */
    method EnableChannelNotification(channel: nat)
      ensures unchanged(this, ct)
    {
    }

    /** `pwm_lld_disable_channel_notification`: not supported, changes nothing. */
    method DisableChannelNotification(channel: nat)
      ensures unchanged(this, ct)
    {
    }

    /**
     * `pwm_lld_serve_interrupt`: one read of RIS, then, channel by channel in
     * ascending order, the callback of every channel whose match flag is raised and
     * whose callback is set. No register is written.
     */
    method ServeInterrupt(config: PwmConfig)
      requires Valid() && CHANNELS <= |config.channels|
      modifies this`trace
      ensures trace == old(trace) + Dispatched(masks, ct.ris, config.channels, 0, CHANNELS)
    {
      var ris := ct.ris;
      var c := 0;
      while c < CHANNELS
        invariant 0 <= c <= CHANNELS
        invariant trace == old(trace) + Dispatched(masks, ris, config.channels, 0, c)
      {
        if masks.matchFlag[c] in ris && config.channels[c].hasCallback {
          trace := trace + [c];
        }
        c := c + 1;
      }
    }
  }
}
