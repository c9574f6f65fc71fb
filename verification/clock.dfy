/**
 * SD clock arithmetic: the base clock derived from the clock-tree registers,
 * the search for a prescaler/divisor pair that keeps the SD clock at or below
 * a target rate, and the SYS_CTRL field values the pair is written as.
 */
module UsdhcClock {
  import opened Machine

  const DVS_LIMIT: u32 := 0x10
  const SD_CLK_FS_LIMIT: u32 := 0x100

  /** The clock-tree register fields the base clock is computed from. */
  datatype ClockTree = ClockTree(usdhc1Podf: u3, pfd528: u32)

  datatype ClockError = DivisionByZero

  /** PFD_528 & 0x3F: the six-bit fractional divider of the PFD feeding the controller. */
  function PfdFraction(ccm: ClockTree): nat {
    ccm.pfd528 % 64
  }

  /**
   * The controller's base clock in Hz: (528 MHz * 3) / (fraction / 6) / (PODF + 1).
   * A fraction below 6 makes the divisor zero, which the driver does not guard
   * against (a panic); it is reported here as an error.
   */
  function BaseClock(ccm: ClockTree): (r: Result<u32, ClockError>)
    ensures r.Ok? <==> PfdFraction(ccm) >= 6
    ensures r.Ok? ==> 19_800_000 <= r.value <= 1_584_000_000
  {
    var divider := ccm.usdhc1Podf + 1;
    var fq := PfdFraction(ccm);
    if fq / 6 == 0 then Err(DivisionByZero)
    else
      var perPfd := (528_000_000 * 3) / (fq / 6);
      DivBounds(528_000_000 * 3, fq / 6, 10);
      DivBounds(perPfd, divider, 8);
      Ok(perPfd / divider)
  }

  /** Dividing by something in 1..bound gives at least x / bound and at most x. */
  lemma DivBounds(x: nat, d: nat, bound: nat)
    requires 0 < d <= bound
    ensures x / bound <= x / d <= x
  {
    DivMonotone(x, d, bound);
    DivMonotone(x, 1, d);
  }

  /** A larger divisor never gives a larger quotient. */
  lemma DivMonotone(x: nat, a: nat, b: nat)
    requires 0 < a <= b
    ensures x / b <= x / a
  {
    var q, r := x / b, x / a;
    assert q * b <= x;
    assert x < a * (r + 1);
    MulLeq(q, a, b);
    assert a * q <= x;
    MulCancel(a, q, r + 1);
  }

  /** A common factor of a strict inequality between products can be cancelled. */
  lemma MulCancel(k: nat, m: nat, n: nat)
    requires k * m < k * n
    ensures m < n
  {
    if m >= n {
      MulLeq(k, n, m);
      assert false;
    }
  }

  lemma MulLeq(k: nat, a: nat, b: nat)
    requires a <= b
    ensures k * a <= k * b
  {
  }

  /** With a fraction divisible by six the formula is exact: the PFD runs at 528 MHz * 18 / fraction. */
  lemma {:induction false} BaseClockIsPfdFrequency(ccm: ClockTree)
    requires PfdFraction(ccm) >= 6 && PfdFraction(ccm) % 6 == 0
    ensures BaseClock(ccm).value == (528_000_000 * 18 / PfdFraction(ccm)) / (ccm.usdhc1Podf + 1)
  {
    var fq := PfdFraction(ccm);
    var k := fq / 6;
    assert fq == 6 * k;
    CancelCommonFactor(528_000_000 * 3, k, 6);
    assert 528_000_000 * 18 == 6 * (528_000_000 * 3);
  }

  /** (m * x) / (m * d) == x / d */
  lemma CancelCommonFactor(x: nat, d: nat, m: nat)
    requires d > 0 && m > 0
    ensures (m * x) / (m * d) == x / d
  {
    var q, r := x / d, x % d;
    assert x == q * d + r && r < d;
    assert m * x == m * (q * d) + m * r;
    assert m * (q * d) == q * (m * d);
    MulLeq(m, r + 1, d);
    assert m * (r + 1) == m * r + m;
    DivUnique(m * x, m * d, q, m * r);
  }

  /** The quotient is the only q with x == q * d + r and r < d. */
  lemma DivUnique(x: nat, d: nat, q: nat, r: nat)
    requires d > 0 && x == q * d + r && r < d
    ensures x / d == q
  {
    var q', r' := x / d, x % d;
    assert x == q' * d + r' && r' < d;
    assert d * (q' + 1) == d * q' + d && d * (q + 1) == d * q + d;
    assert d * q < d * (q' + 1);
    MulCancel(d, q, q' + 1);
    assert d * q' < d * (q + 1);
    MulCancel(d, q', q + 1);
  }

  /** Only fraction / 6 enters the formula: fractions 24..29 all give the same base clock. */
  lemma BaseClockIgnoresFractionRemainder(a: ClockTree, b: ClockTree)
    requires a.usdhc1Podf == b.usdhc1Podf && PfdFraction(a) / 6 == PfdFraction(b) / 6
    ensures BaseClock(a) == BaseClock(b)
  {
  }

  /** The "396 MHz" setup: fraction 24 with PODF 1 gives a 198 MHz base clock. */
  lemma BaseClock396Setup(ccm: ClockTree)
    requires PfdFraction(ccm) == 24 && ccm.usdhc1Podf == 1
    ensures BaseClock(ccm) == Ok(198_000_000)
  {
  }

  // ---------------------------------------------------------------------------
  // Divider search

  predicate IsPowerOfTwo(n: nat)
    decreases n
  {
    if n <= 1 then n == 1 else n % 2 == 0 && IsPowerOfTwo(n / 2)
  }

  /**
   * The SD clock base / (fs * dvs) is above the target rate. The search's loop
   * tests compute exactly this; with fs <= 256 and dvs <= 16 the product fits a u32.
   */
  predicate TooFast(base: nat, maxSdClk: nat, fs: nat, dvs: nat)
    requires fs > 0 && dvs > 0
  {
    base / (fs * dvs) > maxSdClk
  }

  /**
   * (fs, dvs) is what the search must pick: fs is the first power of two, up to
   * 256, whose slowest setting (dvs = 16) meets the target, and dvs is the
   * first value in 1..16 that meets it with that fs; 256 and 16 are the caps.
   */
  ghost predicate IsDividerChoice(base: nat, maxSdClk: nat, fs: nat, dvs: nat) {
    && IsPowerOfTwo(fs) && fs <= 256 && 1 <= dvs <= 16
    && (fs == 256 || !TooFast(base, maxSdClk, fs, 16))
    && (forall p :: 1 <= p < fs && IsPowerOfTwo(p) ==> TooFast(base, maxSdClk, p, 16))
    && (dvs == 16 || !TooFast(base, maxSdClk, fs, dvs))
    && (forall d :: 1 <= d < dvs ==> TooFast(base, maxSdClk, fs, d))
  }

  /** Two powers of two are at least a factor of two apart. */
  lemma {:induction false} NextPowerOfTwo(a: nat, b: nat)
    requires IsPowerOfTwo(a) && IsPowerOfTwo(b) && a < b
    ensures 2 * a <= b
    decreases b
  {
    if a != 1 {
      NextPowerOfTwo(a / 2, b / 2);
    }
  }

  /** One doubling step of the prescaler search keeps "every smaller power of two is too fast". */
  lemma DoublingKeepsMinimality(base: nat, maxSdClk: nat, fs: nat)
    requires IsPowerOfTwo(fs) && 1 <= fs < 256
    requires forall p :: 1 <= p < fs && IsPowerOfTwo(p) ==> TooFast(base, maxSdClk, p, 16)
    requires TooFast(base, maxSdClk, fs, 16)
    ensures 2 * fs <= 256 && IsPowerOfTwo(2 * fs)
    ensures forall p :: 1 <= p < 2 * fs && IsPowerOfTwo(p) ==> TooFast(base, maxSdClk, p, 16)
  {
    PowerOfTwoBelow256(fs);
    forall p | 1 <= p < 2 * fs && IsPowerOfTwo(p)
      ensures TooFast(base, maxSdClk, p, 16)
    {
      if p > fs {
        NextPowerOfTwo(fs, p);
        assert false;
      }
    }
  }

  lemma PowerOfTwoBelow256(fs: nat)
    requires IsPowerOfTwo(fs) && fs < 256
    ensures 2 * fs <= 256 && IsPowerOfTwo(2 * fs)
  {
    assert IsPowerOfTwo(256);
    NextPowerOfTwo(fs, 256);
    assert (2 * fs) / 2 == fs;
  }

  /** The prescaler and divisor search of the clock setup, over u32 values. */
  method DividerSearch(base: u32, maxSdClk: u32) returns (fs: u32, dvs: u32)
    ensures IsDividerChoice(base, maxSdClk, fs, dvs)
  {
    fs := PrescalerSearch(base, maxSdClk);
    dvs := DivisorSearch(base, maxSdClk, fs);
  }

  /** Doubles the prescaler from 1 while the slowest divisor is still too fast, up to 256. */
  method PrescalerSearch(base: u32, maxSdClk: u32) returns (fs: u32)
    ensures IsPowerOfTwo(fs) && 1 <= fs <= 256
    ensures fs == 256 || !TooFast(base, maxSdClk, fs, 16)
    ensures forall p :: 1 <= p < fs && IsPowerOfTwo(p) ==> TooFast(base, maxSdClk, p, 16)
  {
    fs := 1;
    while TooFast(base, maxSdClk, fs, DVS_LIMIT) && fs < SD_CLK_FS_LIMIT
      invariant IsPowerOfTwo(fs) && 1 <= fs <= 256
      invariant forall p :: 1 <= p < fs && IsPowerOfTwo(p) ==> TooFast(base, maxSdClk, p, 16)
      decreases 256 - fs
    {
      DoublingKeepsMinimality(base, maxSdClk, fs);
      fs := fs * 2;  // sd_clk_fs <<= 1
    }
  }

  /** Counts the divisor up from 1 while the SD clock is too fast, up to 16. */
  method DivisorSearch(base: u32, maxSdClk: u32, fs: u32) returns (dvs: u32)
    requires 1 <= fs <= 256
    ensures 1 <= dvs <= 16
    ensures dvs == 16 || !TooFast(base, maxSdClk, fs, dvs)
    ensures forall d :: 1 <= d < dvs ==> TooFast(base, maxSdClk, fs, d)
  {
    dvs := 1;
    while TooFast(base, maxSdClk, fs, dvs) && dvs < DVS_LIMIT
      invariant 1 <= dvs <= 16
      invariant forall d :: 1 <= d < dvs ==> TooFast(base, maxSdClk, fs, d)
    {
      dvs := dvs + 1;
    }
  }

  /** The divider product stays within 4096, so the kHz computation fits a u32. */
  lemma ChoiceBounds(base: nat, maxSdClk: nat, fs: nat, dvs: nat)
    requires IsDividerChoice(base, maxSdClk, fs, dvs)
    ensures 1 <= fs * dvs <= 4096 && 1000 <= 1000 * fs * dvs <= 4_096_000
  {
    MulLeq(fs, dvs, 16);
    MulLeq(16, fs, 256);
    MulLeq(fs, 1, dvs);
    assert 1000 * fs * dvs == 1000 * (fs * dvs);
  }

  /** At most one pair meets the choice rules: the search result is determined by its inputs. */
  lemma {:induction false} ChoiceIsUnique(base: nat, maxSdClk: nat, fs1: nat, dvs1: nat, fs2: nat, dvs2: nat)
    requires IsDividerChoice(base, maxSdClk, fs1, dvs1)
    requires IsDividerChoice(base, maxSdClk, fs2, dvs2)
    ensures fs1 == fs2 && dvs1 == dvs2
  {
  }

  /**
   * The chosen SD clock meets the target exactly when the target is reachable
   * at all, i.e. when the slowest setting base / (256 * 16) meets it.
   */
  lemma {:induction false} ChoiceMeetsTargetIffReachable(base: nat, maxSdClk: nat, fs: nat, dvs: nat)
    requires IsDividerChoice(base, maxSdClk, fs, dvs)
    ensures !TooFast(base, maxSdClk, fs, dvs) <==> !TooFast(base, maxSdClk, 256, 16)
  {
    ChoiceBounds(base, maxSdClk, fs, dvs);
    DivMonotone(base, fs * dvs, 256 * 16);
    if !TooFast(base, maxSdClk, 256, 16) && dvs == 16 && fs < 256 {
      assert !TooFast(base, maxSdClk, fs, 16);
    }
  }

  // ---------------------------------------------------------------------------
  // SYS_CTRL encoding

  /** SDCLKFS field value: sd_clk_fs >> 1. */
  function SdClkFsField(fs: nat): nat {
    fs / 2
  }

  /** DVS field value: dvs - 1. */
  function DvsField(dvs: nat): nat
    requires dvs >= 1
  {
    dvs - 1
  }

  /** The prescaler an SDCLKFS field value selects (0 selects no prescaling). */
  function PrescalerOf(field: nat): nat {
    if field == 0 then 1 else 2 * field
  }

  /** The divisor a DVS field value selects. */
  function DivisorOf(field: nat): nat {
    field + 1
  }

  /**
   * The written fields fit SDCLKFS (0 or a power of two up to 128) and DVS
   * (0..15), and decoding them gives back the chosen prescaler and divisor.
   */
  lemma {:induction false} FieldsRoundTrip(fs: nat, dvs: nat)
    requires IsPowerOfTwo(fs) && fs <= 256 && 1 <= dvs <= 16
    ensures SdClkFsField(fs) <= 128 && DvsField(dvs) <= 15
    ensures SdClkFsField(fs) == 0 || IsPowerOfTwo(SdClkFsField(fs))
    ensures PrescalerOf(SdClkFsField(fs)) == fs && DivisorOf(DvsField(dvs)) == dvs
  {
  }

  /**
   * With a 198 MHz base clock and the 400 kHz identification ceiling the search
   * picks fs = 32, dvs = 16: SDCLKFS = 16, DVS = 15, and 386 kHz.
   */
  lemma InitClockAt198MHz()
    ensures IsDividerChoice(198_000_000, 400_000, 32, 16)
    ensures SdClkFsField(32) == 16 && DvsField(16) == 15
    ensures 198_000_000 / (1000 * 32 * 16) == 386
  {
    var base, target := 198_000_000, 400_000;
    assert IsPowerOfTwo(32);
    forall p | 1 <= p < 32 && IsPowerOfTwo(p)
      ensures TooFast(base, target, p, 16)
    {
      NextPowerOfTwo(p, 32);
      DivMonotone(base, p * 16, 256);
    }
    forall d | 1 <= d < 16
      ensures TooFast(base, target, 32, d)
    {
      DivMonotone(base, 32 * d, 480);
    }
  }
}
