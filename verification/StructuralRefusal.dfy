/** The two-point test that calls an evacuation refusal structural, and what it entitles one to
    conclude about the straight line through the two quotes. */
module StructuralRefusal {
  import opened Amounts
  import opened Types

  /** Signed 128-bit arithmetic: a release build wraps, and division truncates toward zero. */
  const I128_LIMIT: int := 0x8000_0000_0000_0000_0000_0000_0000_0000

  function Wrap(x: int): int {
    (x + I128_LIMIT) % (2 * I128_LIMIT) - I128_LIMIT
  }

  function TruncDiv(a: int, b: int): int
    requires 0 < b
  {
    if a >= 0 then a / b else -((-a) / b)
  }

  datatype Assessment = Assessment(noFaster: bool, fixedExceeds: bool, fixedComponent: int) {
    predicate IsStructural() {
      noFaster || fixedExceeds
    }
  }

  function Span(low: QuoteSample, high: QuoteSample): int {
    high.deliveredNet - low.deliveredNet
  }

  function Rise(low: QuoteSample, high: QuoteSample): int {
    high.totalFee - low.totalFee
  }

  function Assess(cap: EvacFeeCap, low: QuoteSample, high: QuoteSample): Option<Assessment> {
    var span, rise := Span(low, high), Rise(low, high);
    if span <= 0 then None
    else
      var capRise, feeRise := cap.bps * span, rise * 10_000;
      var fixed := Wrap(low.totalFee - TruncDiv(Wrap(rise * low.deliveredNet), span));
      Some(Assessment(
        capRise >= feeRise,
        feeRise >= capRise && fixed > cap.base && low.totalFee > cap.At(low.deliveredNet),
        fixed))
  }

  predicate BothOverCap(cap: EvacFeeCap, low: QuoteSample, high: QuoteSample) {
    low.totalFee > cap.At(low.deliveredNet) && high.totalFee > cap.At(high.deliveredNet)
  }

  /** `Span` times the height of the line through the two samples at `net`. */
  function ScaledLine(low: QuoteSample, high: QuoteSample, net: int): int {
    low.totalFee * Span(low, high) + Rise(low, high) * (net - low.deliveredNet)
  }

  /** The line is strictly above the floored cap at `net`. */
  predicate LineAboveCap(cap: EvacFeeCap, low: QuoteSample, high: QuoteSample, net: u64) {
    cap.At(net) * Span(low, high) < ScaledLine(low, high, net)
  }

  // ---------------------------------------------------------------- arithmetic steps

  /** The cap never exceeds its unfloored value, and a fee above it exceeds that too. */
  lemma CapBounds(cap: EvacFeeCap, net: u64, fee: u64)
    ensures 10_000 * cap.At(net) <= 10_000 * cap.base + cap.bps * net
    ensures fee > cap.At(net) ==> 10_000 * fee > 10_000 * cap.base + cap.bps * net
  {
    var product := net * cap.bps;
    assert product == cap.bps * net;
    assert 10_000 * (product / 10_000) <= product < 10_000 * (product / 10_000) + 10_000;
  }

  /** If the scaled line clears the scaled unfloored cap, the line clears the cap. */
  lemma ClearsUnfloored(cap: EvacFeeCap, low: QuoteSample, high: QuoteSample, net: u64)
    requires 0 < Span(low, high)
    requires (10_000 * cap.base + cap.bps * net) * Span(low, high) < 10_000 * ScaledLine(low, high, net)
    ensures LineAboveCap(cap, low, high, net)
  {
    CapBounds(cap, net, 0);
    MulStep(10_000 * cap.At(net), 10_000 * cap.base + cap.bps * net, Span(low, high));
    assert 10_000 * (cap.At(net) * Span(low, high)) == (10_000 * cap.At(net)) * Span(low, high);
  }

  lemma MulStep(a: int, b: int, k: int)
    requires 0 <= k && a <= b
    ensures a * k <= b * k
  {
    assert (b - a) * k >= 0;
  }

  lemma LineFromHigh(low: QuoteSample, high: QuoteSample, net: int)
    ensures ScaledLine(low, high, net) == high.totalFee * Span(low, high) - Rise(low, high) * (high.deliveredNet - net)
  {
    var span, rise := Span(low, high), Rise(low, high);
    assert rise * (net - low.deliveredNet) == rise * span - rise * (high.deliveredNet - net) by {
      assert net - low.deliveredNet == span - (high.deliveredNet - net);
    }
    assert low.totalFee * span + rise * span == high.totalFee * span by {
      assert low.totalFee + rise == high.totalFee;
    }
  }

  // ---------------------------------------------------------------- main results

  lemma NoFasterArithmetic(span: int, rise: int, bps: int, gap: int, highFee: int, base: int, highNet: int, net: int)
    requires 0 < span && 0 <= gap == highNet - net
    requires bps * span >= rise * 10_000
    requires 10_000 * highFee > 10_000 * base + bps * highNet
    ensures (10_000 * base + bps * net) * span < 10_000 * (highFee * span - rise * gap)
  {
    MulStep(rise * 10_000, bps * span, gap);
    MulStep(10_000 * base + bps * highNet + 1, 10_000 * highFee, span);
    assert bps * highNet == bps * net + bps * gap;
    assert (bps * span) * gap == (bps * gap) * span;
    assert (rise * 10_000) * gap == 10_000 * (rise * gap);
    assert (10_000 * base + bps * highNet + 1) * span == (10_000 * base + bps * net) * span + (bps * gap) * span + span;
  }

  /** A fee that rises no faster than the cap stays above it at every net up to the high sample. */
  lemma NoFasterIsSound(cap: EvacFeeCap, low: QuoteSample, high: QuoteSample, net: u64)
    requires Assess(cap, low, high).Some? && Assess(cap, low, high).value.noFaster
    requires high.totalFee > cap.At(high.deliveredNet)
    requires net <= high.deliveredNet
    ensures LineAboveCap(cap, low, high, net)
  {
    CapBounds(cap, high.deliveredNet, high.totalFee);
    NoFasterArithmetic(Span(low, high), Rise(low, high), cap.bps, high.deliveredNet - net, high.totalFee, cap.base,
                       high.deliveredNet, net);
    LineFromHigh(low, high, net);
    ClearsUnfloored(cap, low, high, net);
  }

  lemma FixedArithmetic(span: int, rise: int, bps: int, lowFee: int, lowNet: nat, base: int, net: nat)
    requires 0 < span && 0 <= rise && rise * 10_000 >= bps * span
    requires lowFee - rise * lowNet / span > base
    ensures (10_000 * base + bps * net) * span < 10_000 * (lowFee * span + rise * (net - lowNet))
  {
    var t := rise * lowNet;
    var q := t / span;
    assert t == q * span + t % span;
    MulStep(base + q + 1, lowFee, span);
    assert (base + q + 1) * span == base * span + q * span + span;
    assert lowFee * span - t > base * span;
    MulStep(bps * span, rise * 10_000, net);
    assert (bps * span) * net == (bps * net) * span;
    assert (rise * 10_000) * net == 10_000 * (rise * net);
    assert rise * (net - lowNet) == rise * net - t;
  }

  predicate ProductFits(low: QuoteSample, high: QuoteSample) {
    -I128_LIMIT <= Rise(low, high) * low.deliveredNet < I128_LIMIT
  }

  lemma UnwrappedFixed(fee: u64, product: nat, span: nat)
    requires 0 < span && product < I128_LIMIT
    ensures Wrap(fee - TruncDiv(Wrap(product), span)) == fee - product / span
  {
    var q := product / span;
    assert product == q * span + product % span;
    MulStep(1, span, q);
    assert span * q == q * span;
  }

  /** An excessive fixed component keeps the line above the cap at every net at all, as long as
      the one product the test takes fits 128 bits. */
  lemma FixedExcessIsSound(cap: EvacFeeCap, low: QuoteSample, high: QuoteSample, net: u64)
    requires Assess(cap, low, high).Some? && Assess(cap, low, high).value.fixedExceeds
    requires ProductFits(low, high)
    ensures LineAboveCap(cap, low, high, net)
  {
    var span, rise := Span(low, high), Rise(low, high);
    assert rise >= 0 by {
      MulStep(0, cap.bps, span);
    }
    var product := rise * low.deliveredNet;
    MulStep(0, rise, low.deliveredNet);
    UnwrappedFixed(low.totalFee, product, span);
    FixedArithmetic(span, rise, cap.bps, low.totalFee, low.deliveredNet, cap.base, net);
    ClearsUnfloored(cap, low, high, net);
  }

  /** The test is sound for its two-point model. */
  lemma StructuralIsSound(cap: EvacFeeCap, low: QuoteSample, high: QuoteSample, net: u64)
    requires Assess(cap, low, high).Some? && Assess(cap, low, high).value.IsStructural()
    requires BothOverCap(cap, low, high) && ProductFits(low, high)
    requires net <= high.deliveredNet || Assess(cap, low, high).value.fixedExceeds
    ensures LineAboveCap(cap, low, high, net)
  {
    if Assess(cap, low, high).value.fixedExceeds {
      FixedExcessIsSound(cap, low, high, net);
    } else {
      NoFasterIsSound(cap, low, high, net);
    }
  }

  lemma FixedFitsArithmetic(span: int, product: nat, lowFee: int, base: int)
    requires 0 < span && lowFee - product / span <= base
    ensures lowFee * span - product <= base * span
  {
    var q := product / span;
    assert product == q * span + product % span;
    MulStep(lowFee, base + q, span);
    assert (base + q) * span == base * span + q * span;
  }

  /** Outside the structural case the fee rises faster than the cap from a fixed part within it. */
  lemma NotStructuralMeans(cap: EvacFeeCap, low: QuoteSample, high: QuoteSample)
    requires Assess(cap, low, high).Some? && !Assess(cap, low, high).value.IsStructural()
    requires BothOverCap(cap, low, high) && ProductFits(low, high)
    ensures var product := Rise(low, high) * low.deliveredNet;
            0 <= product && low.totalFee - product / Span(low, high) <= cap.base
  {
    var span, rise := Span(low, high), Rise(low, high);
    assert rise > 0 by {
      MulStep(0, cap.bps, span);
    }
    MulStep(0, rise, low.deliveredNet);
    UnwrappedFixed(low.totalFee, rise * low.deliveredNet, span);
  }

  lemma LineAtOrigin(low: QuoteSample, high: QuoteSample)
    ensures ScaledLine(low, high, 0) == low.totalFee * Span(low, high) - Rise(low, high) * low.deliveredNet
  {
    assert Rise(low, high) * (0 - low.deliveredNet) == -(Rise(low, high) * low.deliveredNet);
  }

  lemma CapAtOrigin(cap: EvacFeeCap)
    ensures cap.At(0) == cap.base
  {
    assert 0 * cap.bps == 0;
  }

  /** A refusal the test does not call structural has a line that meets the cap at the origin. */
  lemma NotStructuralMeetsCap(cap: EvacFeeCap, low: QuoteSample, high: QuoteSample)
    requires Assess(cap, low, high).Some? && !Assess(cap, low, high).value.IsStructural()
    requires BothOverCap(cap, low, high) && ProductFits(low, high)
    ensures !LineAboveCap(cap, low, high, 0)
  {
    NotStructuralMeans(cap, low, high);
    FixedFitsArithmetic(Span(low, high), Rise(low, high) * low.deliveredNet, low.totalFee, cap.base);
    LineAtOrigin(low, high);
    CapAtOrigin(cap);
  }

  /** The test is exact: it reports structural if and only if the line through the two over-cap
      quotes stays above the cap at every net the wallet could still try. */
  lemma StructuralIsExact(cap: EvacFeeCap, low: QuoteSample, high: QuoteSample)
    requires Assess(cap, low, high).Some? && BothOverCap(cap, low, high) && ProductFits(low, high)
    ensures Assess(cap, low, high).value.IsStructural()
            <==> forall net: u64 :: net <= high.deliveredNet ==> LineAboveCap(cap, low, high, net)
  {
    if Assess(cap, low, high).value.IsStructural() {
      forall net: u64 | net <= high.deliveredNet
        ensures LineAboveCap(cap, low, high, net)
      {
        StructuralIsSound(cap, low, high, net);
      }
    } else {
      NotStructuralMeetsCap(cap, low, high);
    }
  }

  /** What each half of the test says by itself, whatever the sizes: the first compares the two slopes, and
      the second never speaks of a low quote that is within the cap. */
  lemma FlagsMean(cap: EvacFeeCap, low: QuoteSample, high: QuoteSample)
    requires Assess(cap, low, high).Some?
    ensures var a, span, rise := Assess(cap, low, high).value, high.deliveredNet - low.deliveredNet,
                                 high.totalFee - low.totalFee;
            && (a.noFaster <==> rise * 10_000 <= cap.bps * span)
            && (a.fixedExceeds ==> rise * 10_000 >= cap.bps * span && low.totalFee > cap.At(low.deliveredNet)
                                   && a.fixedComponent > cap.base)
  {
  }

  /** Two samples are comparable exactly when the second delivers more, and the reported fixed component
      is the line at the origin, to within rounding toward the low quote. */
  lemma FixedComponentIsOrigin(cap: EvacFeeCap, low: QuoteSample, high: QuoteSample)
    requires ProductFits(low, high)
    ensures Assess(cap, low, high).Some? <==> low.deliveredNet < high.deliveredNet
    ensures Assess(cap, low, high).Some? && low.totalFee <= high.totalFee ==>
              var fixed, span := Assess(cap, low, high).value.fixedComponent, high.deliveredNet - low.deliveredNet;
              ScaledLine(low, high, 0) <= fixed * span < ScaledLine(low, high, 0) + span
  {
    if Assess(cap, low, high).Some? && low.totalFee <= high.totalFee {
      var span, product := Span(low, high), Rise(low, high) * low.deliveredNet;
      MulStep(0, Rise(low, high), low.deliveredNet);
      UnwrappedFixed(low.totalFee, product, span);
      LineAtOrigin(low, high);
      RoundedQuotient(low.totalFee, product, span);
    }
  }

  lemma RoundedQuotient(fee: int, product: nat, span: int)
    requires 0 < span
    ensures fee * span - product <= (fee - product / span) * span < fee * span - product + span
  {
    var q := product / span;
    assert product == q * span + product % span;
    assert (fee - q) * span == fee * span - q * span;
  }

  // ---------------------------------------------------------------- when the product overflows

  /** A product past 128 signed bits needs both factors past half the 64-bit range. */
  lemma LargeFactors(rise: nat, net: nat)
    requires rise <= U64_MAX && net <= U64_MAX && rise * net >= I128_LIMIT
    ensures rise > 0x8000_0000_0000_0000 && net > 0x8000_0000_0000_0000
    ensures rise * net < 2 * I128_LIMIT
  {
    if rise <= 0x8000_0000_0000_0000 {
      MulStep(rise, 0x8000_0000_0000_0000, net);
    }
    if net <= 0x8000_0000_0000_0000 {
      MulStep(net, 0x8000_0000_0000_0000, rise);
    }
    MulStep(rise, U64_MAX, net);
  }

  /** The wrapped fixed component: far above any cap base, or wrapped once more to far below. */
  lemma WrappedFixed(fee: u64, product: nat, span: nat)
    requires 0 < span && I128_LIMIT <= product < 2 * I128_LIMIT
    ensures var fixed := Wrap(fee - TruncDiv(Wrap(product), span));
            if span == 1 && product - fee <= I128_LIMIT then fixed < 0 else fixed >= fee
  {
    var rest := 2 * I128_LIMIT - product;
    var q := rest / span;
    assert Wrap(product) == -rest;
    assert 0 <= q && (span == 1 ==> q == rest) && (span >= 2 ==> 2 * q <= rest) by {
      assert rest == q * span + rest % span;
      if span >= 2 {
        MulStep(2, span, q);
      }
    }
  }

  lemma SmallRest(fee: nat, span: nat, rise: nat, net: nat)
    requires rise > 0x8000_0000_0000_0000 && net > 0x8000_0000_0000_0000
    requires fee + rise <= U64_MAX && span + net <= U64_MAX
    ensures fee * span < rise * net
  {
    MulStep(fee, 0x8000_0000_0000_0000, span);
    MulStep(span, 0x8000_0000_0000_0000, 0x8000_0000_0000_0000);
    MulStep(0x8000_0000_0000_0000, rise, net);
    MulStep(0x8000_0000_0000_0000, net, 0x8000_0000_0000_0000);
    assert 0x8000_0000_0000_0000 * span == span * 0x8000_0000_0000_0000;
    assert 0x8000_0000_0000_0000 * net == net * 0x8000_0000_0000_0000;
    assert net * 0x8000_0000_0000_0000 > 0x8000_0000_0000_0000 * 0x8000_0000_0000_0000;
  }

  lemma OverflowRises(cap: EvacFeeCap, low: QuoteSample, high: QuoteSample)
    requires Assess(cap, low, high).Some? && !Assess(cap, low, high).value.noFaster && !ProductFits(low, high)
    ensures 0 < Rise(low, high) && I128_LIMIT <= Rise(low, high) * low.deliveredNet
  {
    MulStep(0, cap.bps, Span(low, high));
    MulStep(0, Rise(low, high), low.deliveredNet);
  }

  lemma OverflowStartsLow(cap: EvacFeeCap, low: QuoteSample, high: QuoteSample)
    requires 0 < Span(low, high) && 0 < Rise(low, high) && I128_LIMIT <= Rise(low, high) * low.deliveredNet
    ensures !LineAboveCap(cap, low, high, 0)
  {
    LargeFactors(Rise(low, high), low.deliveredNet);
    SmallRest(low.totalFee, Span(low, high), Rise(low, high), low.deliveredNet);
    LineAtOrigin(low, high);
    MulStep(0, cap.At(0), Span(low, high));
  }

  lemma OverflowedFixed(low: QuoteSample, high: QuoteSample)
    requires 0 < Span(low, high) && 0 < Rise(low, high) && I128_LIMIT <= Rise(low, high) * low.deliveredNet
    ensures var fixed := Wrap(low.totalFee - TruncDiv(Wrap(Rise(low, high) * low.deliveredNet), Span(low, high)));
            if WrapsTwice(low, high) then fixed < 0 else fixed >= low.totalFee
  {
    LargeFactors(Rise(low, high), low.deliveredNet);
    WrappedFixed(low.totalFee, Rise(low, high) * low.deliveredNet, Span(low, high));
  }

  lemma CapAtLeastBase(cap: EvacFeeCap, net: u64)
    ensures cap.At(net) >= cap.base
  {
    MulStep(0, cap.bps, net);
    assert net * cap.bps == cap.bps * net;
  }

  /** With the product overflowed the line starts below the cap, and the test misses that unless
      the fixed component wraps a second time. */
  lemma OverflowMisjudges(cap: EvacFeeCap, low: QuoteSample, high: QuoteSample)
    requires Assess(cap, low, high).Some? && !Assess(cap, low, high).value.noFaster
    requires BothOverCap(cap, low, high) && !ProductFits(low, high)
    ensures !LineAboveCap(cap, low, high, 0)
    ensures Assess(cap, low, high).value.IsStructural() <==> !WrapsTwice(low, high)
  {
    OverflowRises(cap, low, high);
    OverflowStartsLow(cap, low, high);
    OverflowedFixed(low, high);
    CapAtLeastBase(cap, low.deliveredNet);
  }

  predicate WrapsTwice(low: QuoteSample, high: QuoteSample) {
    Span(low, high) == 1 && Rise(low, high) * low.deliveredNet - low.totalFee <= I128_LIMIT
  }

  /** The condition under which the 128-bit test decides as the line does: the fee rises no
      faster than the cap, the product fits, or two wraps cancel out. */
  predicate JudgesRightly(cap: EvacFeeCap, low: QuoteSample, high: QuoteSample) {
    || cap.bps * Span(low, high) >= Rise(low, high) * 10_000
    || ProductFits(low, high)
    || WrapsTwice(low, high)
  }

  /** For all over-cap samples at all: the test agrees with the line if and only if that
      condition holds. */
  lemma JudgementIsExact(cap: EvacFeeCap, low: QuoteSample, high: QuoteSample)
    requires Assess(cap, low, high).Some? && BothOverCap(cap, low, high)
    ensures JudgesRightly(cap, low, high) <==>
            (Assess(cap, low, high).value.IsStructural()
             <==> forall net: u64 :: net <= high.deliveredNet ==> LineAboveCap(cap, low, high, net))
  {
    if Assess(cap, low, high).value.noFaster {
      forall net: u64 | net <= high.deliveredNet
        ensures LineAboveCap(cap, low, high, net)
      {
        NoFasterIsSound(cap, low, high, net);
      }
    } else if ProductFits(low, high) {
      StructuralIsExact(cap, low, high);
    } else {
      OverflowMisjudges(cap, low, high);
    }
  }

  const ALL_BITCOIN: int := 2_100_000_000_000_000_000

  /** Amounts no larger than all bitcoin there will ever be cannot overflow the product. */
  lemma RealAmountsFit(low: QuoteSample, high: QuoteSample)
    requires low.deliveredNet <= ALL_BITCOIN && low.totalFee <= ALL_BITCOIN && high.totalFee <= ALL_BITCOIN
    ensures ProductFits(low, high)
  {
    var rise, net := Rise(low, high), low.deliveredNet;
    MulStep(-ALL_BITCOIN, rise, net);
    MulStep(rise, ALL_BITCOIN, net);
    MulStep(net, ALL_BITCOIN, ALL_BITCOIN);
    assert -ALL_BITCOIN * net == -(net * ALL_BITCOIN) && ALL_BITCOIN * net == net * ALL_BITCOIN;
  }

  /** Without that bound the wrapped product can report a refusal as structural whose line
      starts far below the cap. */
  lemma WrappedProductIsUnsound()
    ensures var cap := EvacFeeCap(0, 0);
            var low := QuoteSample(0xC000_0000_0000_0000, 1);
            var high := QuoteSample(U64_MAX, U64_MAX);
            && Assess(cap, low, high).Some? && Assess(cap, low, high).value.IsStructural()
            && BothOverCap(cap, low, high)
            && !LineAboveCap(cap, low, high, 0)
  {
    var low := QuoteSample(0xC000_0000_0000_0000, 1);
    var high := QuoteSample(U64_MAX, U64_MAX);
    assert Rise(low, high) * low.deliveredNet == 0xBFFF_FFFF_FFFF_FFFE_8000_0000_0000_0000;
    assert Wrap(0xBFFF_FFFF_FFFF_FFFE_8000_0000_0000_0000) < 0;
  }

  /** Beyond the high sample a slowly rising fee may drop below the cap: the first half of the
      test says nothing there. */
  lemma NoFasterStopsAtHigh()
    ensures var cap := EvacFeeCap(0, 10_000);
            var low, high := QuoteSample(1, 10), QuoteSample(2, 10);
            && Assess(cap, low, high).Some? && Assess(cap, low, high).value.noFaster
            && BothOverCap(cap, low, high)
            && !LineAboveCap(cap, low, high, 10)
  {
  }
}
