/** Exactly when one step of the betting capital is valid: the numerical floor, and the returns
    the loop skips (src/surge/verdict.py, `evalue_returns`). */
module BettingValidity {
  import opened Prelude
  import opened Martingale
  import opened Betting

  // ---- laws on two points ------------------------------------------------------------------

  /** `x` with weight `w`, else `y`. */
  function TwoPoint(w: real, x: real, y: real): seq<Branch<Return>>
  {
    [Branch(w, Value(x)), Branch(1.0 - w, Value(y))]
  }

  /** Mean of every return that is a number, kept or not. */
  ghost function RawMean(bs: seq<Branch<Return>>): real
  {
    if bs == [] then 0.0
    else (if bs[0].value.Value? then bs[0].weight * bs[0].value.r else 0.0) + RawMean(bs[1..])
  }

  ghost function KeptTerm(w: real, x: real, c: Rules): real { if x >= c.lo then w * x else 0.0 }

  lemma TwoOutcomes(c: Rules, h: seq<Return>, w: real, x: real, y: real)
    ensures var bs := TwoPoint(w, x, y);
            && TotalWeight(bs) == 1.0 && (0.0 <= w <= 1.0 ==> IsDistribution(bs))
            && RawMean(bs) == w * x + (1.0 - w) * y
            && KeptMean(bs, c) == KeptTerm(w, x, c) + KeptTerm(1.0 - w, y, c)
            && StepMean(CapitalFn(c), bs, h)
               == w * Capital(h + [Value(x)], c) + (1.0 - w) * Capital(h + [Value(y)], c)
            && MeanFactor(Factor(c), bs, h)
               == w * Factor(c)(h, Value(x)) + (1.0 - w) * Factor(c)(h, Value(y))
  {
    hide Capital, Factor;
    var bs, v := TwoPoint(w, x, y), 1.0 - w;
    var tail := bs[1..];
    assert tail == [Branch(v, Value(y))] && tail[1..] == [];
    assert TotalWeight(tail) == v + TotalWeight(tail[1..]);
    assert RawMean(tail) == v * y + RawMean(tail[1..]);
    assert KeptMean(tail, c) == KeptTerm(v, y, c) + KeptMean(tail[1..], c);
    assert StepMean(CapitalFn(c), tail, h)
        == v * Capital(h + [Value(y)], c) + StepMean(CapitalFn(c), tail[1..], h);
    assert MeanFactor(Factor(c), tail, h) == v * Factor(c)(h, Value(y)) + MeanFactor(Factor(c), tail[1..], h);
  }

  /** The weight of `low` that gives the two points mean 0. */
  function Balance(low: real, high: real): (w: real)
    requires low < 0.0 < high
    ensures 0.0 < w < 1.0 && w * low + (1.0 - w) * high == 0.0
  {
    var w := high / (high - low);
    BalanceArithmetic(low, high, w);
    w
  }

  lemma BalanceArithmetic(low: real, high: real, w: real)
    requires low < 0.0 < high && w == high / (high - low)
    ensures 0.0 < w < 1.0 && w * low + (1.0 - w) * high == 0.0
  {
    var span := high - low;
    assert w * span == high;
    assert w <= 0.0 ==> w * span <= 0.0;
    assert w >= 1.0 ==> (w - 1.0) * span >= 0.0;
    assert w * span == w * high - w * low;
    assert (1.0 - w) * high == high - w * high;
  }

  // ---- the floor ---------------------------------------------------------------------------

  /** From `h`, no law whose kept returns have mean at most 0 lifts the mean capital. */
  ghost predicate StepValid(h: seq<Return>, c: Rules)
  {
    forall bs: seq<Branch<Return>> :: IsDistribution(bs) && KeptMean(bs, c) <= 0.0 ==>
      StepMean(CapitalFn(c), bs, h) <= Capital(h, c)
  }

  /** The capital after the worst return the loop accepts, before the floor. */
  function Worst(h: seq<Return>, c: Rules): real { Capital(h, c) * Grown(Lambda(h, c), c.lo) }

  /** No accepted return leaves less than the worst one. */
  lemma StakedAtLeastWorst(h: seq<Return>, v: Return, c: Rules)
    requires Sound(c) && c.lo < 0.0 < c.hi && IsKept(v, c)
    ensures Staked(h, v, c) >= Worst(h, c)
  {
    hide Capital, Lambda;
    CapitalPositive(h, c);
    LambdaRange(h, c);
    var lam, x := Lambda(h, c), Winsorized(v, c);
    MulMono(c.lo, x, lam);
    MulMono(Grown(lam, c.lo), Grown(lam, x), Capital(h, c));
  }

  /** With the worst return at or above the floor, the floor changes nothing from here. */
  lemma FloorIdleFrom(h: seq<Return>, v: Return, c: Rules)
    requires Sound(c) && c.lo < 0.0 < c.hi && Worst(h, c) >= FLOOR
    ensures Capital(h + [v], c) == Capital(h, c) * Factor(c)(h, v)
  {
    hide Capital, Lambda, Grown, Staked, Worst;
    StakedPositive(h, v, c);
    CapitalStep(h, v, c);
    if IsKept(v, c) { StakedAtLeastWorst(h, v, c); }
    StakedIs(h, v, c);
  }

  lemma StakedIs(h: seq<Return>, v: Return, c: Rules)
    ensures Staked(h, v, c) == Capital(h, c) * Factor(c)(h, v)
  {
    hide Capital, Factor;
  }

  lemma {:induction false} StepMeanWithoutFloor(bs: seq<Branch<Return>>, h: seq<Return>, c: Rules)
    requires Sound(c) && c.lo < 0.0 < c.hi && Worst(h, c) >= FLOOR
    ensures StepMean(CapitalFn(c), bs, h) == Capital(h, c) * MeanFactor(Factor(c), bs, h)
  {
    hide Capital, Factor, Worst;
    if bs != [] {
      StepMeanWithoutFloor(bs[1..], h, c);
      FloorIdleFrom(h, bs[0].value, c);
      var w, k, f, rest := bs[0].weight, Capital(h, c), Factor(c)(h, bs[0].value), MeanFactor(Factor(c), bs[1..], h);
      assert w * (k * f) + k * rest == k * (w * f + rest);
    }
  }

  /** The zero-mean law on `lo` and `hi` gains what the floor adds. */
  lemma FloorLifts(h: seq<Return>, c: Rules)
    requires Sound(c) && c.lo < 0.0 < c.hi && Worst(h, c) < FLOOR
    ensures var bs := TwoPoint(Balance(c.lo, c.hi), c.lo, c.hi);
            && IsDistribution(bs) && KeptMean(bs, c) == 0.0
            && StepMean(CapitalFn(c), bs, h) > Capital(h, c)
  {
    hide Capital, Lambda, Grown, Staked, StepMean, MeanFactor, KeptMean, RawMean, IsDistribution;
    var w := Balance(c.lo, c.hi);
    TwoOutcomes(c, h, w, c.lo, c.hi);
    CapitalSnoc(h, Value(c.hi), c);
    CapitalStep(h, Value(c.lo), c);
    FactorsAtEnds(h, c);
    StakedIs(h, Value(c.lo), c);
    StakedIs(h, Value(c.hi), c);
    AverageOfEnds(w, 1.0 - w, c.lo, c.hi, Lambda(h, c), Capital(h, c));
    LiftArithmetic(w, 1.0 - w, Staked(h, Value(c.lo), c), Staked(h, Value(c.hi), c), Capital(h + [Value(c.lo)], c),
                   Capital(h + [Value(c.hi)], c));
  }

  lemma FactorsAtEnds(h: seq<Return>, c: Rules)
    requires c.lo < 0.0 < c.hi
    ensures Factor(c)(h, Value(c.lo)) == Grown(Lambda(h, c), c.lo)
    ensures Factor(c)(h, Value(c.hi)) == Grown(Lambda(h, c), c.hi)
    ensures forall y :: y < c.lo ==> Factor(c)(h, Value(y)) == 1.0
  {
    hide Lambda, Grown;
    assert IsKept(Value(c.lo), c) && Winsorized(Value(c.lo), c) == c.lo;
    assert IsKept(Value(c.hi), c) && Winsorized(Value(c.hi), c) == c.hi;
  }

  lemma LiftArithmetic(w: real, v: real, a: real, b: real, afterLow: real, afterHigh: real)
    requires w > 0.0 && v > 0.0 && afterLow > a && afterHigh >= b
    ensures w * afterLow + v * afterHigh > w * a + v * b
  {
    MulStrict(a, afterLow, w);
    MulMono(b, afterHigh, v);
  }

  /** Without the floor the two ends average to the present capital. */
  lemma AverageOfEnds(w: real, v: real, lo: real, hi: real, lam: real, k: real)
    requires w + v == 1.0 && w * lo + v * hi == 0.0
    ensures w * (k * Grown(lam, lo)) + v * (k * Grown(lam, hi)) == k
  {
    var kl, p, q := k * lam, w * lo, v * hi;
    assert k * Grown(lam, lo) == k + kl * lo && k * Grown(lam, hi) == k + kl * hi;
    assert w * (k + kl * lo) == w * k + kl * p;
    assert v * (k + kl * hi) == v * k + kl * q;
    assert (w + v) * k == w * k + v * k;
    assert kl * p + kl * q == kl * (p + q);
  }

  /** The promise of a supermartingale holds from `h` exactly when the worst accepted return would not meet the
      floor. */
  lemma StepValidExactlyAboveFloor(h: seq<Return>, c: Rules)
    requires Sound(c) && c.lo < 0.0 < c.hi
    ensures StepValid(h, c) <==> Worst(h, c) >= FLOOR
  {
    hide Capital, StepMean, MeanFactor, KeptMean, Worst, IsDistribution;
    if Worst(h, c) >= FLOOR {
      forall bs: seq<Branch<Return>> | IsDistribution(bs) && KeptMean(bs, c) <= 0.0
        ensures StepMean(CapitalFn(c), bs, h) <= Capital(h, c)
      {
        StepMeanWithoutFloor(bs, h, c);
        FairUnderNull(bs, h, c);
        CapitalPositive(h, c);
        MulMono(MeanFactor(Factor(c), bs, h), 1.0, Capital(h, c));
      }
    } else {
      FloorLifts(h, c);
    }
  }

  /** So wherever the law cannot bring the capital to the floor, peeking is safe with no allowance at all. */
  lemma ValidAboveFloor(law: seq<Return> -> seq<Branch<Return>>, c: Rules, stop: seq<Return> -> bool, thr: real, n: nat)
    requires Sound(c) && c.lo < 0.0 < c.hi && UnderNull(law, c) && thr > 0.0
    requires forall h: seq<Return> :: Reachable(law, h) ==> Worst(h, c) >= FLOOR
    ensures Expect(StoppedProcess(CapitalFn(c), stop), law, [], n) <= 1.0
    ensures Prob(HitEvent(CapitalFn(c), thr), law, n) <= 1.0 / thr
  {
    hide StepMean, Expect, Capital, Worst, KeptMean, IsDistribution;
    forall h: seq<Return> | Reachable(law, h)
      ensures StepMean(CapitalFn(c), law(h), h) <= CapitalFn(c)(h) + 0.0
    {
      StepValidExactlyAboveFloor(h, c);
    }
    forall h: seq<Return> ensures CapitalFn(c)(h) >= 0.0 { CapitalPositive(h, c); }
    EmptyLoop([], c);
    OptionalStopping(CapitalFn(c), stop, law, 0.0, n);
    HitProbability(CapitalFn(c), law, thr, 0.0, n);
    NoSlack(n);
  }

  // ---- the skipped returns -------------------------------------------------------------------

  /** No return that is a number lies below `y`. */
  ghost predicate BoundedBelow(bs: seq<Branch<Return>>, y: real)
  {
    forall i :: 0 <= i < |bs| && bs[i].value.Value? ==> bs[i].value.r >= y
  }

  /** From `h`, no law of returns at least `y` whose raw mean is at most 0 favours the bet. */
  ghost predicate FairForRawMean(h: seq<Return>, c: Rules, y: real)
  {
    forall bs: seq<Branch<Return>> :: IsDistribution(bs) && BoundedBelow(bs, y) && RawMean(bs) <= 0.0 ==>
      MeanFactor(Factor(c), bs, h) <= 1.0
  }

  lemma {:induction false} NothingSkipped(bs: seq<Branch<Return>>, c: Rules, y: real)
    requires BoundedBelow(bs, y) && y >= c.lo
    ensures KeptMean(bs, c) == RawMean(bs)
  {
    if bs != [] {
      assert forall i :: 0 <= i < |bs[1..]| ==> bs[1..][i] == bs[i + 1];
      NothingSkipped(bs[1..], c, y);
    }
  }

  /** The zero-raw-mean law on `y` and `hi` favours the bet when `y` is skipped. */
  lemma SkippingFavours(h: seq<Return>, c: Rules, y: real)
    requires c.lo < 0.0 < c.hi && Lambda(h, c) > 0.0 && y < c.lo
    ensures var bs := TwoPoint(Balance(y, c.hi), y, c.hi);
            && IsDistribution(bs) && BoundedBelow(bs, y) && RawMean(bs) == 0.0
            && MeanFactor(Factor(c), bs, h) > 1.0
  {
    hide Capital, Lambda, StepMean, MeanFactor, KeptMean, RawMean, IsDistribution, Factor, Grown;
    var w := Balance(y, c.hi);
    TwoOutcomes(c, h, w, y, c.hi);
    FactorsAtEnds(h, c);
    GainUnopposed(w, Lambda(h, c), c.hi);
  }

  lemma GainUnopposed(w: real, lam: real, hi: real)
    requires w < 1.0 && lam > 0.0 && hi > 0.0
    ensures w * 1.0 + (1.0 - w) * Grown(lam, hi) > 1.0
  {
    var gain, v := lam * hi, 1.0 - w;
    assert gain > 0.0;
    var won := v * gain;
    assert won > 0.0;
    assert v * (1.0 + gain) == v + won;
  }

  /** While something is staked, the bet is fair for every raw-mean null law of returns at least `y` exactly when none
      of them would be skipped. */
  lemma RawMeanFairExactly(h: seq<Return>, c: Rules, y: real)
    requires Sound(c) && c.lo < 0.0 < c.hi && Lambda(h, c) > 0.0
    ensures FairForRawMean(h, c, y) <==> y >= c.lo
  {
    hide Lambda, MeanFactor, KeptMean, RawMean, IsDistribution, Factor;
    if y >= c.lo {
      forall bs: seq<Branch<Return>> | IsDistribution(bs) && BoundedBelow(bs, y) && RawMean(bs) <= 0.0
        ensures MeanFactor(Factor(c), bs, h) <= 1.0
      {
        NothingSkipped(bs, c, y);
        FairUnderNull(bs, h, c);
      }
    } else {
      SkippingFavours(h, c, y);
    }
  }

  // ---- witnesses -------------------------------------------------------------------------

  /** Two small gains: enough history for the largest bet. */
  const TWO_GAINS := [Value(0.01), Value(0.01)]

  lemma AfterTwoGains(c: Rules)
    requires c.lo == -1.0 && c.hi == 1.0 && 0.0 <= c.lamMax <= 1.0
    ensures Lambda(TWO_GAINS, c) == c.lamMax && Capital(TWO_GAINS, c) == 1.0
  {
    var one := [Value(0.01)];
    assert TWO_GAINS == one + [Value(0.01)] && one == [] + [Value(0.01)];
    KeptOf(one, 0.01, [], c);
    KeptOf(TWO_GAINS, 0.01, one, c);
    assert Lambda([], c) == 0.0 && Lambda(one, c) == 0.0;
    CapitalStep([], Value(0.01), c);
    CapitalStep(one, Value(0.01), c);
    var mu, variance := 0.02 / 2.0, Max(0.0002 / 2.0 - 0.01 * 0.01, 0.000001);
    assert mu == 0.01 && variance == 0.000001 && mu / variance == 10000.0;
  }

  lemma KeptOf(h: seq<Return>, x: real, past: seq<Return>, c: Rules)
    requires h == past + [Value(x)] && IsKept(Value(x), c) && x <= c.hi
    ensures Kept(h, c) == Kept(past, c) + [x]
    ensures |Kept(h, c)| == |Kept(past, c)| + 1 && Sum(Kept(h, c)) == Sum(Kept(past, c)) + x
    ensures SumSquares(Kept(h, c)) == SumSquares(Kept(past, c)) + Square(x)
  {
    assert h[..|past|] == past;
    var xs := Kept(past, c);
    assert (xs + [x])[..|xs|] == xs;
  }

  /** The floor breaks exact validity: a fair return after which the mean capital exceeds the present capital. */
  lemma FloorLiftsMean()
    ensures var c := Rules(-1.0, 1.0, 0.9999999999999);
            var fair := TwoPoint(0.5, 1.0, -1.0);
            && Sound(c) && IsDistribution(fair) && KeptMean(fair, c) == 0.0
            && StepMean(CapitalFn(c), fair, TWO_GAINS) > Capital(TWO_GAINS, c)
  {
    var c := Rules(-1.0, 1.0, 0.9999999999999);
    hide Lambda, Capital, StepMean, KeptMean, TotalWeight;
    AfterTwoGains(c);
    BetAfterTwoGains(1.0, c);
    BetAfterTwoGains(-1.0, c);
    TwoOutcomes(c, TWO_GAINS, 0.5, 1.0, -1.0);
  }

  lemma BetAfterTwoGains(r: real, c: Rules)
    requires c.lo == -1.0 && c.hi == 1.0 && 0.0 <= c.lamMax <= 1.0
    ensures Capital(TWO_GAINS + [Value(r)], c) == if r < -1.0 then 1.0 else Floored(1.0 + c.lamMax * Min(r, 1.0))
  {
    hide Lambda, Capital;
    AfterTwoGains(c);
    CapitalStep(TWO_GAINS, Value(r), c);
  }

  /** Skipping returns below `lo` breaks validity too: their raw mean is negative, the capital's mean rises. */
  lemma SkippingLiftsMean()
    ensures var losing := TwoPoint(0.5, 1.0, -2.0);
            && IsDistribution(losing) && RawMean(losing) < 0.0
            && StepMean(CapitalFn(DEFAULTS), losing, TWO_GAINS) > Capital(TWO_GAINS, DEFAULTS)
  {
    hide Lambda, Capital, StepMean, KeptMean, TotalWeight;
    AfterTwoGains(DEFAULTS);
    BetAfterTwoGains(1.0, DEFAULTS);
    BetAfterTwoGains(-2.0, DEFAULTS);
    TwoOutcomes(DEFAULTS, TWO_GAINS, 0.5, 1.0, -2.0);
  }
}
