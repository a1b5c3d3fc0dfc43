/** Evidence that a mean return is positive: the winsorized betting capital of
    `evalue_returns` (src/surge/verdict.py). */
module Betting {
  import opened Prelude
  import opened Martingale

  /** A recorded return; Python passes `None` and NaN for the first two. */
  datatype Return = Missing | NotANumber | Value(r: real)

  datatype Rules = Rules(lo: real, hi: real, lamMax: real)

  const DEFAULTS := Rules(-1.0, 1.0, 0.5)

  const FLOOR := 0.000000000001

  /** The bet is one-sided and can never lose the whole capital. */
  predicate Sound(c: Rules)
  {
    c.lamMax >= 0.0 && Grown(c.lamMax, c.lo) > 0.0 && Grown(c.lamMax, c.hi) > 0.0
  }

  predicate IsKept(v: Return, c: Rules) { v.Value? && v.r >= c.lo }

  /** The upper tail is cut; nothing is ever raised. */
  function Winsorized(v: Return, c: Rules): real
    requires IsKept(v, c)
  {
    Min(v.r, c.hi)
  }

  /** The winsorized returns the loop has used. */
  function Kept(h: seq<Return>, c: Rules): seq<real>
  {
    if h == [] then []
    else
      var v := h[|h| - 1];
      Kept(h[..|h| - 1], c) + (if IsKept(v, c) then [Winsorized(v, c)] else [])
  }

  function Sum(xs: seq<real>): real
  {
    if xs == [] then 0.0 else Sum(xs[..|xs| - 1]) + xs[|xs| - 1]
  }

  function SumSquares(xs: seq<real>): real
  {
    if xs == [] then 0.0 else SumSquares(xs[..|xs| - 1]) + Square(xs[|xs| - 1])
  }

  /** The predictable bet from `m` past values with sum `s` and sum of squares `ss`. */
  function Bet(m: nat, s: real, ss: real, c: Rules): real
  {
    if m >= 2 then
      var mu := s / m as real;
      var variance := Max(ss / m as real - mu * mu, 0.000001);
      Min(Max(mu / variance, 0.0), c.lamMax)
    else 0.0
  }

  function Lambda(h: seq<Return>, c: Rules): real
  {
    var xs := Kept(h, c);
    Bet(|xs|, Sum(xs), SumSquares(xs), c)
  }

  /** The factor a return applies to the capital before the numerical floor. */
  function Factor(c: Rules): (seq<Return>, Return) -> real
  {
    (h, v) => if IsKept(v, c) then Grown(Lambda(h, c), Winsorized(v, c)) else 1.0
  }

  /** What staking the fraction `lam` on the return `x` does to one unit of capital. */
  function Grown(lam: real, x: real): real { 1.0 + lam * x }

  function Floored(k: real): real { if k <= FLOOR then FLOOR else k }

  /** The capital the code carries, floor included. */
  function Capital(h: seq<Return>, c: Rules): real
    decreases |h|, 0
  {
    if h == [] then 1.0
    else
      var past, v := h[..|h| - 1], h[|h| - 1];
      if IsKept(v, c) then Floored(Staked(past, v, c)) else Capital(past, c)
  }

  /** The capital after the bet, before the floor. */
  function Staked(h: seq<Return>, v: Return, c: Rules): real
    decreases |h|, 1
  {
    Capital(h, c) * Factor(c)(h, v)
  }

  function Evidence(rs: seq<Return>, c: Rules): real
  {
    if rs == [] then 0.0 else Capital(rs, c)
  }

  /** The bet the loop places, from its running count, sum and sum of squares. */
  method NextBet(m: nat, s: real, ss: real, c: Rules) returns (lam: real)
    ensures lam == Bet(m, s, ss, c)
  {
    if m >= 2 {
      var mu := s / m as real;
      var variance := Max(ss / m as real - mu * mu, 0.000001);
      lam := Min(Max(mu / variance, 0.0), c.lamMax);
    } else {
      lam := 0.0;
    }
  }

  lemma EmptyLoop(rs: seq<Return>, c: Rules)
    ensures Capital(rs[..0], c) == 1.0 && Kept(rs[..0], c) == []
    ensures Sum([]) == 0.0 == SumSquares([])
  {
  }

  method EvalueReturns(rs: seq<Return>, c: Rules) returns (e: real)
    ensures e == Evidence(rs, c)
  {
    if rs == [] {
      return 0.0;
    }
    hide Bet, Kept, Sum, SumSquares, Capital, Square, Grown;
    var k, s, ss, m := 1.0, 0.0, 0.0, 0;
    EmptyLoop(rs, c);
    for i := 0 to |rs|
      invariant k == Capital(rs[..i], c)
      invariant m == |Kept(rs[..i], c)|
      invariant s == Sum(Kept(rs[..i], c)) && ss == SumSquares(Kept(rs[..i], c))
    {
      var v := rs[i];
      assert rs[..i + 1][..i] == rs[..i];
      if v.Value? && v.r >= c.lo {
        var x := Min(v.r, c.hi);
        var lam := NextBet(m, s, ss, c);
        var factor := Grown(lam, x);
        KeptTurn(rs, i, c);
        CapitalTurn(rs, i, c, k, factor);
        k := k * factor;
        if k <= 0.000000000001 {
          k := 0.000000000001;
        }
        var square := Square(x);
        s, ss, m := s + x, ss + square, m + 1;
      } else {
        KeptSkip(rs, i, c);
      }
    }
    assert rs[..|rs|] == rs;
    e := k;
  }

  function Square(x: real): real { x * x }

  lemma KeptTurn(rs: seq<Return>, i: nat, c: Rules)
    requires i < |rs| && IsKept(rs[i], c)
    ensures var xs, ys, x := Kept(rs[..i], c), Kept(rs[..i + 1], c), Winsorized(rs[i], c);
            |ys| == |xs| + 1 && Sum(ys) == Sum(xs) + x && SumSquares(ys) == SumSquares(xs) + Square(x)
  {
    assert rs[..i + 1][..i] == rs[..i];
    var xs, x := Kept(rs[..i], c), Winsorized(rs[i], c);
    assert (xs + [x])[..|xs|] == xs;
  }

  lemma KeptSkip(rs: seq<Return>, i: nat, c: Rules)
    requires i < |rs| && !IsKept(rs[i], c)
    ensures Kept(rs[..i + 1], c) == Kept(rs[..i], c) && Capital(rs[..i + 1], c) == Capital(rs[..i], c)
  {
    assert rs[..i + 1][..i] == rs[..i];
  }

  lemma CapitalTurn(rs: seq<Return>, i: nat, c: Rules, k: real, f: real)
    requires i < |rs| && IsKept(rs[i], c)
    requires k == Capital(rs[..i], c) && f == Factor(c)(rs[..i], rs[i])
    ensures Capital(rs[..i + 1], c) == Floored(k * f)
  {
    hide Factor;
    assert rs[..i + 1][..i] == rs[..i];
    assert Staked(rs[..i], rs[i], c) == k * f;
  }

  // ---- when one bet is fair --------------------------------------------------------

  /** Mean of the returns the loop does not skip. */
  ghost function KeptMean(bs: seq<Branch<Return>>, c: Rules): real
  {
    if bs == [] then 0.0
    else (if IsKept(bs[0].value, c) then bs[0].weight * bs[0].value.r else 0.0) + KeptMean(bs[1..], c)
  }

  /** The same after cutting the upper tail. */
  ghost function WinsorizedMean(bs: seq<Branch<Return>>, c: Rules): real
  {
    if bs == [] then 0.0 else WinsorizedTerm(bs[0], c) + WinsorizedMean(bs[1..], c)
  }

  ghost function WinsorizedTerm(b: Branch<Return>, c: Rules): real
  {
    if IsKept(b.value, c) then b.weight * Winsorized(b.value, c) else 0.0
  }

  /** The null hypothesis: whatever the past, the returns that are kept have mean at most 0. */
  ghost predicate UnderNull(law: seq<Return> -> seq<Branch<Return>>, c: Rules)
  {
    forall h: seq<Return> :: IsDistribution(law(h)) && KeptMean(law(h), c) <= 0.0
  }

  lemma {:induction false} WinsorizingLowersMean(bs: seq<Branch<Return>>, c: Rules)
    requires forall i :: 0 <= i < |bs| ==> bs[i].weight >= 0.0
    ensures WinsorizedMean(bs, c) <= KeptMean(bs, c)
  {
    if bs != [] {
      WinsorizingLowersMean(bs[1..], c);
      if IsKept(bs[0].value, c) { MulMono(Winsorized(bs[0].value, c), bs[0].value.r, bs[0].weight); }
    }
  }

  lemma {:induction false} MeanFactorIs(bs: seq<Branch<Return>>, h: seq<Return>, c: Rules)
    ensures MeanFactor(Factor(c), bs, h) == TotalWeight(bs) + Lambda(h, c) * WinsorizedMean(bs, c)
  {
    hide Lambda, Factor, WinsorizedTerm, MeanFactor, TotalWeight, WinsorizedMean;
    if bs == [] {
      MeansOfNothing(h, c);
    } else {
      MeanFactorIs(bs[1..], h, c);
      MeanTerm(bs, h, c);
      var lam, x, rest := Lambda(h, c), WinsorizedTerm(bs[0], c), WinsorizedMean(bs[1..], c);
      assert lam * (x + rest) == lam * x + lam * rest;
    }
  }

  lemma MeansOfNothing(h: seq<Return>, c: Rules)
    ensures MeanFactor(Factor(c), [], h) == 0.0 == TotalWeight<Return>([]) == WinsorizedMean([], c)
  {
  }

  lemma MeanTerm(bs: seq<Branch<Return>>, h: seq<Return>, c: Rules)
    requires bs != []
    ensures MeanFactor(Factor(c), bs, h)
            == bs[0].weight + Lambda(h, c) * WinsorizedTerm(bs[0], c) + MeanFactor(Factor(c), bs[1..], h)
    ensures TotalWeight(bs) == bs[0].weight + TotalWeight(bs[1..])
    ensures WinsorizedMean(bs, c) == WinsorizedTerm(bs[0], c) + WinsorizedMean(bs[1..], c)
  {
    hide Lambda, Grown;
    if IsKept(bs[0].value, c) { GrownTerm(bs[0], h, c); }
  }

  lemma GrownTerm(b: Branch<Return>, h: seq<Return>, c: Rules)
    requires IsKept(b.value, c)
    ensures b.weight * Factor(c)(h, b.value) == b.weight + Lambda(h, c) * WinsorizedTerm(b, c)
  {
    hide Lambda;
    var w, lam, x := b.weight, Lambda(h, c), Winsorized(b.value, c);
    assert w * (1.0 + lam * x) == w + lam * (w * x);
  }

  /** One bet is fair exactly when nothing is staked or the winsorized mean is not positive. */
  lemma FairExactlyWhen(bs: seq<Branch<Return>>, h: seq<Return>, c: Rules)
    requires Sound(c) && IsDistribution(bs)
    ensures MeanFactor(Factor(c), bs, h) <= 1.0 <==> Lambda(h, c) == 0.0 || WinsorizedMean(bs, c) <= 0.0
  {
    MeanFactorIs(bs, h, c);
    LambdaRange(h, c);
    hide Lambda, WinsorizedMean, MeanFactor;
    var lam, x := Lambda(h, c), WinsorizedMean(bs, c);
    assert x <= 0.0 ==> lam * x <= 0.0;
    assert x > 0.0 && lam > 0.0 ==> lam * x > 0.0;
  }

  lemma LambdaRange(h: seq<Return>, c: Rules)
    requires c.lamMax >= 0.0
    ensures 0.0 <= Lambda(h, c) <= c.lamMax
  {
  }

  /** No bet can lose the whole capital; with the default rules none loses more than half. */
  lemma FactorFloor(h: seq<Return>, v: Return, c: Rules)
    requires Sound(c)
    ensures Factor(c)(h, v) > 0.0
    ensures c == DEFAULTS ==> Factor(c)(h, v) >= 0.5
  {
    hide Lambda, Grown;
    LambdaRange(h, c);
    if IsKept(v, c) {
      GrownFromBelow(Lambda(h, c), Winsorized(v, c), c);
    }
  }

  lemma GrownFromBelow(lam: real, x: real, c: Rules)
    requires Sound(c) && 0.0 <= lam <= c.lamMax && (x >= c.lo || x == c.hi)
    ensures Grown(lam, x) > 0.0
    ensures c == DEFAULTS ==> Grown(lam, x) >= 0.5
  {
    if x >= c.lo {
      FactorArithmetic(lam, x, c.lamMax, c.lo);
    } else {
      FactorArithmetic(lam, x, c.lamMax, c.hi);
    }
  }

  lemma FactorArithmetic(lam: real, x: real, lamMax: real, least: real)
    requires 0.0 <= lam <= lamMax && x >= least && Grown(lamMax, least) > 0.0
    ensures Grown(lam, x) > 0.0
    ensures lamMax == 0.5 && least >= -1.0 ==> Grown(lam, x) >= 0.5
  {
    var a, b, worst := lam * x, lam * least, lamMax * least;
    assert a >= b by { MulMono(least, x, lam); }
    if least < 0.0 {
      assert b >= worst by { NegativeScale(lam, lamMax, least); }
      assert lamMax == 0.5 && least >= -1.0 ==> worst >= -0.5;
    } else {
      assert b >= 0.0;
    }
  }

  lemma NegativeScale(a: real, b: real, k: real)
    requires a <= b && k <= 0.0
    ensures a * k >= b * k
  {
    var x, y := a * k, b * k;
    assert (b - a) * k == y - x;
    assert (b - a) * k <= 0.0;
  }

  // ---- validity ----------------------------------------------------------------------

  ghost function CapitalFn(c: Rules): seq<Return> -> real { h => Capital(h, c) }

  lemma {:induction false} CapitalPositive(h: seq<Return>, c: Rules)
    ensures Capital(h, c) > 0.0
  {
    if h != [] { CapitalPositive(h[..|h| - 1], c); }
  }

  lemma StakedPositive(h: seq<Return>, v: Return, c: Rules)
    requires Sound(c)
    ensures Staked(h, v, c) > 0.0
    ensures !IsKept(v, c) ==> Staked(h, v, c) == Capital(h, c)
  {
    hide Capital, Lambda, Grown;
    CapitalPositive(h, c);
    FactorFloor(h, v, c);
    var k, f := Capital(h, c), Factor(c)(h, v);
    assert k * f > 0.0;
    assert f == 1.0 ==> k * f == k;
  }

  /** The floor can lift the capital, but by no more than its own size. */
  lemma CapitalSnoc(h: seq<Return>, v: Return, c: Rules)
    requires Sound(c)
    ensures Staked(h, v, c) <= Capital(h + [v], c) <= Staked(h, v, c) + FLOOR
    ensures Staked(h, v, c) > FLOOR ==> Capital(h + [v], c) == Staked(h, v, c)
  {
    hide Capital, Staked;
    StakedPositive(h, v, c);
    CapitalStep(h, v, c);
  }

  lemma CapitalStep(h: seq<Return>, v: Return, c: Rules)
    ensures Capital(h + [v], c) == if IsKept(v, c) then Floored(Staked(h, v, c)) else Capital(h, c)
  {
    hide Staked;
    assert (h + [v])[..|h|] == h;
  }

  lemma {:induction false} CapitalStepMean(bs: seq<Branch<Return>>, h: seq<Return>, c: Rules)
    requires Sound(c) && forall i :: 0 <= i < |bs| ==> bs[i].weight >= 0.0
    ensures StepMean(CapitalFn(c), bs, h)
            <= Capital(h, c) * MeanFactor(Factor(c), bs, h) + TotalWeight(bs) * FLOOR
  {
    hide Capital, Factor;
    if bs != [] {
      CapitalStepMean(bs[1..], h, c);
      CapitalSnoc(h, bs[0].value, c);
      assert Staked(h, bs[0].value, c) == Capital(h, c) * Factor(c)(h, bs[0].value);
      StepArithmetic(bs[0].weight, CapitalFn(c)(h + [bs[0].value]), Capital(h, c), Factor(c)(h, bs[0].value),
                     MeanFactor(Factor(c), bs[1..], h), TotalWeight(bs[1..]));
    }
  }

  lemma StepArithmetic(w: real, after: real, k: real, f: real, rest: real, total: real)
    requires w >= 0.0 && after <= k * f + FLOOR
    ensures w * after + (k * rest + total * FLOOR) <= k * (w * f + rest) + (w + total) * FLOOR
  {
    MulMono(after, k * f + FLOOR, w);
    assert w * (k * f) == k * (w * f);
  }

  /** Under the null the capital's mean rises by at most the floor at each step. */
  lemma CapitalDrifts(law: seq<Return> -> seq<Branch<Return>>, c: Rules)
    requires Sound(c) && UnderNull(law, c)
    ensures IsLaw(law) && Drifts(CapitalFn(c), law, FLOOR)
  {
    hide StepMean, MeanFactor, TotalWeight, Capital, Factor, WinsorizedMean, KeptMean;
    forall h: seq<Return>
      ensures StepMean(CapitalFn(c), law(h), h) <= CapitalFn(c)(h) + FLOOR
    {
      CapitalStepMean(law(h), h, c);
      FairUnderNull(law(h), h, c);
      CapitalPositive(h, c);
      var k, f := Capital(h, c), MeanFactor(Factor(c), law(h), h);
      assert k * f <= k by { MulMono(f, 1.0, k); }
    }
  }

  lemma FairUnderNull(bs: seq<Branch<Return>>, h: seq<Return>, c: Rules)
    requires Sound(c) && IsDistribution(bs) && KeptMean(bs, c) <= 0.0
    ensures MeanFactor(Factor(c), bs, h) <= 1.0
  {
    hide MeanFactor, Factor, WinsorizedMean, KeptMean;
    WinsorizingLowersMean(bs, c);
    FairExactlyWhen(bs, h, c);
  }

  /** Peeking is safe up to the numerical floor: under any stopping rule, `n` returns show at most 1 + n * 1e-12. */
  lemma ReturnsValidUnderAnyStoppingRule(law: seq<Return> -> seq<Branch<Return>>, c: Rules,
                                         stop: seq<Return> -> bool, n: nat)
    requires Sound(c) && UnderNull(law, c)
    ensures Expect(StoppedProcess(CapitalFn(c), stop), law, [], n) <= 1.0 + n as real * FLOOR
  {
    CapitalDrifts(law, c);
    OptionalStopping(CapitalFn(c), stop, law, FLOOR, n);
    SlackIsProduct(n, FLOOR);
  }

  /** The chance that the capital ever reaches `thr` within `n` returns. */
  lemma ReturnsFalseAlarmBound(law: seq<Return> -> seq<Branch<Return>>, c: Rules, thr: real, n: nat)
    requires Sound(c) && UnderNull(law, c) && thr > 0.0
    ensures Prob(HitEvent(CapitalFn(c), thr), law, n) <= 1.0 / thr + n as real * (1.0 / thr * FLOOR)
  {
    hide StepMean, Expect;
    CapitalDrifts(law, c);
    forall h: seq<Return> ensures CapitalFn(c)(h) >= 0.0 { CapitalPositive(h, c); }
    HitProbability(CapitalFn(c), law, thr, FLOOR, n);
    SlackIsProduct(n, 1.0 / thr * FLOOR);
  }

  // ---- runs on which the floor does not fire -----------------------------------------

  ghost function PureFn(c: Rules): seq<Return> -> real { CompoundFn(Factor(c)) }

  /** The floor has not fired along `h`. */
  ghost predicate FloorIdle(h: seq<Return>, c: Rules)
  {
    h == [] || (FloorIdle(h[..|h| - 1], c) && StaysAbove(h[..|h| - 1], h[|h| - 1], c))
  }

  ghost predicate StaysAbove(h: seq<Return>, v: Return, c: Rules)
  {
    Staked(h, v, c) > FLOOR
  }

  /** The capital on runs without the floor, 0 on the others. */
  ghost function CapitalIfIdle(c: Rules): seq<Return> -> real
  {
    h => if FloorIdle(h, c) then Capital(h, c) else 0.0
  }

  lemma {:induction false} IdleIsPure(h: seq<Return>, c: Rules)
    requires Sound(c)
    ensures FloorIdle(h, c) ==> Capital(h, c) == Compound(Factor(c), h)
  {
    hide Factor, Compound, Capital;
    if h == [] {
      PureStart(c);
    } else {
      var past, v := h[..|h| - 1], h[|h| - 1];
      IdleIsPure(past, c);
      assert h == past + [v];
      CapitalSnoc(past, v, c);
      CompoundSnoc(Factor(c), past, v);
    }
  }

  lemma PureStart(c: Rules)
    ensures Capital([], c) == 1.0 == Compound(Factor(c), [])
  {
  }

  lemma PureDrifts(law: seq<Return> -> seq<Branch<Return>>, c: Rules)
    requires Sound(c) && UnderNull(law, c)
    ensures IsLaw(law) && Drifts(PureFn(c), law, 0.0)
    ensures forall h: seq<Return> :: Compound(Factor(c), h) > 0.0
  {
    hide Factor, MeanFactor, StepMean, Compound;
    forall h: seq<Return>, v: Return ensures Factor(c)(h, v) > 0.0 { FactorFloor(h, v, c); }
    forall h: seq<Return> ensures MeanFactor(Factor(c), law(h), h) <= 1.0 { FairUnderNull(law(h), h, c); }
    forall h: seq<Return> ensures Compound(Factor(c), h) > 0.0 { CompoundPositive(Factor(c), h); }
    CompoundDrifts(Factor(c), law);
  }

  /** Exactly 1, not 1 + n * 1e-12, on the runs that never touch the floor. */
  lemma ValidWhileFloorIdle(law: seq<Return> -> seq<Branch<Return>>, c: Rules, n: nat)
    requires Sound(c) && UnderNull(law, c)
    ensures Expect(CapitalIfIdle(c), law, [], n) <= 1.0
  {
    hide StepMean, Expect, Factor;
    PureDrifts(law, c);
    forall h: seq<Return> ensures CapitalIfIdle(c)(h) <= PureFn(c)(h) { IdleIsPure(h, c); }
    ExpectDominated(CapitalIfIdle(c), PureFn(c), law, [], n);
    ExpectDrift(PureFn(c), law, 0.0, [], n);
    NoSlack(n);
  }

  /** The runs on which the capital reaches `thr` without the floor having fired. */
  ghost function IdleHit(c: Rules, thr: real): seq<Return> -> bool
  {
    h => FloorIdle(h, c) && FirstHit(CapitalFn(c), thr, h).Some?
  }

  lemma {:induction false} IdleHitIsPureHit(h: seq<Return>, c: Rules, thr: real)
    requires Sound(c) && FloorIdle(h, c)
    ensures FirstHit(CapitalFn(c), thr, h) == FirstHit(PureFn(c), thr, h)
  {
    hide Staked, Factor, Compound, Capital;
    if h != [] {
      IdleHitIsPureHit(h[..|h| - 1], c, thr);
      IdleIsPure(h, c);
    }
  }

  /** Such a run is a false alarm with probability at most 1/thr, with no allowance for the floor. */
  lemma FalseAlarmWhileFloorIdle(law: seq<Return> -> seq<Branch<Return>>, c: Rules, thr: real, n: nat)
    requires Sound(c) && UnderNull(law, c) && thr > 0.0
    ensures Prob(IdleHit(c, thr), law, n) <= 1.0 / thr
  {
    hide StepMean, Expect, Factor, FloorIdle, FirstHit, Compound;
    PureDrifts(law, c);
    PureStart(c);
    var idle, pure := Indicator(IdleHit(c, thr)), Indicator(HitEvent(PureFn(c), thr));
    forall h: seq<Return> ensures idle(h) <= pure(h) {
      if FloorIdle(h, c) { IdleHitIsPureHit(h, c, thr); }
    }
    ExpectDominated(idle, pure, law, [], n);
    HitProbability(PureFn(c), law, thr, 0.0, n);
    NoSlack(n);
  }

  /** With the default rules the floor needs at least 40 returns to fire. */
  lemma {:induction false} ShortRunsIdle(h: seq<Return>)
    requires |h| <= 39
    ensures FloorIdle(h, DEFAULTS) && Capital(h, DEFAULTS) >= Halves(|h|)
  {
    hide Staked, Capital, FloorIdle, Halves;
    if h == [] {
      ShortStart();
    } else {
      var past, v := h[..|h| - 1], h[|h| - 1];
      ShortRunsIdle(past);
      HalvesAboveFloor(|h|);
      StakedAtLeastHalf(past, v);
      ShortStep(past, v);
      assert h == past + [v];
    }
  }

  lemma StakedAtLeastHalf(h: seq<Return>, v: Return)
    ensures Staked(h, v, DEFAULTS) >= 0.5 * Capital(h, DEFAULTS)
  {
    hide Capital, Factor;
    CapitalPositive(h, DEFAULTS);
    FactorFloor(h, v, DEFAULTS);
    var k, f := Capital(h, DEFAULTS), Factor(DEFAULTS)(h, v);
    assert (f - 0.5) * k >= 0.0;
  }

  lemma ShortStart()
    ensures FloorIdle([], DEFAULTS) && Capital([], DEFAULTS) == Halves(0) == 1.0
  {
  }

  lemma ShortStep(past: seq<Return>, v: Return)
    requires FloorIdle(past, DEFAULTS) && Capital(past, DEFAULTS) >= Halves(|past|)
    requires Staked(past, v, DEFAULTS) >= 0.5 * Capital(past, DEFAULTS) && Halves(|past| + 1) > FLOOR
    ensures FloorIdle(past + [v], DEFAULTS) && Capital(past + [v], DEFAULTS) >= Halves(|past| + 1)
  {
    hide Staked, Capital, Halves, FloorIdle;
    HalvesAdd(1, |past|);
    HalfOnce();
    IdleStep(past, v, Staked(past, v, DEFAULTS));
  }

  lemma IdleStep(past: seq<Return>, v: Return, product: real)
    requires FloorIdle(past, DEFAULTS) && product == Staked(past, v, DEFAULTS) > FLOOR
    ensures FloorIdle(past + [v], DEFAULTS) && Capital(past + [v], DEFAULTS) == product
  {
    hide Staked, Capital;
    assert (past + [v])[..|past|] == past;
    CapitalSnoc(past, v, DEFAULTS);
  }

  lemma HalfOnce()
    ensures Halves(1) == 0.5
  {
    assert Halves(1) == 0.5 * Halves(0);
  }

  function Halves(n: nat): real
  {
    if n == 0 then 1.0 else 0.5 * Halves(n - 1)
  }

  lemma {:induction false} HalvesAboveFloor(n: nat)
    requires n <= 39
    ensures Halves(n) > FLOOR
  {
    assert Halves(13) == 1.0 / 8192.0;
    HalvesAdd(26, 13);
    HalvesAdd(13, 13);
    if n < 39 { HalvesDecrease(n, 39); }
  }

  lemma {:induction false} HalvesAdd(a: nat, b: nat)
    ensures Halves(a + b) == Halves(a) * Halves(b)
  {
    if a > 0 { HalvesAdd(a - 1, b); }
  }

  lemma {:induction false} HalvesDecrease(a: nat, b: nat)
    requires a <= b
    ensures 0.0 < Halves(b) <= Halves(a)
  {
    if b > a { HalvesDecrease(a, b - 1); } else if a > 0 { HalvesDecrease(a - 1, b - 1); }
  }

  /** So up to 39 returns the default test is exactly valid. */
  lemma ValidUpTo39(law: seq<Return> -> seq<Branch<Return>>, n: nat)
    requires UnderNull(law, DEFAULTS) && n <= 39
    ensures Expect(CapitalFn(DEFAULTS), law, [], n) <= 1.0
  {
    hide StepMean, Expect, Capital;
    forall h: seq<Return> | |h| == n
      ensures CapitalFn(DEFAULTS)(h) <= CapitalIfIdle(DEFAULTS)(h)
    {
      ShortRunsIdle(h);
    }
    assert IsLaw(law);
    ExpectDominated(CapitalFn(DEFAULTS), CapitalIfIdle(DEFAULTS), law, [], n);
    ValidWhileFloorIdle(law, DEFAULTS, n);
  }
}
