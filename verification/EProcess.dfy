/** The plug-in test martingale behind the evidence gate: `warmstart_evalue` and
    `sessions_to_cross` (src/surge/duel/verify.py) and the flat `evalue_bernoulli`
    and `paired_evalue` (src/surge/verdict.py).  Log-evidence is kept as the
    product it is the logarithm of. */
module EProcess {
  import opened Prelude
  import opened Martingale

  const EPS := 0.000001

  /** A baseline rate strictly between 0 and 1. */
  type Baseline = p: real | 0.0 < p < 1.0 witness 0.5

  predicate IsBaseline(p: real) { 0.0 < p < 1.0 }

  /** Pseudo-counts that warm the running rate: prior wins and prior total. */
  datatype Counts = Counts(wins: real, weight: real)

  /** Pseudo-counts with which the running rate never divides by zero. */
  type Prior = c: Counts | c.weight > -1.0 witness FLAT

  const FLAT := Counts(0.0, 0.0)

  function MakePrior(rate: Option<real>, weight: real): Prior
    requires weight > -1.0
  {
    var pr := if rate.Some? && 0.0 < rate.value < 1.0 then rate.value else 0.5;
    Counts(weight * pr, weight)
  }

  /** The running rate after `k` outcomes holding `w` wins. */
  function Rate(w: int, k: nat, prior: Prior): real
  {
    (w as real + prior.wins + 0.5) / (k as real + prior.weight + 1.0)
  }

  /** The predictable bet: the running rate clamped to [p0, 1 - EPS]. */
  function Phat(w: int, k: nat, prior: Prior, p0: Baseline): real
  {
    Min(Max(Rate(w, k, prior), p0), 1.0 - EPS)
  }

  function Factor(x: int, phat: real, p0: Baseline): real
  {
    if x != 0 then phat / p0 else (1.0 - phat) / (1.0 - p0)
  }

  function Wins(xs: seq<int>): int
  {
    if xs == [] then 0 else Wins(xs[..|xs| - 1]) + xs[|xs| - 1]
  }

  /** The factor taken on observing `x` after history `h`. */
  function Bet(prior: Prior, p0: Baseline): (seq<int>, int) -> real
  {
    (h, x) => Factor(x, Phat(Wins(h), |h|, prior, p0), p0)
  }

  function Process(xs: seq<int>, prior: Prior, p0: Baseline): real
  {
    Compound(Bet(prior, p0), xs)
  }

  ghost function ProcessFn(prior: Prior, p0: Baseline): seq<int> -> real
  {
    CompoundFn(Bet(prior, p0))
  }

  // ---- the code --------------------------------------------------------------

  /** What `warmstart_evalue` returns: 0 on degenerate input, else the process. */
  function Evalue(xs: seq<int>, p0: Option<real>, prior: Prior): real
  {
    if p0.None? || !IsBaseline(p0.value) || xs == [] then 0.0 else Process(xs, prior, p0.value)
  }

  /** One turn of the loop shared by every reader of the process. */
  lemma ProcessTurn(xs: seq<int>, k: nat, prior: Prior, p0: Baseline, e: real, factor: real)
    requires k < |xs| && e == Process(xs[..k], prior, p0)
    requires factor == Factor(xs[k], Phat(Wins(xs[..k]), k, prior, p0), p0)
    ensures Process(xs[..k + 1], prior, p0) == e * factor
    ensures Wins(xs[..k + 1]) == Wins(xs[..k]) + xs[k]
  {
    assert xs[..k + 1][..k] == xs[..k];
    CompoundTurn(Bet(prior, p0), xs, k, e, factor);
  }

  /** The loop body's arithmetic: the clamped running rate and the factor it yields. */
  method NextFactor(x: int, w: int, k: nat, a0: real, n0: real, p0: Baseline) returns (factor: real)
    requires n0 > -1.0
    ensures factor == Factor(x, Phat(w, k, Counts(a0, n0), p0), p0)
  {
    var phat := Min(Max((w as real + a0 + 0.5) / (k as real + n0 + 1.0), p0), 1.0 - EPS);
    factor := if x != 0 then phat / p0 else (1.0 - phat) / (1.0 - p0);
  }

  method WarmstartEvalue(outcomes: seq<int>, p0: Option<real>, priorRate: Option<real>, priorWeight: real)
    returns (e: real)
    requires priorWeight > -1.0
    ensures e == Evalue(outcomes, p0, MakePrior(priorRate, priorWeight))
    ensures p0.None? || p0.value <= 0.0 || p0.value >= 1.0 || outcomes == [] ==> e == 0.0
  {
    if p0.None? || !(0.0 < p0.value < 1.0) || outcomes == [] {
      return 0.0;
    }
    var base := p0.value;
    ghost var prior := MakePrior(priorRate, priorWeight);
    var pr := if priorRate.Some? && 0.0 < priorRate.value < 1.0 then priorRate.value else 0.5;
    var a0, n0 := priorWeight * pr, priorWeight;
    assert prior == Counts(a0, n0);
    var w := 0;
    e := 1.0;
    for k := 0 to |outcomes|
      invariant w == Wins(outcomes[..k]) && e == Process(outcomes[..k], prior, base)
    {
      var x := outcomes[k];
      var factor := NextFactor(x, w, k, a0, n0, base);
      ProcessTurn(outcomes, k, prior, base, e, factor);
      e := e * factor;
      w := w + x;
    }
    assert outcomes[..|outcomes|] == outcomes;
  }

  /** The first prefix length at which the process has reached `thr`. */
  ghost function FirstCross(hits: seq<int>, p0: Baseline, thr: real, prior: Prior): Option<nat>
  {
    FirstHit(ProcessFn(prior, p0), thr, hits)
  }

  method SessionsToCross(hits: seq<int>, p0: Baseline, thr: real, priorRate: Option<real>, priorWeight: real)
    returns (r: Option<nat>)
    requires thr > 0.0 && priorWeight > -1.0
    ensures r == FirstCross(hits, p0, thr, MakePrior(priorRate, priorWeight))
  {
    ghost var prior := MakePrior(priorRate, priorWeight);
    var pr := if priorRate.Some? && 0.0 < priorRate.value < 1.0 then priorRate.value else 0.5;
    var a0, n0 := priorWeight * pr, priorWeight;
    assert prior == Counts(a0, n0);
    var w, e := 0, 1.0;
    for k := 0 to |hits|
      invariant w == Wins(hits[..k]) && e == Process(hits[..k], prior, p0)
      invariant FirstCross(hits[..k], p0, thr, prior) == None
    {
      var x := hits[k];
      var factor := NextFactor(x, w, k, a0, n0, p0);
      ProcessTurn(hits, k, prior, p0, e, factor);
      e := e * factor;
      w := w + x;
      FirstHitTurn(ProcessFn(prior, p0), thr, hits, k);
      if e >= thr {
        FirstHitPersists(ProcessFn(prior, p0), thr, hits, k + 1);
        return Some(k + 1);
      }
    }
    assert hits[..|hits|] == hits;
    return None;
  }

  /** The e-value returned on the first `j` outcomes. */
  function EvalueAt(hits: seq<int>, j: nat, p0: Baseline, prior: Prior): real
    requires j <= |hits|
  {
    Evalue(hits[..j], Some(p0), prior)
  }

  /** `FirstCross` is the least prefix length whose returned e-value reaches `thr`, and None iff no prefix does. */
  lemma FirstCrossIsLeast(hits: seq<int>, p0: Baseline, thr: real, prior: Prior)
    requires thr > 0.0
    ensures var r := FirstCross(hits, p0, thr, prior);
            r.Some? ==> 1 <= r.value <= |hits| && EvalueAt(hits, r.value, p0, prior) >= thr
    ensures var r := FirstCross(hits, p0, thr, prior);
            forall j: nat :: j <= |hits| && (r.Some? ==> j < r.value) ==> EvalueAt(hits, j, p0, prior) < thr
  {
    FirstHitIsLeast(ProcessFn(prior, p0), thr, hits);
  }

  // ---- the flat process of the verdict module ---------------------------------

  lemma FlatRate(w: int, k: nat)
    ensures Rate(w, k, FLAT) == (w as real + 0.5) / (k as real + 1.0)
  {
    assert w as real + FLAT.wins + 0.5 == w as real + 0.5;
    assert k as real + FLAT.weight + 1.0 == k as real + 1.0;
  }

  /** `evalue_bernoulli` in its own terms: the Krichevsky-Trofimov rate from past outcomes.
      It is the warmed process with prior weight 0, whatever prior rate is supplied. */
  method EvalueBernoulli(outcomes: seq<int>, p0: Option<real>) returns (e: real)
    ensures e == Evalue(outcomes, p0, FLAT)
    ensures p0.None? || p0.value <= 0.0 || p0.value >= 1.0 || outcomes == [] ==> e == 0.0
    ensures forall rate :: e == Evalue(outcomes, p0, MakePrior(rate, 0.0))
  {
    assert forall rate :: MakePrior(rate, 0.0) == FLAT;
    if p0.None? || !(0.0 < p0.value < 1.0) || outcomes == [] {
      return 0.0;
    }
    var base, eps := p0.value, 0.000001;
    var w := 0;
    e := 1.0;
    for k := 0 to |outcomes|
      invariant w == Wins(outcomes[..k]) && e == Process(outcomes[..k], FLAT, base)
    {
      var x := outcomes[k];
      var rate := (w as real + 0.5) / (k as real + 1.0);
      FlatRate(w, k);
      var phat := Min(Max(rate, base), 1.0 - eps);
      var factor := if x != 0 then phat / base else (1.0 - phat) / (1.0 - base);
      ProcessTurn(outcomes, k, FLAT, base, e, factor);
      e := e * factor;
      w := w + x;
    }
    assert outcomes[..|outcomes|] == outcomes;
  }

  // ---- anytime validity ---------------------------------------------------------

  /** Wins (1) with the history-dependent probability `q`, losses (0) otherwise. */
  ghost function BinaryLaw(q: seq<int> -> real): seq<int> -> seq<Branch<int>>
  {
    h => [Branch(q(h), 1), Branch(1.0 - q(h), 0)]
  }

  /** The null hypothesis: whatever the past, the next win probability is at most `p0`. */
  ghost predicate UnderNull(q: seq<int> -> real, p0: Baseline)
  {
    forall h: seq<int> :: 0.0 <= q(h) <= p0
  }

  ghost function EvalueFn(prior: Prior, p0: Baseline): seq<int> -> real
  {
    h => Evalue(h, Some(p0), prior)
  }

  /** The records on which `sessions_to_cross` returns a number. */
  ghost function CrossEvent(p0: Baseline, thr: real, prior: Prior): seq<int> -> bool
  {
    HitEvent(ProcessFn(prior, p0), thr)
  }

  /** Two branches: the pair of values `[x, y]` with weights `r` and `1 - r`. */
  lemma TwoBranches(f: seq<int> -> real, bet: (seq<int>, int) -> real, r: real, h: seq<int>)
    ensures var bs := [Branch(r, 1), Branch(1.0 - r, 0)];
            && StepMean(f, bs, h) == r * f(h + [1]) + (1.0 - r) * f(h + [0])
            && MeanFactor(bet, bs, h) == r * bet(h, 1) + (1.0 - r) * bet(h, 0)
            && TotalWeight(bs) == 1.0
  {
    var bs := [Branch(r, 1), Branch(1.0 - r, 0)];
    var tail := bs[1..];
    assert tail == [Branch(1.0 - r, 0)] && tail[1..] == [];
    assert StepMean(f, tail, h) == (1.0 - r) * f(h + [0]) + StepMean(f, tail[1..], h);
    assert MeanFactor(bet, tail, h) == (1.0 - r) * bet(h, 0) + MeanFactor(bet, tail[1..], h);
    assert TotalWeight(tail) == 1.0 - r + TotalWeight(tail[1..]);
  }

  lemma BinaryLawIsLaw(q: seq<int> -> real, p0: Baseline)
    requires UnderNull(q, p0)
    ensures IsLaw(BinaryLaw(q))
  {
    forall h
      ensures IsDistribution(BinaryLaw(q)(h))
    {
      TwoBranches(g => 0.0, (g, x) => 0.0, q(h), h);
    }
  }

  lemma QuotientSign(a: real, b: real)
    requires b > 0.0
    ensures a >= b ==> a / b >= 1.0
    ensures a <= b ==> a / b <= 1.0
    ensures a > b ==> a / b > 1.0
    ensures a > 0.0 ==> a / b > 0.0
  {
    var r := a / b;
    assert r * b == a;
    assert (r - 1.0) * b == a - b;
    assert r < 1.0 ==> (r - 1.0) * b < 0.0;
    assert r > 1.0 ==> (r - 1.0) * b > 0.0;
    assert r <= 0.0 ==> r * b <= 0.0;
  }

  /** A bet at or above `p0` has one-step mean at most 1 for every win rate up to `p0`. */
  lemma FairFactor(phat: real, p0: Baseline, q: real)
    requires 0.0 <= q <= p0 && p0 <= phat <= 1.0
    ensures q * Factor(1, phat, p0) + (1.0 - q) * Factor(0, phat, p0) <= 1.0
  {
    var a, b := phat / p0, (1.0 - phat) / (1.0 - p0);
    QuotientSign(phat, p0);
    QuotientSign(1.0 - phat, 1.0 - p0);
    MulMono(q, p0, a - b);
    assert q * a + (1.0 - q) * b == q * (a - b) + b;
    assert p0 * (a - b) + b == a * p0 + b * (1.0 - p0);
    assert a * p0 == phat && b * (1.0 - p0) == 1.0 - phat;
  }

  lemma PhatRange(w: int, k: nat, prior: Prior, p0: Baseline)
    ensures p0 <= 1.0 - EPS ==> p0 <= Phat(w, k, prior, p0) <= 1.0 - EPS
    ensures p0 > 1.0 - EPS ==> Phat(w, k, prior, p0) == 1.0 - EPS
  {
  }

  lemma BetPositive(prior: Prior, p0: Baseline)
    ensures forall h: seq<int>, x: int :: Bet(prior, p0)(h, x) > 0.0
  {
    forall h: seq<int>, x: int
      ensures Bet(prior, p0)(h, x) > 0.0
    {
      var phat := Phat(Wins(h), |h|, prior, p0);
      PhatRange(Wins(h), |h|, prior, p0);
      QuotientSign(phat, p0);
      QuotientSign(1.0 - phat, 1.0 - p0);
    }
  }

  /** Evidence stays positive, so its logarithm is defined at every step. */
  lemma ProcessPositive(xs: seq<int>, prior: Prior, p0: Baseline)
    ensures Process(xs, prior, p0) > 0.0
  {
    BetPositive(prior, p0);
    CompoundPositive(Bet(prior, p0), xs);
  }

  /** The process is a supermartingale under every null law. */
  lemma ProcessDrifts(prior: Prior, p0: Baseline, q: seq<int> -> real)
    requires p0 <= 1.0 - EPS && UnderNull(q, p0)
    ensures IsLaw(BinaryLaw(q)) && Drifts(ProcessFn(prior, p0), BinaryLaw(q), 0.0)
  {
    var bet := Bet(prior, p0);
    BinaryLawIsLaw(q, p0);
    BetPositive(prior, p0);
    forall h: seq<int>
      ensures MeanFactor(bet, BinaryLaw(q)(h), h) <= 1.0
    {
      TwoBranches(g => 0.0, bet, q(h), h);
      PhatRange(Wins(h), |h|, prior, p0);
      FairFactor(Phat(Wins(h), |h|, prior, p0), p0, q(h));
    }
    CompoundDrifts(bet, BinaryLaw(q));
  }

  /** Anytime validity: no stopping rule that sees only the past makes the mean evidence exceed 1. */
  lemma ValidUnderAnyStoppingRule(prior: Prior, p0: Baseline, q: seq<int> -> real, stop: seq<int> -> bool, n: nat)
    requires p0 <= 1.0 - EPS && UnderNull(q, p0)
    ensures Expect(StoppedProcess(ProcessFn(prior, p0), stop), BinaryLaw(q), [], n) <= 1.0
  {
    ProcessDrifts(prior, p0, q);
    OptionalStopping(ProcessFn(prior, p0), stop, BinaryLaw(q), 0.0, n);
    NoSlack(n);
  }

  /** Type-I control: the chance that `sessions_to_cross` returns a number is at most 1/thr. */
  lemma FalseAlarmBound(prior: Prior, p0: Baseline, thr: real, q: seq<int> -> real, n: nat)
    requires p0 <= 1.0 - EPS && UnderNull(q, p0) && thr > 0.0
    ensures Prob(CrossEvent(p0, thr, prior), BinaryLaw(q), n) <= 1.0 / thr
  {
    hide StepMean, Expect, Bet;
    ProcessDrifts(prior, p0, q);
    forall h: seq<int> ensures ProcessFn(prior, p0)(h) >= 0.0 { ProcessPositive(h, prior, p0); }
    HitProbability(ProcessFn(prior, p0), BinaryLaw(q), thr, 0.0, n);
    NoSlack(n);
  }

  // ---- exactly when the guarantee holds -------------------------------------------

  ghost predicate MeanAtMostOne(prior: Prior, p0: Baseline, n: nat)
  {
    forall q: seq<int> -> real :: UnderNull(q, p0) ==> Expect(EvalueFn(prior, p0), BinaryLaw(q), [], n) <= 1.0
  }

  /** The cap `1 - EPS` costs validity exactly when it lies below the baseline. */
  lemma ValidExactlyBelowCap(prior: Prior, p0: Baseline, n: nat)
    ensures MeanAtMostOne(prior, p0, n) <==> n == 0 || p0 <= 1.0 - EPS
  {
    if n == 0 {
    } else if p0 <= 1.0 - EPS {
      forall q: seq<int> -> real | UnderNull(q, p0)
        ensures Expect(EvalueFn(prior, p0), BinaryLaw(q), [], n) <= 1.0
      {
        ValidMean(prior, p0, q, n);
      }
    } else {
      SureLossesGrow(prior, p0, [], n);
      assert UnderNull(Never(), p0);
    }
  }

  lemma ValidMean(prior: Prior, p0: Baseline, q: seq<int> -> real, n: nat)
    requires p0 <= 1.0 - EPS && UnderNull(q, p0)
    ensures Expect(EvalueFn(prior, p0), BinaryLaw(q), [], n) <= 1.0
  {
    var m, e := ProcessFn(prior, p0), EvalueFn(prior, p0);
    assert Expect(m, BinaryLaw(q), [], n) <= 1.0 && IsLaw(BinaryLaw(q)) by {
      ProcessDrifts(prior, p0, q);
      ExpectDrift(m, BinaryLaw(q), 0.0, [], n);
      NoSlack(n);
    }
    forall h: seq<int>
      ensures e(h) <= m(h)
    {
    }
    ExpectDominated(e, m, BinaryLaw(q), [], n);
  }

  lemma LossFactor(phat: real, p0: Baseline)
    requires phat < p0
    ensures Factor(0, phat, p0) > 1.0
  {
    QuotientSign(1.0 - phat, 1.0 - p0);
  }

  lemma LossesPay(h: seq<int>, prior: Prior, p0: Baseline)
    requires p0 > 1.0 - EPS
    ensures Process(h + [0], prior, p0) > Process(h, prior, p0)
  {
    CompoundSnoc(Bet(prior, p0), h, 0);
    ProcessPositive(h, prior, p0);
    PhatRange(Wins(h), |h|, prior, p0);
    LossFactor(Phat(Wins(h), |h|, prior, p0), p0);
    CompoundGrows(Bet(prior, p0), h, 0);
  }

  /** A sure loser: the law under which every outcome is a loss. */
  ghost function Never(): seq<int> -> real { h => 0.0 }

  lemma {:induction false} SureLossesGrow(prior: Prior, p0: Baseline, h: seq<int>, n: nat)
    requires p0 > 1.0 - EPS && (h != [] || n > 0)
    ensures Expect(EvalueFn(prior, p0), BinaryLaw(Never()), h, n) >= Process(h, prior, p0)
    ensures n > 0 ==> Expect(EvalueFn(prior, p0), BinaryLaw(Never()), h, n) > Process(h, prior, p0)
    decreases n
  {
    if n > 0 {
      var next := g => Expect(EvalueFn(prior, p0), BinaryLaw(Never()), g, n - 1);
      TwoBranches(next, (g, x) => 0.0, 0.0, h);
      LossesPay(h, prior, p0);
      SureLossesGrow(prior, p0, h + [0], n - 1);
    }
  }

  ghost predicate FalseAlarmsBounded(prior: Prior, p0: Baseline)
  {
    forall thr: real, q: seq<int> -> real, n: nat :: thr > 0.0 && UnderNull(q, p0) ==>
      Prob(CrossEvent(p0, thr, prior), BinaryLaw(q), n) <= 1.0 / thr
  }

  /** The false-alarm bound, too, holds for all thresholds and horizons exactly when the cap leaves room. */
  lemma FalseAlarmExactlyBelowCap(prior: Prior, p0: Baseline)
    ensures FalseAlarmsBounded(prior, p0) <==> p0 <= 1.0 - EPS
  {
    if p0 <= 1.0 - EPS {
      forall thr: real, q: seq<int> -> real, n: nat | thr > 0.0 && UnderNull(q, p0)
        ensures Prob(CrossEvent(p0, thr, prior), BinaryLaw(q), n) <= 1.0 / thr
      {
        FalseAlarmBound(prior, p0, thr, q, n);
      }
    } else {
      var thr := CertainAlarm(prior, p0);
      assert 1.0 / thr < 1.0;
      assert UnderNull(Never(), p0);
    }
  }

  /** One sure loss already lifts the evidence past a threshold above 1. */
  lemma CertainAlarm(prior: Prior, p0: Baseline) returns (thr: real)
    requires p0 > 1.0 - EPS
    ensures thr > 1.0 && Prob(CrossEvent(p0, thr, prior), BinaryLaw(Never()), 1) == 1.0
  {
    thr := Process([0], prior, p0);
    LossesPay([], prior, p0);
    assert [] + [0] == [0];
    assert thr > 1.0;
    hide Compound, Bet;
    var ind := Indicator(CrossEvent(p0, thr, prior));
    var next := g => Expect(ind, BinaryLaw(Never()), g, 0);
    TwoBranches(next, (g, x) => 0.0, 0.0, []);
    FirstHitTurn(ProcessFn(prior, p0), thr, [0], 0);
    assert [0][..1] == [0];
    assert ind([0]) == 1.0;
  }
}
