/** Finite-horizon probability over histories.  A law gives, after every history,
    a finite distribution of the next observation; expectation is the recursion
    over that tree.  A process whose one-step mean rises by at most `c` keeps its
    mean within `c` a step, under every stopping rule, and therefore rarely gets
    high (Ville's inequality). */
module Martingale {
  import opened Prelude

  datatype Branch<T> = Branch(weight: real, value: T)

  ghost function TotalWeight<T>(bs: seq<Branch<T>>): real
  {
    if bs == [] then 0.0 else bs[0].weight + TotalWeight(bs[1..])
  }

  ghost predicate IsDistribution<T>(bs: seq<Branch<T>>)
  {
    && (forall i :: 0 <= i < |bs| ==> bs[i].weight >= 0.0)
    && TotalWeight(bs) == 1.0
  }

  ghost predicate IsLaw<T(!new)>(law: seq<T> -> seq<Branch<T>>)
  {
    forall h: seq<T> :: IsDistribution(law(h))
  }

  /** The branches of `bs` that have positive weight and value `v`. */
  ghost predicate Possible<T>(bs: seq<Branch<T>>, v: T)
  {
    exists i :: 0 <= i < |bs| && bs[i].weight > 0.0 && bs[i].value == v
  }

  ghost predicate Reachable<T>(law: seq<T> -> seq<Branch<T>>, h: seq<T>)
  {
    h == [] || (Reachable(law, h[..|h| - 1]) && Possible(law(h[..|h| - 1]), h[|h| - 1]))
  }

  lemma ReachableExtend<T>(law: seq<T> -> seq<Branch<T>>, h: seq<T>, v: T)
    requires Reachable(law, h) && Possible(law(h), v)
    ensures Reachable(law, h + [v])
  {
    assert (h + [v])[..|h|] == h;
  }

  /** Mean of `f` one observation after `h`. */
  ghost function StepMean<T>(f: seq<T> -> real, bs: seq<Branch<T>>, h: seq<T>): real
  {
    if bs == [] then 0.0
    else bs[0].weight * f(h + [bs[0].value]) + StepMean(f, bs[1..], h)
  }

  /** Mean of `f` after `n` more observations from `h`. */
  ghost function Expect<T(!new)>(f: seq<T> -> real, law: seq<T> -> seq<Branch<T>>, h: seq<T>, n: nat): real
    decreases n
  {
    if n == 0 then f(h) else StepMean(g => Expect(f, law, g, n - 1), law(h), h)
  }

  ghost function Indicator<T>(event: seq<T> -> bool): seq<T> -> real
  {
    h => if event(h) then 1.0 else 0.0
  }

  ghost function Prob<T(!new)>(event: seq<T> -> bool, law: seq<T> -> seq<Branch<T>>, n: nat): real
  {
    Expect(Indicator(event), law, [], n)
  }

  /** From every reachable history the one-step mean of `m` rises by at most `c`. */
  ghost predicate Drifts<T(!new)>(m: seq<T> -> real, law: seq<T> -> seq<Branch<T>>, c: real)
  {
    forall h: seq<T> :: Reachable(law, h) ==> StepMean(m, law(h), h) <= m(h) + c
  }

  lemma CompareStep(w: real, x: real, y: real, d: real, s: real, t: real, total: real)
    requires w >= 0.0 && (w > 0.0 ==> x <= y + d) && s <= t + total * d
    ensures w * x + s <= w * y + t + (w + total) * d
  {
    if w > 0.0 { MulMono(x, y + d, w); }
    assert (y + d) * w == w * y + w * d;
    assert (w + total) * d == w * d + total * d;
  }

  /** Comparing two functions branch by branch compares their one-step means. */
  lemma {:induction false} StepMeanCompare<T>(f: seq<T> -> real, g: seq<T> -> real, d: real,
                                             bs: seq<Branch<T>>, h: seq<T>)
    requires forall i :: 0 <= i < |bs| ==> bs[i].weight >= 0.0
    requires forall i :: 0 <= i < |bs| && bs[i].weight > 0.0 ==> f(h + [bs[i].value]) <= g(h + [bs[i].value]) + d
    ensures StepMean(f, bs, h) <= StepMean(g, bs, h) + TotalWeight(bs) * d
  {
    if bs == [] {
    } else {
      hide StepMean, TotalWeight;
      var w, v, rest := bs[0].weight, bs[0].value, bs[1..];
      assert forall i :: 0 <= i < |rest| ==> rest[i] == bs[i + 1];
      StepMeanCompare(f, g, d, rest, h);
      CompareStep(w, f(h + [v]), g(h + [v]), d, StepMean(f, rest, h), StepMean(g, rest, h), TotalWeight(rest));
      Unfold(f, bs, h);
      Unfold(g, bs, h);
    }
  }

  lemma Unfold<T>(f: seq<T> -> real, bs: seq<Branch<T>>, h: seq<T>)
    requires bs != []
    ensures StepMean(f, bs, h) == bs[0].weight * f(h + [bs[0].value]) + StepMean(f, bs[1..], h)
    ensures TotalWeight(bs) == bs[0].weight + TotalWeight(bs[1..])
  {
  }

  lemma {:induction false} StepMeanEqual<T>(f: seq<T> -> real, g: seq<T> -> real, bs: seq<Branch<T>>, h: seq<T>)
    requires forall v :: f(h + [v]) == g(h + [v])
    ensures StepMean(f, bs, h) == StepMean(g, bs, h)
  {
    if bs != [] {
      StepMeanEqual(f, g, bs[1..], h);
    }
  }

  ghost function Scaled<T>(k: real, f: seq<T> -> real): seq<T> -> real
  {
    h => k * f(h)
  }

  lemma {:induction false} StepMeanScaled<T>(k: real, f: seq<T> -> real, bs: seq<Branch<T>>, h: seq<T>)
    ensures StepMean(Scaled(k, f), bs, h) == k * StepMean(f, bs, h)
  {
    if bs != [] {
      StepMeanScaled(k, f, bs[1..], h);
      var w, x, s := bs[0].weight, f(h + [bs[0].value]), StepMean(f, bs[1..], h);
      assert w * (k * x) + k * s == k * (w * x + s);
    }
  }

  /** The drift `c` accumulated over `n` steps. */
  ghost function Slack(n: nat, c: real): real
  {
    if n == 0 then 0.0 else Slack(n - 1, c) + c
  }

  lemma {:induction false} SlackIsProduct(n: nat, c: real)
    ensures Slack(n, c) == n as real * c
  {
    if n > 0 {
      SlackIsProduct(n - 1, c);
      var p := (n - 1) as real;
      assert n as real == p + 1.0;
      assert (p + 1.0) * c == p * c + c;
    }
  }

  lemma NoSlack(n: nat)
    ensures Slack(n, 0.0) == 0.0
  {
    SlackIsProduct(n, 0.0);
  }

  /** A drift of `c` a step accumulates to at most `Slack(n, c)`. */
  lemma {:induction false} ExpectDrift<T(!new)>(m: seq<T> -> real, law: seq<T> -> seq<Branch<T>>, c: real,
                                               h: seq<T>, n: nat)
    requires IsLaw(law) && Drifts(m, law, c) && Reachable(law, h)
    ensures Expect(m, law, h, n) <= m(h) + Slack(n, c)
    decreases n
  {
    if n > 0 {
      var next := g => Expect(m, law, g, n - 1);
      var bs, slack := law(h), Slack(n - 1, c);
      forall i | 0 <= i < |bs| && bs[i].weight > 0.0
        ensures next(h + [bs[i].value]) <= m(h + [bs[i].value]) + slack
      {
        ReachableExtend(law, h, bs[i].value);
        ExpectDrift(m, law, c, h + [bs[i].value], n - 1);
      }
      assert IsDistribution(bs);
      StepMeanCompare(next, m, slack, bs, h);
    }
  }

  /** Domination on the reachable histories of the horizon carries over to the mean. */
  lemma {:induction false} ExpectDominated<T(!new)>(f: seq<T> -> real, g: seq<T> -> real,
                                                   law: seq<T> -> seq<Branch<T>>, h: seq<T>, n: nat)
    requires IsLaw(law) && Reachable(law, h)
    requires forall r: seq<T> :: Reachable(law, r) && |r| == |h| + n ==> f(r) <= g(r)
    ensures Expect(f, law, h, n) <= Expect(g, law, h, n)
    decreases n
  {
    if n > 0 {
      var f', g' := r => Expect(f, law, r, n - 1), r => Expect(g, law, r, n - 1);
      var bs := law(h);
      forall i | 0 <= i < |bs| && bs[i].weight > 0.0
        ensures f'(h + [bs[i].value]) <= g'(h + [bs[i].value]) + 0.0
      {
        ReachableExtend(law, h, bs[i].value);
        ExpectDominated(f, g, law, h + [bs[i].value], n - 1);
      }
      assert IsDistribution(bs);
      StepMeanCompare(f', g', 0.0, bs, h);
    }
  }

  /** Scaling a process scales its drift. */
  lemma ScaledDrifts<T(!new)>(k: real, m: seq<T> -> real, law: seq<T> -> seq<Branch<T>>, c: real)
    requires Drifts(m, law, c) && k >= 0.0
    ensures Drifts(Scaled(k, m), law, k * c)
  {
    hide StepMean;
    forall h: seq<T> | Reachable(law, h)
      ensures StepMean(Scaled(k, m), law(h), h) <= Scaled(k, m)(h) + k * c
    {
      StepMeanScaled(k, m, law(h), h);
      var x, y := StepMean(m, law(h), h), m(h);
      MulMono(x, y + c, k);
      assert (y + c) * k == k * y + k * c;
    }
  }

  // ---- stopping rules ------------------------------------------------------

  /** The rule has fired on `h` or on one of its prefixes. */
  ghost predicate HasStopped<T>(stop: seq<T> -> bool, h: seq<T>)
  {
    stop(h) || (h != [] && HasStopped(stop, h[..|h| - 1]))
  }

  /** `m` frozen at the first prefix of `h` on which the rule fires. */
  ghost function Stopped<T>(m: seq<T> -> real, stop: seq<T> -> bool, h: seq<T>): real
  {
    if h != [] && HasStopped(stop, h[..|h| - 1]) then Stopped(m, stop, h[..|h| - 1]) else m(h)
  }

  ghost function StoppedProcess<T>(m: seq<T> -> real, stop: seq<T> -> bool): seq<T> -> real
  {
    h => Stopped(m, stop, h)
  }

  ghost function StoppedEvent<T>(stop: seq<T> -> bool): seq<T> -> bool
  {
    h => HasStopped(stop, h)
  }

  lemma {:induction false} StepMeanConstant<T>(f: seq<T> -> real, x: real, bs: seq<Branch<T>>, h: seq<T>)
    requires forall v :: f(h + [v]) == x
    ensures StepMean(f, bs, h) == TotalWeight(bs) * x
  {
    if bs != [] {
      StepMeanConstant(f, x, bs[1..], h);
    }
  }

  /** Freezing a process never adds drift. */
  lemma StoppedDrifts<T(!new)>(m: seq<T> -> real, stop: seq<T> -> bool, law: seq<T> -> seq<Branch<T>>, c: real)
    requires IsLaw(law) && Drifts(m, law, c) && c >= 0.0
    ensures Drifts(StoppedProcess(m, stop), law, c)
  {
    var s := StoppedProcess(m, stop);
    forall h | Reachable(law, h)
      ensures StepMean(s, law(h), h) <= s(h) + c
    {
      assert forall v :: (h + [v])[..|h + [v]| - 1] == h;
      assert IsDistribution(law(h));
      if HasStopped(stop, h) {
        assert forall v :: s(h + [v]) == s(h);
        StepMeanConstant(s, s(h), law(h), h);
      } else {
        assert forall v :: s(h + [v]) == m(h + [v]);
        StepMeanEqual(s, m, law(h), h);
      }
    }
  }

  /** Optional stopping: no rule that looks only at the past makes the mean exceed the start by more than the drift. */
  lemma OptionalStopping<T(!new)>(m: seq<T> -> real, stop: seq<T> -> bool, law: seq<T> -> seq<Branch<T>>,
                                  c: real, n: nat)
    requires IsLaw(law) && Drifts(m, law, c) && c >= 0.0
    ensures Expect(StoppedProcess(m, stop), law, [], n) <= m([]) + Slack(n, c)
  {
    StoppedDrifts(m, stop, law, c);
    ExpectDrift(StoppedProcess(m, stop), law, c, [], n);
  }

  /** Ville: a nonnegative process that barely drifts reaches 1 with probability at most about its start. */
  lemma Ville<T(!new)>(m: seq<T> -> real, stop: seq<T> -> bool, law: seq<T> -> seq<Branch<T>>, c: real, n: nat)
    requires IsLaw(law) && Drifts(m, law, c) && c >= 0.0
    requires forall h: seq<T> :: Reachable(law, h) ==> m(h) >= 0.0
    requires forall h: seq<T> :: stop(h) ==> m(h) >= 1.0
    ensures Prob(StoppedEvent(stop), law, n) <= m([]) + Slack(n, c)
  {
    var ind, s := Indicator(StoppedEvent(stop)), StoppedProcess(m, stop);
    forall h | Reachable(law, h)
      ensures ind(h) <= s(h)
    {
      StoppedAbove(m, stop, law, 1.0, h);
    }
    ExpectDominated(ind, s, law, [], n);
    OptionalStopping(m, stop, law, c, n);
  }

  lemma {:induction false} StoppedAbove<T>(m: seq<T> -> real, stop: seq<T> -> bool, law: seq<T> -> seq<Branch<T>>,
                                           thr: real, h: seq<T>)
    requires Reachable(law, h)
    requires forall g: seq<T> :: Reachable(law, g) ==> m(g) >= 0.0
    requires forall g: seq<T> :: stop(g) ==> m(g) >= thr
    ensures Stopped(m, stop, h) >= (if HasStopped(stop, h) then thr else 0.0)
  {
    if h != [] {
      StoppedAbove(m, stop, law, thr, h[..|h| - 1]);
    }
  }

  // ---- reaching a threshold --------------------------------------------------

  /** The least number of observations, at least one, after which `m` has reached `thr`. */
  ghost function FirstHit<T>(m: seq<T> -> real, thr: real, xs: seq<T>): Option<nat>
  {
    if xs == [] then None
    else
      var before := FirstHit(m, thr, xs[..|xs| - 1]);
      if before.Some? then before
      else if m(xs) >= thr then Some(|xs|)
      else None
  }

  ghost function HitEvent<T>(m: seq<T> -> real, thr: real): seq<T> -> bool
  {
    h => FirstHit(m, thr, h).Some?
  }

  lemma {:induction false} FirstHitIsLeast<T>(m: seq<T> -> real, thr: real, xs: seq<T>)
    ensures var r := FirstHit(m, thr, xs);
            r.Some? ==> 1 <= r.value <= |xs| && m(xs[..r.value]) >= thr
    ensures var r := FirstHit(m, thr, xs);
            forall j :: 1 <= j <= |xs| && (r.Some? ==> j < r.value) ==> m(xs[..j]) < thr
  {
    if xs != [] {
      var h := xs[..|xs| - 1];
      FirstHitIsLeast(m, thr, h);
      assert forall j :: 0 <= j <= |h| ==> h[..j] == xs[..j];
      assert xs[..|xs|] == xs;
    }
  }

  lemma FirstHitTurn<T>(m: seq<T> -> real, thr: real, xs: seq<T>, k: nat)
    requires k < |xs| && FirstHit(m, thr, xs[..k]) == None
    ensures FirstHit(m, thr, xs[..k + 1]) == if m(xs[..k + 1]) >= thr then Some(k + 1) else None
  {
    assert xs[..k + 1][..k] == xs[..k];
  }

  /** Once a prefix has hit, longer records report the same hit. */
  lemma {:induction false} FirstHitPersists<T>(m: seq<T> -> real, thr: real, xs: seq<T>, j: nat)
    requires j <= |xs| && FirstHit(m, thr, xs[..j]).Some?
    ensures FirstHit(m, thr, xs) == FirstHit(m, thr, xs[..j])
  {
    if j < |xs| {
      assert xs[..|xs| - 1][..j] == xs[..j];
      FirstHitPersists(m, thr, xs[..|xs| - 1], j);
    } else {
      assert xs[..j] == xs;
    }
  }

  lemma {:induction false} HitIsStop<T>(m: seq<T> -> real, thr: real, stop: seq<T> -> bool, h: seq<T>)
    requires forall g: seq<T> :: stop(g) <==> g != [] && m(g) >= thr
    ensures FirstHit(m, thr, h).Some? <==> HasStopped(stop, h)
  {
    if h != [] {
      HitIsStop(m, thr, stop, h[..|h| - 1]);
    }
  }

  lemma UnitsOf(x: real, thr: real)
    requires x >= 0.0 && thr > 0.0
    ensures 1.0 / thr * x >= 0.0
    ensures x >= thr ==> 1.0 / thr * x >= 1.0
  {
    var k := 1.0 / thr;
    assert k * thr == 1.0;
    assert k > 0.0 by { if k <= 0.0 { MulMono(k, 0.0, thr); } }
    MulMono(0.0, x, k);
    if x >= thr { MulMono(thr, x, k); }
  }

  /** The chance that a nonnegative process drifting by `c` ever reaches `thr` within `n` observations. */
  lemma HitProbability<T(!new)>(m: seq<T> -> real, law: seq<T> -> seq<Branch<T>>, thr: real, c: real, n: nat)
    requires IsLaw(law) && Drifts(m, law, c) && c >= 0.0 && thr > 0.0
    requires forall h: seq<T> :: m(h) >= 0.0
    ensures Prob(HitEvent(m, thr), law, n) <= 1.0 / thr * m([]) + Slack(n, 1.0 / thr * c)
  {
    hide StepMean, Expect, Slack, Scaled, HasStopped, FirstHit;
    var u, stop := Scaled(1.0 / thr, m), h => h != [] && m(h) >= thr;
    UnitsOf(1.0, thr);
    UnitsOf(c, thr);
    ScaledDrifts(1.0 / thr, m, law, c);
    forall h: seq<T>
      ensures u(h) >= 0.0 && (m(h) >= thr ==> u(h) >= 1.0) && u([]) == 1.0 / thr * m([])
    {
      InUnits(m, thr, h);
    }
    Ville(u, stop, law, 1.0 / thr * c, n);
    HitBelowStop(m, law, thr, stop, n);
  }

  lemma InUnits<T>(m: seq<T> -> real, thr: real, h: seq<T>)
    requires m(h) >= 0.0 && thr > 0.0
    ensures var u := Scaled(1.0 / thr, m);
            u(h) >= 0.0 && (m(h) >= thr ==> u(h) >= 1.0) && u([]) == 1.0 / thr * m([])
  {
    UnitsOf(m(h), thr);
  }

  lemma HitBelowStop<T(!new)>(m: seq<T> -> real, law: seq<T> -> seq<Branch<T>>, thr: real,
                              stop: seq<T> -> bool, n: nat)
    requires IsLaw(law)
    requires forall g: seq<T> :: stop(g) <==> g != [] && m(g) >= thr
    ensures Prob(HitEvent(m, thr), law, n) <= Prob(StoppedEvent(stop), law, n)
  {
    forall h: seq<T>
      ensures Indicator(HitEvent(m, thr))(h) <= Indicator(StoppedEvent(stop))(h)
    {
      HitIsStop(m, thr, stop, h);
    }
    ExpectDominated(Indicator(HitEvent(m, thr)), Indicator(StoppedEvent(stop)), law, [], n);
  }

  // ---- compounded factors ----------------------------------------------------

  /** The running product of `factor(past, next)` along `xs`, started at 1. */
  function Compound<T>(factor: (seq<T>, T) -> real, xs: seq<T>): real
  {
    if xs == [] then 1.0
    else Compound(factor, xs[..|xs| - 1]) * factor(xs[..|xs| - 1], xs[|xs| - 1])
  }

  lemma CompoundSnoc<T>(factor: (seq<T>, T) -> real, h: seq<T>, x: T)
    ensures Compound(factor, h + [x]) == Compound(factor, h) * factor(h, x)
  {
    assert (h + [x])[..|h|] == h;
  }

  lemma CompoundTurn<T>(factor: (seq<T>, T) -> real, xs: seq<T>, k: nat, e: real, r: real)
    requires k < |xs| && e == Compound(factor, xs[..k]) && r == factor(xs[..k], xs[k])
    ensures Compound(factor, xs[..k + 1]) == e * r
  {
    assert xs[..k + 1][..k] == xs[..k];
  }

  ghost function CompoundFn<T>(factor: (seq<T>, T) -> real): seq<T> -> real
  {
    h => Compound(factor, h)
  }

  /** Mean of the next factor after `h`. */
  ghost function MeanFactor<T>(factor: (seq<T>, T) -> real, bs: seq<Branch<T>>, h: seq<T>): real
  {
    if bs == [] then 0.0 else bs[0].weight * factor(h, bs[0].value) + MeanFactor(factor, bs[1..], h)
  }

  lemma {:induction false} CompoundPositive<T(!new)>(factor: (seq<T>, T) -> real, xs: seq<T>)
    requires forall h: seq<T>, x: T :: factor(h, x) > 0.0
    ensures Compound(factor, xs) > 0.0
  {
    if xs != [] {
      CompoundPositive(factor, xs[..|xs| - 1]);
      var a, b := Compound(factor, xs[..|xs| - 1]), factor(xs[..|xs| - 1], xs[|xs| - 1]);
      MulMono(0.0, b, a);
      assert a * b > 0.0;
    }
  }

  lemma {:induction false} CompoundStepMean<T>(factor: (seq<T>, T) -> real, bs: seq<Branch<T>>, h: seq<T>)
    ensures StepMean(CompoundFn(factor), bs, h) == Compound(factor, h) * MeanFactor(factor, bs, h)
  {
    if bs != [] {
      CompoundStepMean(factor, bs[1..], h);
      CompoundSnoc(factor, h, bs[0].value);
      var w, f, m, c := bs[0].weight, factor(h, bs[0].value), MeanFactor(factor, bs[1..], h), Compound(factor, h);
      assert w * (c * f) + c * m == c * (w * f + m);
    }
  }

  lemma CompoundGrows<T(!new)>(factor: (seq<T>, T) -> real, h: seq<T>, x: T)
    requires Compound(factor, h) > 0.0 && factor(h, x) > 1.0
    ensures Compound(factor, h + [x]) > Compound(factor, h)
  {
    CompoundSnoc(factor, h, x);
    var e, d := Compound(factor, h), factor(h, x);
    assert e * (d - 1.0) > 0.0;
  }

  /** Positive factors with mean at most 1 compound to a supermartingale. */
  lemma CompoundDrifts<T(!new)>(factor: (seq<T>, T) -> real, law: seq<T> -> seq<Branch<T>>)
    requires forall h: seq<T>, x: T :: factor(h, x) > 0.0
    requires forall h: seq<T> :: Reachable(law, h) ==> MeanFactor(factor, law(h), h) <= 1.0
    ensures Drifts(CompoundFn(factor), law, 0.0)
  {
    hide StepMean, MeanFactor, Compound;
    forall h | Reachable(law, h)
      ensures StepMean(CompoundFn(factor), law(h), h) <= CompoundFn(factor)(h) + 0.0
    {
      CompoundStepMean(factor, law(h), h);
      CompoundPositive(factor, h);
      MulMono(MeanFactor(factor, law(h), h), 1.0, Compound(factor, h));
    }
  }
}
