/** What a warm start means (src/surge/duel/verify.py): the test resumed after a training record with the prior's
    rate, whose own evidence is left out. */
module WarmStart {
  import opened Prelude
  import opened Martingale
  import opened EProcess

  /** The rate of wins of a training record that holds both wins and losses. */
  function RateOf(pre: seq<int>): Option<real>
    requires pre != []
  {
    Some(Wins(pre) as real / |pre| as real)
  }

  predicate Mixed(pre: seq<int>) { 0 < Wins(pre) < |pre| }

  lemma {:induction false} WinsConcat(a: seq<int>, b: seq<int>)
    ensures Wins(a + b) == Wins(a) + Wins(b)
  {
    if b == [] {
      assert a + b == a;
    } else {
      assert (a + b)[..|a + b| - 1] == a + b[..|b| - 1];
      WinsConcat(a, b[..|b| - 1]);
    }
  }

  /** With prior rate `r` and weight `n` the running rate is that of `n` more outcomes won at rate `r`. */
  lemma RateIsWeighted(w: int, k: nat, r: real, n: real)
    requires n > -1.0 && 0.0 < r < 1.0
    ensures Rate(w, k, MakePrior(Some(r), n)) * (k as real + n + 1.0) == w as real + n * r + 0.5
  {
    var x, y := w as real + n * r + 0.5, k as real + n + 1.0;
    assert x / y * y == x;
  }

  lemma CountsOf(pre: seq<int>)
    requires pre != [] && Mixed(pre)
    ensures MakePrior(RateOf(pre), |pre| as real) == Counts(Wins(pre) as real, |pre| as real)
  {
    var a, n := Wins(pre) as real, |pre| as real;
    var r := a / n;
    assert r * n == a;
    if r <= 0.0 { MulMono(r, 0.0, n); }
    if r >= 1.0 { MulMono(1.0, r, n); }
  }

  /** The warmed bet after `h` is the flat bet after the training record and `h`. */
  lemma SameBet(pre: seq<int>, h: seq<int>, x: int, p0: Baseline)
    requires pre != [] && Mixed(pre)
    ensures Bet(MakePrior(RateOf(pre), |pre| as real), p0)(h, x) == Bet(FLAT, p0)(pre + h, x)
  {
    hide Factor, Rate, MakePrior, RateOf, Mixed, Wins;
    CountsOf(pre);
    WinsConcat(pre, h);
    SameRate(Wins(pre), |pre|, Wins(h), |h|);
    var warm: Prior := Counts(Wins(pre) as real, |pre| as real);
    assert |pre + h| == |pre| + |h|;
    assert Phat(Wins(h), |h|, warm, p0) == Phat(Wins(pre + h), |pre + h|, FLAT, p0);
    assert Bet(warm, p0)(h, x) == Factor(x, Phat(Wins(h), |h|, warm, p0), p0);
  }

  lemma SameRate(a: int, n: nat, w: int, k: nat)
    ensures Rate(w, k, Counts(a as real, n as real)) == Rate(a + w, n + k, FLAT)
  {
    FlatRate(a + w, n + k);
    assert w as real + a as real + 0.5 == (a + w) as real + 0.5;
    assert k as real + n as real + 1.0 == (n + k) as real + 1.0;
  }

  /** A warm start is the flat test resumed: training evidence times warmed evidence is the flat evidence of both
      records, for every training record with wins and losses. */
  lemma {:induction false} WarmStartResumes(pre: seq<int>, xs: seq<int>, p0: Baseline)
    requires pre != [] && Mixed(pre)
    ensures Process(pre, FLAT, p0) * Process(xs, MakePrior(RateOf(pre), |pre| as real), p0)
            == Process(pre + xs, FLAT, p0)
  {
    hide Bet, MakePrior, Mixed, RateOf;
    var warm := MakePrior(RateOf(pre), |pre| as real);
    if xs == [] {
      assert pre + xs == pre;
      assert Process(pre, FLAT, p0) * 1.0 == Process(pre, FLAT, p0);
    } else {
      var h, x := xs[..|xs| - 1], xs[|xs| - 1];
      assert xs == h + [x] && pre + xs == (pre + h) + [x];
      WarmStartResumes(pre, h, p0);
      SameBet(pre, h, x, p0);
      CompoundSnoc(Bet(warm, p0), h, x);
      CompoundSnoc(Bet(FLAT, p0), pre + h, x);
      Regroup(Process(pre, FLAT, p0), Process(h, warm, p0), Bet(warm, p0)(h, x));
    }
  }

  lemma Regroup(a: real, b: real, c: real)
    ensures a * (b * c) == (a * b) * c
  {
  }

  /** So the returned warm e-value is the flat one of both records, less the training record's own. */
  lemma WarmEvalueResumes(pre: seq<int>, xs: seq<int>, p0: Baseline)
    requires pre != [] && Mixed(pre) && xs != []
    ensures Evalue(pre, Some(p0), FLAT) * Evalue(xs, Some(p0), MakePrior(RateOf(pre), |pre| as real))
            == Evalue(pre + xs, Some(p0), FLAT)
    ensures Evalue(pre, Some(p0), FLAT) > 0.0
  {
    WarmStartResumes(pre, xs, p0);
    ProcessPositive(pre, FLAT, p0);
  }

  /** And the warmed crossing of `thr` is the first session at which the flat evidence of both records is `thr` times
      that of the training record. */
  lemma WarmCrossingResumes(pre: seq<int>, hits: seq<int>, p0: Baseline, thr: real)
    requires pre != [] && Mixed(pre) && thr > 0.0
    ensures var r := FirstCross(hits, p0, thr, MakePrior(RateOf(pre), |pre| as real));
            forall j: nat :: 1 <= j <= |hits| && (r.Some? ==> j <= r.value) ==>
              (Evalue(pre + hits[..j], Some(p0), FLAT) >= Evalue(pre, Some(p0), FLAT) * thr <==> r == Some(j))
  {
    hide Process, MakePrior, Mixed, RateOf, FirstCross, Evalue;
    var warm := MakePrior(RateOf(pre), |pre| as real);
    FirstCrossIsLeast(hits, p0, thr, warm);
    var r := FirstCross(hits, p0, thr, warm);
    forall j: nat | 1 <= j <= |hits| && (r.Some? ==> j <= r.value)
      ensures Evalue(pre + hits[..j], Some(p0), FLAT) >= Evalue(pre, Some(p0), FLAT) * thr <==> r == Some(j)
    {
      WarmEvalueResumes(pre, hits[..j], p0);
      SameOrder(EvalueAt(hits, j, p0, warm), thr, Evalue(pre, Some(p0), FLAT));
    }
  }

  lemma SameOrder(e: real, thr: real, k: real)
    requires k > 0.0
    ensures e >= thr <==> k * e >= k * thr
  {
    if e < thr { MulStrict(e, thr, k); } else { MulMono(thr, e, k); }
  }

  /** An absent rate, or one outside (0, 1), warms toward one half. */
  lemma DegenerateRateIsHalf(rate: Option<real>, weight: real, xs: seq<int>, p0: Baseline, thr: real)
    requires weight > -1.0 && (rate.None? || rate.value <= 0.0 || rate.value >= 1.0)
    ensures forall w: int, k: nat ::
              Rate(w, k, MakePrior(rate, weight)) * (k as real + weight + 1.0) == w as real + weight * 0.5 + 0.5
    ensures Evalue(xs, Some(p0), MakePrior(rate, weight)) == Evalue(xs, Some(p0), MakePrior(Some(0.5), weight))
    ensures FirstCross(xs, p0, thr, MakePrior(rate, weight)) == FirstCross(xs, p0, thr, MakePrior(Some(0.5), weight))
  {
    hide Rate;
    forall w: int, k: nat
      ensures Rate(w, k, MakePrior(rate, weight)) * (k as real + weight + 1.0) == w as real + weight * 0.5 + 0.5
    {
      RateIsWeighted(w, k, 0.5, weight);
    }
  }

  /** A replay rate of 0.6 with weight 15 makes the first win worth 1.1875 against a fair coin. */
  lemma ReplayWarmsTowardItsRate()
    ensures Evalue([1], Some(0.5), MakePrior(Some(0.6), 15.0)) == 1.1875
    ensures Evalue([0], Some(0.5), MakePrior(Some(0.6), 15.0)) == 0.8125
  {
    var warm := MakePrior(Some(0.6), 15.0);
    forall x: int | x == 0 || x == 1
      ensures Process([x], warm, 0.5) == if x == 1 then 1.1875 else 0.8125
    {
      assert Bet(warm, 0.5)([], x) == Factor(x, 9.5 / 16.0, 0.5);
      CompoundSnoc(Bet(warm, 0.5), [], x);
      assert [] + [x] == [x];
    }
  }
}
