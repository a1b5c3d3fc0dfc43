/** What the walk-forward learner emits, session by session, in terms of the estimators alone
    (src/surge/duel/adaptive.py): which sessions each model was trained on, what the judge read, and how far the ledger
    lets a value stray from one half. */
module Emissions {
  import opened Prelude
  import opened Calibration
  import opened WalkForward

  // ---- the flat engine ------------------------------------------------------------------------------

  /** The last refit at or before session `i`: every `every` sessions from `start`. */
  function LastFit(start: nat, every: nat, i: nat): (t: nat)
    requires i >= start
    ensures start <= t <= i < t + (if every <= 1 then 1 else every)
  {
    if every <= 1 then i else Multiple(i - start, every); start + (i - start) / every * every
  }

  lemma Multiple(a: nat, d: nat)
    requires d >= 1
    ensures 0 <= a / d * d <= a < a / d * d + d
  {
  }

  lemma {:induction false} FittedAtIsLastFit(start: nat, every: nat, i: nat)
    requires i >= start
    ensures FittedAt(start, every, i) == LastFit(start, every, i)
  {
    if every >= 2 {
      FittedAtClosedForm(start, every, i);
    } else if i > start {
      FittedAtIsLastFit(start, every, i - 1);
    }
  }

  /** The first of the sessions `before` training ends at `t`: a positive window keeps only the last of them. */
  function TrainsFrom(window: Option<nat>, t: nat): nat
  {
    if window.Some? && 0 < window.value < t then t - window.value else 0
  }

  /** Silent before `minTrain`; after it, the score of session `i` under the model trained on the sessions before the
      last refit, back to the window. */
  lemma RawExplicit<F, M>(e: Flat<F, M>, X: seq<F>, labels: seq<real>, i: nat)
    requires i < |X| == |labels|
    ensures i < e.minTrain ==> RawAt(e, X, labels, i) == None
    ensures i >= e.minTrain ==>
              var t := LastFit(e.minTrain, e.refitEvery, i);
              var lo := TrainsFrom(e.window, t);
              RawAt(e, X, labels, i) == Some(e.expert.probUp(e.expert.train(X[lo..t], labels[lo..t]), X[i]))
  {
    if i >= e.minTrain {
      FittedAtIsLastFit(e.minTrain, e.refitEvery, i);
      hide FittedAt, LastFit;
      var t := LastFit(e.minTrain, e.refitEvery, i);
      var lo := TrainsFrom(e.window, t);
      assert X[..t][lo..] == X[lo..t] && labels[..t][lo..] == labels[lo..t];
    }
  }

  // ---- the stacked engine -----------------------------------------------------------------------------

  /** What desk `j` argues at session `r`: twice its probability less one, and nothing before it is trained. */
  function Argues<F, M, J>(s: Stacked<F, M, J>, X: seq<F>, labels: seq<real>, r: nat, j: nat): real
    requires r < |X| == |labels| && j < |s.desks|
  {
    if r < s.minTrain then 0.0
    else
      var t := LastFit(s.minTrain, s.refitEvery, r);
      2.0 * s.desks[j].probUp(s.desks[j].train(X[..t], labels[..t]), X[r]) - 1.0
  }

  lemma DeskArgues<F, M, J>(s: Stacked<F, M, J>, X: seq<F>, labels: seq<real>, r: nat, j: nat)
    requires r < |X| == |labels| && j < |s.desks|
    ensures Conviction(OutAt(Desk(s, j), X, labels, r)) == Argues(s, X, labels, r, j)
  {
    hide RawAt, FittedAt, LastFit, BatchTally;
    RawExplicit(Desk(s, j), X, labels, r);
  }

  lemma {:induction false} RowArgues<F, M, J>(s: Stacked<F, M, J>, X: seq<F>, labels: seq<real>, r: nat, k: nat)
    requires r < |X| == |labels| && k <= |s.desks|
    ensures forall j :: 0 <= j < k ==> Row(s, X, labels, r, k)[j] == Argues(s, X, labels, r, j)
  {
    hide Argues, Conviction, OutAt;
    if k > 0 {
      RowArgues(s, X, labels, r, k - 1);
      DeskArgues(s, X, labels, r, k - 1);
    }
  }

  /** `Z` holds what every desk argued at every session through `i`. */
  ghost predicate Argued<F, M, J>(s: Stacked<F, M, J>, X: seq<F>, labels: seq<real>, i: nat, Z: seq<seq<real>>)
    requires i < |X| == |labels|
  {
    |Z| == i + 1 && forall r: nat :: r <= i ==>
      |Z[r]| == |s.desks| && forall j: nat :: j < |s.desks| ==> Z[r][j] == Argues(s, X, labels, r, j)
  }

  /** Silent for one and a half times `minTrain`; after it, the judge trained on what the desks argued before its last
      refit scores what they argue now. */
  lemma StackedExplicit<F, M, J>(s: Stacked<F, M, J>, X: seq<F>, labels: seq<real>, i: nat, Z: seq<seq<real>>)
    requires i < |X| == |labels| && Argued(s, X, labels, i, Z)
    ensures i < s.minTrain + s.minTrain / 2 ==> StackedRawAt(s, X, labels, i) == None
    ensures i >= s.minTrain + s.minTrain / 2 ==>
              var t := LastFit(s.minTrain + s.minTrain / 2, s.refitEvery, i);
              StackedRawAt(s, X, labels, i) == Some(s.score(s.judge(Z[..t], labels[..t]), Z[i]))
  {
    if i >= s.minTrain + s.minTrain / 2 {
      hide FittedAt, LastFit, Argues, Row;
      FittedAtIsLastFit(Start(s), s.refitEvery, i);
      var t := LastFit(Start(s), s.refitEvery, i);
      forall r: nat | r <= i ensures Row(s, X, labels, r, |s.desks|) == Z[r] {
        RowArgues(s, X, labels, r, |s.desks|);
      }
      RowsPrefix(s, X, labels, t, t);
      assert Rows(s, X, labels, t) == Z[..t];
    }
  }

  // ---- anchoring along the run -------------------------------------------------------------------------

  lemma {:induction false} StackedRawIs<F, M, J>(s: Stacked<F, M, J>, X: seq<F>, labels: seq<real>, n: nat, i: nat)
    requires i < n <= |X| == |labels|
    ensures StackedRaw(s, X, labels, n)[i] == StackedRawAt(s, X, labels, i)
  {
    hide StackedRawAt;
    if i < n - 1 { StackedRawIs(s, X, labels, n - 1, i); }
  }

  /** `past` holds the raw values of the sessions before `i`. */
  ghost predicate RawPast<F, M, J>(c: Config<F, M, J>, X: seq<F>, labels: seq<real>, i: nat, past: seq<Option<real>>)
    requires i < |X| == |labels|
  {
    |past| == i && forall j: nat :: j < i ==> past[j] == ConfigRawAt(c, X, labels, j)
  }

  /** An anchored emission is read off the earlier raw calls of its band: how many there were and how many came true. */
  lemma EmissionFromCounts<F, M, J>(c: Config<F, M, J>, X: seq<F>, labels: seq<real>, i: nat,
                                    past: seq<Option<real>>, b: Bucket)
    requires i < |X| == |labels| && Recalibrates(c) && RawPast(c, X, labels, i, past)
    requires ConfigRawAt(c, X, labels, i).Some? && InBand(b, ConfigRawAt(c, X, labels, i).value)
    ensures var n, k := |Calls(b, past)|, |RightCalls(b, past, labels[..i])|;
            ConfigOutAt(c, X, labels, i)
            == Some(if ConfigRawAt(c, X, labels, i).value > 0.5 then 0.5 + Distance(n, k) else 0.5 - Distance(n, k))
  {
    hide RawAt, StackedRawAt, BatchTally, Recalibrate, InBand, Calls, RightCalls, Distance;
    match c {
      case FlatConfig(e) =>
        forall j: nat | j < i ensures RawSeries(e, X, labels, i)[j] == past[j] { OutSeriesAt(e, X, labels, i, j); }
        assert RawSeries(e, X, labels, i) == past;
      case StackedConfig(s) =>
        forall j: nat | j < i ensures StackedRaw(s, X, labels, i)[j] == past[j] { StackedRawIs(s, X, labels, i, j); }
        assert StackedRaw(s, X, labels, i) == past;
    }
    AnchorFromCounts(ConfigRawAt(c, X, labels, i).value, past, labels[..i], b);
  }

  /** After `n` calls of the band that were all right the value stands `n / (2 (n + 100))` from one half, or 0.0005 when
      that is more; after calls that were all wrong it stands at 0.0005. */
  lemma PerfectAndHopelessBands(b: Bucket, raw: real, past: seq<Option<real>>, labels: seq<real>)
    requires |labels| == |past| && InBand(b, raw)
    ensures var n := |Calls(b, past)|;
            && (RightCalls(b, past, labels) == Calls(b, past) ==>
                  Abs(Recalibrate(raw, BatchTally(past, labels)) - 0.5)
                  == Max(n as real / (2.0 * (n + 100) as real), 0.0005))
            && (RightCalls(b, past, labels) == {} ==>
                  Abs(Recalibrate(raw, BatchTally(past, labels)) - 0.5) == 0.0005)
  {
    hide Calls, RightCalls, InBand, BatchTally, Recalibrate;
    AnchorFromCounts(raw, past, labels, b);
    NoneRight(|Calls(b, past)|);
  }

  lemma NoneRight(n: nat)
    ensures Distance(n, 0) == 0.0005
  {
    var y := 2.0 * (n + 100) as real;
    var q := (2 * 0 - n) as real / y;
    assert q * y == -(n as real);
    if q > 0.0 { MulStrict(0.0, q, y); }
  }
}
