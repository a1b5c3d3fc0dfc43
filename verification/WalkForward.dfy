/** The walk-forward learner (src/surge/duel/adaptive.py): the flat engine, the
    analyst desks with a judge stacked on them, and live prediction.  Fitting and
    scoring are opaque deterministic functions. */
module WalkForward {
  import opened Prelude
  import opened Calibration

  /** One estimator: how to train on a history and how to score a feature row. */
  datatype Expert<!F, !M> = Expert(train: (seq<F>, seq<real>) -> M, probUp: (M, F) -> real)

  datatype Flat<!F, !M> = Flat(expert: Expert<F, M>, minTrain: nat, refitEvery: nat, window: Option<nat>,
                               recalibrate: bool)

  /** Python's `xs[-w:]`. */
  function LastN<T>(xs: seq<T>, w: nat): seq<T>
  {
    if w >= |xs| then xs else xs[|xs| - w..]
  }

  /** `fit`: no model before `minTrain` sessions; a window, when set, keeps only the most recent ones. */
  function Fit<F, M>(e: Flat<F, M>, X: seq<F>, labels: seq<real>): Option<M>
  {
    if |X| < e.minTrain then None
    else if e.window.Some? && e.window.value > 0 then
      Some(e.expert.train(LastN(X, e.window.value), LastN(labels, e.window.value)))
    else Some(e.expert.train(X, labels))
  }

  lemma BlankIsEmpty()
    ensures BatchTally([], []) == BLANK
  {
  }

  // ---- what a session's prediction may depend on ------------------------------------

  /** The session at which the model in force at session `i` was fitted. */
  function FittedAt(start: nat, every: nat, i: nat): nat
    requires i >= start
    ensures start <= FittedAt(start, every, i) <= i
  {
    if i == start then start
    else
      var before := FittedAt(start, every, i - 1);
      if i - before >= every then i else before
  }

  /** Refits fall on `start`, `start + every`, `start + 2 every`, ... */
  lemma {:induction false} FittedAtClosedForm(start: nat, every: nat, i: nat)
    requires i >= start && every >= 1
    ensures FittedAt(start, every, i) == start + (i - start) / every * every
  {
    if i > start {
      FittedAtClosedForm(start, every, i - 1);
      DivStep(i - 1 - start, every);
    }
  }

  lemma DivStep(a: nat, d: nat)
    requires d >= 1
    ensures (a + 1) / d * d == if a + 1 - a / d * d >= d then a + 1 else a / d * d
  {
    var q, q' := a / d, (a + 1) / d;
    var m, m' := q * d, q' * d;
    assert m <= a < m + d && m' <= a + 1 < m' + d;
    assert (q + 1) * d == m + d;
    if q' < q { Below(q', q, d); }
    if q < q' { Below(q, q', d); }
    if q + 1 < q' { Below(q + 1, q', d); }
  }

  lemma {:induction false} Below(a: nat, b: nat, d: nat)
    requires a < b
    ensures a * d + d <= b * d
  {
    var before := (b - 1) * d;
    assert b * d == before + d;
    if a < b - 1 { Below(a, b - 1, d); }
  }

  /** The raw prediction for session `i`: fitted on sessions strictly before the last refit. */
  function RawAt<F, M>(e: Flat<F, M>, X: seq<F>, labels: seq<real>, i: nat): Option<real>
    requires i < |X| == |labels|
  {
    if i < e.minTrain then None
    else
      var t := FittedAt(e.minTrain, e.refitEvery, i);
      var model := Fit(e, X[..t], labels[..t]);
      if model.None? then None else Some(e.expert.probUp(model.value, X[i]))
  }

  function RawSeries<F, M>(e: Flat<F, M>, X: seq<F>, labels: seq<real>, n: nat): (r: seq<Option<real>>)
    requires n <= |X| == |labels|
    ensures |r| == n
  {
    if n == 0 then [] else RawSeries(e, X, labels, n - 1) + [RawAt(e, X, labels, n - 1)]
  }

  /** A raw prediction anchored to the recount of everything predicted and realised before. */
  function Anchored(raw: Option<real>, past: seq<Option<real>>, labels: seq<real>, on: bool): Option<real>
    requires |past| == |labels|
  {
    if raw.None? then None
    else if on then Some(Recalibrate(raw.value, BatchTally(past, labels)))
    else raw
  }

  function OutAt<F, M>(e: Flat<F, M>, X: seq<F>, labels: seq<real>, i: nat): Option<real>
    requires i < |X| == |labels|
  {
    Anchored(RawAt(e, X, labels, i), RawSeries(e, X, labels, i), labels[..i], e.recalibrate)
  }

  function OutSeries<F, M>(e: Flat<F, M>, X: seq<F>, labels: seq<real>, n: nat): (r: seq<Option<real>>)
    requires n <= |X| == |labels|
    ensures |r| == n
  {
    if n == 0 then [] else OutSeries(e, X, labels, n - 1) + [OutAt(e, X, labels, n - 1)]
  }

  lemma FittedStep(start: nat, every: nat, i: nat)
    requires i >= start
    ensures FittedAt(start, every, i)
            == if i == start || i - FittedAt(start, every, i - 1) >= every then i else FittedAt(start, every, i - 1)
  {
  }

  lemma FlatSilent<F, M>(e: Flat<F, M>, X: seq<F>, labels: seq<real>, i: nat)
    requires i < |X| == |labels| && i < e.minTrain
    ensures RawAt(e, X, labels, i) == None == OutAt(e, X, labels, i)
  {
  }

  lemma FlatTurn<F, M>(e: Flat<F, M>, X: seq<F>, labels: seq<real>, i: nat)
    requires e.minTrain <= i < |X| == |labels|
    ensures var t := FittedAt(e.minTrain, e.refitEvery, i);
            var model := Fit(e, X[..t], labels[..t]);
            && model.Some?
            && var raw := e.expert.probUp(model.value, X[i]);
               && RawAt(e, X, labels, i) == Some(raw)
               && OutAt(e, X, labels, i)
                  == Some(if e.recalibrate then Recalibrate(raw, BatchTally(RawSeries(e, X, labels, i), labels[..i]))
                          else raw)
  {
    hide Recalibrate, BatchTally, RawSeries;
  }

  /** The loop of `walk_forward_probs`, with its model carried between refits and its ledger kept online. */
  method WalkForwardProbs<F, M>(e: Flat<F, M>, X: seq<F>, labels: seq<real>)
    returns (out: seq<Option<real>>, rawOut: seq<Option<real>>)
    requires |X| == |labels|
    ensures out == OutSeries(e, X, labels, |X|)
    ensures rawOut == RawSeries(e, X, labels, |X|)
  {
    hide Recalibrate, BatchTally, Scored, FittedAt, RawAt, OutAt;
    BlankIsEmpty();
    out, rawOut := [], [];
    var tally := BLANK;
    var model: Option<M> := None;
    var fittedAt := -1;
    for i := 0 to |X|
      invariant out == OutSeries(e, X, labels, i) && rawOut == RawSeries(e, X, labels, i)
      invariant tally == BatchTally(rawOut, labels[..i])
      invariant i <= e.minTrain ==> model.None?
      invariant i > e.minTrain ==> fittedAt == FittedAt(e.minTrain, e.refitEvery, i - 1)
                                   && model == Fit(e, X[..fittedAt], labels[..fittedAt]) && model.Some?
    {
      if i >= e.minTrain && (model.None? || i - fittedAt >= e.refitEvery) {
        model := Fit(e, X[..i], labels[..i]);
        fittedAt := i;
      }
      if i >= e.minTrain {
        FittedStep(e.minTrain, e.refitEvery, i);
        FlatTurn(e, X, labels, i);
      } else {
        FlatSilent(e, X, labels, i);
      }
      ghost var past := rawOut;
      if model.None? {
        out := out + [None];
        rawOut := rawOut + [None];
        BatchTallySnoc(past, labels[..i], None, labels[i]);
      } else {
        var raw := e.expert.probUp(model.value, X[i]);
        rawOut := rawOut + [Some(raw)];
        out := out + [Some(if e.recalibrate then Recalibrate(raw, tally) else raw)];
        tally := Scored(tally, raw, labels[i]);
        BatchTallySnoc(past, labels[..i], Some(raw), labels[i]);
      }
      assert labels[..i + 1] == labels[..i] + [labels[i]];
    }
  }

  // ---- the stacked engine ---------------------------------------------------------------

  /** Desks argue, a judge trained on their past arguments decides. */
  datatype Stacked<!F, !M, !J> = Stacked(desks: seq<Expert<F, M>>,
                                         judge: (seq<seq<real>>, seq<real>) -> J,
                                         score: (J, seq<real>) -> real,
                                         minTrain: nat, refitEvery: nat, recalibrate: bool)

  /** A desk is a flat engine without window or anchoring. */
  function Desk<F, M, J>(s: Stacked<F, M, J>, j: nat): Flat<F, M>
    requires j < |s.desks|
  {
    Flat(s.desks[j], s.minTrain, s.refitEvery, None, false)
  }

  function Start<F, M, J>(s: Stacked<F, M, J>): nat { s.minTrain + s.minTrain / 2 }

  /** A desk's signed conviction; a silent desk argues 0. */
  function Conviction(p: Option<real>): real
  {
    if p.Some? then 2.0 * p.value - 1.0 else 0.0
  }

  /** What the first `k` desks argue at session `i`. */
  function Row<F, M, J>(s: Stacked<F, M, J>, X: seq<F>, labels: seq<real>, i: nat, k: nat): (r: seq<real>)
    requires i < |X| == |labels| && k <= |s.desks|
    ensures |r| == k
  {
    if k == 0 then []
    else Row(s, X, labels, i, k - 1) + [Conviction(OutAt(Desk(s, k - 1), X, labels, i))]
  }

  /** The judge's training rows for the first `n` sessions. */
  function Rows<F, M, J>(s: Stacked<F, M, J>, X: seq<F>, labels: seq<real>, n: nat): (r: seq<seq<real>>)
    requires n <= |X| == |labels|
    ensures |r| == n
  {
    if n == 0 then [] else Rows(s, X, labels, n - 1) + [Row(s, X, labels, n - 1, |s.desks|)]
  }

  function StackedRawAt<F, M, J>(s: Stacked<F, M, J>, X: seq<F>, labels: seq<real>, i: nat): Option<real>
    requires i < |X| == |labels|
  {
    if i < Start(s) then None
    else
      var t := FittedAt(Start(s), s.refitEvery, i);
      Some(s.score(s.judge(Rows(s, X, labels, t), labels[..t]), Row(s, X, labels, i, |s.desks|)))
  }

  function StackedRaw<F, M, J>(s: Stacked<F, M, J>, X: seq<F>, labels: seq<real>, n: nat): (r: seq<Option<real>>)
    requires n <= |X| == |labels|
    ensures |r| == n
  {
    if n == 0 then [] else StackedRaw(s, X, labels, n - 1) + [StackedRawAt(s, X, labels, n - 1)]
  }

  function StackedOutAt<F, M, J>(s: Stacked<F, M, J>, X: seq<F>, labels: seq<real>, i: nat): Option<real>
    requires i < |X| == |labels|
  {
    Anchored(StackedRawAt(s, X, labels, i), StackedRaw(s, X, labels, i), labels[..i], s.recalibrate)
  }

  function StackedOut<F, M, J>(s: Stacked<F, M, J>, X: seq<F>, labels: seq<real>, n: nat): (r: seq<Option<real>>)
    requires n <= |X| == |labels|
    ensures |r| == n
  {
    if n == 0 then [] else StackedOut(s, X, labels, n - 1) + [StackedOutAt(s, X, labels, n - 1)]
  }

  lemma {:induction false} OutSeriesAt<F, M>(e: Flat<F, M>, X: seq<F>, labels: seq<real>, n: nat, i: nat)
    requires i < n <= |X| == |labels|
    ensures OutSeries(e, X, labels, n)[i] == OutAt(e, X, labels, i)
    ensures RawSeries(e, X, labels, n)[i] == RawAt(e, X, labels, i)
  {
    if i < n - 1 { OutSeriesAt(e, X, labels, n - 1, i); }
  }

  lemma {:induction false} RowsPrefix<F, M, J>(s: Stacked<F, M, J>, X: seq<F>, labels: seq<real>, n: nat, t: nat)
    requires t <= n <= |X| == |labels|
    ensures Rows(s, X, labels, n)[..t] == Rows(s, X, labels, t)
    ensures forall i :: 0 <= i < n ==> Rows(s, X, labels, n)[i] == Row(s, X, labels, i, |s.desks|)
  {
    if n > 0 {
      RowsPrefix(s, X, labels, n - 1, if t < n then t else n - 1);
      if t < n {
        assert Rows(s, X, labels, n)[..t] == Rows(s, X, labels, n - 1)[..t];
      }
    }
  }

  /** Level 1: every desk's walk-forward, session by session. */
  method DeskRows<F, M, J>(s: Stacked<F, M, J>, X: seq<F>, labels: seq<real>) returns (Z: seq<seq<real>>)
    requires |X| == |labels|
    ensures Z == Rows(s, X, labels, |X|)
  {
    var deskProbs: seq<seq<Option<real>>> := [];
    for j := 0 to |s.desks|
      invariant |deskProbs| == j
      invariant forall k :: 0 <= k < j ==> deskProbs[k] == OutSeries(Desk(s, k), X, labels, |X|)
    {
      var probs, _ := WalkForwardProbs(Desk(s, j), X, labels);
      deskProbs := deskProbs + [probs];
    }
    Z := [];
    for i := 0 to |X|
      invariant Z == Rows(s, X, labels, i)
    {
      var row := [];
      for j := 0 to |s.desks|
        invariant row == Row(s, X, labels, i, j)
      {
        OutSeriesAt(Desk(s, j), X, labels, |X|, i);
        row := row + [Conviction(deskProbs[j][i])];
      }
      Z := Z + [row];
    }
  }

  lemma StackedSilent<F, M, J>(s: Stacked<F, M, J>, X: seq<F>, labels: seq<real>, i: nat)
    requires i < |X| == |labels| && i < Start(s)
    ensures StackedRawAt(s, X, labels, i) == None == StackedOutAt(s, X, labels, i)
  {
  }

  lemma StackedTurn<F, M, J>(s: Stacked<F, M, J>, X: seq<F>, labels: seq<real>, i: nat, t: nat)
    requires Start(s) <= i < |X| == |labels| && t == FittedAt(Start(s), s.refitEvery, i)
    ensures var raw := s.score(s.judge(Rows(s, X, labels, t), labels[..t]), Row(s, X, labels, i, |s.desks|));
            && StackedRawAt(s, X, labels, i) == Some(raw)
            && StackedOutAt(s, X, labels, i)
               == Some(if s.recalibrate then Recalibrate(raw, BatchTally(StackedRaw(s, X, labels, i), labels[..i]))
                       else raw)
  {
    hide Rows, Row, Recalibrate, BatchTally;
  }

  /** The loop of `stacked_walk_forward_probs`. */
  method StackedWalkForwardProbs<F, M, J>(s: Stacked<F, M, J>, X: seq<F>, labels: seq<real>)
    returns (out: seq<Option<real>>, rawOut: seq<Option<real>>)
    requires |X| == |labels|
    ensures out == StackedOut(s, X, labels, |X|)
    ensures rawOut == StackedRaw(s, X, labels, |X|)
  {
    hide Recalibrate, BatchTally, Scored, Row, Rows, FittedAt, StackedRawAt, StackedOutAt;
    var Z := DeskRows(s, X, labels);
    BlankIsEmpty();
    out, rawOut := [], [];
    var tally := BLANK;
    var w: Option<J> := None;
    var fittedAt := -1;
    var start := s.minTrain + s.minTrain / 2;
    for i := 0 to |X|
      invariant out == StackedOut(s, X, labels, i) && rawOut == StackedRaw(s, X, labels, i)
      invariant tally == BatchTally(rawOut, labels[..i])
      invariant i <= start ==> w.None?
      invariant i > start ==> fittedAt == FittedAt(start, s.refitEvery, i - 1)
                              && w == Some(s.judge(Rows(s, X, labels, fittedAt), labels[..fittedAt]))
    {
      ghost var past := rawOut;
      if i < start {
        out := out + [None];
        rawOut := rawOut + [None];
        BatchTallySnoc(past, labels[..i], None, labels[i]);
        StackedSilent(s, X, labels, i);
      } else {
        FittedStep(start, s.refitEvery, i);
        if w.None? || i - fittedAt >= s.refitEvery {
          RowsPrefix(s, X, labels, |X|, i);
          w := Some(s.judge(Z[..i], labels[..i]));
          fittedAt := i;
        }
        RowsPrefix(s, X, labels, |X|, i);
        var raw := s.score(w.value, Z[i]);
        StackedTurn(s, X, labels, i, fittedAt);
        rawOut := rawOut + [Some(raw)];
        out := out + [Some(if s.recalibrate then Recalibrate(raw, tally) else raw)];
        tally := Scored(tally, raw, labels[i]);
        BatchTallySnoc(past, labels[..i], Some(raw), labels[i]);
      }
      assert labels[..i + 1] == labels[..i] + [labels[i]];
    }
  }

  // ---- causality ------------------------------------------------------------------------

  /** Two histories agree on features up to and including session `i` and on labels strictly before it. */
  predicate AgreeThrough<F(==)>(X: seq<F>, labels: seq<real>, X': seq<F>, labels': seq<real>, i: nat)
  {
    && i < |X| == |labels| && i < |X'| == |labels'|
    && X[..i + 1] == X'[..i + 1] && labels[..i] == labels'[..i]
  }

  lemma AgreeEarlier<F>(X: seq<F>, labels: seq<real>, X': seq<F>, labels': seq<real>, i: nat, j: nat)
    requires AgreeThrough(X, labels, X', labels', i) && j <= i
    ensures AgreeThrough(X, labels, X', labels', j)
    ensures forall t: nat :: t <= j ==> X[..t] == X'[..t] && labels[..t] == labels'[..t]
    ensures X[j] == X'[j]
  {
    forall t: nat | t <= i + 1 ensures X[..t] == X'[..t] {
      assert X[..t] == X[..i + 1][..t] && X'[..t] == X'[..i + 1][..t];
    }
    forall t: nat | t <= i ensures labels[..t] == labels'[..t] {
      assert labels[..t] == labels[..i][..t] && labels'[..t] == labels'[..i][..t];
    }
    assert X[j] == X[..i + 1][j] && X'[j] == X'[..i + 1][j];
  }

  lemma {:induction false} FlatRawCausal<F, M>(e: Flat<F, M>, X: seq<F>, labels: seq<real>, X': seq<F>,
                                              labels': seq<real>, i: nat, n: nat)
    requires AgreeThrough(X, labels, X', labels', i) && n <= i + 1
    ensures RawSeries(e, X, labels, n) == RawSeries(e, X', labels', n)
    ensures n <= i ==> RawAt(e, X, labels, n) == RawAt(e, X', labels', n)
  {
    if n > 0 { FlatRawCausal(e, X, labels, X', labels', i, n - 1); }
    if n <= i { AgreeEarlier(X, labels, X', labels', i, n); }
  }

  /** Level 1 is leak-free: a session's output depends on nothing from its own label on. */
  lemma FlatCausal<F, M>(e: Flat<F, M>, X: seq<F>, labels: seq<real>, X': seq<F>, labels': seq<real>, i: nat)
    requires AgreeThrough(X, labels, X', labels', i)
    ensures OutAt(e, X, labels, i) == OutAt(e, X', labels', i)
  {
    FlatRawCausal(e, X, labels, X', labels', i, i);
  }

  lemma {:induction false} RowCausal<F, M, J>(s: Stacked<F, M, J>, X: seq<F>, labels: seq<real>, X': seq<F>,
                                             labels': seq<real>, i: nat, k: nat)
    requires AgreeThrough(X, labels, X', labels', i) && k <= |s.desks|
    ensures Row(s, X, labels, i, k) == Row(s, X', labels', i, k)
  {
    if k > 0 {
      RowCausal(s, X, labels, X', labels', i, k - 1);
      FlatCausal(Desk(s, k - 1), X, labels, X', labels', i);
    }
  }

  lemma {:induction false} RowsCausal<F, M, J>(s: Stacked<F, M, J>, X: seq<F>, labels: seq<real>, X': seq<F>,
                                              labels': seq<real>, i: nat, n: nat)
    requires AgreeThrough(X, labels, X', labels', i) && n <= i + 1
    ensures Rows(s, X, labels, n) == Rows(s, X', labels', n)
  {
    if n > 0 {
      RowsCausal(s, X, labels, X', labels', i, n - 1);
      AgreeEarlier(X, labels, X', labels', i, n - 1);
      RowCausal(s, X, labels, X', labels', n - 1, |s.desks|);
    }
  }

  lemma {:induction false} StackedRawCausal<F, M, J>(s: Stacked<F, M, J>, X: seq<F>, labels: seq<real>, X': seq<F>,
                                                    labels': seq<real>, i: nat, n: nat)
    requires AgreeThrough(X, labels, X', labels', i) && n <= i + 1
    ensures StackedRaw(s, X, labels, n) == StackedRaw(s, X', labels', n)
    ensures n <= i ==> StackedRawAt(s, X, labels, n) == StackedRawAt(s, X', labels', n)
  {
    hide Row, Rows;
    if n > 0 { StackedRawCausal(s, X, labels, X', labels', i, n - 1); }
    if Start(s) <= n <= i {
      AgreeEarlier(X, labels, X', labels', i, n);
      RowsCausal(s, X, labels, X', labels', i, FittedAt(Start(s), s.refitEvery, n));
      RowCausal(s, X, labels, X', labels', n, |s.desks|);
    }
  }

  /** Both levels are leak-free. */
  lemma StackedCausal<F, M, J>(s: Stacked<F, M, J>, X: seq<F>, labels: seq<real>, X': seq<F>, labels': seq<real>,
                               i: nat)
    requires AgreeThrough(X, labels, X', labels', i)
    ensures StackedOutAt(s, X, labels, i) == StackedOutAt(s, X', labels', i)
    ensures StackedRawAt(s, X, labels, i) == StackedRawAt(s, X', labels', i)
  {
    StackedRawCausal(s, X, labels, X', labels', i, i);
  }

  /** Whatever follows session `i`, the emitted series agree through `i`. */
  lemma {:induction false} StackedPrefixCausal<F, M, J>(s: Stacked<F, M, J>, X: seq<F>, labels: seq<real>,
                                                       X': seq<F>, labels': seq<real>, i: nat, n: nat)
    requires AgreeThrough(X, labels, X', labels', i) && n <= i + 1
    ensures StackedOut(s, X, labels, n) == StackedOut(s, X', labels', n)
  {
    hide StackedOutAt;
    if n > 0 {
      StackedPrefixCausal(s, X, labels, X', labels', i, n - 1);
      AgreeEarlier(X, labels, X', labels', i, n - 1);
      StackedCausal(s, X, labels, X', labels', n - 1);
    }
  }

  // ---- named configurations and live prediction ----------------------------------------------

  datatype Config<!F, !M, !J> = FlatConfig(flat: Flat<F, M>) | StackedConfig(stacked: Stacked<F, M, J>)

  function ConfigOutAt<F, M, J>(c: Config<F, M, J>, X: seq<F>, labels: seq<real>, i: nat): Option<real>
    requires i < |X| == |labels|
  {
    match c
    case FlatConfig(e) => OutAt(e, X, labels, i)
    case StackedConfig(s) => StackedOutAt(s, X, labels, i)
  }

  function ConfigOut<F, M, J>(c: Config<F, M, J>, X: seq<F>, labels: seq<real>): (r: seq<Option<real>>)
    requires |X| == |labels|
    ensures |r| == |X|
  {
    match c
    case FlatConfig(e) => OutSeries(e, X, labels, |X|)
    case StackedConfig(s) => StackedOut(s, X, labels, |X|)
  }

  function ConfigRaw<F, M, J>(c: Config<F, M, J>, X: seq<F>, labels: seq<real>): (r: seq<Option<real>>)
    requires |X| == |labels|
    ensures |r| == |X|
  {
    match c
    case FlatConfig(e) => RawSeries(e, X, labels, |X|)
    case StackedConfig(s) => StackedRaw(s, X, labels, |X|)
  }

  lemma {:induction false} StackedOutIs<F, M, J>(s: Stacked<F, M, J>, X: seq<F>, labels: seq<real>, n: nat, i: nat)
    requires i < n <= |X| == |labels|
    ensures StackedOut(s, X, labels, n)[i] == StackedOutAt(s, X, labels, i)
  {
    hide StackedOutAt;
    if i < n - 1 { StackedOutIs(s, X, labels, n - 1, i); }
  }

  lemma ConfigOutIs<F, M, J>(c: Config<F, M, J>, X: seq<F>, labels: seq<real>, i: nat)
    requires i < |X| == |labels|
    ensures ConfigOut(c, X, labels)[i] == ConfigOutAt(c, X, labels, i)
  {
    match c
    case FlatConfig(e) => OutSeriesAt(e, X, labels, |X|, i);
    case StackedConfig(s) => StackedOutIs(s, X, labels, |X|, i);
  }

  method ProbsForConfig<F, M, J>(c: Config<F, M, J>, X: seq<F>, labels: seq<real>)
    returns (out: seq<Option<real>>, rawOut: seq<Option<real>>)
    requires |X| == |labels|
    ensures out == ConfigOut(c, X, labels) && rawOut == ConfigRaw(c, X, labels)
  {
    match c
    case FlatConfig(e) => out, rawOut := WalkForwardProbs(e, X, labels);
    case StackedConfig(s) => out, rawOut := StackedWalkForwardProbs(s, X, labels);
  }

  /** Tonight's probability: the last emission with a placeholder 0.0 for tonight's label. */
  method PredictConfig<F, M, J>(c: Config<F, M, J>, X: seq<F>, labels: seq<real>, tonight: F)
    returns (p: Option<real>)
    requires |X| == |labels|
    ensures p == ConfigOutAt(c, X + [tonight], labels + [0.0], |X|)
  {
    var probs, _ := ProbsForConfig(c, X + [tonight], labels + [0.0]);
    ConfigOutIs(c, X + [tonight], labels + [0.0], |X|);
    p := probs[|probs| - 1];
  }

  /** The placeholder label is never read, whatever its value. */
  lemma PlaceholderIrrelevant<F, M, J>(c: Config<F, M, J>, X: seq<F>, labels: seq<real>, tonight: F, y: real)
    requires |X| == |labels|
    ensures ConfigOutAt(c, X + [tonight], labels + [y], |X|) == ConfigOutAt(c, X + [tonight], labels + [0.0], |X|)
  {
    var i := |X|;
    assert (labels + [y])[..i] == labels == (labels + [0.0])[..i];
    match c
    case FlatConfig(e) => FlatCausal(e, X + [tonight], labels + [y], X + [tonight], labels + [0.0], i);
    case StackedConfig(s) => StackedCausal(s, X + [tonight], labels + [y], X + [tonight], labels + [0.0], i);
  }

  /** Live prediction before session `i` is exactly what the replay of the whole archive reports for session `i`. */
  lemma LiveIsReplay<F, M, J>(c: Config<F, M, J>, X: seq<F>, labels: seq<real>, i: nat)
    requires i < |X| == |labels|
    ensures ConfigOutAt(c, X[..i] + [X[i]], labels[..i] + [0.0], i) == ConfigOut(c, X, labels)[i]
  {
    var X', labels' := X[..i] + [X[i]], labels[..i] + [0.0];
    assert X'[..i + 1] == X[..i + 1] && labels'[..i] == labels[..i];
    ConfigOutIs(c, X, labels, i);
    match c
    case FlatConfig(e) => FlatCausal(e, X', labels', X, labels, i);
    case StackedConfig(s) => StackedCausal(s, X', labels', X, labels, i);
  }

  // ---- the stored ledger -----------------------------------------------------------------------

  datatype Source = Replay | ReplayRaw

  datatype ReplayError = TooFewSessions(n: nat)

  /** The `adaptive_calibration` table: one row per pair, bucket and source. */
  class CalibrationStore {
    var rows: map<(string, Bucket, Source), Tally>

    constructor ()
      ensures rows == map[]
    {
      rows := map[];
    }

    /** `stored_replay`: the buckets on file for one pair and source. */
    function Stored(pair: string, source: Source): Ledger
      reads this
    {
      map b | b in ALL && (pair, b, source) in rows :: rows[(pair, b, source)]
    }

    /** Upsert one ledger, every bucket of it; no other pair's or source's ledger changes. */
    method Save(pair: string, source: Source, t: Ledger)
      requires t.Keys == ALL
      modifies this
      ensures Stored(pair, source) == t
      ensures forall p, s :: p != pair || s != source ==> Stored(p, s) == old(Stored(p, s))
    {
      var added := map b | b in ALL :: (pair, b, source) := t[b];
      rows := rows + added;
      assert forall b :: b in ALL ==> rows[(pair, b, source)] == t[b];
    }

    /** `replay_calibration`: walk the archive forward, then store the anchored and the raw ledgers. */
    method ReplayCalibration<F, M, J>(pair: string, c: Config<F, M, J>, X: seq<F>, labels: seq<real>)
      returns (r: Result<Ledger, ReplayError>)
      requires |X| == |labels|
      modifies this
      ensures |X| < 200 ==> r == Err(TooFewSessions(|X|)) && rows == old(rows)
      ensures |X| >= 200 ==> r.Ok? && Stored(pair, Replay) == BatchTally(ConfigOut(c, X, labels), labels)
      ensures |X| >= 200 ==> Stored(pair, ReplayRaw) == BatchTally(ConfigRaw(c, X, labels), labels)
      ensures forall p, s :: p != pair ==> Stored(p, s) == old(Stored(p, s))
    {
      hide ConfigOut, ConfigRaw;
      if |X| < 200 {
        return Err(TooFewSessions(|X|));
      }
      var probs, raw := ProbsForConfig(c, X, labels);
      var buckets := TallyRecord(probs, labels);
      var rawBuckets := TallyRecord(raw, labels);
      Save(pair, Replay, buckets.value);
      Save(pair, ReplayRaw, rawBuckets.value);
      r := Ok(buckets.value);
    }

    /** `anchor_live_prob`: the stored raw ledger anchors tonight's raw value; without one it passes through. */
    method AnchorLiveProb(pair: string, raw: real) returns (p: real)
      ensures Stored(pair, ReplayRaw) == map[] ==> p == raw
      ensures Stored(pair, ReplayRaw) != map[] ==> p == Recalibrate(raw, Stored(pair, ReplayRaw))
    {
      var t := Stored(pair, ReplayRaw);
      p := if t != map[] then Recalibrate(raw, t) else raw;
    }
  }

  function ConfigRawAt<F, M, J>(c: Config<F, M, J>, X: seq<F>, labels: seq<real>, i: nat): Option<real>
    requires i < |X| == |labels|
  {
    match c
    case FlatConfig(e) => RawAt(e, X, labels, i)
    case StackedConfig(s) => StackedRawAt(s, X, labels, i)
  }

  predicate Recalibrates<F, M, J>(c: Config<F, M, J>)
  {
    match c
    case FlatConfig(e) => e.recalibrate
    case StackedConfig(s) => s.recalibrate
  }

  /** Anchoring tonight's raw value with the ledger of the archive's raw series is the walk-forward's own next step. */
  lemma LiveAnchorIsNextStep<F, M, J>(c: Config<F, M, J>, X: seq<F>, labels: seq<real>, tonight: F, y: real)
    requires |X| == |labels| && Recalibrates(c)
    requires ConfigRawAt(c, X + [tonight], labels + [y], |X|).Some?
    ensures var raw := ConfigRawAt(c, X + [tonight], labels + [y], |X|).value;
            && BatchTally(ConfigRaw(c, X, labels), labels) != map[]
            && ConfigOutAt(c, X + [tonight], labels + [y], |X|)
               == Some(Recalibrate(raw, BatchTally(ConfigRaw(c, X, labels), labels)))
  {
    var n, X', labels' := |X|, X + [tonight], labels + [y];
    assert labels'[..n] == labels;
    assert From50 in BatchTally(ConfigRaw(c, X, labels), labels);
    match c
    case FlatConfig(e) => RawSeriesOfPrefix(e, X, labels, X', labels', n);
    case StackedConfig(s) => StackedRawOfPrefix(s, X, labels, X', labels', n);
  }

  /** Every anchored emission stays on its raw side of 1/2, at a distance of at least 0.0005 and below 1/2; without
      anchoring the raw value itself is emitted, and silence is emitted exactly where there is no raw value. */
  lemma EmissionKeepsSide<F, M, J>(c: Config<F, M, J>, X: seq<F>, labels: seq<real>, i: nat)
    requires i < |X| == |labels|
    ensures var raw, out := ConfigRawAt(c, X, labels, i), ConfigOutAt(c, X, labels, i);
            && (out.None? <==> raw.None?)
            && (raw.Some? && !Recalibrates(c) ==> out == raw)
            && (raw.Some? && Recalibrates(c) ==>
                  0.0005 <= Abs(out.value - 0.5) < 0.5 && (out.value > 0.5 <==> raw.value > 0.5))
  {
    hide Recalibrate, BatchTally, RawAt, StackedRawAt;
    var raw := ConfigRawAt(c, X, labels, i);
    var past := match c
      case FlatConfig(e) => RawSeries(e, X, labels, i)
      case StackedConfig(s) => StackedRaw(s, X, labels, i);
    LedgerIsSound(past, labels[..i]);
    if raw.Some? { AnchorKeepsSide(raw.value, BatchTally(past, labels[..i])); }
  }

  /** The raw series of an archive is the beginning of the raw series of any extension. */
  lemma {:induction false} RawSeriesOfPrefix<F, M>(e: Flat<F, M>, X: seq<F>, labels: seq<real>, X': seq<F>,
                                                  labels': seq<real>, n: nat)
    requires n <= |X| == |labels| && X <= X' && labels <= labels' && |X'| == |labels'|
    ensures RawSeries(e, X, labels, n) == RawSeries(e, X', labels', n)
  {
    if n > 0 {
      assert AgreeThrough(X, labels, X', labels', n - 1);
      FlatRawCausal(e, X, labels, X', labels', n - 1, n);
    }
  }

  lemma StackedRawOfPrefix<F, M, J>(s: Stacked<F, M, J>, X: seq<F>, labels: seq<real>, X': seq<F>,
                                    labels': seq<real>, n: nat)
    requires n <= |X| == |labels| && X <= X' && labels <= labels' && |X'| == |labels'|
    ensures StackedRaw(s, X, labels, n) == StackedRaw(s, X', labels', n)
  {
    hide StackedRawAt;
    if n > 0 {
      assert AgreeThrough(X, labels, X', labels', n - 1);
      StackedRawCausal(s, X, labels, X', labels', n - 1, n);
    }
  }
}
