/** Peeking at the pooled evidence after every session (src/surge/duel/verify.py): the e-value that
    `pooled_paired_evalue` returns is anytime-valid over a schedule of reports exactly when no report comes in
    behind one already pooled. */
module PooledPeeking {
  import opened Prelude
  import opened Martingale
  import opened EProcess
  import opened Pooling
  import opened PooledEvidence

  // ---- schedules -----------------------------------------------------------------------------------

  /** The place of a report: the stream that makes it and the date it bears. */
  datatype Slot = Slot(stream: nat, date: string)

  type Schedule = nat -> Slot

  /** Every report comes from one of `k` streams. */
  ghost predicate Among(at: Schedule, k: nat)
  {
    forall t: nat :: at(t).stream < k
  }

  /** The streams after the sessions `h` were reported one by one. */
  ghost function StreamsOf(k: nat, at: Schedule, h: seq<Session>): (streams: seq<seq<Session>>)
    requires Among(at, k)
    ensures |streams| == k
  {
    if h == [] then seq(k, i => [])
    else Reported(StreamsOf(k, at, h[..|h| - 1]), at(|h| - 1).stream, h[|h| - 1])
  }

  ghost predicate Dated(at: Schedule, h: seq<Session>)
  {
    forall t: nat :: t < |h| ==> h[t].date == at(t).date
  }

  /** The law of outcomes respects the schedule's dates. */
  ghost predicate OnSchedule(law: seq<Session> -> seq<Branch<Session>>, at: Schedule)
  {
    forall h: seq<Session>, i: nat :: i < |law(h)| ==> law(h)[i].value.date == at(|h|).date
  }

  /** Report `t` does not fall behind report `s` in the merge: it is dated no earlier, and on the same date it is of
      the same or a later stream. */
  ghost predicate Behind(at: Schedule, s: nat, t: nat)
  {
    LexLe(at(s).date, at(t).date) && (at(s).date == at(t).date ==> at(s).stream <= at(t).stream)
  }

  ghost predicate InOrder(at: Schedule)
  {
    forall s: nat, t: nat :: s < t ==> Behind(at, s, t)
  }

  /** What `pooled_paired_evalue` returns after the sessions `h`. */
  ghost function PooledValue(prior: Prior, k: nat, at: Schedule): seq<Session> -> real
    requires Among(at, k)
  {
    h => Evalue(PooledCoins(StreamsOf(k, at, h)), Some(0.5), prior)
  }

  /** No rule for when to stop looking makes the mean of the returned value exceed 1, under any law without an edge. */
  ghost predicate PeekSafe(prior: Prior, k: nat, at: Schedule)
    requires Among(at, k)
  {
    forall law: seq<Session> -> seq<Branch<Session>>, stop: seq<Session> -> bool, n: nat ::
      NoEdge(law) && OnSchedule(law, at) ==> Expect(StoppedProcess(PooledValue(prior, k, at), stop), law, [], n) <= 1.0
  }

  lemma StreamsSnoc(k: nat, at: Schedule, h: seq<Session>, v: Session)
    requires Among(at, k)
    ensures StreamsOf(k, at, h + [v]) == Reported(StreamsOf(k, at, h), at(|h|).stream, v)
  {
    assert (h + [v])[..|h|] == h;
  }

  lemma {:induction false} FlattenMembers(streams: seq<seq<Session>>, x: Session)
    ensures x in Flatten(streams) <==> exists i: nat :: i < |streams| && x in streams[i]
  {
    if streams != [] {
      FlattenMembers(streams[1..], x);
      assert forall i: nat :: i < |streams| - 1 ==> streams[1..][i] == streams[i + 1];
      if x in Flatten(streams[1..]) {
        var i: nat :| i < |streams[1..]| && x in streams[1..][i];
        assert x in streams[i + 1];
      }
      if i: nat :| i < |streams| && x in streams[i] {
        if i > 0 { assert x in streams[1..][i - 1]; }
      }
    }
  }

  lemma {:induction false} FlattenEmpty(streams: seq<seq<Session>>)
    requires forall i :: 0 <= i < |streams| ==> streams[i] == []
    ensures Flatten(streams) == []
  {
    if streams != [] {
      FlattenEmpty(streams[1..]);
    }
  }

  lemma NothingPooled(k: nat, at: Schedule)
    requires Among(at, k)
    ensures Flatten(StreamsOf(k, at, [])) == [] == SortByDate([])
    ensures PooledCoins(StreamsOf(k, at, [])) == []
  {
    FlattenEmpty(StreamsOf(k, at, []));
  }

  /** `x` is one of the first sessions reported, and stream `j` reported it. */
  ghost predicate CameFrom(at: Schedule, h: seq<Session>, j: nat, x: Session)
  {
    exists t: nat :: t < |h| && at(t).stream == j && h[t] == x
  }

  lemma {:induction false} StreamMembers(k: nat, at: Schedule, h: seq<Session>, j: nat, x: Session)
    requires Among(at, k) && j < k
    ensures x in StreamsOf(k, at, h)[j] <==> CameFrom(at, h, j, x)
  {
    if h != [] {
      var past, v, i := h[..|h| - 1], h[|h| - 1], at(|h| - 1).stream;
      StreamMembers(k, at, past, j, x);
      assert StreamsOf(k, at, h)[j] == if i == j then StreamsOf(k, at, past)[j] + [v] else StreamsOf(k, at, past)[j];
      if CameFrom(at, past, j, x) {
        var t: nat :| t < |past| && at(t).stream == j && past[t] == x;
        assert h[t] == x;
      }
      if CameFrom(at, h, j, x) {
        var t: nat :| t < |h| && at(t).stream == j && h[t] == x;
        if t < |past| { assert past[t] == x; }
      }
    }
  }

  // ---- reports in order: the pooled record is the record as it arrives -------------------------------

  lemma InOrderComesLast(k: nat, at: Schedule, h: seq<Session>, v: Session)
    requires Among(at, k) && InOrder(at) && Dated(at, h) && v.date == at(|h|).date
    ensures var streams, j := StreamsOf(k, at, h), at(|h|).stream;
            ComesLast(Flatten(streams[..j + 1]), v, Flatten(streams[j + 1..]))
  {
    hide StreamsOf, Flatten, LexLe;
    var streams, j := StreamsOf(k, at, h), at(|h|).stream;
    forall x | x in Flatten(streams[..j + 1]) ensures LexLe(x.date, v.date) {
      FlattenMembers(streams[..j + 1], x);
      var i: nat :| i < j + 1 && x in streams[..j + 1][i];
      EarlierReport(k, at, h, i, x);
    }
    forall x | x in Flatten(streams[j + 1..]) ensures LexLe(x.date, v.date) && x.date != v.date {
      FlattenMembers(streams[j + 1..], x);
      var i: nat :| i < |streams[j + 1..]| && x in streams[j + 1..][i];
      EarlierReport(k, at, h, j + 1 + i, x);
    }
  }

  lemma EarlierReport(k: nat, at: Schedule, h: seq<Session>, i: nat, x: Session)
    requires Among(at, k) && InOrder(at) && Dated(at, h) && i < k && x in StreamsOf(k, at, h)[i]
    ensures LexLe(x.date, at(|h|).date) && (x.date == at(|h|).date ==> i <= at(|h|).stream)
  {
    hide StreamsOf, LexLe;
    StreamMembers(k, at, h, i, x);
    var t: nat :| t < |h| && at(t).stream == i && h[t] == x;
    assert Behind(at, t, |h|);
  }

  /** While reports come in order, the test tosses the coins in the order of arrival. */
  lemma {:induction false} PooledAsReported(k: nat, at: Schedule, h: seq<Session>)
    requires Among(at, k) && InOrder(at) && Dated(at, h)
    ensures PooledCoins(StreamsOf(k, at, h)) == Coins(h)
  {
    if h == [] {
      NothingPooled(k, at);
    } else {
      hide PooledCoins, StreamsOf, Coins, ComesLast;
      var past, v := h[..|h| - 1], h[|h| - 1];
      assert h == past + [v];
      PooledAsReported(k, at, past);
      InOrderComesLast(k, at, past, v);
      StreamsSnoc(k, at, past, v);
      PooledCoinsGrow(StreamsOf(k, at, past), at(|past|).stream, v);
      CoinsSnoc(past, v);
    }
  }

  lemma {:induction false} ReachableDated(law: seq<Session> -> seq<Branch<Session>>, at: Schedule, h: seq<Session>)
    requires OnSchedule(law, at) && Reachable(law, h)
    ensures Dated(at, h)
  {
    if h != [] {
      ReachableDated(law, at, h[..|h| - 1]);
    }
  }

  lemma ValueBelowProcess(prior: Prior, k: nat, at: Schedule, h: seq<Session>)
    requires Among(at, k) && InOrder(at) && Dated(at, h)
    ensures PooledValue(prior, k, at)(h) <= SessionProcess(prior)(h)
  {
    hide StreamsOf, PooledCoins, Coins, Process;
    PooledAsReported(k, at, h);
    ProcessPositive(Coins(h), prior, HALF);
  }

  lemma {:induction false} StoppedBelow(f: seq<Session> -> real, g: seq<Session> -> real, stop: seq<Session> -> bool,
                                        law: seq<Session> -> seq<Branch<Session>>, h: seq<Session>)
    requires Reachable(law, h) && forall r: seq<Session> :: Reachable(law, r) ==> f(r) <= g(r)
    ensures Stopped(f, stop, h) <= Stopped(g, stop, h)
  {
    if h != [] {
      StoppedBelow(f, g, stop, law, h[..|h| - 1]);
    }
  }

  lemma {:induction false} HitBelow(f: seq<Session> -> real, g: seq<Session> -> real, thr: real,
                                    law: seq<Session> -> seq<Branch<Session>>, h: seq<Session>)
    requires Reachable(law, h) && forall r: seq<Session> :: Reachable(law, r) ==> f(r) <= g(r)
    ensures FirstHit(f, thr, h).Some? ==> FirstHit(g, thr, h).Some?
  {
    if h != [] {
      HitBelow(f, g, thr, law, h[..|h| - 1]);
    }
  }

  /** With reports in order, peeking at the value `pooled_paired_evalue` returns is safe after every session, for any
      prior: stopped mean at most 1, and a threshold is reached with probability at most its inverse. */
  lemma InOrderValid(prior: Prior, k: nat, at: Schedule, law: seq<Session> -> seq<Branch<Session>>,
                     stop: seq<Session> -> bool, thr: real, n: nat)
    requires Among(at, k) && InOrder(at) && NoEdge(law) && OnSchedule(law, at) && thr > 0.0
    ensures Expect(StoppedProcess(PooledValue(prior, k, at), stop), law, [], n) <= 1.0
    ensures Prob(HitEvent(PooledValue(prior, k, at), thr), law, n) <= 1.0 / thr
  {
    hide NoEdge, Expect, Reachable, Stopped, FirstHit, PooledValue, SessionProcess, InOrder, OnSchedule;
    var f, g := PooledValue(prior, k, at), SessionProcess(prior);
    SessionsDrift(prior, law);
    PoolingValid(prior, law, stop, thr, n);
    forall r: seq<Session> | Reachable(law, r) ensures f(r) <= g(r) {
      ReachableDated(law, at, r);
      ValueBelowProcess(prior, k, at, r);
    }
    forall r: seq<Session> | Reachable(law, r)
      ensures StoppedProcess(f, stop)(r) <= StoppedProcess(g, stop)(r)
      ensures Indicator(HitEvent(f, thr))(r) <= Indicator(HitEvent(g, thr))(r)
    {
      StoppedBelow(f, g, stop, law, r);
      HitBelow(f, g, thr, law, r);
    }
    NothingSeen(law);
    ExpectDominated(StoppedProcess(f, stop), StoppedProcess(g, stop), law, [], n);
    ExpectDominated(Indicator(HitEvent(f, thr)), Indicator(HitEvent(g, thr)), law, [], n);
  }

  lemma NothingSeen(law: seq<Session> -> seq<Branch<Session>>)
    ensures Reachable(law, [])
  {
  }

  // ---- a report that falls behind ----------------------------------------------------------------------

  /** A session on which exactly one of the two is right: the strategy if `win`. */
  function Toss(date: string, win: bool): Session
  {
    if win then Session(date, 1, 0) else Session(date, 0, 1)
  }

  /** Reports `i` and `j` are fair coins; on all others strategy and baseline agree. */
  ghost function LateLaw(at: Schedule, i: nat, j: nat): seq<Session> -> seq<Branch<Session>>
  {
    h => if |h| == i || |h| == j then [Branch(0.5, Toss(at(|h|).date, true)), Branch(0.5, Toss(at(|h|).date, false))]
         else [Branch(1.0, Session(at(|h|).date, 0, 0))]
  }

  lemma LateLawHasNoEdge(at: Schedule, i: nat, j: nat)
    ensures NoEdge(LateLaw(at, i, j)) && OnSchedule(LateLaw(at, i, j), at)
  {
    forall h: seq<Session>
      ensures var bs := LateLaw(at, i, j)(h); IsDistribution(bs) && AloneWeight(bs, 1) <= AloneWeight(bs, 0)
    {
      var bs := LateLaw(at, i, j)(h);
      if |h| == i || |h| == j {
        var rest := bs[1..];
        assert rest == [Branch(0.5, Toss(at(|h|).date, false))] && rest[1..] == [];
        assert TotalWeight(rest[1..]) == 0.0 && TotalWeight(rest) == 0.5;
        forall x: int ensures AloneWeight(rest, x) == if x == 0 then 0.5 else 0.0 {
          assert AloneWeight(rest[1..], x) == 0.0;
        }
      } else {
        assert bs[1..] == [];
      }
    }
  }

  /** The rule: look once, after report `i`, and stop if it was a loss. */
  ghost function AfterLoss(i: nat): seq<Session> -> bool
  {
    (h: seq<Session>) => |h| == i + 1 && h[i].strat == 0
  }

  /** Report `t` when coins `i` and `j` fall `a` and `b`. */
  function Outcome(at: Schedule, i: nat, j: nat, a: bool, b: bool, t: nat): Session
  {
    if t == i then Toss(at(t).date, a) else if t == j then Toss(at(t).date, b) else Session(at(t).date, 0, 0)
  }

  /** The first `t` reports. */
  ghost function Tape(at: Schedule, i: nat, j: nat, a: bool, b: bool, t: nat): (h: seq<Session>)
    ensures |h| == t
  {
    if t == 0 then [] else Tape(at, i, j, a, b, t - 1) + [Outcome(at, i, j, a, b, t - 1)]
  }

  lemma {:induction false} TapeAt(at: Schedule, i: nat, j: nat, a: bool, b: bool, t: nat, u: nat)
    requires u < t
    ensures Tape(at, i, j, a, b, t)[u] == Outcome(at, i, j, a, b, u)
    ensures Tape(at, i, j, a, b, t)[..u] == Tape(at, i, j, a, b, u)
  {
    if u < t - 1 {
      TapeAt(at, i, j, a, b, t - 1, u);
      assert Tape(at, i, j, a, b, t)[..u] == Tape(at, i, j, a, b, t - 1)[..u];
    } else {
      assert Tape(at, i, j, a, b, t)[..u] == Tape(at, i, j, a, b, u);
    }
  }

  /** Coins not yet tossed do not matter. */
  lemma {:induction false} TapesAgree(at: Schedule, i: nat, j: nat, a: bool, b: bool, a': bool, b': bool, t: nat)
    requires (t <= i || a == a') && (t <= j || b == b')
    ensures Tape(at, i, j, a, b, t) == Tape(at, i, j, a', b', t)
  {
    if t > 0 {
      TapesAgree(at, i, j, a, b, a', b', t - 1);
    }
  }

  // ---- the mean under that law ---------------------------------------------------------------------------

  lemma OneBranch(f: seq<Session> -> real, v: Session, h: seq<Session>)
    ensures StepMean(f, [Branch(1.0, v)], h) == f(h + [v])
  {
    var bs := [Branch(1.0, v)];
    assert bs[1..] == [];
  }

  lemma TwoHalves(f: seq<Session> -> real, v: Session, w: Session, h: seq<Session>)
    ensures StepMean(f, [Branch(0.5, v), Branch(0.5, w)], h) == 0.5 * f(h + [v]) + 0.5 * f(h + [w])
  {
    var bs := [Branch(0.5, v), Branch(0.5, w)];
    assert bs[1..] == [Branch(0.5, w)] && bs[1..][1..] == [];
    assert StepMean(f, bs[1..], h) == 0.5 * f(h + [w]);
  }

  lemma SureStep(f: seq<Session> -> real, law: seq<Session> -> seq<Branch<Session>>, h: seq<Session>, v: Session,
                 n: nat)
    requires law(h) == [Branch(1.0, v)]
    ensures Expect(f, law, h, n + 1) == Expect(f, law, h + [v], n)
  {
    hide StepMean;
    OneBranch(g => Expect(f, law, g, n), v, h);
  }

  lemma Agreed(at: Schedule, i: nat, j: nat, a: bool, b: bool, t: nat)
    requires t != i && t != j
    ensures LateLaw(at, i, j)(Tape(at, i, j, a, b, t)) == [Branch(1.0, Outcome(at, i, j, a, b, t))]
  {
  }

  lemma TapeEnd(at: Schedule, i: nat, j: nat, a: bool, b: bool, t: nat)
    ensures Tape(at, i, j, a, b, t + 1) == Tape(at, i, j, a, b, t) + [Outcome(at, i, j, a, b, t)]
  {
  }

  /** Reports on which both agree leave the mean to the next coin. */
  lemma {:induction false} Quiet(f: seq<Session> -> real, at: Schedule, i: nat, j: nat, a: bool, b: bool,
                                 t: nat, m: nat, n: nat)
    requires (i < t || t + m <= i) && (j < t || t + m <= j)
    ensures Expect(f, LateLaw(at, i, j), Tape(at, i, j, a, b, t), m + n)
            == Expect(f, LateLaw(at, i, j), Tape(at, i, j, a, b, t + m), n)
    decreases m
  {
    if m > 0 {
      hide Expect, StepMean, LateLaw, Outcome, Tape;
      Agreed(at, i, j, a, b, t);
      TapeEnd(at, i, j, a, b, t);
      SureStep(f, LateLaw(at, i, j), Tape(at, i, j, a, b, t), Outcome(at, i, j, a, b, t), m - 1 + n);
      Quiet(f, at, i, j, a, b, t + 1, m - 1, n);
    }
  }

  /** A coin splits the mean. */
  lemma Splits(f: seq<Session> -> real, at: Schedule, i: nat, j: nat, a: bool, b: bool, t: nat, n: nat)
    requires i < j && (t == i || t == j)
    ensures var law := LateLaw(at, i, j);
            var won := if t == i then Tape(at, i, j, true, b, t + 1) else Tape(at, i, j, a, true, t + 1);
            var lost := if t == i then Tape(at, i, j, false, b, t + 1) else Tape(at, i, j, a, false, t + 1);
            Expect(f, law, Tape(at, i, j, a, b, t), n + 1)
            == 0.5 * Expect(f, law, won, n) + 0.5 * Expect(f, law, lost, n)
  {
    var law, h := LateLaw(at, i, j), Tape(at, i, j, a, b, t);
    TwoHalves(g => Expect(f, law, g, n), Toss(at(t).date, true), Toss(at(t).date, false), h);
    TapesAgree(at, i, j, a, b, true, b, i);
    TapesAgree(at, i, j, a, b, false, b, i);
    TapesAgree(at, i, j, a, b, a, true, j);
    TapesAgree(at, i, j, a, b, a, false, j);
  }

  /** After report `j` there are four equally likely records. */
  lemma FourEnds(f: seq<Session> -> real, at: Schedule, i: nat, j: nat)
    requires i < j
    ensures Expect(f, LateLaw(at, i, j), [], j + 1)
            == 0.25 * (f(Tape(at, i, j, true, true, j + 1)) + f(Tape(at, i, j, true, false, j + 1))
                       + f(Tape(at, i, j, false, true, j + 1)) + f(Tape(at, i, j, false, false, j + 1)))
  {
    hide Expect, LateLaw, Outcome;
    Quiet(f, at, i, j, true, true, 0, i, j + 1 - i);
    Splits(f, at, i, j, true, true, i, j - i);
    HalfWay(f, at, i, j, true);
    HalfWay(f, at, i, j, false);
  }

  lemma HalfWay(f: seq<Session> -> real, at: Schedule, i: nat, j: nat, a: bool)
    requires i < j
    ensures Expect(f, LateLaw(at, i, j), Tape(at, i, j, a, true, i + 1), j - i)
            == 0.5 * f(Tape(at, i, j, a, true, j + 1)) + 0.5 * f(Tape(at, i, j, a, false, j + 1))
  {
    hide LateLaw, Outcome, Tape;
    Quiet(f, at, i, j, a, true, i + 1, j - i - 1, 1);
    Splits(f, at, i, j, a, true, j, 0);
  }

  // ---- what the test returns on those records ----------------------------------------------------------------

  /** A report on which both agree adds nothing to the disagreements of the merge. */
  lemma MergeReported(k: nat, at: Schedule, h: seq<Session>, v: Session)
    requires Among(at, k)
    ensures var before, after := Disagreements(Flatten(StreamsOf(k, at, h)[..at(|h|).stream + 1])),
                                 Disagreements(Flatten(StreamsOf(k, at, h)[at(|h|).stream + 1..]));
            && Disagreements(Flatten(StreamsOf(k, at, h))) == before + after
            && Disagreements(Flatten(StreamsOf(k, at, h + [v]))) == before + Disagreements([v]) + after
  {
    hide Flatten, Reported, Disagreements;
    var streams, j := StreamsOf(k, at, h), at(|h|).stream;
    StreamsSnoc(k, at, h, v);
    ReportedMerge(streams, j, v);
    var before, after := Flatten(streams[..j + 1]), Flatten(streams[j + 1..]);
    DisagreementsConcat(before, after);
    DisagreementsConcat(before + [v], after);
    DisagreementsConcat(before, [v]);
  }

  lemma DisagreementAlone(v: Session)
    ensures Disagreements([v]) == if v.strat != v.base then [v] else []
  {
    assert [v][1..] == [];
  }

  lemma {:induction false} DisagreementMembers(s: seq<Session>, x: Session)
    ensures x in Disagreements(s) <==> x in s && x.strat != x.base
  {
    if s != [] {
      DisagreementMembers(s[1..], x);
      assert s == [s[0]] + s[1..];
    }
  }

  /** Before the late report only the first coin is in the merge. */
  lemma {:induction false} MergeBeforeLate(k: nat, at: Schedule, i: nat, j: nat, a: bool, b: bool, t: nat)
    requires Among(at, k) && i < j && t <= j
    ensures Disagreements(Flatten(StreamsOf(k, at, Tape(at, i, j, a, b, t))))
            == if t <= i then [] else [Toss(at(i).date, a)]
  {
    hide StreamsOf, Flatten, Disagreements;
    if t == 0 {
      NothingPooled(k, at);
      NoDisagreements();
    } else {
      var h, v := Tape(at, i, j, a, b, t - 1), Outcome(at, i, j, a, b, t - 1);
      MergeBeforeLate(k, at, i, j, a, b, t - 1);
      MergeReported(k, at, h, v);
      DisagreementAlone(v);
    }
  }

  lemma NoDisagreements()
    ensures Disagreements([]) == []
  {
  }

  /** On the same date, a coin of a later stream stays behind the report of an earlier one. */
  lemma LateGoesFirst(k: nat, at: Schedule, i: nat, j: nat, a: bool, b: bool)
    requires Among(at, k) && i < j && at(j).stream < at(i).stream
    ensures Disagreements(Flatten(StreamsOf(k, at, Tape(at, i, j, a, b, j + 1))))
            == [Toss(at(j).date, b), Toss(at(i).date, a)]
  {
    hide StreamsOf, Flatten, Disagreements, Tape;
    var h, v, x := Tape(at, i, j, a, b, j), Toss(at(j).date, b), Toss(at(i).date, a);
    var streams, s := StreamsOf(k, at, h), at(j).stream;
    assert Tape(at, i, j, a, b, j + 1) == h + [v] by { TapeEnd(at, i, j, a, b, j); }
    MergeBeforeLate(k, at, i, j, a, b, j);
    MergeReported(k, at, h, v);
    DisagreementAlone(v);
    TapeAt(at, i, j, a, b, j, i);
    assert CameFrom(at, h, at(i).stream, x);
    StreamMembers(k, at, h, at(i).stream, x);
    assert streams[s + 1..][at(i).stream - s - 1] == streams[at(i).stream];
    FlattenMembers(streams[s + 1..], x);
    DisagreementMembers(Flatten(streams[s + 1..]), x);
    OnlyOne(Disagreements(Flatten(streams[..s + 1])), Disagreements(Flatten(streams[s + 1..])), x);
  }

  lemma OnlyOne(before: seq<Session>, after: seq<Session>, x: Session)
    requires before + after == [x] && x in after
    ensures before == [] && after == [x]
  {
    assert |before| + |after| == 1;
    assert |after| >= 1;
    assert before == [];
    assert before + after == after;
  }

  /** Either way round, the two coins are in the merge. */
  lemma BothInMerge(k: nat, at: Schedule, i: nat, j: nat, a: bool, b: bool)
    requires Among(at, k) && i < j
    ensures var d, v, x := Disagreements(Flatten(StreamsOf(k, at, Tape(at, i, j, a, b, j + 1)))),
                           Toss(at(j).date, b), Toss(at(i).date, a);
            d == [v, x] || d == [x, v]
  {
    hide StreamsOf, Flatten, Disagreements, Tape;
    var h, v, x := Tape(at, i, j, a, b, j), Toss(at(j).date, b), Toss(at(i).date, a);
    var streams, s := StreamsOf(k, at, h), at(j).stream;
    assert Tape(at, i, j, a, b, j + 1) == h + [v] by { TapeEnd(at, i, j, a, b, j); }
    MergeBeforeLate(k, at, i, j, a, b, j);
    MergeReported(k, at, h, v);
    DisagreementAlone(v);
    var before, after := Disagreements(Flatten(streams[..s + 1])), Disagreements(Flatten(streams[s + 1..]));
    assert before + after == [x];
    if before == [] {
      assert before + after == after;
    } else {
      assert |before| + |after| == 1;
      assert after == [];
      assert before + after == before;
    }
  }

  lemma SortPair(x: Session, y: Session)
    ensures SortByDate([x, y]) == if LexLe(x.date, y.date) then [x, y] else [y, x]
  {
    assert [x, y][1..] == [y] && [y][1..] == [];
    assert SortByDate([y]) == Insert(y, []) == [y];
    assert [y][1..] == [] && Insert(x, []) == [x];
  }

  lemma CoinsOfPair(x: Session, y: Session)
    requires Disagrees(x) && Disagrees(y)
    ensures Coins([x, y]) == [Coin(x), Coin(y)]
    ensures Coins([x]) == [Coin(x)]
  {
    CoinsSnoc([], x);
    CoinsSnoc([x], y);
    assert [] + [x] == [x] && [x] + [y] == [x, y];
  }

  /** The late coin is tossed first. */
  lemma LateCoinFirst(k: nat, at: Schedule, i: nat, j: nat, a: bool, b: bool)
    requires Among(at, k) && i < j && !Behind(at, i, j)
    ensures PooledCoins(StreamsOf(k, at, Tape(at, i, j, a, b, j + 1))) == [if b then 1 else 0, if a then 1 else 0]
  {
    hide StreamsOf, Flatten, Disagreements, Tape, LexLe, PooledCoins, Coins, SortByDate;
    var v, x := Toss(at(j).date, b), Toss(at(i).date, a);
    PooledCount(StreamsOf(k, at, Tape(at, i, j, a, b, j + 1)));
    BothInMerge(k, at, i, j, a, b);
    SortPair(v, x);
    SortPair(x, v);
    LexTotal(v.date, x.date);
    CoinsOfPair(v, x);
    if LexLe(at(i).date, at(j).date) { LateGoesFirst(k, at, i, j, a, b); }
  }

  lemma FirstCoinAlone(k: nat, at: Schedule, i: nat, j: nat, a: bool, b: bool)
    requires Among(at, k) && i < j
    ensures PooledCoins(StreamsOf(k, at, Tape(at, i, j, a, b, i + 1))) == [if a then 1 else 0]
  {
    hide StreamsOf, Flatten, Disagreements, Tape, PooledCoins, Coins, SortByDate;
    var x := Toss(at(i).date, a);
    PooledCount(StreamsOf(k, at, Tape(at, i, j, a, b, i + 1)));
    MergeBeforeLate(k, at, i, j, a, b, i + 1);
    SortOne(x);
    CoinsOfPair(x, x);
  }

  lemma SortOne(x: Session)
    ensures SortByDate([x]) == [x]
  {
    assert [x][1..] == [];
  }

  // ---- the evidence of two coins -----------------------------------------------------------------------------

  /** Pseudo-counts that lean to neither side: the prior of the family test. */
  function Neutral(weight: real): Prior
    requires weight >= 0.0
  {
    MakePrior(Some(0.5), weight)
  }

  /** The bets after nothing, after a loss and after a win. */
  lemma NeutralBets(weight: real)
    requires weight >= 0.0
    ensures Phat(0, 0, Neutral(weight), HALF) == 0.5
    ensures Phat(0, 1, Neutral(weight), HALF) == 0.5
    ensures Phat(1, 1, Neutral(weight), HALF) == 0.5 + 0.5 / (weight + 2.0)
  {
    var u := 0.5 / (weight + 2.0);
    assert u * (weight + 2.0) == 0.5;
    assert 0.0 < u <= 0.25 by {
      if u <= 0.0 { MulMono(u, 0.0, weight + 2.0); }
      if u > 0.25 { MulStrict(0.25, u, weight + 2.0); }
    }
    DivLe(weight * 0.5 + 0.5, 0.5, weight + 1.0);
    QuotientIs(weight * 0.5 + 0.5, weight + 1.0, 0.5);
    QuotientIs(weight * 0.5 + 0.5, weight + 2.0, 0.5 - u);
    QuotientIs(weight * 0.5 + 1.5, weight + 2.0, 0.5 + u);
    hide Phat;
    PhatFrom(0, 0, Neutral(weight), 0.5);
    PhatFrom(0, 1, Neutral(weight), 0.5 - u);
    PhatFrom(1, 1, Neutral(weight), 0.5 + u);
  }

  lemma PhatFrom(w: int, n: nat, prior: Prior, rate: real)
    requires Rate(w, n, prior) == rate <= 0.75
    ensures Phat(w, n, prior, HALF) == Max(rate, 0.5)
  {
  }

  /** Only two wins leave evidence: a loss tells nothing against a fair coin until the bet has moved. */
  lemma TwoCoins(weight: real)
    requires weight >= 0.0
    ensures Evalue([0], Some(0.5), Neutral(weight)) == 1.0
    ensures Evalue([0, 1], Some(0.5), Neutral(weight)) == 1.0
    ensures Evalue([1, 1], Some(0.5), Neutral(weight)) == 1.0 + 1.0 / (weight + 2.0)
  {
    NeutralBets(weight);
    hide Phat, Factor, Process, MakePrior;
    var prior := Neutral(weight);
    OneCoin(0, prior);
    OneCoin(1, prior);
    OneMoreCoin(0, 1, prior);
    OneMoreCoin(1, 1, prior);
    HalfFactor(0.5);
    HalfFactor(Phat(1, 1, prior, HALF));
  }

  lemma OneCoin(x: int, prior: Prior)
    ensures Process([x], prior, HALF) == Factor(x, Phat(0, 0, prior, HALF), HALF)
    ensures Wins([x]) == x
  {
    assert [x][..0] == [];
    CompoundSnoc(Bet(prior, HALF), [], x);
    assert [] + [x] == [x];
    assert Bet(prior, HALF)([], x) == Factor(x, Phat(Wins([]), 0, prior, HALF), HALF);
    assert Compound(Bet(prior, HALF), []) == 1.0;
  }

  lemma OneMoreCoin(x: int, y: int, prior: Prior)
    ensures Process([x, y], prior, HALF) == Process([x], prior, HALF) * Factor(y, Phat(x, 1, prior, HALF), HALF)
  {
    assert [x, y][..1] == [x];
    OneCoin(x, prior);
  }

  // ---- the exact condition -------------------------------------------------------------------------------------

  lemma {:induction false} StoppedAtLoss(m: seq<Session> -> real, at: Schedule, i: nat, j: nat, a: bool, b: bool,
                                         t: nat)
    requires i < t
    ensures HasStopped(AfterLoss(i), Tape(at, i, j, a, b, t)) <==> !a
    ensures Stopped(m, AfterLoss(i), Tape(at, i, j, a, b, t)) == m(Tape(at, i, j, a, b, if a then t else i + 1))
  {
    hide Tape, Outcome;
    var h := Tape(at, i, j, a, b, t);
    TapeAt(at, i, j, a, b, t, t - 1);
    assert h[..|h| - 1] == Tape(at, i, j, a, b, t - 1);
    assert Outcome(at, i, j, a, b, i).strat == if a then 1 else 0 by { OutcomeAt(at, i, j, a, b); }
    if t == i + 1 {
      NotYet(at, i, j, a, b, i);
    } else {
      StoppedAtLoss(m, at, i, j, a, b, t - 1);
    }
  }

  lemma OutcomeAt(at: Schedule, i: nat, j: nat, a: bool, b: bool)
    ensures Outcome(at, i, j, a, b, i) == Toss(at(i).date, a)
  {
  }

  lemma {:induction false} NotYet(at: Schedule, i: nat, j: nat, a: bool, b: bool, t: nat)
    requires t <= i
    ensures !HasStopped(AfterLoss(i), Tape(at, i, j, a, b, t))
  {
    if t > 0 {
      var h := Tape(at, i, j, a, b, t);
      NotYet(at, i, j, a, b, t - 1);
      TapeAt(at, i, j, a, b, t, t - 1);
      assert h[..|h| - 1] == Tape(at, i, j, a, b, t - 1);
    }
  }

  /** One late report suffices: watching for a first loss has mean evidence above 1, although every coin is fair. */
  lemma LateReportFavours(weight: real, k: nat, at: Schedule, i: nat, j: nat)
    requires weight >= 0.0 && Among(at, k) && i < j && !Behind(at, i, j)
    ensures Expect(StoppedProcess(PooledValue(Neutral(weight), k, at), AfterLoss(i)), LateLaw(at, i, j), [], j + 1)
            == 1.0 + 0.25 / (weight + 2.0)
  {
    hide Expect, LateLaw, Stopped, Tape, Behind, StreamsOf, PooledCoins, Evalue, Neutral, AfterLoss;
    var m := PooledValue(Neutral(weight), k, at);
    FourEnds(StoppedProcess(m, AfterLoss(i)), at, i, j);
    StoppedAtLoss(m, at, i, j, true, true, j + 1);
    StoppedAtLoss(m, at, i, j, true, false, j + 1);
    StoppedAtLoss(m, at, i, j, false, true, j + 1);
    StoppedAtLoss(m, at, i, j, false, false, j + 1);
    LateCoinFirst(k, at, i, j, true, true);
    LateCoinFirst(k, at, i, j, true, false);
    FirstCoinAlone(k, at, i, j, false, true);
    FirstCoinAlone(k, at, i, j, false, false);
    TwoCoins(weight);
    Quarter(weight);
  }

  lemma Quarter(weight: real)
    requires weight >= 0.0
    ensures 0.25 * (1.0 / (weight + 2.0)) == 0.25 / (weight + 2.0) > 0.0
  {
    var r := 1.0 / (weight + 2.0);
    assert r * (weight + 2.0) == 1.0;
    assert r > 0.0 by { if r <= 0.0 { MulMono(r, 0.0, weight + 2.0); } }
    QuotientIs(0.25, weight + 2.0, 0.25 * r);
  }

  /** Peeking at the returned value is safe exactly when no report falls behind an earlier one in the merge, whatever
      the weight of the family test's neutral prior. */
  lemma PeekingSafeExactly(weight: real, k: nat, at: Schedule)
    requires weight >= 0.0 && Among(at, k)
    ensures PeekSafe(Neutral(weight), k, at) <==> InOrder(at)
  {
    hide Expect, Behind, PooledValue, NoEdge, OnSchedule, StoppedProcess;
    if InOrder(at) {
      forall law: seq<Session> -> seq<Branch<Session>>, stop: seq<Session> -> bool, n: nat
        | NoEdge(law) && OnSchedule(law, at)
        ensures Expect(StoppedProcess(PooledValue(Neutral(weight), k, at), stop), law, [], n) <= 1.0
      {
        InOrderValid(Neutral(weight), k, at, law, stop, 1.0, n);
      }
    } else {
      var i: nat, j: nat :| i < j && !Behind(at, i, j);
      LateReportFavours(weight, k, at, i, j);
      LateLawHasNoEdge(at, i, j);
      Quarter(weight);
    }
  }

  /** Two pairs on one date, the second reporting first: the flat test has mean 9/8, the family test with weight 15
      has mean 69/68. */
  lemma SecondPairFirst()
    ensures var at := (t: nat) => Slot(if t == 0 then 1 else 0, "D");
            && Among(at, 2) && !InOrder(at)
            && (forall weight: real :: weight >= 0.0 ==> !PeekSafe(Neutral(weight), 2, at))
            && Expect(StoppedProcess(PooledValue(FLAT, 2, at), AfterLoss(0)), LateLaw(at, 0, 1), [], 2) == 1.125
            && Expect(StoppedProcess(PooledValue(Neutral(15.0), 2, at), AfterLoss(0)), LateLaw(at, 0, 1), [], 2)
               == 69.0 / 68.0
  {
    hide Expect, PeekSafe;
    var at := (t: nat) => Slot(if t == 0 then 1 else 0, "D");
    assert !Behind(at, 0, 1);
    forall weight: real | weight >= 0.0 ensures !PeekSafe(Neutral(weight), 2, at) {
      PeekingSafeExactly(weight, 2, at);
    }
    assert Neutral(0.0) == FLAT;
    LateReportFavours(0.0, 2, at, 0, 1);
    LateReportFavours(15.0, 2, at, 0, 1);
  }
}
