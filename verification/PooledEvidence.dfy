/** Sessions of distinct pairs in one record (src/surge/duel/verify.py): betting on them in the order in which they
    arrive is a test martingale, and the date-sorted record the code bets on grows by appending exactly when the
    report comes last.  `PooledPeeking` puts the two together. */
module PooledEvidence {
  import opened Prelude
  import opened Martingale
  import opened EProcess
  import opened Pooling

  const HALF: Baseline := 0.5

  // ---- a null hypothesis about sessions --------------------------------------------------------

  predicate Disagrees(v: Session) { v.strat != v.base }

  function Coin(v: Session): int { if v.strat == 1 then 1 else 0 }

  /** Weight of the sessions on which only the strategy is right (`x` = 1), or only the baseline (`x` = 0). */
  ghost function AloneWeight(bs: seq<Branch<Session>>, x: int): real
  {
    if bs == [] then 0.0
    else (if Disagrees(bs[0].value) && Coin(bs[0].value) == x then bs[0].weight else 0.0) + AloneWeight(bs[1..], x)
  }

  /** Whatever has been seen, the strategy alone is right no more often than the baseline alone. */
  ghost predicate NoEdge(law: seq<Session> -> seq<Branch<Session>>)
  {
    forall h: seq<Session> :: IsDistribution(law(h)) && AloneWeight(law(h), 1) <= AloneWeight(law(h), 0)
  }

  /** The factor a session applies to the evidence: none when both agree. */
  function SessionBet(prior: Prior): (seq<Session>, Session) -> real
  {
    (h, v) => if Disagrees(v) then Bet(prior, HALF)(Coins(h), Coin(v)) else 1.0
  }

  /** Evidence of the coins in the order of arrival; what the code returns is `PooledPeeking.PooledValue`. */
  ghost function SessionProcess(prior: Prior): seq<Session> -> real
  {
    h => Process(Coins(h), prior, HALF)
  }

  /** Evidence of the coins is the compounded bets of the sessions. */
  lemma {:induction false} CoinsCompound(prior: Prior, h: seq<Session>)
    ensures Process(Coins(h), prior, HALF) == Compound(SessionBet(prior), h)
  {
    hide Bet;
    if h != [] {
      var past, v := h[..|h| - 1], h[|h| - 1];
      assert h == past + [v];
      CoinsCompound(prior, past);
      CoinsSnoc(past, v);
      if Disagrees(v) {
        CompoundSnoc(Bet(prior, HALF), Coins(past), Coin(v));
      } else {
        assert Coins(h) == Coins(past);
      }
    }
  }

  // ---- anytime validity in the order of arrival ------------------------------------------------------

  /** The bet the next disagreement will meet. */
  function NextPhat(prior: Prior, h: seq<Session>): real
  {
    Phat(Wins(Coins(h)), |Coins(h)|, prior, HALF)
  }

  /** How far the bet leans to the strategy. */
  function Edge(prior: Prior, h: seq<Session>): real { 2.0 * NextPhat(prior, h) - 1.0 }

  lemma HalfFactor(phat: real)
    ensures Factor(1, phat, HALF) == 2.0 * phat && Factor(0, phat, HALF) == 2.0 - 2.0 * phat
  {
  }

  lemma SessionFactor(prior: Prior, h: seq<Session>, v: Session)
    ensures SessionBet(prior)(h, v)
            == if !Disagrees(v) then 1.0 else if Coin(v) == 1 then 1.0 + Edge(prior, h) else 1.0 - Edge(prior, h)
  {
    hide Phat, Coins, Wins, Factor;
    HalfFactor(NextPhat(prior, h));
    assert Bet(prior, HALF)(Coins(h), Coin(v)) == Factor(Coin(v), NextPhat(prior, h), HALF);
  }

  /** Disagreements are weighed by the bet, agreements by 1. */
  lemma {:induction false} SessionMean(prior: Prior, bs: seq<Branch<Session>>, h: seq<Session>)
    ensures MeanFactor(SessionBet(prior), bs, h)
            == TotalWeight(bs) + Edge(prior, h) * (AloneWeight(bs, 1) - AloneWeight(bs, 0))
  {
    hide Edge, SessionBet, Disagrees, Coin, MeanFactor, AloneWeight;
    if bs == [] {
      NoSessions(prior, h);
    } else {
      SessionMean(prior, bs[1..], h);
      SessionFactor(prior, h, bs[0].value);
      FirstSession(prior, bs, h);
      OneMore(Edge(prior, h), bs[0].weight, AloneWeight(bs[1..], 1) - AloneWeight(bs[1..], 0));
    }
  }

  lemma NoSessions(prior: Prior, h: seq<Session>)
    ensures MeanFactor(SessionBet(prior), [], h) == 0.0 == AloneWeight([], 1) == AloneWeight([], 0)
  {
  }

  lemma FirstSession(prior: Prior, bs: seq<Branch<Session>>, h: seq<Session>)
    requires bs != []
    ensures var w, v := bs[0].weight, bs[0].value;
            && MeanFactor(SessionBet(prior), bs, h)
               == w * SessionBet(prior)(h, v) + MeanFactor(SessionBet(prior), bs[1..], h)
            && AloneWeight(bs, 1) - AloneWeight(bs, 0)
               == (if !Disagrees(v) then 0.0 else if Coin(v) == 1 then w else -w)
                  + (AloneWeight(bs[1..], 1) - AloneWeight(bs[1..], 0))
  {
    hide SessionBet;
  }

  lemma OneMore(edge: real, w: real, rest: real)
    ensures w * 1.0 == w && w * (1.0 + edge) == w + edge * w && w * (1.0 - edge) == w - edge * w
    ensures edge * (0.0 + rest) == edge * rest && edge * (w + rest) == edge * w + edge * rest
    ensures edge * (-w + rest) == edge * rest - edge * w
  {
  }

  /** Under the null the evidence in order of arrival is a supermartingale over sessions. */
  lemma SessionsDrift(prior: Prior, law: seq<Session> -> seq<Branch<Session>>)
    requires NoEdge(law)
    ensures IsLaw(law) && Drifts(SessionProcess(prior), law, 0.0)
    ensures forall h: seq<Session> :: SessionProcess(prior)(h) >= 0.0
  {
    hide Bet, MeanFactor, Compound, Coins, AloneWeight, Phat, StepMean;
    var bet := SessionBet(prior);
    forall h: seq<Session> ensures SessionProcess(prior)(h) >= 0.0 { ProcessPositive(Coins(h), prior, HALF); }
    forall h: seq<Session>
      ensures StepMean(SessionProcess(prior), law(h), h) <= SessionProcess(prior)(h) + 0.0
    {
      forall v: Session ensures SessionProcess(prior)(h + [v]) == CompoundFn(bet)(h + [v]) {
        CoinsCompound(prior, h + [v]);
      }
      StepMeanEqual(SessionProcess(prior), CompoundFn(bet), law(h), h);
      CompoundStepMean(bet, law(h), h);
      CoinsCompound(prior, h);
      ProcessPositive(Coins(h), prior, HALF);
      SessionFair(prior, law(h), h);
      MulMono(MeanFactor(bet, law(h), h), 1.0, Compound(bet, h));
    }
  }

  lemma SessionFair(prior: Prior, bs: seq<Branch<Session>>, h: seq<Session>)
    requires IsDistribution(bs) && AloneWeight(bs, 1) <= AloneWeight(bs, 0)
    ensures MeanFactor(SessionBet(prior), bs, h) <= 1.0
  {
    hide MeanFactor, SessionBet, AloneWeight;
    SessionMean(prior, bs, h);
    PhatRange(Wins(Coins(h)), |Coins(h)|, prior, HALF);
    EdgeCosts(Edge(prior, h), AloneWeight(bs, 1) - AloneWeight(bs, 0));
  }

  lemma EdgeCosts(edge: real, gap: real)
    requires edge >= 0.0 && gap <= 0.0
    ensures edge * gap <= 0.0
  {
  }

  /** Peeking at the evidence in order of arrival is safe after any session, of any pair. */
  lemma PoolingValid(prior: Prior, law: seq<Session> -> seq<Branch<Session>>, stop: seq<Session> -> bool, thr: real,
                     n: nat)
    requires NoEdge(law) && thr > 0.0
    ensures Expect(StoppedProcess(SessionProcess(prior), stop), law, [], n) <= 1.0
    ensures Prob(HitEvent(SessionProcess(prior), thr), law, n) <= 1.0 / thr
  {
    hide StepMean, Expect, Coins;
    SessionsDrift(prior, law);
    StartsAtOne(prior);
    OptionalStopping(SessionProcess(prior), stop, law, 0.0, n);
    HitProbability(SessionProcess(prior), law, thr, 0.0, n);
    NoSlack(n);
  }

  lemma StartsAtOne(prior: Prior)
    ensures SessionProcess(prior)([]) == 1.0
  {
  }

  // ---- when the pooled record grows by appending -------------------------------------------------------

  /** A session `y` reported after those `before` it in the merge, and ahead of the `after` of later streams, comes last
      in date order. */
  ghost predicate ComesLast(before: seq<Session>, y: Session, after: seq<Session>)
  {
    && (forall x :: x in before ==> LexLe(x.date, y.date))
    && (forall x :: x in after ==> LexLe(x.date, y.date) && (x.date == y.date ==> x == y))
  }

  lemma {:induction false} OnDateConcat(a: seq<Session>, b: seq<Session>, d: string)
    ensures OnDate(a + b, d) == OnDate(a, d) + OnDate(b, d)
  {
    if a == [] {
      assert a + b == b;
    } else {
      assert (a + b)[1..] == a[1..] + b;
      OnDateConcat(a[1..], b, d);
      var first := if a[0].date == d then [a[0]] else [];
      assert OnDate(a + b, d) == first + (OnDate(a[1..], d) + OnDate(b, d));
    }
  }

  lemma {:induction false} OnDateMembers(s: seq<Session>, d: string)
    ensures forall x :: x in OnDate(s, d) <==> x in s && x.date == d
  {
    if s != [] {
      OnDateMembers(s[1..], d);
      assert s == [s[0]] + s[1..];
    }
  }

  lemma SameMembers(s: seq<Session>, x: Session)
    ensures x in SortByDate(s) <==> x in s
  {
    SortIsStable(s);
    OnDateMembers(s, x.date);
    OnDateMembers(SortByDate(s), x.date);
    assert OnDate(SortByDate(s), x.date) == OnDate(s, x.date);
  }

  /** Repeating one session before or after a block of the same makes no difference, and only then. */
  lemma {:induction false} Commutes(y: Session, b: seq<Session>)
    ensures [y] + b == b + [y] <==> forall x :: x in b ==> x == y
  {
    if b != [] {
      var rest := b[1..];
      assert b == [b[0]] + rest;
      Commutes(y, rest);
      if [y] + b == b + [y] {
        assert ([y] + b)[0] == (b + [y])[0];
        assert ([y] + b)[1..] == b && (b + [y])[1..] == rest + [y];
      }
      if forall x :: x in b ==> x == y {
        assert b[0] in b && b[0] == y;
        assert forall x :: x in rest ==> x in b;
        assert [y] + b == [y] + ([y] + rest) == [y] + (rest + [y]) == b + [y];
      }
    }
  }

  /** Sorting after the report appends it exactly when it comes last. */
  lemma SortAppendsExactly(before: seq<Session>, y: Session, after: seq<Session>)
    ensures SortByDate(before + [y] + after) == SortByDate(before + after) + [y] <==> ComesLast(before, y, after)
  {
    hide LexLe, SortByDate, OnDate;
    if ComesLast(before, y, after) {
      LastIsAppended(before, y, after);
    }
    if SortByDate(before + [y] + after) == SortByDate(before + after) + [y] {
      AppendedIsLast(before, y, after);
    }
  }

  lemma LastIsAppended(before: seq<Session>, y: Session, after: seq<Session>)
    requires ComesLast(before, y, after)
    ensures SortByDate(before + [y] + after) == SortByDate(before + after) + [y]
  {
    hide LexLe, SortByDate, OnDate;
    var s, t := SortByDate(before + [y] + after), SortByDate(before + after) + [y];
    SortIsStable(before + [y] + after);
    SortIsStable(before + after);
    forall j | 0 <= j < |t| - 1 ensures LexLe(t[j].date, y.date) {
      assert t[j] == SortByDate(before + after)[j];
      SameMembers(before + after, t[j]);
    }
    assert Chronological(t);
    forall d ensures OnDate(s, d) == OnDate(t, d) {
      OnDateConcat(SortByDate(before + after), [y], d);
      MergedOnDate(before, y, after, d);
      if d == y.date { AfterCommutes(before, y, after); }
    }
    StableSortUnique(s, t);
  }

  /** The sessions of one date in the merge, with and without the report. */
  lemma MergedOnDate(before: seq<Session>, y: Session, after: seq<Session>, d: string)
    ensures OnDate(before + [y] + after, d)
            == OnDate(before, d) + ((if y.date == d then [y] else []) + OnDate(after, d))
    ensures OnDate(before + after, d) == OnDate(before, d) + OnDate(after, d)
    ensures OnDate([y], d) == if y.date == d then [y] else []
  {
    hide OnDate;
    assert before + [y] + after == before + ([y] + after);
    OnDateConcat(before, [y] + after, d);
    OnDateConcat([y], after, d);
    OnDateConcat(before, after, d);
    OneOnDate(y, d);
  }

  lemma OneOnDate(y: Session, d: string)
    ensures OnDate([y], d) == if y.date == d then [y] else []
  {
    assert [y][1..] == [];
  }

  lemma AfterCommutes(before: seq<Session>, y: Session, after: seq<Session>)
    requires ComesLast(before, y, after)
    ensures [y] + OnDate(after, y.date) == OnDate(after, y.date) + [y]
  {
    hide LexLe, OnDate;
    OnDateMembers(after, y.date);
    Commutes(y, OnDate(after, y.date));
  }

  lemma AppendedIsLast(before: seq<Session>, y: Session, after: seq<Session>)
    requires SortByDate(before + [y] + after) == SortByDate(before + after) + [y]
    ensures ComesLast(before, y, after)
  {
    hide LexLe, SortByDate, OnDate;
    var sorted := SortByDate(before + after);
    SortIsStable(before + [y] + after);
    SortIsStable(before + after);
    forall x | x in before + after ensures LexLe(x.date, y.date) {
      SameMembers(before + after, x);
      var j :| 0 <= j < |sorted| && sorted[j] == x;
      assert (sorted + [y])[j] == x && (sorted + [y])[|sorted|] == y;
    }
    var d := y.date;
    var a, b := OnDate(before, d), OnDate(after, d);
    MergedOnDate(before, y, after, d);
    OnDateConcat(sorted, [y], d);
    assert a + ([y] + b) == (a + b) + [y];
    assert (a + ([y] + b))[|a|..] == [y] + b;
    assert ((a + b) + [y])[|a|..] == b + [y];
    Commutes(y, b);
    OnDateMembers(after, d);
  }

  // ---- streams ---------------------------------------------------------------------------------------

  /** The streams after pair `j` reports `y`. */
  function Reported(streams: seq<seq<Session>>, j: nat, y: Session): seq<seq<Session>>
    requires j < |streams|
    ensures |Reported(streams, j, y)| == |streams|
  {
    streams[j := streams[j] + [y]]
  }

  lemma {:induction false} FlattenSplit(streams: seq<seq<Session>>, j: nat)
    requires j <= |streams|
    ensures Flatten(streams) == Flatten(streams[..j]) + Flatten(streams[j..])
  {
    if j == 0 {
      assert streams[..0] == [] && streams[0..] == streams;
    } else {
      FlattenSplit(streams[1..], j - 1);
      assert streams[..j][1..] == streams[1..][..j - 1] && streams[1..][j - 1..] == streams[j..];
    }
  }

  lemma FlattenAround(streams: seq<seq<Session>>, j: nat)
    requires j < |streams|
    ensures Flatten(streams[..j + 1]) == Flatten(streams[..j]) + streams[j]
    ensures Flatten(streams) == Flatten(streams[..j + 1]) + Flatten(streams[j + 1..])
  {
    hide Flatten;
    FlattenSplit(streams, j + 1);
    TakeSnoc(streams, j);
    FlattenSnoc(streams[..j], streams[j]);
  }

  lemma TakeSnoc(streams: seq<seq<Session>>, j: nat)
    requires j < |streams|
    ensures streams[..j + 1] == streams[..j] + [streams[j]]
  {
  }

  lemma ReportedParts(streams: seq<seq<Session>>, j: nat, y: Session)
    requires j < |streams|
    ensures var now := Reported(streams, j, y);
            now[..j] == streams[..j] && now[j] == streams[j] + [y] && now[j + 1..] == streams[j + 1..]
  {
  }

  lemma ReportedMerge(streams: seq<seq<Session>>, j: nat, y: Session)
    requires j < |streams|
    ensures var before, after := Flatten(streams[..j + 1]), Flatten(streams[j + 1..]);
            Flatten(streams) == before + after && Flatten(Reported(streams, j, y)) == before + [y] + after
  {
    hide Flatten, Reported;
    ReportedParts(streams, j, y);
    FlattenAround(streams, j);
    FlattenAround(Reported(streams, j, y), j);
  }

  /** Reporting a session appends to the pooled, date-sorted record exactly when it is dated no earlier than every
      session pooled so far, and differs from none of the same date in a later stream. */
  lemma PoolGrowsExactly(streams: seq<seq<Session>>, j: nat, y: Session)
    requires j < |streams|
    ensures SortByDate(Flatten(Reported(streams, j, y))) == SortByDate(Flatten(streams)) + [y]
            <==> ComesLast(Flatten(streams[..j + 1]), y, Flatten(streams[j + 1..]))
  {
    ReportedMerge(streams, j, y);
    SortAppendsExactly(Flatten(streams[..j + 1]), y, Flatten(streams[j + 1..]));
  }

  /** Then the pooled coins grow by at most one, at the end, so the pooled evidence continues from where it was. */
  lemma PooledCoinsGrow(streams: seq<seq<Session>>, j: nat, y: Session)
    requires j < |streams| && ComesLast(Flatten(streams[..j + 1]), y, Flatten(streams[j + 1..]))
    ensures PooledCoins(Reported(streams, j, y))
            == PooledCoins(streams) + (if Disagrees(y) then [Coin(y)] else [])
  {
    PoolGrowsExactly(streams, j, y);
    CoinsSnoc(SortByDate(Flatten(streams)), y);
  }

  /** Late reports reorder: a session of the same date as one in a later stream goes in front of it. */
  lemma LateReportReorders()
    ensures var streams := [[], [Session("D", 0, 1)]];
            && PooledCoins(streams) == [0]
            && PooledCoins(Reported(streams, 0, Session("D", 1, 0))) == [1, 0]
  {
    var lost, won := Session("D", 0, 1), Session("D", 1, 0);
    var streams: seq<seq<Session>> := [[], [lost]];
    var now := Reported(streams, 0, won);
    PairOfStreams([], [lost]);
    assert [] + [won] == [won] && now == [[won], [lost]];
    PairOfStreams([won], [lost]);
    LexReflexive("D");
    assert [lost][1..] == [] && SortByDate([lost]) == Insert(lost, []) == [lost];
    var both := [won, lost];
    assert both[1..] == [lost] && SortByDate(both) == Insert(won, [lost]) == both;
    assert [won] + [lost] == both;
  }

  lemma PairOfStreams(a: seq<Session>, b: seq<Session>)
    ensures Flatten([a, b]) == a + b
  {
    assert [a, b][1..] == [b] && [b][1..] == [];
    assert Flatten([b]) == b + [];
  }
}
