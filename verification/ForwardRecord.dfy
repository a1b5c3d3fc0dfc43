/** The stream one pair contributes to the pooled test (`_forward_stream` in src/surge/duel/verify.py): the baseline
    is the direction that dominates the whole record, so a new label can rewrite the outcomes of earlier sessions. */
module ForwardRecord {
  import opened Prelude
  import opened EProcess
  import opened Envelope
  import opened Pooling
  import opened PooledEvidence

  /** An evaluated session: its date, the instrument chosen, and the realised label. */
  datatype Scored = Scored(date: string, side: string, outcome: int)

  predicate Up(r: Scored) { r.outcome > 0 }

  function Ups(rows: seq<Scored>): (n: nat)
    ensures n <= |rows|
  {
    if rows == [] then 0 else Ups(rows[..|rows| - 1]) + if Up(rows[|rows| - 1]) then 1 else 0
  }

  /** The dominant direction; a tie counts as up. */
  predicate MajorityUp(rows: seq<Scored>) { Ups(rows) >= |rows| - Ups(rows) }

  /** One session against the baseline that always says `up`. */
  function Judged(r: Scored, bull: string, up: bool): Session
  {
    Session(r.date, if (r.side == bull) == Up(r) then 1 else 0, if up == Up(r) then 1 else 0)
  }

  function JudgedAll(rows: seq<Scored>, bull: string, up: bool): (s: seq<Session>)
    ensures |s| == |rows| && forall k :: 0 <= k < |rows| ==> s[k] == Judged(rows[k], bull, up)
  {
    seq(|rows|, k requires 0 <= k < |rows| => Judged(rows[k], bull, up))
  }

  /** The stream; a pair that is not registered has no bull instrument and no stream. */
  function Stream(rows: seq<Scored>, bull: Option<string>): (s: seq<Session>)
    ensures |s| == if bull.None? then 0 else |rows|
  {
    if rows == [] || bull.None? then [] else JudgedAll(rows, bull.value, MajorityUp(rows))
  }

  method ForwardStream(rows: seq<Scored>, bull: Option<string>) returns (out: seq<Session>)
    ensures out == Stream(rows, bull)
  {
    if rows == [] {
      return [];
    }
    if bull.None? {
      return [];
    }
    var ups := 0;
    for k := 0 to |rows|
      invariant ups == Ups(rows[..k])
    {
      assert rows[..k + 1][..k] == rows[..k];
      ups := ups + if Up(rows[k]) then 1 else 0;
    }
    assert rows[..|rows|] == rows;
    var majorityUp := ups >= |rows| - ups;
    out := [];
    for k := 0 to |rows|
      invariant out == JudgedAll(rows[..k], bull.value, majorityUp)
    {
      var up := Up(rows[k]);
      var stratHit := if (rows[k].side == bull.value) == up then 1 else 0;
      var baseHit := if majorityUp == up then 1 else 0;
      out := out + [Session(rows[k].date, stratHit, baseHit)];
    }
  }

  // ---- when a new label rewrites the record ----------------------------------------------------------

  lemma {:induction false} UpsInserted(before: seq<Scored>, r: Scored, after: seq<Scored>)
    ensures Ups(before + [r] + after) == Ups(before + after) + if Up(r) then 1 else 0
  {
    if after == [] {
      assert before + [r] + after == before + [r] && (before + [r])[..|before|] == before && before + after == before;
    } else {
      var rest := after[..|after| - 1];
      UpsInserted(before, r, rest);
      assert (before + [r] + after)[..|before| + |after|] == before + [r] + rest;
      assert (before + after)[..|before| + |after| - 1] == before + rest;
    }
  }

  /** The new row turns the majority: it is down on a tied record, or up on a record one short of a tie. */
  predicate Turns(rows: seq<Scored>, r: Scored)
  {
    if Up(r) then 2 * Ups(rows) + 1 == |rows| else 2 * Ups(rows) == |rows|
  }

  lemma MajorityTurns(before: seq<Scored>, r: Scored, after: seq<Scored>)
    ensures MajorityUp(before + [r] + after) != MajorityUp(before + after) <==> Turns(before + after, r)
  {
    UpsInserted(before, r, after);
  }

  /** The sessions of the record without the new row, in the record with it. */
  function Earlier(before: seq<Scored>, r: Scored, after: seq<Scored>, bull: string): (s: seq<Session>)
    ensures |s| == |before + after|
  {
    var now := Stream(before + [r] + after, Some(bull));
    now[..|before|] + now[|before| + 1..]
  }

  /** Adding a row keeps every earlier session as it was exactly when it does not turn the majority of a record that
      has any. */
  lemma EarlierKeptExactly(before: seq<Scored>, r: Scored, after: seq<Scored>, bull: string)
    ensures Earlier(before, r, after, bull) == Stream(before + after, Some(bull))
            <==> before + after == [] || !Turns(before + after, r)
  {
    hide Turns, MajorityUp, Ups;
    var rows := before + after;
    MajorityTurns(before, r, after);
    EarlierJudged(before, r, after, bull);
    if rows != [] {
      assert Stream(rows, Some(bull)) == JudgedAll(rows, bull, MajorityUp(rows));
      assert Judged(rows[0], bull, true) != Judged(rows[0], bull, false);
    }
  }

  lemma EarlierJudged(before: seq<Scored>, r: Scored, after: seq<Scored>, bull: string)
    ensures Earlier(before, r, after, bull) == JudgedAll(before + after, bull, MajorityUp(before + [r] + after))
  {
    hide MajorityUp;
    var up, now := MajorityUp(before + [r] + after), before + [r] + after;
    var s := Earlier(before, r, after, bull);
    forall k | 0 <= k < |before + after| ensures s[k] == Judged((before + after)[k], bull, up) {
      assert (before + after)[k] == if k < |before| then now[k] else now[k + 1];
    }
  }

  /** When it does, every earlier coin leaves the test and every earlier agreement becomes a coin. */
  lemma TurnInvertsCoins(before: seq<Scored>, r: Scored, after: seq<Scored>, bull: string, k: nat)
    requires Turns(before + after, r) && k < |before + after|
    ensures var now, was := Earlier(before, r, after, bull)[k], Stream(before + after, Some(bull))[k];
            && Disagrees(now) != Disagrees(was)
            && now.date == was.date && now.strat == was.strat && now.base == 1 - was.base
  {
    hide Turns, MajorityUp, Ups;
    MajorityTurns(before, r, after);
    EarlierJudged(before, r, after, bull);
  }

  /** A tied record of two right calls has the second as its coin; a miss on a third, falling day makes the first
      the coin instead. */
  lemma MissRewritesRecord()
    ensures var rose, fell, missed := Scored("1", "L", 1), Scored("2", "S", 0), Scored("3", "L", 0);
            && Stream([rose, fell], Some("L")) == [Session("1", 1, 1), Session("2", 1, 0)]
            && Stream([rose, fell, missed], Some("L"))
               == [Session("1", 1, 0), Session("2", 1, 1), Session("3", 0, 1)]
  {
    var rose, fell, missed := Scored("1", "L", 1), Scored("2", "S", 0), Scored("3", "L", 0);
    assert [rose][..0] == [] && [rose, fell][..1] == [rose] && [rose, fell, missed][..2] == [rose, fell];
    assert Ups([rose]) == 1 && Ups([rose, fell]) == 1 && Ups([rose, fell, missed]) == 1;
  }

  // ---- what beats the majority ---------------------------------------------------------------------------

  /** Sessions on which the chosen instrument was the right one. */
  function RightCalls(rows: seq<Scored>, bull: string): nat
  {
    if rows == [] then 0
    else RightCalls(rows[..|rows| - 1], bull)
         + if (rows[|rows| - 1].side == bull) == Up(rows[|rows| - 1]) then 1 else 0
  }

  /** Sessions on which the dominant direction was the right one. */
  function MajorityCalls(rows: seq<Scored>): nat
  {
    if MajorityUp(rows) then Ups(rows) else |rows| - Ups(rows)
  }

  /** Won less lost coins. */
  function Lead(coins: seq<int>): int { 2 * Wins(coins) - |coins| }

  lemma LeadSnoc(coins: seq<int>, r: Scored, bull: string, up: bool)
    requires IsBinary(coins)
    ensures var v := Judged(r, bull, up);
            var now := coins + if Disagrees(v) then [Coin(v)] else [];
            && IsBinary(now) && |now| <= |coins| + 1
            && Lead(now) == Lead(coins) + v.strat - v.base
  {
    hide Wins, IsBinary;
    var v := Judged(r, bull, up);
    if Disagrees(v) {
      WinsSnoc(coins, Coin(v));
      BinarySnoc(coins, Coin(v));
    } else {
      assert coins + [] == coins;
    }
  }

  /** Won less lost coins are right calls less the baseline's. */
  lemma {:induction false} CoinsBalance(rows: seq<Scored>, bull: string, up: bool)
    ensures var coins := Coins(JudgedAll(rows, bull, up));
            && IsBinary(coins) && |coins| <= |rows|
            && Lead(coins) == RightCalls(rows, bull) - if up then Ups(rows) else |rows| - Ups(rows)
  {
    hide Wins, IsBinary, Lead, Coins;
    if rows == [] {
      NoCoins();
      assert JudgedAll(rows, bull, up) == [];
    } else {
      var rest, r := rows[..|rows| - 1], rows[|rows| - 1];
      var past, v := JudgedAll(rest, bull, up), Judged(r, bull, up);
      CoinsBalance(rest, bull, up);
      assert JudgedAll(rows, bull, up) == past + [v];
      CoinsSnoc(past, v);
      LeadSnoc(Coins(past), r, bull, up);
    }
  }

  lemma NoCoins()
    ensures Coins([]) == [] && IsBinary([]) && Lead([]) == 0
  {
  }

  /** A pair's record shows evidence only if its calls beat the best constant direction in hindsight. */
  lemma EvidenceBeatsMajority(rows: seq<Scored>, bull: string)
    requires |rows| <= 500_000 && RightCalls(rows, bull) <= MajorityCalls(rows)
    ensures Evalue(Coins(Stream(rows, Some(bull))), Some(0.5), FLAT) <= 1.0
  {
    hide Coins, Wins, Evalue, CapIdle, RightCalls, Ups;
    CoinsBalance(rows, bull, MajorityUp(rows));
    var coins := Coins(JudgedAll(rows, bull, MajorityUp(rows)));
    assert Stream(rows, Some(bull)) == JudgedAll(rows, bull, MajorityUp(rows));
    ShortRecordsIdle(coins);
    NoFalseEvidence(coins);
  }

  lemma {:induction false} ConstantCalls(rows: seq<Scored>, bull: string, side: string)
    requires forall k :: 0 <= k < |rows| ==> rows[k].side == side
    ensures RightCalls(rows, bull) == if side == bull then Ups(rows) else |rows| - Ups(rows)
  {
    if rows != [] {
      ConstantCalls(rows[..|rows| - 1], bull, side);
    }
  }

  /** Always choosing the same instrument never does. */
  lemma OneSidedShowsNothing(rows: seq<Scored>, bull: string, side: string)
    requires |rows| <= 500_000 && forall k :: 0 <= k < |rows| ==> rows[k].side == side
    ensures Evalue(Coins(Stream(rows, Some(bull))), Some(0.5), FLAT) <= 1.0
  {
    hide Evalue, Coins, Stream;
    ConstantCalls(rows, bull, side);
    EvidenceBeatsMajority(rows, bull);
  }
}
