/** Loop rules of the trading engine: what one close, one new stop and one decision keep, every
    sweep, trigger and cycle keeps. */
module TradingRules {
  import opened Prelude
  import opened Ledger
  import opened Risk
  import opened Trading

  // ---- rows of other symbols -----------------------------------------------------------------

  /** An upsert leaves every other symbol's row alone. */
  lemma {:induction false} RowOfOther(ps: seq<Position>, q: Position, symbol: string)
    requires q.symbol != symbol
    ensures Row(Upsert(ps, q), symbol) == Row(ps, symbol)
  {
    if ps != [] && ps[0].symbol != q.symbol {
      RowOfOther(ps[1..], q, symbol);
      assert ([ps[0]] + Upsert(ps[1..], q))[1..] == Upsert(ps[1..], q);
    }
  }

  lemma ClosedOther(d: Desk, b: Book, other: string, ref: real, symbol: string)
    requires Consistent(b.positions) && other != symbol
    ensures Row(Closed(d, b, other, ref).positions, symbol) == Row(b.positions, symbol)
  {
    hide Upsert, OpenCost, Times;
    RowIsIn(b.positions, other);
    var pos := GetPosition(b.positions, other);
    if pos.Some? {
      RowOfOther(b.positions, AfterSell(pos.value, PaperFill(d.s, other, Sell, pos.value.qty, ref)), symbol);
    }
  }

  /** A ratchet changes nothing but the stop. */
  lemma TrailedIsSame(s: Settings, p: Position, last: real)
    ensures Trailed(s, p, last) == p.(stop := Trailed(s, p, last).stop)
    ensures Trailed(s, p, last) == p || Trailed(s, p, last).stop.Some?
  {
  }

  lemma WatchedOther(d: Desk, b: Book, q: Position, prices: map<string, real>, symbol: string)
    requires Consistent(b.positions) && (q.open ==> q.qty > 0.0) && q.symbol != symbol
    ensures Row(Watched(d, b, q, prices).positions, symbol) == Row(b.positions, symbol)
  {
    hide Closed, HitsExit, Upsert, Trailed, Row;
    if q.symbol in prices {
      var q' := Trailed(d.s, q, prices[q.symbol]);
      TrailedIsSame(d.s, q, prices[q.symbol]);
      UpsertKeeps(b.positions, q');
      RowOfOther(b.positions, q', symbol);
      ClosedOther(d, if q' == q then b else b.(positions := Upsert(b.positions, q')), q.symbol, prices[q.symbol],
                  symbol);
    }
  }

  // ---- snapshots -------------------------------------------------------------------------------

  predicate DistinctRows(ps: seq<Position>) { forall j, k :: 0 <= j < k < |ps| ==> ps[j].symbol != ps[k].symbol }

  lemma {:induction false} OpenRowsDistinct(ps: seq<Position>)
    requires DistinctRows(ps)
    ensures DistinctRows(OpenRows(ps))
  {
    if ps != [] {
      OpenRowsDistinct(ps[1..]);
      forall p | p in ps[1..] ensures p.symbol != ps[0].symbol {
        var k :| 0 <= k < |ps[1..]| && ps[1..][k] == p;
        assert ps[k + 1] == p;
      }
      var rest := OpenRows(ps[1..]);
      forall k | 0 <= k < |rest| ensures rest[k].symbol != ps[0].symbol { assert rest[k] in rest; }
    }
  }

  /** The row of a symbol is the only one of that symbol. */
  lemma HeldRow(ps: seq<Position>, q: Position)
    requires Consistent(ps) && q in ps
    ensures Row(ps, q.symbol) == Some(q)
  {
    RowIsIn(ps, q.symbol);
    var r := Row(ps, q.symbol).value;
    var j :| 0 <= j < |ps| && ps[j] == q;
    var k :| 0 <= k < |ps| && ps[k] == r;
    assert j == k;
  }

  /** Open rows, one per symbol, as the tables hold them now. */
  predicate Current(b: Book, rows: seq<Position>)
  {
    DistinctRows(rows) && forall p :: p in rows ==> p.open && p.qty > 0.0 && Row(b.positions, p.symbol) == Some(p)
  }

  lemma SnapshotIsCurrent(b: Book)
    requires Consistent(b.positions)
    ensures Current(b, OpenRows(b.positions))
  {
    hide Row, OpenRows;
    OpenRowsDistinct(b.positions);
    forall p | p in OpenRows(b.positions) ensures Row(b.positions, p.symbol) == Some(p) { HeldRow(b.positions, p); }
  }

  /** After watching the first row the others are still current. */
  lemma RestIsCurrent(d: Desk, b: Book, rows: seq<Position>, prices: map<string, real>)
    requires Consistent(b.positions) && Current(b, rows) && rows != []
    ensures Current(Watched(d, b, rows[0], prices), rows[1..])
  {
    hide Watched, Row;
    var rest := rows[1..];
    assert rows == [rows[0]] + rest;
    forall p | p in rest ensures Row(Watched(d, b, rows[0], prices).positions, p.symbol) == Some(p) {
      var k :| 0 <= k < |rest| && rest[k] == p;
      assert rows[k + 1] == p;
      WatchedOther(d, b, rows[0], prices, p.symbol);
    }
  }

  // ---- what single steps keep ----------------------------------------------------------------------

  /** Closing any position at an acceptable price keeps `inv`. */
  ghost predicate ClosesKeep(d: Desk, inv: Book -> bool, ok: real -> bool)
  {
    forall b: Book, symbol, ref :: Consistent(b.positions) && inv(b) && ok(ref) ==> inv(Closed(d, b, symbol, ref))
  }

  function WithStop(b: Book, p: Position, stop: real): Book
  {
    b.(positions := Upsert(b.positions, p.(stop := Some(stop))))
  }

  /** So does giving an open row another stop. */
  ghost predicate StopsKeep(inv: Book -> bool)
  {
    forall b: Book, p: Position, stop ::
      Consistent(b.positions) && inv(b) && p in b.positions && p.open ==> inv(WithStop(b, p, stop))
  }

  /** So does acting on any decision. */
  ghost predicate DecisionsKeep(d: Desk, inv: Book -> bool, equity: real, status: RiskStatus)
  {
    forall b: Book, symbol, c, ref ::
      Consistent(b.positions) && inv(b) ==> inv(Executed(d, b, symbol, c, ref, equity, status))
  }

  /** The books agree on everything that trading changes. */
  predicate SameTrading(d: Desk, b: Book, r: Book)
  {
    r.positions == b.positions && r.fills == b.fills && r.orders == b.orders && Cash(d.start, r) == Cash(d.start, b)
  }

  /** `inv` looks at nothing else, and cancelling orders keeps it. */
  ghost predicate AboutTrading(d: Desk, inv: Book -> bool)
  {
    && (forall b: Book, r: Book :: inv(b) && SameTrading(d, b, r) ==> inv(r))
    && (forall b: Book :: inv(b) ==> inv(b.(orders := CancelledAll(b.orders))))
  }

  predicate AllOk(prices: map<string, real>, ok: real -> bool) { forall k :: k in prices ==> ok(prices[k]) }

  // ---- what loops keep -------------------------------------------------------------------------------

  lemma {:induction false} FlattenRule(d: Desk, b: Book, todo: seq<Position>, prices: map<string, real>,
                                       inv: Book -> bool, ok: real -> bool)
    requires Consistent(b.positions) && inv(b) && ClosesKeep(d, inv, ok)
    requires AllOk(prices, ok) && forall p :: p in todo ==> ok(p.avg)
    ensures inv(Flattened(d, b, todo, prices))
    decreases |todo|
  {
    hide Closed;
    if todo != [] {
      var p := todo[0];
      FlattenRule(d, Closed(d, b, p.symbol, if p.symbol in prices then prices[p.symbol] else p.avg), todo[1..], prices,
                  inv, ok);
    }
  }

  lemma TriggerRule(d: Desk, b: Book, prices: map<string, real>, inv: Book -> bool, ok: real -> bool)
    requires Consistent(b.positions) && inv(b) && ClosesKeep(d, inv, ok) && AboutTrading(d, inv)
    requires AllOk(prices, ok) && forall p :: p in b.positions && p.open ==> ok(p.avg)
    ensures inv(Triggered(d, b, prices))
  {
    hide Flattened, CancelledAll, OpenRows, ClosesKeep;
    var cancelled := b.(orders := CancelledAll(b.orders));
    FlattenRule(d, cancelled, OpenRows(b.positions), prices, inv, ok);
    assert SameTrading(d, Flattened(d, cancelled, OpenRows(b.positions), prices), Triggered(d, b, prices));
  }

  lemma WatchRule(d: Desk, b: Book, p: Position, prices: map<string, real>, inv: Book -> bool, ok: real -> bool)
    requires Consistent(b.positions) && inv(b) && ClosesKeep(d, inv, ok) && StopsKeep(inv) && AllOk(prices, ok)
    requires Row(b.positions, p.symbol) == Some(p) && p.open && p.qty > 0.0
    ensures inv(Watched(d, b, p, prices))
  {
    hide Closed, HitsExit, Upsert, Trailed, Row;
    RowIsIn(b.positions, p.symbol);
    if p.symbol in prices {
      var p' := Trailed(d.s, p, prices[p.symbol]);
      TrailedIsSame(d.s, p, prices[p.symbol]);
      UpsertKeeps(b.positions, p');
      assert p' != p ==> inv(WithStop(b, p, p'.stop.value));
    }
  }

  lemma {:induction false} WatchAllRule(d: Desk, b: Book, rows: seq<Position>, prices: map<string, real>,
                                        inv: Book -> bool, ok: real -> bool)
    requires Consistent(b.positions) && inv(b) && ClosesKeep(d, inv, ok) && StopsKeep(inv) && AllOk(prices, ok)
    requires Current(b, rows)
    ensures Snapshots(rows) && inv(WatchedAll(d, b, rows, prices))
    decreases |rows|
  {
    hide Watched, ClosesKeep, StopsKeep, Row;
    if rows != [] {
      WatchRule(d, b, rows[0], prices, inv, ok);
      RestIsCurrent(d, b, rows, prices);
      WatchAllRule(d, Watched(d, b, rows[0], prices), rows[1..], prices, inv, ok);
    }
  }

  lemma {:induction false} CandidatesRule(d: Desk, b: Book, t: Tick, todo: seq<string>, equity: real,
                                          status: RiskStatus, inv: Book -> bool)
    requires Consistent(b.positions) && inv(b) && DecisionsKeep(d, inv, equity, status)
    ensures inv(Candidates(d, b, t, todo, equity, status))
    decreases |todo|
  {
    hide Executed;
    if todo != [] {
      var b' := if todo[0] in t.prices
                then Executed(d, b, todo[0], t.decide(todo[0]), t.prices[todo[0]], equity, status) else b;
      CandidatesRule(d, b', t, todo[1..], equity, status, inv);
    }
  }

  lemma Rebooked(d: Desk, inv: Book -> bool, b: Book, r: Book)
    requires AboutTrading(d, inv) && inv(b) && SameTrading(d, b, r)
    ensures inv(r)
  {
  }

  /** The exits and the candidates of a cycle that does not kill. */
  lemma DeskRule(d: Desk, b: Book, t: Tick, equity: real, status: RiskStatus, inv: Book -> bool, ok: real -> bool)
    requires Consistent(b.positions) && inv(b) && ClosesKeep(d, inv, ok) && StopsKeep(inv)
    requires AllOk(t.prices, ok) && DecisionsKeep(d, inv, equity, status)
    ensures Snapshots(OpenRows(b.positions))
    ensures inv(Candidates(d, WatchedAll(d, b, OpenRows(b.positions), t.prices), t, t.universe, equity, status))
  {
    hide Candidates, WatchedAll, OpenRows, ClosesKeep, StopsKeep, DecisionsKeep, Current, AllOk;
    SnapshotIsCurrent(b);
    WatchAllRule(d, b, OpenRows(b.positions), t.prices, inv, ok);
    CandidatesRule(d, WatchedAll(d, b, OpenRows(b.positions), t.prices), t, t.universe, equity, status, inv);
  }

  /** What every step keeps, a cycle keeps. */
  lemma CycleRule(d: Desk, b: Book, t: Tick, inv: Book -> bool, ok: real -> bool)
    requires Consistent(b.positions) && inv(b) && AboutTrading(d, inv) && ClosesKeep(d, inv, ok) && StopsKeep(inv)
    requires AllOk(t.prices, ok) && forall p :: p in b.positions && p.open ==> ok(p.avg)
    requires var equity := Equity(d, b, t.prices);
             var status := StatusOf(d.s, equity, t.base);
             Kills(status) || DecisionsKeep(d, inv, equity, status)
    ensures inv(Cycled(d, b, t))
  {
    hide Candidates, WatchedAll, Triggered, StatusOf, Equity, OpenRows, ClosesKeep, StopsKeep, DecisionsKeep,
      AboutTrading, AllOk, Halted, Kills;
    if !Halted(b) {
      var equity := Equity(d, b, t.prices);
      var status := StatusOf(d.s, equity, t.base);
      var b1 := WithRisk(b, Kills(status), status);
      Rebooked(d, inv, b, b1);
      if Kills(status) {
        TriggerRule(d, b1, t.prices, inv, ok);
      } else {
        DeskRule(d, b1, t, equity, status, inv, ok);
        var b3 := Candidates(d, WatchedAll(d, b1, OpenRows(b1.positions), t.prices), t, t.universe, equity, status);
        Rebooked(d, inv, b3, Snapshot(d, b3, t.prices));
      }
    }
  }
}
