/** The fills table is a complete record: replaying it reproduces cash and holdings after any
    run of paper cycles, so nothing is created or lost between cycles. */
module TradingAudit {
  import opened Prelude
  import opened Ledger
  import opened Risk
  import opened Trading
  import opened TradingRules

  // ---- holdings without their stops ---------------------------------------------------------

  function Bare(p: Position): Position { p.(stop := None, target := None) }

  function Bared(ps: seq<Position>): (r: seq<Position>)
    ensures |r| == |ps| && forall k :: 0 <= k < |ps| ==> r[k] == Bare(ps[k])
  {
    if ps == [] then [] else [Bare(ps[0])] + Bared(ps[1..])
  }

  function BareRow(r: Option<Position>): Option<Position> { if r.Some? then Some(Bare(r.value)) else None }

  lemma {:induction false} BaredRow(ps: seq<Position>, symbol: string)
    ensures Row(Bared(ps), symbol) == BareRow(Row(ps, symbol))
    ensures GetPosition(Bared(ps), symbol) == BareRow(GetPosition(ps, symbol))
  {
    if ps != [] {
      BaredRow(ps[1..], symbol);
      assert Bared(ps)[1..] == Bared(ps[1..]);
    }
  }

  lemma {:induction false} BaredUpsert(ps: seq<Position>, p: Position)
    ensures Bared(Upsert(ps, p)) == Upsert(Bared(ps), Bare(p))
  {
    if ps != [] {
      BaredUpsert(ps[1..], p);
      assert Bared(ps)[1..] == Bared(ps[1..]);
    }
  }

  lemma {:induction false} BaredCost(ps: seq<Position>)
    ensures OpenCost(Bared(ps)) == OpenCost(ps)
  {
    if ps != [] {
      BaredCost(ps[1..]);
      assert Bared(ps)[1..] == Bared(ps[1..]);
    }
  }

  lemma SameSymbol(p: Position, q: Position)
    requires Bare(p) == Bare(q)
    ensures p.symbol == q.symbol
  {
  }

  /** Rewriting a row with other stops is invisible. */
  lemma BaredRewrite(ps: seq<Position>, p: Position, q: Position)
    requires Consistent(ps) && p in ps && Bare(p) == Bare(q)
    ensures Bared(Upsert(ps, q)) == Bared(ps)
  {
    hide Upsert, Bared, Bare;
    var k := PlaceOf(ps, p.symbol);
    SameSymbol(p, q);
    UpsertAt(ps, k, q);
    var j :| 0 <= j < |ps| && ps[j] == p;
    assert j == k;
    var r := Upsert(ps, q);
    forall i | 0 <= i < |ps| ensures Bared(r)[i] == Bared(ps)[i] {
      assert r[i] == if i == k then q else ps[i];
    }
  }

  // ---- the record --------------------------------------------------------------------------------

  /** Whole-share fills, applied one after the other from an empty book, give the cash and the holdings of `b`. */
  ghost predicate Replays(start: real, b: Book)
  {
    && WholeShares(b.fills)
    && RunFills(start, b.fills).positions == Bared(b.positions)
    && Cash(start, RunFills(start, b.fills)) == Cash(start, b)
  }

  lemma HoldingsAreWhole(start: real, b: Book, symbol: string)
    requires Replays(start, b) && GetPosition(b.positions, symbol).Some?
    ensures IsWhole(GetPosition(b.positions, symbol).value.qty)
  {
    hide RunFills, IsWhole;
    WholeStaysWhole(start, b.fills);
    RowIsIn(b.positions, symbol);
    var p := GetPosition(b.positions, symbol).value;
    var k :| 0 <= k < |b.positions| && b.positions[k] == p;
    assert Bared(b.positions)[k] in Bared(b.positions);
  }

  /** What a fill does to a row does not depend on its stops. */
  lemma BareAfter(pos: Option<Position>, f: Fill)
    requires f.qty > 0.0 && (pos.Some? ==> pos.value.qty > 0.0)
    ensures Bare(AfterBuy(pos, f)) == AfterBuy(BareRow(pos), f)
    ensures pos.Some? ==> Bare(AfterSell(pos.value, f)) == AfterSell(Bare(pos.value), f)
  {
    hide Times;
  }

  lemma RunFillsSnoc(start: real, fs: seq<Fill>, f: Fill)
    requires WholeShares(fs) && f.qty > 0.0 && IsWhole(f.qty)
    ensures WholeShares(fs + [f]) && RunFills(start, fs + [f]) == Applied(start, RunFills(start, fs), f)
  {
    hide Applied, IsWhole;
    assert (fs + [f])[..|fs|] == fs;
  }

  /** A fill that has an effect is recorded, and the record still replays. */
  lemma AppliedReplays(start: real, b: Book, f: Fill)
    requires Consistent(b.positions) && Replays(start, b) && f.qty > 0.0 && IsWhole(f.qty)
    requires f.side == Buy || GetPosition(b.positions, f.symbol).Some?
    ensures Replays(start, Applied(start, b, f))
  {
    hide Times, OpenCost, Upsert, IsWhole, AfterBuy, AfterSell, Row, Bared, RunFills;
    RowIsIn(b.positions, f.symbol);
    BareAfter(GetPosition(b.positions, f.symbol), f);
    var r, pos := RunFills(start, b.fills), GetPosition(b.positions, f.symbol);
    RowIsIn(r.positions, f.symbol);
    BaredRow(b.positions, f.symbol);
    RunFillsSnoc(start, b.fills, f);
    if f.side == Buy {
      BaredUpsert(b.positions, AfterBuy(pos, f));
    } else {
      BaredUpsert(b.positions, AfterSell(pos.value, f));
    }
  }

  lemma TradedReplays(d: Desk, b: Book, symbol: string, side: Side, qty: real, ref: real)
    requires Consistent(b.positions) && Replays(d.start, b) && qty > 0.0 && IsWhole(qty)
    requires side == Buy || GetPosition(b.positions, symbol).Some?
    ensures Replays(d.start, Traded(d, b, symbol, side, qty, ref))
  {
    hide Applied, RunFills, IsWhole;
    AppliedReplays(d.start, b.(orders := b.orders + [Order(symbol, side, qty, Filled)]),
                   PaperFill(d.s, symbol, side, qty, ref));
  }

  lemma ClosedReplays(d: Desk, b: Book, symbol: string, ref: real)
    requires d.mode == Paper && Consistent(b.positions) && Replays(d.start, b)
    ensures Replays(d.start, Closed(d, b, symbol, ref))
  {
    hide Traded, Replays, IsWhole;
    RowIsIn(b.positions, symbol);
    var pos := GetPosition(b.positions, symbol);
    if pos.Some? && pos.value.qty > 0.0 {
      HoldingsAreWhole(d.start, b, symbol);
      TradedReplays(d, b, symbol, Sell, pos.value.qty, ref);
    }
  }

  lemma ExecutedReplays(d: Desk, b: Book, symbol: string, c: Decision, ref: real, equity: real, status: RiskStatus)
    requires d.mode == Paper && Consistent(b.positions) && Replays(d.start, b)
    ensures Replays(d.start, Executed(d, b, symbol, c, ref, equity, status))
  {
    hide Traded, Closed, Assess, PositionSize, StopFor, TargetFor, Replays, IsWhole, Attached;
    if ref > 0.0 {
      ClosedReplays(d, b, symbol, ref);
      if c.action == BuyIt {
        var v := BuyVerdict(d, b, symbol, c, ref, equity, status);
        if v.Approved? && v.qty >= 1 {
          IntegerIsWhole(v.qty);
          TradedReplays(d, b, symbol, Buy, v.qty as real, ref);
          AttachedReplays(d, Traded(d, b, symbol, Buy, v.qty as real, ref), symbol, StopFor(d.s, c, ref),
                          TargetFor(d.s, c, ref));
        }
      }
    }
  }

  lemma AttachedReplays(d: Desk, b: Book, symbol: string, stop: real, target: real)
    requires Consistent(b.positions) && Replays(d.start, b)
    ensures Replays(d.start, Attached(b, symbol, stop, target))
  {
    hide Upsert, RunFills;
    RowIsIn(b.positions, symbol);
    var pos := GetPosition(b.positions, symbol);
    if pos.Some? {
      BaredRewrite(b.positions, pos.value, pos.value.(stop := Some(stop), target := Some(target)));
    }
  }

  ghost function ReplaysFrom(start: real): Book -> bool { b => Replays(start, b) }

  lemma ReplaysAboutTrading(d: Desk)
    ensures AboutTrading(d, ReplaysFrom(d.start)) && StopsKeep(ReplaysFrom(d.start))
  {
    hide RunFills, Upsert, CancelledAll, Bared, Consistent;
    forall b: Book, p: Position, stop | Consistent(b.positions) && Replays(d.start, b) && p in b.positions && p.open
      ensures Replays(d.start, WithStop(b, p, stop))
    {
      BaredRewrite(b.positions, p, p.(stop := Some(stop)));
    }
  }

  lemma ReplaysStepsKeep(d: Desk, equity: real, status: RiskStatus)
    requires d.mode == Paper
    ensures ClosesKeep(d, ReplaysFrom(d.start), x => true)
    ensures DecisionsKeep(d, ReplaysFrom(d.start), equity, status)
  {
    hide Closed, Executed, Replays;
    forall b: Book, symbol, ref | Consistent(b.positions) && Replays(d.start, b)
      ensures Replays(d.start, Closed(d, b, symbol, ref))
    {
      ClosedReplays(d, b, symbol, ref);
    }
    forall b: Book, symbol, c, ref | Consistent(b.positions) && Replays(d.start, b)
      ensures Replays(d.start, Executed(d, b, symbol, c, ref, equity, status))
    {
      ExecutedReplays(d, b, symbol, c, ref, equity, status);
    }
  }

  lemma StepReplays(d: Desk, b: Book, e: Event)
    requires d.mode == Paper && Consistent(b.positions) && Replays(d.start, b)
    ensures Replays(d.start, Step(d, b, e))
  {
    hide Cycled, Triggered, Replays, ClosesKeep, DecisionsKeep, AboutTrading, StopsKeep;
    ReplaysAboutTrading(d);
    match e {
      case Cycle(t) =>
        var equity := Equity(d, b, t.prices);
        ReplaysStepsKeep(d, equity, StatusOf(d.s, equity, t.base));
        CycleRule(d, b, t, ReplaysFrom(d.start), x => true);
      case Trigger(prices) =>
        ReplaysStepsKeep(d, 0.0, Fine);
        TriggerRule(d, b, prices, ReplaysFrom(d.start), x => true);
      case Reset =>
        Rebooked(d, ReplaysFrom(d.start), b, WithRisk(b, false, Fine));
    }
  }

  /** After any run of paper cycles, triggers and resets, replaying the fills table from an empty book reproduces
      the cash and every row's quantity, average price, realised profit and state. */
  lemma {:induction false} LogReproducesBook(d: Desk, es: seq<Event>)
    requires d.mode == Paper
    ensures Replays(d.start, Run(d, EMPTY, es))
  {
    hide Step, RunFills;
    if es == [] {
      EmptyReplays(d.start);
    } else {
      LogReproducesBook(d, es[..|es| - 1]);
      StepReplays(d, Run(d, EMPTY, es[..|es| - 1]), es[|es| - 1]);
    }
  }

  lemma EmptyReplays(start: real)
    ensures Replays(start, EMPTY)
  {
  }

  /** So every run of cycles conserves: cash plus open cost plus commissions less realised profit is the starting
      capital. */
  lemma CyclesConserve(d: Desk, es: seq<Event>)
    requires d.mode == Paper
    ensures var b := Run(d, EMPTY, es);
            && WholeShares(b.fills)
            && Worth(d.start, b) + RunTotals(d.start, b.fills).commission - RunTotals(d.start, b.fills).realised
               == d.start
  {
    hide Run, RunFills, RunTotals;
    LogReproducesBook(d, es);
    var b := Run(d, EMPTY, es);
    BaredCost(b.positions);
    WholeSharesConserve(d.start, b.fills);
  }

  // ---- equity ------------------------------------------------------------------------------------

  /** What the open positions have gained on paper at the last prices; without a price, nothing. */
  function PaperGain(ps: seq<Position>, prices: map<string, real>): real
  {
    if ps == [] then 0.0
    else (if ps[0].open && ps[0].symbol in prices then Times(ps[0].qty, prices[ps[0].symbol] - ps[0].avg) else 0.0)
         + PaperGain(ps[1..], prices)
  }

  lemma TimesLess(q: real, x: real, y: real)
    ensures Times(q, x) == Times(q, y) + Times(q, x - y)
  {
  }

  lemma {:induction false} MarketIsCostPlusGain(ps: seq<Position>, prices: map<string, real>)
    ensures MarketValue(OpenRows(ps), prices) == OpenCost(ps) + PaperGain(ps, prices)
  {
    hide Times;
    if ps != [] {
      MarketIsCostPlusGain(ps[1..], prices);
      var rest := OpenRows(ps[1..]);
      if !ps[0].open {
        assert OpenRows(ps) == rest;
      } else {
        assert OpenRows(ps)[0] == ps[0] && OpenRows(ps)[1..] == rest;
        if ps[0].symbol in prices { TimesLess(ps[0].qty, prices[ps[0].symbol], ps[0].avg); }
      }
    }
  }

  /** The equity a cycle judges by is the starting capital plus realised and paper profit less commissions. */
  lemma EquityIsEarned(d: Desk, es: seq<Event>, prices: map<string, real>)
    requires d.mode == Paper
    ensures var b := Run(d, EMPTY, es);
            && WholeShares(b.fills)
            && Equity(d, b, prices) == d.start + RunTotals(d.start, b.fills).realised
                                       - RunTotals(d.start, b.fills).commission + PaperGain(b.positions, prices)
  {
    hide Run, RunTotals, OpenCost, PaperGain, MarketValue;
    CyclesConserve(d, es);
    MarketIsCostPlusGain(Run(d, EMPTY, es).positions, prices);
  }
}
