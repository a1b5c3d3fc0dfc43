/** What paper trades pay and receive (src/surge/trading/brokers.py, src/surge/trading/execution.py,
    src/surge/trading/killswitch.py), in prices, slippage and commissions alone. */
module TradingMoney {
  import opened Prelude
  import opened Ledger
  import opened Risk
  import opened Trading
  import opened TradingRules
  import opened TradingLimits
  import opened TradingSafety
  import opened TradingSlippage

  /** What a trade of `qty` shares is charged. */
  function Commission(s: Settings, qty: real): real
  {
    var perShare := s.commissionPerShare * qty;
    if perShare > s.commissionMin then perShare else s.commissionMin
  }

  /** The share of the reference price a paper sale keeps, and a paper buy pays. */
  function SaleKeeps(s: Settings, value: real): real { value - s.slip * value }

  function BuyPays(s: Settings, value: real): real { value + s.slip * value }

  // ---- one trade ------------------------------------------------------------------------------------

  /** Closing a position on paper brings its value at the quoted price, less slippage and commission. */
  lemma SaleProceedsInMoney(d: Desk, b: Book, symbol: string, ref: real)
    requires d.mode == Paper && Consistent(b.positions) && GetPosition(b.positions, symbol).Some?
    ensures var p := GetPosition(b.positions, symbol).value;
            && Cash(d.start, Closed(d, b, symbol, ref))
               == Cash(d.start, b) + SaleKeeps(d.s, Times(p.qty, ref)) - Commission(d.s, p.qty)
            && GetPosition(Closed(d, b, symbol, ref).positions, symbol) == None
  {
    hide Cash, Times, SaleKeeps, Commission, Closed, Upsert;
    ClosedShape(d, b, symbol, ref);
    var p := GetPosition(b.positions, symbol).value;
    SaleFill(d.s, symbol, p.qty, ref);
    var row := AfterSell(p, PaperFill(d.s, symbol, Sell, p.qty, ref));
    UpsertKeeps(b.positions, row);
  }

  lemma SaleFill(s: Settings, symbol: string, qty: real, ref: real)
    ensures var f := PaperFill(s, symbol, Sell, qty, ref);
            f.qty == qty && f.commission == Commission(s, qty) && Times(qty, f.price) == SaleKeeps(s, Times(qty, ref))
  {
    var v := ref * s.slip;
    assert qty * (ref - v) == qty * ref - qty * v;
    assert qty * v == s.slip * (qty * ref);
  }

  lemma BuyFillPays(s: Settings, symbol: string, qty: real, ref: real)
    ensures var f := PaperFill(s, symbol, Buy, qty, ref);
            f.qty == qty && f.commission == Commission(s, qty) && Times(qty, f.price) == BuyPays(s, Times(qty, ref))
  {
    var v := ref * s.slip;
    assert qty * (ref + v) == qty * ref + qty * v;
    assert qty * v == s.slip * (qty * ref);
  }

  /** The stop or target a bought position carries: the decision's own, or the default percentage away. */
  function BoughtStop(s: Settings, c: Decision, ref: real): real
  {
    if c.stop.Some? && c.stop.value != 0.0 then c.stop.value else ref - s.defaultStopPct * ref
  }

  function BoughtTarget(s: Settings, c: Decision, ref: real): real
  {
    if c.target.Some? && c.target.value != 0.0 then c.target.value else ref + s.defaultTargetPct * ref
  }

  lemma BracketInMoney(s: Settings, c: Decision, ref: real)
    ensures StopFor(s, c, ref) == BoughtStop(s, c, ref) && TargetFor(s, c, ref) == BoughtTarget(s, c, ref)
  {
    assert ref * (1.0 - s.defaultStopPct) == ref - s.defaultStopPct * ref;
    assert ref * (1.0 + s.defaultTargetPct) == ref + s.defaultTargetPct * ref;
  }

  /** An approved paper buy costs its value at the quoted price plus slippage and commission, and leaves the decision's
      bracket, or the default one, on the whole holding. */
  lemma BuyOutlayInMoney(d: Desk, b: Book, symbol: string, c: Decision, ref: real, equity: real, status: RiskStatus)
    requires d.mode == Paper && Consistent(b.positions) && Buys(d, b, symbol, c, ref, equity, status)
    ensures var r := Executed(d, b, symbol, c, ref, equity, status);
            var n := BuyVerdict(d, b, symbol, c, ref, equity, status).qty as real;
            && Cash(d.start, r) == Cash(d.start, b) - BuyPays(d.s, Times(n, ref)) - Commission(d.s, n)
            && GetPosition(r.positions, symbol).Some?
            && GetPosition(r.positions, symbol).value.stop == Some(BoughtStop(d.s, c, ref))
            && GetPosition(r.positions, symbol).value.target == Some(BoughtTarget(d.s, c, ref))
  {
    hide BuyVerdict, Times, Traded, Cash, OpenCost, Upsert, StopFor, TargetFor, BoughtStop, BoughtTarget, BuyPays,
      Commission, Attached;
    var n := BuyVerdict(d, b, symbol, c, ref, equity, status).qty as real;
    BuyFillPays(d.s, symbol, n, ref);
    BoughtShape(d, b, symbol, n, ref);
    BracketInMoney(d.s, c, ref);
    var bought := Traded(d, b, symbol, Buy, n, ref);
    UpsertKeeps(b.positions, AfterBuy(GetPosition(b.positions, symbol), PaperFill(d.s, symbol, Buy, n, ref)));
    AttachedKeepsCash(d.start, bought, symbol, StopFor(d.s, c, ref), TargetFor(d.s, c, ref));
    BracketAttached(bought, symbol, StopFor(d.s, c, ref), TargetFor(d.s, c, ref));
  }

  lemma BracketAttached(b: Book, symbol: string, stop: real, target: real)
    requires Consistent(b.positions) && GetPosition(b.positions, symbol).Some?
    ensures var r := GetPosition(Attached(b, symbol, stop, target).positions, symbol);
            r.Some? && r.value.stop == Some(stop) && r.value.target == Some(target)
  {
    hide Upsert;
    RowIsIn(b.positions, symbol);
    var p := GetPosition(b.positions, symbol).value.(stop := Some(stop), target := Some(target));
    UpsertKeeps(b.positions, p);
  }

  // ---- decisions ------------------------------------------------------------------------------------------

  /** A decision to sell closes the whole position: on paper at once, as one filled order; in live mode as one order
      that waits.  Without a position, a usable price or an action, nothing happens. */
  lemma SellDecisionCloses(d: Desk, b: Book, symbol: string, c: Decision, ref: real, equity: real, status: RiskStatus)
    requires Consistent(b.positions)
    ensures var r, was := Executed(d, b, symbol, c, ref, equity, status), GetPosition(b.positions, symbol);
            && (ref <= 0.0 || c.action == HoldIt || (c.action == SellIt && was.None?) ==> r == b)
            && (ref > 0.0 && c.action == SellIt && was.Some? && d.mode == Live ==>
                  r == b.(orders := b.orders + [Order(symbol, Sell, was.value.qty, PendingApproval)]))
            && (ref > 0.0 && c.action == SellIt && was.Some? && d.mode == Paper ==>
                  GetPosition(r.positions, symbol) == None
                  && r.orders == b.orders + [Order(symbol, Sell, was.value.qty, Filled)]
                  && Cash(d.start, r)
                     == Cash(d.start, b) + SaleKeeps(d.s, Times(was.value.qty, ref)) - Commission(d.s, was.value.qty))
  {
    hide Cash, Times, SaleKeeps, Commission, Traded;
    RowIsIn(b.positions, symbol);
    var was := GetPosition(b.positions, symbol);
    if ref > 0.0 && c.action == SellIt && was.Some? && d.mode == Paper {
      SaleProceedsInMoney(d, b, symbol, ref);
      TradedOrder(d, b, symbol, Sell, was.value.qty, ref);
    }
  }

  lemma TradedOrder(d: Desk, b: Book, symbol: string, side: Side, qty: real, ref: real)
    requires qty > 0.0 && Consistent(b.positions)
    ensures Traded(d, b, symbol, side, qty, ref).orders == b.orders + [Order(symbol, side, qty, Filled)]
  {
    hide Times, OpenCost, Upsert, AfterBuy, AfterSell;
  }

  /** In live mode an approved buy is one order for the approved shares, waiting; a vetoed one is nothing, in any
      mode. */
  lemma BuyDecisionStages(d: Desk, b: Book, symbol: string, c: Decision, ref: real, equity: real, status: RiskStatus)
    requires Consistent(b.positions) && ref > 0.0 && c.action == BuyIt
    ensures var r := Executed(d, b, symbol, c, ref, equity, status);
            var v := BuyVerdict(d, b, symbol, c, ref, equity, status);
            && (v.Vetoed? ==> r == b)
            && (v.Approved? && d.mode == Live ==>
                  v.qty >= 1 && r == b.(orders := b.orders + [Order(symbol, Buy, v.qty as real, PendingApproval)]))
  {
    hide Assess, PositionSize, StopFor, TargetFor, Traded, Attached;
    if BuyVerdict(d, b, symbol, c, ref, equity, status).Approved? {
      var stop := StopFor(d.s, c, ref);
      var t := Proposal(symbol, true, PositionSize(d.s, equity, ref, stop, c.sizePct), ref, stop);
      ApprovedWithinCaps(d.s, t, OpenRows(b.positions), equity, Cash(d.start, b), status);
    }
  }

  /** A cycle that runs to its end records the account it leaves, its cash and its equity at the last prices, and one
      risk row with the status it judged by. */
  lemma CycleRecordsEquity(d: Desk, b: Book, t: Tick)
    requires Consistent(b.positions) && !Halted(b) && !Kills(StatusOf(d.s, Equity(d, b, t.prices), t.base))
    ensures var r := Cycled(d, b, t);
            && r.accounts != [] && r.accounts[|r.accounts| - 1] == Account(Cash(d.start, r), Equity(d, r, t.prices))
            && Cash(d.start, r) == Cash(d.start, r.(accounts := r.accounts[..|r.accounts| - 1]))
            && r.risk == b.risk + [RiskRow(false, StatusOf(d.s, Equity(d, b, t.prices), t.base))]
  {
    hide StatusOf, WatchedAll, Candidates, MarketValue, OpenRows, Closed, Executed;
    var equity := Equity(d, b, t.prices);
    var status := StatusOf(d.s, equity, t.base);
    var b1 := WithRisk(b, Kills(status), status);
    var inv := (r: Book) => r.risk == b1.risk;
    forall r: Book, symbol, ref | Consistent(r.positions) && inv(r) ensures inv(Closed(d, r, symbol, ref)) {
      TradesKeepRisk(d, r, symbol, Sell, 0.0, ref);
    }
    forall r: Book, symbol, c, ref | Consistent(r.positions) && inv(r)
      ensures inv(Executed(d, r, symbol, c, ref, equity, status))
    {
      DecisionKeepsRisk(d, r, symbol, c, ref, equity, status);
    }
    DeskRule(d, b1, t, equity, status, inv, x => true);
  }

  // ---- the kill switch cashes the account ---------------------------------------------------------------

  /** Commissions for closing every row. */
  function ClosingCommissions(s: Settings, rows: seq<Position>): real
  {
    if rows == [] then 0.0 else Commission(s, rows[0].qty) + ClosingCommissions(s, rows[1..])
  }

  lemma CurrentAfterClose(d: Desk, b: Book, rows: seq<Position>, ref: real)
    requires Consistent(b.positions) && Current(b, rows) && rows != []
    ensures Current(Closed(d, b, rows[0].symbol, ref), rows[1..])
  {
    hide Closed, Row;
    var rest := rows[1..];
    assert rows == [rows[0]] + rest;
    forall p | p in rest ensures Row(Closed(d, b, rows[0].symbol, ref).positions, p.symbol) == Some(p) {
      var k :| 0 <= k < |rest| && rest[k] == p;
      assert rows[k + 1] == p;
      ClosedOther(d, b, rows[0].symbol, ref, p.symbol);
    }
  }

  /** Flattening sells every row at its last price, or at cost without one. */
  lemma {:induction false} FlattenedCash(d: Desk, b: Book, rows: seq<Position>, prices: map<string, real>)
    requires d.mode == Paper && Consistent(b.positions) && Current(b, rows)
    ensures Cash(d.start, Flattened(d, b, rows, prices))
            == Cash(d.start, b) + SaleKeeps(d.s, MarketValue(rows, prices)) - ClosingCommissions(d.s, rows)
    decreases |rows|
  {
    hide Closed, Cash, Row, Times, Commission, SaleKeeps;
    if rows == [] {
      NothingSold(d.s);
    } else {
      var p := rows[0];
      var ref := if p.symbol in prices then prices[p.symbol] else p.avg;
      assert p in rows && GetPosition(b.positions, p.symbol) == Some(p);
      SaleProceedsInMoney(d, b, p.symbol, ref);
      CurrentAfterClose(d, b, rows, ref);
      FlattenedCash(d, Closed(d, b, p.symbol, ref), rows[1..], prices);
      BothSold(d.s, Times(p.qty, ref), MarketValue(rows[1..], prices));
    }
  }

  lemma NothingSold(s: Settings)
    ensures SaleKeeps(s, 0.0) == 0.0
  {
  }

  lemma BothSold(s: Settings, x: real, y: real)
    ensures SaleKeeps(s, x + y) == SaleKeeps(s, x) + SaleKeeps(s, y)
  {
  }

  /** On paper the kill switch turns the account's market value into cash, less slippage and commissions; without
      either, cash is then the equity the account had. */
  lemma TriggerCashesEquity(d: Desk, b: Book, prices: map<string, real>)
    requires d.mode == Paper && Consistent(b.positions)
    ensures var r, rows := Triggered(d, b, prices), OpenRows(b.positions);
            && Cash(d.start, r)
               == Cash(d.start, b) + SaleKeeps(d.s, MarketValue(rows, prices)) - ClosingCommissions(d.s, rows)
            && (d.s.slip == 0.0 && FreeOfCharge(d.s) ==> Cash(d.start, r) == Equity(d, b, prices))
  {
    hide Flattened, CancelledAll, OpenRows, MarketValue, ClosingCommissions, FreeOfCharge, SaleKeeps, Row;
    var cancelled, rows := b.(orders := CancelledAll(b.orders)), OpenRows(b.positions);
    SnapshotIsCurrent(b);
    FlattenedCash(d, cancelled, rows, prices);
    if d.s.slip == 0.0 && FreeOfCharge(d.s) {
      KeepsAll(d.s, MarketValue(rows, prices));
      NoCommissions(d.s, rows);
    }
  }

  lemma KeepsAll(s: Settings, x: real)
    requires s.slip == 0.0
    ensures SaleKeeps(s, x) == x
  {
  }

  lemma {:induction false} NoCommissions(s: Settings, rows: seq<Position>)
    requires FreeOfCharge(s)
    ensures ClosingCommissions(s, rows) == 0.0
  {
    if rows != [] { NoCommissions(s, rows[1..]); }
  }

  // ---- the order of a cycle's decisions --------------------------------------------------------------------

  /** Decisions are taken in the order of the universe: those on a later part see the account the earlier part left. */
  lemma {:induction false} CandidatesInOrder(d: Desk, b: Book, t: Tick, first: seq<string>, rest: seq<string>,
                                            equity: real, status: RiskStatus)
    requires Consistent(b.positions)
    ensures Candidates(d, b, t, first + rest, equity, status)
            == Candidates(d, Candidates(d, b, t, first, equity, status), t, rest, equity, status)
    decreases |first|
  {
    hide Executed;
    if first == [] {
      assert first + rest == rest;
    } else {
      var symbol := first[0];
      var b' := if symbol in t.prices
                then Executed(d, b, symbol, t.decide(symbol), t.prices[symbol], equity, status) else b;
      assert (first + rest)[1..] == first[1..] + rest;
      CandidatesInOrder(d, b', t, first[1..], rest, equity, status);
    }
  }
}
