/** Limits that every run of paper cycles respects: how many positions are open, and how low cash can go. */
module TradingLimits {
  import opened Prelude
  import opened Ledger
  import opened Risk
  import opened Trading
  import opened TradingRules

  // ---- counting open positions ------------------------------------------------------------------

  lemma {:induction false} SymbolsCount(rows: seq<Position>)
    requires DistinctRows(rows)
    ensures |Symbols(rows)| == |rows|
  {
    if rows == [] {
      assert Symbols(rows) == {};
    } else {
      var rest := rows[1..];
      assert rows == [rows[0]] + rest;
      SymbolsCount(rest);
      forall p | p in rest ensures p.symbol != rows[0].symbol {
        var k :| 0 <= k < |rest| && rest[k] == p;
        assert rows[k + 1] == p;
      }
      SymbolsCons(rows[0], rest);
    }
  }

  lemma SymbolsCons(p: Position, rest: seq<Position>)
    requires forall q :: q in rest ==> q.symbol != p.symbol
    ensures |Symbols([p] + rest)| == 1 + |Symbols(rest)|
  {
    assert Symbols([p] + rest) == {p.symbol} + Symbols(rest);
    assert p.symbol !in Symbols(rest);
  }

  function OpenFlag(r: Option<Position>): int { if r.Some? && r.value.open then 1 else 0 }

  lemma {:induction false} UpsertCount(ps: seq<Position>, p: Position)
    ensures |OpenRows(Upsert(ps, p))| == |OpenRows(ps)| - OpenFlag(Row(ps, p.symbol)) + OpenFlag(Some(p))
  {
    if ps == [] {
      assert [p][1..] == [];
    } else if ps[0].symbol == p.symbol {
      assert ([p] + ps[1..])[1..] == ps[1..];
    } else {
      UpsertCount(ps[1..], p);
      assert ([ps[0]] + Upsert(ps[1..], p))[1..] == Upsert(ps[1..], p);
    }
  }

  // ---- the limits -------------------------------------------------------------------------------

  function Commissions(fs: seq<Fill>): real
  {
    if fs == [] then 0.0 else Commissions(fs[..|fs| - 1]) + fs[|fs| - 1].commission
  }

  function BuyCount(fs: seq<Fill>): nat
  {
    if fs == [] then 0 else BuyCount(fs[..|fs| - 1]) + if fs[|fs| - 1].side == Buy then 1 else 0
  }

  lemma FillsSnoc(fs: seq<Fill>, f: Fill)
    ensures Commissions(fs + [f]) == Commissions(fs) + f.commission
    ensures BuyCount(fs + [f]) == BuyCount(fs) + if f.side == Buy then 1 else 0
  {
    assert (fs + [f])[..|fs|] == fs;
  }

  /** How far slippage and the cash tolerance can take the account below zero. */
  function Overdraft(s: Settings, peak: real): real { 0.000001 + s.slip * PositionCap(s, peak) }

  /** Paper trading under sensible settings. */
  predicate Sound(d: Desk)
  {
    && d.mode == Paper && d.start >= 0.0 && 0.0 <= d.s.slip <= 1.0 && d.s.maxPositionPct >= 0.0
    && d.s.commissionMin >= 0.0
  }

  predicate FreeOfCharge(s: Settings) { s.commissionMin == 0.0 && s.commissionPerShare == 0.0 }

  predicate Positive(prices: map<string, real>) { forall k :: k in prices ==> prices[k] > 0.0 }

  /** Position count, cash and cost basis are within limits, given the largest equity at which a buy was approved. */
  ghost predicate Limited(d: Desk, b: Book, peak: real)
  {
    Consistent(b.positions) && Bounded(d, b, peak)
  }

  ghost predicate Bounded(d: Desk, b: Book, peak: real)
  {
    && |OpenRows(b.positions)| <= d.s.maxConcurrent
    && (forall p :: p in b.positions && p.open ==> p.avg >= 0.0)
    && Commissions(b.fills) >= 0.0 && (FreeOfCharge(d.s) ==> Commissions(b.fills) == 0.0)
    && Cash(d.start, b) >= -Overdraft(d.s, peak) - Commissions(b.fills)
  }

  lemma OverdraftMono(s: Settings, x: real, y: real)
    requires x <= y && s.slip >= 0.0 && s.maxPositionPct >= 0.0
    ensures Overdraft(s, x) <= Overdraft(s, y)
  {
    var a, b := PositionCap(s, x), PositionCap(s, y);
    assert a <= b by { MulMono(x, y, s.maxPositionPct); }
    MulMono(a, b, s.slip);
  }

  lemma SellProceeds(sold: real, ref: real, slip: real)
    requires sold >= 0.0 && ref >= 0.0 && 0.0 <= slip <= 1.0
    ensures Times(sold, ref - ref * slip) >= 0.0
  {
    var price := ref * (1.0 - slip);
    assert price >= 0.0;
    assert ref - ref * slip == price;
    assert sold * price >= 0.0;
  }

  lemma CommissionCharged(s: Settings, symbol: string, side: Side, qty: real, ref: real)
    ensures PaperFill(s, symbol, side, qty, ref).commission >= s.commissionMin
    ensures FreeOfCharge(s) ==> PaperFill(s, symbol, side, qty, ref).commission == 0.0
  {
  }

  /** What a paper close does to each table. */
  lemma ClosedShape(d: Desk, b: Book, symbol: string, ref: real)
    requires d.mode == Paper && Consistent(b.positions) && GetPosition(b.positions, symbol).Some?
    ensures var p := GetPosition(b.positions, symbol).value;
            var f := PaperFill(d.s, symbol, Sell, p.qty, ref);
            var r := Closed(d, b, symbol, ref);
            && p in b.positions && p.qty > 0.0 && p.symbol == symbol
            && r.positions == Upsert(b.positions, AfterSell(p, f)) && r.fills == b.fills + [f]
            && Cash(d.start, r) == Cash(d.start, b) + (Times(p.qty, f.price) - f.commission)
  {
    hide Times, OpenCost, Upsert;
    RowIsIn(b.positions, symbol);
  }

  /** Closing on paper only adds cash (less the commission) and never adds a position. */
  lemma ClosedLimited(d: Desk, b: Book, symbol: string, ref: real, peak: real)
    requires Sound(d) && Limited(d, b, peak) && ref >= 0.0
    ensures Limited(d, Closed(d, b, symbol, ref), peak)
    ensures BuyCount(Closed(d, b, symbol, ref).fills) == BuyCount(b.fills)
  {
    hide Times, OpenCost, Upsert, Overdraft, OpenRows, Traded, Cash, Commissions, BuyCount, AfterSell, FreeOfCharge;
    RowIsIn(b.positions, symbol);
    if GetPosition(b.positions, symbol).Some? {
      ClosedShape(d, b, symbol, ref);
      var p := GetPosition(b.positions, symbol).value;
      var f := PaperFill(d.s, symbol, Sell, p.qty, ref);
      SoldOut(p, f);
      ClosedRows(d, b.positions, AfterSell(p, f));
      FillsSnoc(b.fills, f);
      CommissionCharged(d.s, symbol, Sell, p.qty, ref);
      SellProceeds(p.qty, ref, d.s.slip);
    }
  }

  /** Selling the whole quantity closes the row. */
  lemma SoldOut(p: Position, f: Fill)
    requires f.qty == p.qty
    ensures !AfterSell(p, f).open && AfterSell(p, f).symbol == p.symbol
  {
    hide Times;
  }

  lemma ClosedRows(d: Desk, ps: seq<Position>, row: Position)
    requires Consistent(ps) && !row.open && |OpenRows(ps)| <= d.s.maxConcurrent
    requires forall p :: p in ps && p.open ==> p.avg >= 0.0
    ensures var r := Upsert(ps, row);
            && Consistent(r) && |OpenRows(r)| <= d.s.maxConcurrent
            && (forall p :: p in r && p.open ==> p.avg >= 0.0)
  {
    hide Upsert, OpenRows;
    UpsertKeeps(ps, row);
    UpsertCount(ps, row);
  }

  lemma BuyOutlay(s: Settings, n: int, ref: real, cash: real, equity: real)
    requires n >= 1 && ref > 0.0 && s.slip >= 0.0
    requires Shares(n, ref) <= cash + 0.000001 && Shares(n, ref) <= PositionCap(s, equity)
    ensures cash - Times(n as real, ref + ref * s.slip) >= -Overdraft(s, equity)
  {
    var x, cap := Shares(n, ref), PositionCap(s, equity);
    var extra, most := x * s.slip, cap * s.slip;
    assert extra <= most by { MulMono(x, cap, s.slip); }
    assert n as real * (ref + ref * s.slip) == x + extra;
    assert s.slip * cap == most;
  }

  lemma AverageNonnegative(was: Option<Position>, f: Fill)
    requires f.qty > 0.0 && f.price >= 0.0 && (was.Some? ==> was.value.qty > 0.0 && was.value.avg >= 0.0)
    ensures AfterBuy(was, f).avg >= 0.0
  {
    if was.Some? {
      var total, q := Times(was.value.qty, was.value.avg) + Times(f.qty, f.price), was.value.qty + f.qty;
      assert total >= 0.0;
      var avg := total / q;
      assert avg * q == total;
      assert avg < 0.0 ==> avg * q < 0.0;
    }
  }

  /** What a paper buy does to each table. */
  lemma BoughtShape(d: Desk, b: Book, symbol: string, qty: real, ref: real)
    requires qty > 0.0 && Consistent(b.positions)
    ensures var pos := GetPosition(b.positions, symbol);
            var f := PaperFill(d.s, symbol, Buy, qty, ref);
            var r := Traded(d, b, symbol, Buy, qty, ref);
            && (pos.Some? ==> pos.value in b.positions && pos.value.qty > 0.0 && pos.value.symbol == symbol)
            && r.positions == Upsert(b.positions, AfterBuy(pos, f)) && r.fills == b.fills + [f]
            && Cash(d.start, r) == Cash(d.start, b) - (Times(qty, f.price) + f.commission)
  {
    hide Times, OpenCost, Upsert;
    RowIsIn(b.positions, symbol);
  }

  /** An approved buy keeps the limits once its equity is counted. */
  lemma BoughtLimited(d: Desk, b: Book, symbol: string, n: int, ref: real, equity: real, peak: real)
    requires Sound(d) && Limited(d, b, peak) && ref > 0.0 && n >= 1
    requires Shares(n, ref) <= Cash(d.start, b) + 0.000001 && Shares(n, ref) <= PositionCap(d.s, equity)
    requires Holds(OpenRows(b.positions), symbol) || |Symbols(OpenRows(b.positions))| < d.s.maxConcurrent
    ensures Limited(d, Traded(d, b, symbol, Buy, n as real, ref), Max(peak, equity))
    ensures BuyCount(Traded(d, b, symbol, Buy, n as real, ref).fills) == BuyCount(b.fills) + 1
  {
    hide Times, OpenCost, Upsert, Overdraft, OpenRows, Shares, PositionCap, Traded, Cash, Commissions, BuyCount,
      Symbols, FreeOfCharge;
    var pos := GetPosition(b.positions, symbol);
    var f := PaperFill(d.s, symbol, Buy, n as real, ref);
    BoughtShape(d, b, symbol, n as real, ref);
    BuyPrice(d.s, symbol, n as real, ref);
    AverageNonnegative(pos, f);
    BoughtRows(d, b.positions, symbol, AfterBuy(pos, f));
    FillsSnoc(b.fills, f);
    CommissionCharged(d.s, symbol, Buy, n as real, ref);
    BuyOutlay(d.s, n, ref, Cash(d.start, b), equity);
    OverdraftMono(d.s, equity, Max(peak, equity));
  }

  lemma BuyPrice(s: Settings, symbol: string, qty: real, ref: real)
    requires ref > 0.0 && s.slip >= 0.0
    ensures var f := PaperFill(s, symbol, Buy, qty, ref);
            f.price == ref + ref * s.slip && f.price >= 0.0
  {
    assert ref * s.slip >= 0.0;
  }

  /** A bought row adds at most one open position, and none when the symbol was held. */
  lemma BoughtRows(d: Desk, ps: seq<Position>, symbol: string, row: Position)
    requires Consistent(ps) && row.symbol == symbol && row.open && row.qty > 0.0 && row.avg >= 0.0
    requires |OpenRows(ps)| <= d.s.maxConcurrent
    requires Holds(OpenRows(ps), symbol) || |Symbols(OpenRows(ps))| < d.s.maxConcurrent
    requires forall p :: p in ps && p.open ==> p.avg >= 0.0
    ensures var r := Upsert(ps, row);
            && Consistent(r) && |OpenRows(r)| <= d.s.maxConcurrent
            && (forall p :: p in r && p.open ==> p.avg >= 0.0)
  {
    hide Upsert, OpenRows, Symbols;
    UpsertKeeps(ps, row);
    UpsertCount(ps, row);
    OpenRowsDistinct(ps);
    SymbolsCount(OpenRows(ps));
    HeldRowIsOpen(ps, symbol);
  }

  lemma HeldRowIsOpen(ps: seq<Position>, symbol: string)
    requires Consistent(ps)
    ensures Holds(OpenRows(ps), symbol) ==> GetPosition(ps, symbol).Some?
  {
    hide OpenRows;
    RowIsIn(ps, symbol);
    if Holds(OpenRows(ps), symbol) {
      var p :| p in OpenRows(ps) && p.symbol == symbol;
      assert p in ps && p.open;
      var r := Row(ps, symbol).value;
      var j :| 0 <= j < |ps| && ps[j] == p;
      var k :| 0 <= k < |ps| && ps[k] == r;
      assert j == k;
    }
  }

  /** Rewriting the stop and target of an open row keeps every limit. */
  lemma RewriteLimited(d: Desk, b: Book, p: Position, q: Position, peak: real)
    requires Limited(d, b, peak) && p in b.positions && p.open
    requires q == p.(stop := q.stop, target := q.target)
    ensures Limited(d, b.(positions := Upsert(b.positions, q)), peak)
  {
    hide Upsert, OpenRows, Overdraft, Commissions;
    UpsertKeeps(b.positions, q);
    UpsertCount(b.positions, q);
    RowIsIn(b.positions, p.symbol);
  }

  /** The peak after a stretch in which buys may have been approved at `equity`. */
  function Raised(peak: real, before: nat, after: nat, equity: real): real
  {
    if after > before then Max(peak, equity) else peak
  }

  lemma ExecutedLimited(d: Desk, b: Book, symbol: string, c: Decision, ref: real, equity: real, status: RiskStatus,
                        peak: real)
    requires Sound(d) && Limited(d, b, peak)
    ensures var r := Executed(d, b, symbol, c, ref, equity, status);
            && BuyCount(r.fills) >= BuyCount(b.fills)
            && Limited(d, r, Raised(peak, BuyCount(b.fills), BuyCount(r.fills), equity))
  {
    hide Traded, Closed, Attached, Assess, PositionSize, Bounded, StopFor, TargetFor, Shares;
    if ref > 0.0 {
      if c.action == SellIt {
        ClosedLimited(d, b, symbol, ref, peak);
      } else if c.action == BuyIt {
        var v := BuyVerdict(d, b, symbol, c, ref, equity, status);
        if v.Approved? && v.qty >= 1 {
          BuyExecutedLimited(d, b, symbol, c, ref, equity, status, peak);
        }
      }
    }
  }

  lemma BuyExecutedLimited(d: Desk, b: Book, symbol: string, c: Decision, ref: real, equity: real, status: RiskStatus,
                           peak: real)
    requires Sound(d) && Limited(d, b, peak) && ref > 0.0
    ensures var v := BuyVerdict(d, b, symbol, c, ref, equity, status);
            v.Approved? && v.qty >= 1 ==>
              var n := v.qty as real;
              var r := Attached(Traded(d, b, symbol, Buy, n, ref), symbol,
                                StopFor(d.s, c, ref), TargetFor(d.s, c, ref));
              Limited(d, r, Max(peak, equity)) && BuyCount(r.fills) == BuyCount(b.fills) + 1
  {
    hide Traded, Assess, PositionSize, StopFor, TargetFor, Shares, Bounded, OpenRows, Symbols, Holds, Attached;
    var stop := StopFor(d.s, c, ref);
    var t := Proposal(symbol, true, PositionSize(d.s, equity, ref, stop, c.sizePct), ref, stop);
    var v := Assess(d.s, t, OpenRows(b.positions), equity, Cash(d.start, b), status);
    if v.Approved? && v.qty >= 1 {
      var n := v.qty;
      ApprovedWithinCaps(d.s, t, OpenRows(b.positions), equity, Cash(d.start, b), status);
      BoughtLimited(d, b, symbol, n, ref, equity, peak);
      AttachedLimited(d, Traded(d, b, symbol, Buy, n as real, ref), symbol, stop, TargetFor(d.s, c, ref),
                      Max(peak, equity));
    }
  }

  lemma AttachedLimited(d: Desk, b: Book, symbol: string, stop: real, target: real, peak: real)
    requires Limited(d, b, peak)
    ensures Limited(d, Attached(b, symbol, stop, target), peak)
    ensures Attached(b, symbol, stop, target).fills == b.fills
  {
    hide Upsert, OpenRows, Overdraft, Commissions;
    RowIsIn(b.positions, symbol);
    var pos := GetPosition(b.positions, symbol);
    if pos.Some? {
      RewriteLimited(d, b, pos.value, pos.value.(stop := Some(stop), target := Some(target)), peak);
    }
  }

  /** A bracket the decision and the settings leave around the reference price. */
  predicate Brackets(s: Settings, c: Decision, ref: real)
  {
    0.0 < StopFor(s, c, ref) < ref < TargetFor(s, c, ref)
  }

  lemma PartOf(ref: real, part: real)
    requires ref > 0.0 && part > 0.0
    ensures ref * part > 0.0 && (part < 1.0 ==> ref * part < ref)
  {
    MulStrict(0.0, part, ref);
    if part < 1.0 { MulStrict(part, 1.0, ref); }
  }

  /** The default bracket lies around the price. */
  lemma DefaultsBracket(s: Settings, c: Decision, ref: real)
    requires ref > 0.0 && 0.0 < s.defaultStopPct < 1.0 && s.defaultTargetPct > 0.0
    requires !Truthy(c.stop) && !Truthy(c.target)
    ensures Brackets(s, c, ref)
  {
    var down, up := s.defaultStopPct, s.defaultTargetPct;
    PartOf(ref, down);
    PartOf(ref, up);
    assert StopFor(s, c, ref) == ref * (1.0 - down) == ref - ref * down;
    assert TargetFor(s, c, ref) == ref * (1.0 + up) == ref + ref * up;
  }

  /** An approved paper buy adds exactly the approved shares, and leaves a position that the same price does not
      close. */
  lemma BuyIsBracketed(d: Desk, b: Book, symbol: string, c: Decision, ref: real, equity: real, status: RiskStatus)
    requires d.mode == Paper && Consistent(b.positions) && ref > 0.0 && c.action == BuyIt && Brackets(d.s, c, ref)
    requires BuyVerdict(d, b, symbol, c, ref, equity, status).Approved?
             && BuyVerdict(d, b, symbol, c, ref, equity, status).qty >= 1
    ensures var r := Executed(d, b, symbol, c, ref, equity, status);
            var n := BuyVerdict(d, b, symbol, c, ref, equity, status).qty as real;
            var was, pos := GetPosition(b.positions, symbol), GetPosition(r.positions, symbol);
            && pos.Some? && pos.value.qty == n + (if was.Some? then was.value.qty else 0.0)
            && pos.value.stop.Some? && pos.value.target.Some? && pos.value.stop.value < ref < pos.value.target.value
            && !HitsExit(pos.value, ref)
            && r.orders == b.orders + [Order(symbol, Buy, n, Filled)]
  {
    hide BuyVerdict, StopFor, TargetFor, Times, OpenCost, Upsert;
    var n := BuyVerdict(d, b, symbol, c, ref, equity, status).qty as real;
    var was, f := GetPosition(b.positions, symbol), PaperFill(d.s, symbol, Buy, n, ref);
    BoughtShape(d, b, symbol, n, ref);
    var b' := Traded(d, b, symbol, Buy, n, ref);
    UpsertKeeps(b.positions, AfterBuy(was, f));
    var p := GetPosition(b'.positions, symbol).value;
    UpsertKeeps(b'.positions, p.(stop := Some(StopFor(d.s, c, ref)), target := Some(TargetFor(d.s, c, ref))));
  }

  /** Since `n` buys and peak equity `peak`, every further buy was approved at `equity`. */
  ghost function LimitedInv(d: Desk, peak: real, n: nat, equity: real): Book -> bool
  {
    (b: Book) => BuyCount(b.fills) >= n && Limited(d, b, Raised(peak, n, BuyCount(b.fills), equity))
  }

  function NotNegative(): real -> bool { x => x >= 0.0 }

  lemma LimitedAboutTrading(d: Desk, peak: real, n: nat, equity: real)
    ensures AboutTrading(d, LimitedInv(d, peak, n, equity)) && StopsKeep(LimitedInv(d, peak, n, equity))
  {
    hide BuyCount, Raised, Upsert, CancelledAll, OpenRows, Overdraft, Commissions, Consistent;
    var inv := LimitedInv(d, peak, n, equity);
    forall b: Book, p: Position, stop | Consistent(b.positions) && inv(b) && p in b.positions && p.open
      ensures inv(WithStop(b, p, stop))
    {
      RewriteLimited(d, b, p, p.(stop := Some(stop)), Raised(peak, n, BuyCount(b.fills), equity));
    }
  }

  lemma LimitedStepsKeep(d: Desk, peak: real, n: nat, equity: real, status: RiskStatus)
    requires Sound(d)
    ensures ClosesKeep(d, LimitedInv(d, peak, n, equity), NotNegative())
    ensures DecisionsKeep(d, LimitedInv(d, peak, n, equity), equity, status)
  {
    hide Closed, Executed, BuyCount, Limited, Raised;
    var inv := LimitedInv(d, peak, n, equity);
    forall b: Book, symbol, ref | Consistent(b.positions) && inv(b) && ref >= 0.0
      ensures inv(Closed(d, b, symbol, ref))
    {
      ClosedLimited(d, b, symbol, ref, Raised(peak, n, BuyCount(b.fills), equity));
    }
    forall b: Book, symbol, c, ref | Consistent(b.positions) && inv(b)
      ensures inv(Executed(d, b, symbol, c, ref, equity, status))
    {
      var now, later := BuyCount(b.fills), BuyCount(Executed(d, b, symbol, c, ref, equity, status).fills);
      ExecutedLimited(d, b, symbol, c, ref, equity, status, Raised(peak, n, now, equity));
      RaisedTwice(peak, n, now, later, equity);
    }
  }

  lemma RaisedTwice(peak: real, n: nat, now: nat, later: nat, equity: real)
    requires n <= now <= later
    ensures Raised(Raised(peak, n, now, equity), now, later, equity) == Raised(peak, n, later, equity)
  {
  }

  lemma PricesAreOk(d: Desk, b: Book, prices: map<string, real>, peak: real)
    requires Limited(d, b, peak) && Positive(prices)
    ensures AllOk(prices, NotNegative()) && forall p :: p in b.positions && p.open ==> NotNegative()(p.avg)
  {
    hide OpenRows, Overdraft, Commissions;
  }

  /** One event keeps the limits, the peak raised to its equity if it bought. */
  lemma StepLimited(d: Desk, b: Book, e: Event, peak: real)
    requires Sound(d) && Consistent(b.positions) && Limited(d, b, peak) && Priced(e)
    ensures Limited(d, Step(d, b, e), RaisedBy(d, peak, b, e))
  {
    hide Cycled, Triggered, Limited, BuyCount, Equity, ClosesKeep, DecisionsKeep, AboutTrading, StopsKeep, AllOk;
    var n := BuyCount(b.fills);
    match e {
      case Cycle(t) =>
        var equity := Equity(d, b, t.prices);
        PricesAreOk(d, b, t.prices, peak);
        LimitedAboutTrading(d, peak, n, equity);
        LimitedStepsKeep(d, peak, n, equity, StatusOf(d.s, equity, t.base));
        CycleRule(d, b, t, LimitedInv(d, peak, n, equity), NotNegative());
      case Trigger(prices) =>
        PricesAreOk(d, b, prices, peak);
        LimitedAboutTrading(d, peak, n, peak);
        LimitedStepsKeep(d, peak, n, peak, Fine);
        TriggerRule(d, b, prices, LimitedInv(d, peak, n, peak), NotNegative());
      case Reset =>
        LimitedAboutTrading(d, peak, n, peak);
        Rebooked(d, LimitedInv(d, peak, n, peak), b, WithRisk(b, false, Fine));
    }
  }

  // ---- every run ------------------------------------------------------------------------------------

  /** The peak after an event: a cycle that bought raises it to its equity. */
  function RaisedBy(d: Desk, peak: real, b: Book, e: Event): real
    requires Consistent(b.positions)
  {
    if e.Cycle? then
      Raised(peak, BuyCount(b.fills), BuyCount(Step(d, b, e).fills), Equity(d, b, e.tick.prices))
    else peak
  }

  /** The largest equity of any cycle that bought something. */
  function Peak(d: Desk, es: seq<Event>): real
  {
    if es == [] then 0.0
    else RaisedBy(d, Peak(d, es[..|es| - 1]), Run(d, EMPTY, es[..|es| - 1]), es[|es| - 1])
  }

  predicate Priced(e: Event)
  {
    match e
    case Cycle(t) => Positive(t.prices)
    case Trigger(prices) => Positive(prices)
    case Reset => true
  }

  /** Every run of paper cycles, triggers and resets keeps the position limit and the cash bound:
      at zero commission cash never falls below -(1e-6 + slippage * position cap of the peak equity). */
  lemma {:induction false} RunLimited(d: Desk, es: seq<Event>)
    requires Sound(d) && forall e :: e in es ==> Priced(e)
    ensures var b := Run(d, EMPTY, es);
            && |OpenRows(b.positions)| <= d.s.maxConcurrent
            && Cash(d.start, b) >= -Overdraft(d.s, Peak(d, es)) - Commissions(b.fills)
            && (FreeOfCharge(d.s) ==> Cash(d.start, b) >= -Overdraft(d.s, Peak(d, es)))
            && Limited(d, b, Peak(d, es))
  {
    hide Step, Overdraft, Commissions, BuyCount, OpenRows, RaisedBy;
    if es == [] {
      StartLimited(d);
    } else {
      var before, e := es[..|es| - 1], es[|es| - 1];
      assert e in es;
      RunLimited(d, before);
      StepLimited(d, Run(d, EMPTY, before), e, Peak(d, before));
    }
  }

  lemma StartLimited(d: Desk)
    requires Sound(d)
    ensures Limited(d, EMPTY, 0.0)
  {
    assert PositionCap(d.s, 0.0) == 0.0;
  }
}
