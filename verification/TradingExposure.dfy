/** What approved paper buys do to the capital at risk and to what a symbol is worth, which the risk engine limits
    before each of them (src/surge/trading/risk.py, src/surge/trading/execution.py). */
module TradingExposure {
  import opened Prelude
  import opened Ledger
  import opened Risk
  import opened Trading
  import opened TradingLimits
  import opened TradingSlippage

  // ---- what a buy moves ----------------------------------------------------------------------------

  /** What a row adds to the portfolio's capital at risk. */
  function RowRisk(s: Settings, r: Option<Position>): real
  {
    if r.Some? && r.value.open then PositionRisk(s, r.value) else 0.0
  }

  lemma {:induction false} UpsertRisk(s: Settings, ps: seq<Position>, p: Position)
    ensures PortfolioRisk(s, OpenRows(Upsert(ps, p)))
            == PortfolioRisk(s, OpenRows(ps)) - RowRisk(s, Row(ps, p.symbol)) + RowRisk(s, Some(p))
  {
    hide PositionRisk;
    if ps == [] {
      assert [p][1..] == [];
    } else if ps[0].symbol == p.symbol {
      assert ([p] + ps[1..])[1..] == ps[1..];
      OpenRowsRisk(s, [p] + ps[1..]);
      OpenRowsRisk(s, ps);
    } else {
      UpsertRisk(s, ps[1..], p);
      assert ([ps[0]] + Upsert(ps[1..], p))[1..] == Upsert(ps[1..], p);
      OpenRowsRisk(s, [ps[0]] + Upsert(ps[1..], p));
      OpenRowsRisk(s, ps);
    }
  }

  lemma OpenRowsRisk(s: Settings, ps: seq<Position>)
    requires ps != []
    ensures PortfolioRisk(s, OpenRows(ps)) == RowRisk(s, Some(ps[0])) + PortfolioRisk(s, OpenRows(ps[1..]))
  {
    hide PositionRisk;
    var rest := OpenRows(ps[1..]);
    if ps[0].open {
      assert OpenRows(ps) == [ps[0]] + rest;
      assert ([ps[0]] + rest)[1..] == rest;
    } else {
      assert OpenRows(ps) == rest;
    }
  }

  /** The row a paper buy leaves: merged with what was held, under the new stop and target. */
  function BoughtRow(d: Desk, b: Book, c: Decision, ref: real, f: Fill): Position
    requires Consistent(b.positions) && f.qty > 0.0
  {
    RowIsIn(b.positions, f.symbol);
    AfterBuy(GetPosition(b.positions, f.symbol), f)
    .(stop := Some(StopFor(d.s, c, ref)), target := Some(TargetFor(d.s, c, ref)))
  }

  /** An approved paper buy replaces its symbol's row in the capital at risk and moves nothing else. */
  lemma BuyMovesRisk(d: Desk, b: Book, symbol: string, c: Decision, ref: real, equity: real, status: RiskStatus)
    requires d.mode == Paper && Consistent(b.positions) && Buys(d, b, symbol, c, ref, equity, status)
    ensures PortfolioRisk(d.s, OpenRows(Executed(d, b, symbol, c, ref, equity, status).positions))
            == PortfolioRisk(d.s, OpenRows(b.positions)) - RowRisk(d.s, GetPosition(b.positions, symbol))
               + PositionRisk(d.s, BoughtRow(d, b, c, ref, BuyFill(d, b, symbol, c, ref, equity, status)))
  {
    hide BuyVerdict, Times, OpenCost, Upsert, PositionRisk, PortfolioRisk, StopFor, TargetFor, OpenRows, Traded;
    var n := BuyVerdict(d, b, symbol, c, ref, equity, status).qty as real;
    var pos, f := GetPosition(b.positions, symbol), BuyFill(d, b, symbol, c, ref, equity, status);
    RowIsIn(b.positions, symbol);
    BoughtShape(d, b, symbol, n, ref);
    var row, bought := AfterBuy(pos, f), Traded(d, b, symbol, Buy, n, ref);
    UpsertKeeps(b.positions, row);
    UpsertRisk(d.s, b.positions, row);
    var last := BoughtRow(d, b, c, ref, BuyFill(d, b, symbol, c, ref, equity, status));
    UpsertRisk(d.s, bought.positions, last);
  }

  // ---- a symbol not yet held -------------------------------------------------------------------------

  /** For a symbol not yet held the capital at risk stays within its limit, but for what slippage adds to the buy. */
  lemma NewPositionRisk(d: Desk, b: Book, symbol: string, c: Decision, ref: real, equity: real, status: RiskStatus)
    requires d.mode == Paper && Consistent(b.positions) && Buys(d, b, symbol, c, ref, equity, status)
    requires GetPosition(b.positions, symbol).None? && d.s.slip >= 0.0
    ensures PortfolioRisk(d.s, OpenRows(Executed(d, b, symbol, c, ref, equity, status).positions))
            <= d.s.maxPortfolioRisk * equity
               + Times(BuyFill(d, b, symbol, c, ref, equity, status).qty, ref * d.s.slip)
  {
    hide Assess, PositionSize, StopFor, TargetFor, Executed, PortfolioRisk, OpenRows, Times, Shares;
    var stop := StopFor(d.s, c, ref);
    var t := Proposal(symbol, true, PositionSize(d.s, equity, ref, stop, c.sizePct), ref, stop);
    ApprovedWithinCaps(d.s, t, OpenRows(b.positions), equity, Cash(d.start, b), status);
    BuyMovesRisk(d, b, symbol, c, ref, equity, status);
    FreshRowRisk(d, b, symbol, c, ref, equity, status, BuyVerdict(d, b, symbol, c, ref, equity, status).qty);
  }

  lemma FreshRowRisk(d: Desk, b: Book, symbol: string, c: Decision, ref: real, equity: real, status: RiskStatus, n: int)
    requires Consistent(b.positions) && Buys(d, b, symbol, c, ref, equity, status)
    requires GetPosition(b.positions, symbol).None? && d.s.slip >= 0.0
    requires n == BuyVerdict(d, b, symbol, c, ref, equity, status).qty
    ensures PositionRisk(d.s, BoughtRow(d, b, c, ref, BuyFill(d, b, symbol, c, ref, equity, status)))
            <= Shares(n, Abs(ref - StopFor(d.s, c, ref))) + Times(n as real, ref * d.s.slip)
  {
    hide BuyVerdict, StopFor, TargetFor;
    var price := ref + ref * d.s.slip;
    NoStopMeansZero(d.s, c, ref, price);
    SlippedDistance(n as real, ref, StopFor(d.s, c, ref), ref * d.s.slip);
  }

  /** A stop of 0 comes only from a default of 100%, which then stands for 0 again. */
  lemma NoStopMeansZero(s: Settings, c: Decision, ref: real, avg: real)
    requires ref > 0.0
    ensures StopFor(s, c, ref) == 0.0 ==> avg * (1.0 - s.defaultStopPct) == 0.0
  {
    var rest := 1.0 - s.defaultStopPct;
    if rest > 0.0 { MulStrict(0.0, rest, ref); }
    if rest < 0.0 { MulStrict(rest, 0.0, ref); }
  }

  lemma SlippedDistance(n: real, ref: real, stop: real, extra: real)
    requires n >= 0.0 && extra >= 0.0
    ensures n * Abs(ref + extra - stop) <= n * Abs(ref - stop) + n * extra
  {
    var near, far := Abs(ref - stop), Abs(ref + extra - stop);
    MulMono(far, near + extra, n);
    assert (near + extra) * n == n * near + n * extra;
  }

  // ---- the limit ----------------------------------------------------------------------------------------

  /** If the buy is approved, it leaves the capital at risk within its limit. */
  ghost predicate KeepsRisk(d: Desk, b: Book, symbol: string, c: Decision, ref: real, equity: real, status: RiskStatus)
    requires Consistent(b.positions)
  {
    Buys(d, b, symbol, c, ref, equity, status) ==>
      PortfolioRisk(d.s, OpenRows(Executed(d, b, symbol, c, ref, equity, status).positions))
      <= d.s.maxPortfolioRisk * equity
  }

  /** Every buy at a quoted price of a symbol that is (or is not) held does, judged by the equity of its own book. */
  ghost predicate BuysKeepRisk(d: Desk, held: bool)
  {
    forall b: Book, prices: map<string, real>, symbol, c, status ::
      Consistent(b.positions) && symbol in prices && GetPosition(b.positions, symbol).Some? == held ==>
        KeepsRisk(d, b, symbol, c, prices[symbol], Equity(d, b, prices), status)
  }

  lemma NewPositionKeepsRisk(d: Desk, b: Book, symbol: string, c: Decision, ref: real, equity: real, status: RiskStatus)
    requires d.mode == Paper && Consistent(b.positions) && GetPosition(b.positions, symbol).None? && d.s.slip == 0.0
    ensures KeepsRisk(d, b, symbol, c, ref, equity, status)
  {
    hide BuyVerdict, Executed, PortfolioRisk, OpenRows;
    if Buys(d, b, symbol, c, ref, equity, status) {
      NewPositionRisk(d, b, symbol, c, ref, equity, status);
      assert ref * d.s.slip == 0.0;
    }
  }

  // ---- a held symbol: the new stop covers the whole holding ----------------------------------------------

  /** A stop so far below the average cost that the old shares alone exhaust the limit. */
  function DeepStop(s: Settings): real { if s.maxPortfolioRisk == 0.25 then 0.2 else 0.25 - s.maxPortfolioRisk }

  /** Buying one more share under a deep stop puts the whole holding at risk. */
  lemma HeldBreaksRisk(d: Desk) returns (q: nat)
    requires d.mode == Paper && Permissive(d.s) && d.s.perTradeRisk > 0.0 && d.s.slip >= 0.0
    ensures q >= 1
    ensures var b := Holding(q as real, 1.0);
            && Consistent(b.positions) && GetPosition(b.positions, "X").Some?
            && !KeepsRisk(d, b, "X", BuyUnder(DeepStop(d.s)), 1.0, Equity(d, b, QUOTE), Fine)
  {
    hide BuyVerdict, Executed, Cash, Times, Equity, PositionCap, Shares, Holding, OpenRows, PortfolioRisk, DeepStop,
      PositionRisk, BoughtRow, PerShareRisk, BuyFill, RowRisk, Buys, Crowded, Holds, Symbols;
    var stop := DeepStop(d.s);
    DeepStopRange(d.s);
    q := AmpleHolding(d.s, 2.0 - stop, 1.0);
    var b, c, equity := Holding(q as real, 1.0), BuyUnder(stop), q as real + 1.0;
    HoldingFacts(d, q as real, 1.0);
    OneShareRisk(stop);
    HeldRowRisk(q as real, stop, d.s.slip, d.s.maxPortfolioRisk);
    AllInApproved(d, b, stop, 1, equity);
    ApprovedBuys(d, b, c, equity);
    BuyMovesRisk(d, b, "X", c, 1.0, equity, Fine);
    AddedToHolding(d, q as real, stop, equity);
  }

  lemma DeepStopRange(s: Settings)
    requires s.maxPortfolioRisk > 0.0
    ensures DeepStop(s) != 0.0 && DeepStop(s) < 0.5 && 0.5 - DeepStop(s) >= s.maxPortfolioRisk + 0.05
  {
  }

  lemma OneShareRisk(stop: real)
    requires stop <= 0.5
    ensures Shares(1, PerShareRisk(1.0, 1.0 - stop)) == 1.0 - stop
  {
  }

  lemma ApprovedBuys(d: Desk, b: Book, c: Decision, equity: real)
    requires c.action == BuyIt && BuyVerdict(d, b, "X", c, 1.0, equity, Fine) == Approved(1)
    ensures Buys(d, b, "X", c, 1.0, equity, Fine)
  {
    hide BuyVerdict;
  }

  lemma HeldRowRisk(q: real, stop: real, slip: real, limit: real)
    requires q >= 1.0 && slip >= 0.0 && limit > 0.0 && 0.5 - stop >= limit + 0.05
    ensures 0.5 * q + (1.0 + slip) - stop * (q + 1.0) > limit * (q + 1.0)
  {
    MulMono(limit + 0.05, 0.5 - stop, q);
    assert (0.5 - stop) * q == 0.5 * q - stop * q;
    assert stop * (q + 1.0) == stop * q + stop;
    assert (limit + 0.05) * q == limit * q + 0.05 * q;
    assert limit * (q + 1.0) == limit * q + limit;
  }

  lemma AddedToHolding(d: Desk, q: real, stop: real, equity: real)
    requires q > 0.0 && stop != 0.0 && stop < 0.5 && d.s.slip >= 0.0
    requires BuyVerdict(d, Holding(q, 1.0), "X", BuyUnder(stop), 1.0, equity, Fine) == Approved(1)
    ensures var b := Holding(q, 1.0);
            && Consistent(b.positions)
            && RowRisk(d.s, GetPosition(b.positions, "X")) == 0.0
            && PositionRisk(d.s, BoughtRow(d, b, BuyUnder(stop), 1.0,
                                           BuyFill(d, b, "X", BuyUnder(stop), 1.0, equity, Fine)))
               == 0.5 * q + (1.0 + d.s.slip) - stop * (q + 1.0)
  {
    hide BuyVerdict, TargetFor;
    var b, c := Holding(q, 1.0), BuyUnder(stop);
    var f := BuyFill(d, b, "X", c, 1.0, equity, Fine);
    assert f.qty == 1.0 && f.price == 1.0 + d.s.slip;
    assert Row(b.positions, "X") == Some(b.positions[0]);
    var row := BoughtRow(d, b, c, 1.0, f);
    var cost := Times(q, 0.5) + Times(1.0, 1.0 + d.s.slip);
    assert row.avg == cost / (q + 1.0) && row.qty == q + 1.0;
    AverageDistance(cost, q + 1.0, stop);
  }

  lemma AverageDistance(cost: real, n: real, stop: real)
    requires n > 0.0 && cost >= stop * n
    ensures Abs(n) * Abs(cost / n - stop) == cost - stop * n
  {
    var avg := cost / n;
    assert avg * n == cost;
    assert avg >= stop by { if avg < stop { MulStrict(avg, stop, n); } }
    assert n * (avg - stop) == cost - stop * n;
  }

  // ---- a new symbol: slippage --------------------------------------------------------------------------------

  /** Cash for one share of X at 1, and a share of Y with `risk` to lose. */
  function Exposed(risk: real, equity: real): Book
  {
    EMPTY.(positions := [Position("Y", 1.0, 1.0 + risk, Some(1.0), None, 0.0, true)],
           accounts := [Account(1.0, equity)])
  }

  function Quotes(y: real): map<string, real> { map["X" := 1.0, "Y" := y] }

  lemma ExposedFacts(d: Desk, risk: real, y: real)
    requires risk >= 0.0
    ensures var b := Exposed(risk, 1.0 + y);
            && Consistent(b.positions) && Cash(d.start, b) == 1.0 && Equity(d, b, Quotes(y)) == 1.0 + y
            && GetPosition(b.positions, "X") == None && OpenRows(b.positions) == b.positions
            && PortfolioRisk(d.s, b.positions) == risk
            && |Symbols(b.positions)| == 1 && !Crowded(b.positions, "X")
  {
    var b := Exposed(risk, 1.0 + y);
    var p := b.positions[0];
    assert b.positions == [p] && [p][1..] == [] && OpenRows([]) == [] && OpenRows([p]) == [p];
    assert Row([], "X") == None && Row([p], "X") == None;
    assert MarketValue([p], Quotes(y)) == Times(1.0, y) + MarketValue([], Quotes(y));
    assert 1.0 * y == y;
    assert PositionRisk(d.s, p) == risk by { assert 1.0 * Abs(1.0 + risk - 1.0) == risk; }
    assert PortfolioRisk(d.s, []) == 0.0;
    assert Symbols([p]) == {"Y"};
  }

  /** A buy that just fits the limit at the reference price breaks it at the slipped one. */
  lemma SlippageBreaksRisk(d: Desk) returns (y: nat, risk: real)
    requires d.mode == Paper && Permissive(d.s) && d.s.maxConcurrent >= 2 && d.s.perTradeRisk > 0.0 && d.s.slip > 0.0
    ensures risk >= 0.0
    ensures var b := Exposed(risk, 1.0 + y as real);
            && Consistent(b.positions) && GetPosition(b.positions, "X").None?
            && !KeepsRisk(d, b, "X", BuyUnder(0.5), 1.0, Equity(d, b, Quotes(y as real)), Fine)
  {
    hide BuyVerdict, Executed, Cash, Times, Equity, PositionCap, Shares, Exposed, OpenRows, PortfolioRisk, PositionRisk,
      BoughtRow, PerShareRisk, BuyFill, RowRisk, Buys, Crowded, Holds, Symbols;
    y := AmpleHolding(d.s, 1.0, 1.0);
    var equity := 1.0 + y as real;
    risk := d.s.maxPortfolioRisk * equity - 0.5;
    var b := Exposed(risk, equity);
    ExposedFacts(d, risk, y as real);
    OneShareRisk(0.5);
    AllInApproved(d, b, 0.5, 1, equity);
    ApprovedBuys(d, b, BuyUnder(0.5), equity);
    BuyMovesRisk(d, b, "X", BuyUnder(0.5), 1.0, equity, Fine);
    FirstShare(d, risk, equity);
  }

  lemma FirstShare(d: Desk, risk: real, equity: real)
    requires BuyVerdict(d, Exposed(risk, equity), "X", BuyUnder(0.5), 1.0, equity, Fine) == Approved(1)
    requires d.s.slip >= 0.0
    ensures var b := Exposed(risk, equity);
            && Consistent(b.positions) && RowRisk(d.s, GetPosition(b.positions, "X")) == 0.0
            && PositionRisk(d.s, BoughtRow(d, b, BuyUnder(0.5), 1.0,
                                           BuyFill(d, b, "X", BuyUnder(0.5), 1.0, equity, Fine)))
               == 0.5 + d.s.slip
  {
    hide BuyVerdict, TargetFor;
    var b := Exposed(risk, equity);
    assert Row([], "X") == None && Row(b.positions, "X") == None by { assert b.positions[1..] == []; }
  }

  // ---- the exact condition --------------------------------------------------------------------------------------

  /** Approved paper buys keep the capital at risk within its limit exactly when the symbol is new and nothing slips. */
  lemma RiskLimitKeptExactly(d: Desk, held: bool)
    requires d.mode == Paper && Permissive(d.s) && d.s.maxConcurrent >= 2 && d.s.perTradeRisk > 0.0 && d.s.slip >= 0.0
    ensures BuysKeepRisk(d, held) <==> d.s.slip == 0.0 && !held
  {
    hide KeepsRisk, Equity;
    if held {
      var q := HeldBreaksRisk(d);
      assert "X" in QUOTE && QUOTE["X"] == 1.0;
    } else if d.s.slip > 0.0 {
      var y, risk := SlippageBreaksRisk(d);
      assert "X" in Quotes(y as real) && Quotes(y as real)["X"] == 1.0;
    } else {
      forall b: Book, prices: map<string, real>, symbol, c, status
        | Consistent(b.positions) && symbol in prices && GetPosition(b.positions, symbol).None?
        ensures KeepsRisk(d, b, symbol, c, prices[symbol], Equity(d, b, prices), status)
      {
        NewPositionKeepsRisk(d, b, symbol, c, prices[symbol], Equity(d, b, prices), status);
      }
    }
  }

  // ---- what a holding is worth -----------------------------------------------------------------------------------

  /** An approved paper buy leaves the symbol's row at what was held plus what was approved. */
  lemma BuyAdds(d: Desk, b: Book, symbol: string, c: Decision, ref: real, equity: real, status: RiskStatus)
    requires d.mode == Paper && Consistent(b.positions) && Buys(d, b, symbol, c, ref, equity, status)
    ensures var r := GetPosition(Executed(d, b, symbol, c, ref, equity, status).positions, symbol);
            var was, n := GetPosition(b.positions, symbol), BuyVerdict(d, b, symbol, c, ref, equity, status).qty;
            r.Some? && r.value.qty == n as real + (if was.Some? then was.value.qty else 0.0)
  {
    hide BuyVerdict, Times, OpenCost, Upsert, StopFor, TargetFor, Traded;
    var n := BuyVerdict(d, b, symbol, c, ref, equity, status).qty as real;
    RowIsIn(b.positions, symbol);
    BoughtShape(d, b, symbol, n, ref);
    var row := AfterBuy(GetPosition(b.positions, symbol), PaperFill(d.s, symbol, Buy, n, ref));
    UpsertKeeps(b.positions, row);
    var bought := Traded(d, b, symbol, Buy, n, ref);
    UpsertKeeps(bought.positions, row.(stop := Some(StopFor(d.s, c, ref)), target := Some(TargetFor(d.s, c, ref))));
  }

  /** If the buy is approved, the whole holding is then worth no more than the position cap. */
  ghost predicate KeepsCap(d: Desk, b: Book, symbol: string, c: Decision, ref: real, equity: real, status: RiskStatus)
    requires Consistent(b.positions)
  {
    Buys(d, b, symbol, c, ref, equity, status) ==>
      var r := GetPosition(Executed(d, b, symbol, c, ref, equity, status).positions, symbol);
      r.Some? ==> Times(r.value.qty, ref) <= PositionCap(d.s, equity)
  }

  ghost predicate BuysKeepCap(d: Desk, held: bool)
  {
    forall b: Book, prices: map<string, real>, symbol, c, status ::
      Consistent(b.positions) && symbol in prices && GetPosition(b.positions, symbol).Some? == held ==>
        KeepsCap(d, b, symbol, c, prices[symbol], Equity(d, b, prices), status)
  }

  lemma NewPositionKeepsCap(d: Desk, b: Book, symbol: string, c: Decision, ref: real, equity: real, status: RiskStatus)
    requires d.mode == Paper && Consistent(b.positions) && GetPosition(b.positions, symbol).None?
    ensures KeepsCap(d, b, symbol, c, ref, equity, status)
  {
    hide Assess, PositionSize, StopFor, Executed, PositionCap, OpenRows, GetPosition;
    if Buys(d, b, symbol, c, ref, equity, status) {
      var stop := StopFor(d.s, c, ref);
      var t := Proposal(symbol, true, PositionSize(d.s, equity, ref, stop, c.sizePct), ref, stop);
      ApprovedWithinCaps(d.s, t, OpenRows(b.positions), equity, Cash(d.start, b), status);
      BuyAdds(d, b, symbol, c, ref, equity, status);
    }
  }

  /** Any account that holds nearly everything in one symbol can buy more of it. */
  lemma HeldBreaksCap(d: Desk) returns (q: nat)
    requires d.mode == Paper && Permissive(d.s) && d.s.perTradeRisk > 0.0 && d.s.maxPositionPct < 1.0
    ensures q >= 1
    ensures var b := Holding(q as real, 1.0);
            && Consistent(b.positions) && GetPosition(b.positions, "X").Some?
            && !KeepsCap(d, b, "X", BuyUnder(0.5), 1.0, Equity(d, b, QUOTE), Fine)
  {
    hide BuyVerdict, Executed, Cash, Times, Equity, PositionCap, Shares, Holding, OpenRows, PortfolioRisk,
      PerShareRisk, Buys, Crowded, Holds, Symbols, GetPosition;
    q := AmpleHolding(d.s, 1.0, 1.0);
    var b, equity := Holding(q as real, 1.0), q as real + 1.0;
    HoldingFacts(d, q as real, 1.0);
    HoldingRow(q as real, 1.0);
    OneShareRisk(0.5);
    AllInApproved(d, b, 0.5, 1, equity);
    ApprovedBuys(d, b, BuyUnder(0.5), equity);
    BuyAdds(d, b, "X", BuyUnder(0.5), 1.0, equity, Fine);
    AboveFraction(d.s, equity);
  }

  lemma HoldingRow(q: real, cash: real)
    ensures var b := Holding(q, cash); b.positions != [] && b.positions[0].qty == q
  {
  }

  lemma AboveFraction(s: Settings, equity: real)
    requires s.maxPositionPct < 1.0 && equity > 0.0
    ensures Times(equity, 1.0) > PositionCap(s, equity)
  {
    MulStrict(s.maxPositionPct, 1.0, equity);
  }

  /** A position cap below the whole account bounds what a symbol is worth after approved paper buys exactly when it
      was not held. */
  lemma HoldingCapKeptExactly(d: Desk, held: bool)
    requires d.mode == Paper && Permissive(d.s) && d.s.perTradeRisk > 0.0 && d.s.maxPositionPct < 1.0
    ensures BuysKeepCap(d, held) <==> !held
  {
    hide KeepsCap, Equity;
    if held {
      var q := HeldBreaksCap(d);
      assert "X" in QUOTE && QUOTE["X"] == 1.0;
    } else {
      forall b: Book, prices: map<string, real>, symbol, c, status
        | Consistent(b.positions) && symbol in prices && GetPosition(b.positions, symbol).None?
        ensures KeepsCap(d, b, symbol, c, prices[symbol], Equity(d, b, prices), status)
      {
        NewPositionKeepsCap(d, b, symbol, c, prices[symbol], Equity(d, b, prices), status);
      }
    }
  }

  // ---- a witness ------------------------------------------------------------------------------------------------

  /** Fifty X under a break-even stop, and a Y near the limit. */
  const NEAR_LIMIT := Book([Position("X", 50.0, 10.0, Some(10.0), None, 0.0, true),
                            Position("Y", 96.0, 20.0, Some(10.0), None, 0.0, true)],
                           [Account(7530.0, 10000.0)], [], [], [])

  /** The repository's limits, without slippage: adding 8 shares to the 50 held, under a lower stop, takes the capital
      at risk from 960 to 1200, with a limit of 1000. */
  lemma HeldSymbolBreaksBudget(d: Desk, c: Decision)
    requires d.mode == Paper && d.s.slip == 0.0 && FreeOfCharge(d.s) && d.s.maxPositionPct == 0.05
    requires d.s.perTradeRisk == 0.005 && d.s.maxPortfolioRisk == 0.1 && d.s.maxConcurrent == 20
    requires c == BuyUnder(6.0)
    ensures Consistent(NEAR_LIMIT.positions) && Equity(d, NEAR_LIMIT, map["X" := 11.0, "Y" := 20.0]) == 10000.0
    ensures PortfolioRisk(d.s, OpenRows(NEAR_LIMIT.positions)) == 960.0
    ensures BuyVerdict(d, NEAR_LIMIT, "X", c, 11.0, 10000.0, Fine) == Approved(8)
    ensures PortfolioRisk(d.s, OpenRows(Executed(d, NEAR_LIMIT, "X", c, 11.0, 10000.0, Fine).positions)) == 1200.0
            > d.s.maxPortfolioRisk * 10000.0
  {
    hide BuyVerdict, OpenCost, PortfolioRisk, OpenRows, TargetFor, Executed, PositionRisk, BoughtRow, Equity;
    NearLimitFacts(d);
    NearLimitVerdict(d);
    BuyMovesRisk(d, NEAR_LIMIT, "X", c, 11.0, 10000.0, Fine);
    NearLimitBought(d);
  }

  lemma NearLimitBought(d: Desk)
    requires d.s.slip == 0.0 && FreeOfCharge(d.s)
    requires BuyVerdict(d, NEAR_LIMIT, "X", BuyUnder(6.0), 11.0, 10000.0, Fine) == Approved(8)
    ensures Consistent(NEAR_LIMIT.positions) && RowRisk(d.s, GetPosition(NEAR_LIMIT.positions, "X")) == 0.0
    ensures PositionRisk(d.s, BoughtRow(d, NEAR_LIMIT, BuyUnder(6.0), 11.0,
                                        BuyFill(d, NEAR_LIMIT, "X", BuyUnder(6.0), 11.0, 10000.0, Fine))) == 240.0
  {
    hide BuyVerdict, TargetFor, PortfolioRisk, OpenRows, OpenCost;
    var f := BuyFill(d, NEAR_LIMIT, "X", BuyUnder(6.0), 11.0, 10000.0, Fine);
    assert f.qty == 8.0 && f.price == 11.0;
    assert Row(NEAR_LIMIT.positions, "X") == Some(NEAR_LIMIT.positions[0]);
    var row := BoughtRow(d, NEAR_LIMIT, BuyUnder(6.0), 11.0, f);
    assert Times(50.0, 10.0) + Times(8.0, 11.0) == 588.0;
    assert row.avg == 588.0 / 58.0;
    AverageDistance(588.0, 58.0, 6.0);
  }

  lemma NearLimitFacts(d: Desk)
    ensures Consistent(NEAR_LIMIT.positions) && OpenRows(NEAR_LIMIT.positions) == NEAR_LIMIT.positions
    ensures Equity(d, NEAR_LIMIT, map["X" := 11.0, "Y" := 20.0]) == 10000.0
    ensures PortfolioRisk(d.s, NEAR_LIMIT.positions) == 960.0
    ensures Holds(NEAR_LIMIT.positions, "X") && !Crowded(NEAR_LIMIT.positions, "X")
  {
    hide MarketValue, PortfolioRisk, PositionRisk;
    var ps := NEAR_LIMIT.positions;
    var x, y := ps[0], ps[1];
    assert ps[1..] == [y] && [y][1..] == [];
    assert OpenRows([]) == [] && OpenRows([y]) == [y] && OpenRows(ps) == [x] + [y] == ps;
    NearLimitWorth(x, y);
    NearLimitRisk(d.s, x, y);
    assert ps == [x, y] && x in ps;
  }

  lemma NearLimitWorth(x: Position, y: Position)
    requires [x, y] == NEAR_LIMIT.positions
    ensures MarketValue([x, y], map["X" := 11.0, "Y" := 20.0]) == 2470.0
  {
    var prices := map["X" := 11.0, "Y" := 20.0];
    assert [x, y][0] == NEAR_LIMIT.positions[0] && [x, y][1] == NEAR_LIMIT.positions[1];
    assert [x, y][1..] == [y] && [y][1..] == [];
    assert MarketValue([y], prices) == Times(96.0, 20.0) + MarketValue([], prices) == 1920.0;
    assert MarketValue([x, y], prices) == Times(50.0, 11.0) + MarketValue([y], prices);
  }

  lemma NearLimitRisk(s: Settings, x: Position, y: Position)
    requires [x, y] == NEAR_LIMIT.positions
    ensures PortfolioRisk(s, [x, y]) == 960.0
  {
    assert [x, y][0] == NEAR_LIMIT.positions[0] && [x, y][1] == NEAR_LIMIT.positions[1];
    assert [x, y][1..] == [y] && [y][1..] == [];
    assert PositionRisk(s, y) == 960.0 && PositionRisk(s, x) == 0.0;
    assert PortfolioRisk(s, [y]) == PositionRisk(s, y) + PortfolioRisk(s, []);
    assert PortfolioRisk(s, [x, y]) == PositionRisk(s, x) + PortfolioRisk(s, [y]);
  }

  lemma NearLimitVerdict(d: Desk)
    requires d.s.maxPositionPct == 0.05 && d.s.perTradeRisk == 0.005 && d.s.maxPortfolioRisk == 0.1
    ensures BuyVerdict(d, NEAR_LIMIT, "X", BuyUnder(6.0), 11.0, 10000.0, Fine) == Approved(8)
  {
    NearLimitFacts(d);
    WholePosition(d.s, 10000.0);
    SizeIsLargest(d.s, 10000.0, 11.0, 6.0, None, 10);
    SizeIsLargest(d.s, 10000.0, 11.0, 6.0, None, 11);
    assert PositionSize(d.s, 10000.0, 11.0, 6.0, None) == 10;
    assert Cash(d.start, NEAR_LIMIT) == 7530.0;
    hide PositionSize, OpenRows, PortfolioRisk, Crowded, Holds;
    assert Room(d.s, 10000.0, NEAR_LIMIT.positions) == 40.0;
  }
}
