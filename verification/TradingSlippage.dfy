/** What slippage does to the cash the risk engine checked at the reference price. */
module TradingSlippage {
  import opened Prelude
  import opened Ledger
  import opened Risk
  import opened Trading
  import opened TradingLimits

  // ---- one approved buy --------------------------------------------------------------------------

  /** The risk engine lets the decision buy something. */
  predicate Buys(d: Desk, b: Book, symbol: string, c: Decision, ref: real, equity: real, status: RiskStatus)
  {
    && c.action == BuyIt && ref > 0.0
    && var v := BuyVerdict(d, b, symbol, c, ref, equity, status);
       v.Approved? && v.qty >= 1
  }

  /** Quantity and fill of an approved paper buy. */
  function BuyFill(d: Desk, b: Book, symbol: string, c: Decision, ref: real, equity: real, status: RiskStatus): Fill
    requires Buys(d, b, symbol, c, ref, equity, status)
  {
    PaperFill(d.s, symbol, Buy, BuyVerdict(d, b, symbol, c, ref, equity, status).qty as real, ref)
  }

  lemma AttachedKeepsCash(start: real, b: Book, symbol: string, stop: real, target: real)
    requires Consistent(b.positions)
    ensures Cash(start, Attached(b, symbol, stop, target)) == Cash(start, b)
  {
    hide Upsert;
  }

  /** An approved paper buy costs its quantity at the slipped price and its commission. */
  lemma BuyCash(d: Desk, b: Book, symbol: string, c: Decision, ref: real, equity: real, status: RiskStatus)
    requires d.mode == Paper && Consistent(b.positions) && Buys(d, b, symbol, c, ref, equity, status)
    ensures var f := BuyFill(d, b, symbol, c, ref, equity, status);
            && Cash(d.start, Executed(d, b, symbol, c, ref, equity, status))
               == Cash(d.start, b) - (Times(f.qty, f.price) + f.commission)
            && f.price == ref + ref * d.s.slip && f.qty >= 1.0
            && (FreeOfCharge(d.s) ==> f.commission == 0.0)
  {
    hide BuyVerdict, Times, Traded, Attached, StopFor, TargetFor, Cash, OpenCost, Upsert;
    var n := BuyVerdict(d, b, symbol, c, ref, equity, status).qty as real;
    BoughtShape(d, b, symbol, n, ref);
    AttachedKeepsCash(d.start, Traded(d, b, symbol, Buy, n, ref), symbol, StopFor(d.s, c, ref), TargetFor(d.s, c, ref));
    CommissionCharged(d.s, symbol, Buy, n, ref);
  }

  // ---- cash --------------------------------------------------------------------------------------

  /** The tolerance of the cash check. */
  const TOLERANCE := 0.000001

  /** If the buy is approved, it leaves the account no lower than the tolerance. */
  ghost predicate KeepsCash(d: Desk, b: Book, symbol: string, c: Decision, ref: real, equity: real, status: RiskStatus)
    requires Consistent(b.positions)
  {
    Buys(d, b, symbol, c, ref, equity, status) ==>
      Cash(d.start, Executed(d, b, symbol, c, ref, equity, status)) >= -TOLERANCE
  }

  /** Every such buy at a quoted price does, judged by the equity of its own book. */
  ghost predicate BuysKeepCash(d: Desk)
  {
    forall b: Book, prices: map<string, real>, symbol, c, status :: Consistent(b.positions) && symbol in prices ==>
      KeepsCash(d, b, symbol, c, prices[symbol], Equity(d, b, prices), status)
  }

  /** Without slippage and commission the cash check is exact. */
  lemma NoSlippageKeepsCash(d: Desk, b: Book, symbol: string, c: Decision, ref: real, equity: real, status: RiskStatus)
    requires d.mode == Paper && FreeOfCharge(d.s) && d.s.slip == 0.0 && Consistent(b.positions)
    ensures KeepsCash(d, b, symbol, c, ref, equity, status)
  {
    hide Assess, PositionSize, StopFor, Executed, Times, Shares, BuyFill, FreeOfCharge;
    if Buys(d, b, symbol, c, ref, equity, status) {
      var stop := StopFor(d.s, c, ref);
      var t := Proposal(symbol, true, PositionSize(d.s, equity, ref, stop, c.sizePct), ref, stop);
      ApprovedWithinCaps(d.s, t, OpenRows(b.positions), equity, Cash(d.start, b), status);
      BuyCash(d, b, symbol, c, ref, equity, status);
      var f := BuyFill(d, b, symbol, c, ref, equity, status);
      FillIsShares(d, b, symbol, c, ref, equity, status);
    }
  }

  lemma FillIsShares(d: Desk, b: Book, symbol: string, c: Decision, ref: real, equity: real, status: RiskStatus)
    requires d.s.slip == 0.0 && Buys(d, b, symbol, c, ref, equity, status)
    ensures var f := BuyFill(d, b, symbol, c, ref, equity, status);
            Times(f.qty, f.price) == Shares(BuyVerdict(d, b, symbol, c, ref, equity, status).qty, ref)
  {
    hide BuyVerdict;
    assert ref * d.s.slip == 0.0;
  }

  /** Cash, and `q` shares of X bought at a half under a break-even stop. */
  function Holding(q: real, cash: real): Book
  {
    EMPTY.(positions := [Position("X", q, 0.5, Some(0.5), None, 0.0, true)], accounts := [Account(cash, cash + q)])
  }

  /** X now costs 1. */
  const QUOTE: map<string, real> := map["X" := 1.0]

  /** Buy at the market under a stop. */
  function BuyUnder(stop: real): Decision { Decision(BuyIt, None, Some(stop), None) }

  lemma HoldingFacts(d: Desk, q: real, cash: real)
    requires q > 0.0
    ensures var b := Holding(q, cash);
            && Consistent(b.positions) && Cash(d.start, b) == cash && Equity(d, b, QUOTE) == cash + q
            && GetPosition(b.positions, "X") == Some(b.positions[0])
            && OpenRows(b.positions) == b.positions && PortfolioRisk(d.s, b.positions) == 0.0
            && Holds(b.positions, "X") && !Crowded(b.positions, "X")
  {
    var b := Holding(q, cash);
    var p := b.positions[0];
    assert b.positions[1..] == [] && OpenRows([]) == [] && OpenRows(b.positions) == [p];
    assert MarketValue([p], QUOTE) == Times(q, 1.0) + MarketValue([], QUOTE);
    assert q * 1.0 == q;
    assert p in b.positions;
    assert Abs(q) * Abs(0.5 - 0.5) == 0.0;
    assert PortfolioRisk(d.s, []) == 0.0;
  }

  /** Every limit of the settings leaves room for `k` at that equity. */
  predicate Ample(s: Settings, equity: real, k: real)
  {
    equity > 0.0 && PositionCap(s, equity) >= k && s.perTradeRisk * equity >= k && s.maxPortfolioRisk * equity >= k
  }

  lemma AmpleHolding(s: Settings, k: real, extra: real) returns (q: nat)
    requires Permissive(s) && s.perTradeRisk > 0.0 && extra >= 0.0
    ensures q >= 1 && Ample(s, q as real + extra, k)
  {
    hide Times, Ample;
    var x := Reaching(s.maxPositionPct, k);
    var y := Reaching(s.perTradeRisk, k);
    var z := Reaching(s.maxPortfolioRisk, k);
    q := x + y + z;
    var e := q as real + extra;
    Beyond(x as real, e, s.maxPositionPct, k);
    Beyond(y as real, e, s.perTradeRisk, k);
    Beyond(z as real, e, s.maxPortfolioRisk, k);
    InEveryLimit(s, e, k);
  }

  lemma Reaching(rate: real, k: real) returns (n: nat)
    requires rate > 0.0
    ensures n >= 1 && Times(n as real, rate) >= k
  {
    var q := k / rate;
    assert q * rate == k;
    n := CountAbove(q);
    MulMono(q, n as real, rate);
  }

  lemma Beyond(n: real, e: real, rate: real, k: real)
    requires n <= e && rate > 0.0 && Times(n, rate) >= k
    ensures Times(e, rate) >= k
  {
    MulMono(n, e, rate);
  }

  lemma InEveryLimit(s: Settings, e: real, k: real)
    requires e > 0.0 && Times(e, s.maxPositionPct) >= k && Times(e, s.perTradeRisk) >= k
             && Times(e, s.maxPortfolioRisk) >= k
    ensures Ample(s, e, k)
  {
  }

  /** With cash for exactly `n` shares at 1 and room in every limit, `n` shares are approved. */
  lemma AllInApproved(d: Desk, b: Book, stop: real, n: nat, equity: real)
    requires Permissive(d.s) && d.s.perTradeRisk > 0.0 && n >= 1 && stop != 0.0 && stop < 1.0
    requires Cash(d.start, b) == n as real && !Crowded(OpenRows(b.positions), "X")
    requires Holds(OpenRows(b.positions), "X") || |Symbols(OpenRows(b.positions))| < d.s.maxConcurrent
    requires var risk := Shares(n, PerShareRisk(1.0, 1.0 - stop));
             risk <= d.s.perTradeRisk * equity && risk <= Room(d.s, equity, OpenRows(b.positions))
    requires n as real <= PositionCap(d.s, equity)
    ensures BuyVerdict(d, b, "X", BuyUnder(stop), 1.0, equity, Fine) == Approved(n)
  {
    hide PositionSize, PerShareRisk, Room, Crowded, Holds, Symbols, Shares, PositionCap, OpenRows, Assess;
    SizedAtLeast(d.s, stop, n, equity);
    AllInAssessed(d.s, PositionSize(d.s, equity, 1.0, stop, None), OpenRows(b.positions), stop, n, equity);
  }

  lemma SizedAtLeast(s: Settings, stop: real, n: nat, equity: real)
    requires s.maxPositionPct > 0.0 && s.perTradeRisk > 0.0 && n >= 1
    requires Shares(n, PerShareRisk(1.0, 1.0 - stop)) <= s.perTradeRisk * equity && n as real <= PositionCap(s, equity)
    ensures var q := PositionSize(s, equity, 1.0, stop, None);
            q >= n && Shares(q, 1.0) <= PositionCap(s, equity)
  {
    assert Shares(n, 1.0) == n as real;
    hide PositionSize, PerShareRisk, Shares, PositionCap, RiskBudget, CapBudget;
    WholePosition(s, equity);
    SizeIsLargest(s, equity, 1.0, stop, None, n);
    SizeWithinBudget(s, equity, 1.0, stop, None);
  }

  lemma AllInAssessed(s: Settings, q: int, ps: seq<Position>, stop: real, n: nat, equity: real)
    requires q >= n >= 1 && stop < 1.0 && Shares(q, 1.0) <= PositionCap(s, equity)
    requires !Crowded(ps, "X") && (Holds(ps, "X") || |Symbols(ps)| < s.maxConcurrent)
    requires Shares(n, PerShareRisk(1.0, 1.0 - stop)) <= Room(s, equity, ps)
    ensures Assess(s, Proposal("X", true, q, 1.0, stop), ps, equity, n as real, Fine) == Approved(n)
  {
    hide PerShareRisk, Room, Crowded, Holds, Symbols, Shares, PositionCap, RiskQty, CashQty;
    var room := Room(s, equity, ps);
    RiskQtyFits(q, 1.0, stop, room);
    NothingExhausted(n, stop, room);
    CashFitsExactly(RiskQty(q, 1.0, stop, room), n);
  }

  lemma NothingExhausted(n: nat, stop: real, room: real)
    requires stop < 1.0 && n >= 1 && Shares(n, PerShareRisk(1.0, 1.0 - stop)) <= room
    ensures room > 0.0
  {
    var psr := PerShareRisk(1.0, 1.0 - stop);
    MulMono(1.0, n as real, psr);
  }

  lemma WholePosition(s: Settings, equity: real)
    requires s.maxPositionPct > 0.0
    ensures RiskBudget(s, equity, None) == s.perTradeRisk * equity
            && CapBudget(s, equity, None) == PositionCap(s, equity)
  {
    assert SizeCap(s, None) == s.maxPositionPct;
    SelfRatio(s.maxPositionPct, SizeRatio(s, None));
  }

  lemma SelfRatio(x: real, r: real)
    requires x > 0.0 && r == x / x
    ensures r == 1.0
  {
    assert r * x == x;
    if r < 1.0 { MulStrict(r, 1.0, x); }
    if r > 1.0 { MulStrict(1.0, r, x); }
  }

  lemma CashFitsExactly(q: int, n: nat)
    requires q >= n >= 1
    ensures CashQty(q, 1.0, n as real) == n
  {
    hide Fits;
    FitsExactly(n as real, 1.0, n);
    FitsExactly(n as real, 1.0, n + 1);
  }

  /** Any slippage overdraws some account: one that spends all its cash at the reference price. */
  lemma SlippageCosts(d: Desk) returns (n: nat, q: nat)
    requires d.mode == Paper && Permissive(d.s) && d.s.perTradeRisk > 0.0 && d.s.slip > 0.0 && FreeOfCharge(d.s)
    ensures q >= 1
    ensures var b := Holding(q as real, n as real);
            && Consistent(b.positions)
            && !KeepsCash(d, b, "X", BuyUnder(0.75), 1.0, Equity(d, b, QUOTE), Fine)
  {
    n := ManyShares(d.s.slip);
    q := AmpleHolding(d.s, n as real, n as real);
    hide BuyVerdict, Executed, Cash, FreeOfCharge, Times, Equity, PositionCap, Shares, Holding, OpenRows, PortfolioRisk;
    var b, equity := Holding(q as real, n as real), q as real + n as real;
    HoldingFacts(d, q as real, n as real);
    QuarterRisk(n);
    AllInApproved(d, b, 0.75, n, equity);
    BuyCash(d, b, "X", BuyUnder(0.75), 1.0, equity, Fine);
    SlippedCost(n as real, d.s.slip);
  }

  lemma QuarterRisk(n: nat)
    ensures Shares(n, PerShareRisk(1.0, 1.0 - 0.75)) <= n as real
  {
  }

  /** So many shares that their slippage exceeds the price of one. */
  lemma ManyShares(slip: real) returns (n: nat)
    requires slip > 0.0
    ensures n >= 1 && Times(n as real, slip) > 1.0
  {
    hide Times;
    var q := Reciprocal(slip);
    n := CountAbove(q);
    TimesStrict(q, n as real, slip);
  }

  lemma TimesStrict(a: real, b: real, k: real)
    requires a < b && k > 0.0
    ensures Times(a, k) < Times(b, k)
  {
    MulStrict(a, b, k);
  }

  lemma Reciprocal(x: real) returns (q: real)
    requires x > 0.0
    ensures Times(q, x) == 1.0
  {
    q := 1.0 / x;
  }

  lemma CountAbove(q: real) returns (n: nat)
    ensures n >= 1 && n as real > q
  {
    n := if q.Floor + 1 >= 1 then q.Floor + 1 else 1;
  }

  lemma SlippedCost(n: real, slip: real)
    ensures Times(n, 1.0 + 1.0 * slip) == n + Times(n, slip)
  {
  }

  /** Approved paper buys without commission keep cash above the tolerance exactly when there is no slippage. */
  lemma CashKeptExactlyWithoutSlippage(d: Desk)
    requires d.mode == Paper && Permissive(d.s) && d.s.perTradeRisk > 0.0 && d.s.slip >= 0.0 && FreeOfCharge(d.s)
    ensures BuysKeepCash(d) <==> d.s.slip == 0.0
  {
    hide KeepsCash, FreeOfCharge, Equity;
    if d.s.slip == 0.0 {
      forall b: Book, prices: map<string, real>, symbol, c, status | Consistent(b.positions) && symbol in prices
        ensures KeepsCash(d, b, symbol, c, prices[symbol], Equity(d, b, prices), status)
      {
        NoSlippageKeepsCash(d, b, symbol, c, prices[symbol], Equity(d, b, prices), status);
      }
    } else {
      var n, q := SlippageCosts(d);
      assert "X" in QUOTE && QUOTE["X"] == 1.0;
    }
  }

  // ---- a witness -----------------------------------------------------------------------------------

  /** The slippage term is needed: an approved buy can take cash below zero even without commissions. */
  lemma SlippageOverdraws(d: Desk, c: Decision)
    requires d.mode == Paper && d.start == 100.0 && d.s.slip == 0.01 && FreeOfCharge(d.s)
    requires d.s.maxPositionPct == 1.0 && d.s.perTradeRisk == 1.0 && d.s.maxPortfolioRisk == 1.0
             && d.s.maxConcurrent >= 1
    requires c == Decision(BuyIt, None, Some(9.0), None)
    ensures Cash(d.start, Executed(d, EMPTY, "X", c, 10.0, 100.0, Fine)) == -1.0
  {
    hide OpenCost;
    assert SizeCap(d.s, None) == 1.0 && SizeRatio(d.s, None) == 1.0;
    SizeIsLargest(d.s, 100.0, 10.0, 9.0, None, 10);
    SizeIsLargest(d.s, 100.0, 10.0, 9.0, None, 11);
    assert PositionSize(d.s, 100.0, 10.0, 9.0, None) == 10;
    assert OpenRows(EMPTY.positions) == [] && Symbols([]) == {} && !Crowded([], "X");
    assert StopFor(d.s, c, 10.0) == 9.0 && Cash(d.start, EMPTY) == 100.0;
    assert BuyVerdict(d, EMPTY, "X", c, 10.0, 100.0, Fine) == Approved(10);
    BoughtShape(d, EMPTY, "X", 10.0, 10.0);
  }
}
