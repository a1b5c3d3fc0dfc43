/** Portfolio bookkeeping: the position, order, fill, account and risk tables of one
    trading mode (src/surge/trading/store.py) and `apply_fill`
    (src/surge/trading/execution.py). */
module Ledger {
  import opened Prelude

  datatype Side = Buy | Sell

  datatype OrderStatus = New | PendingApproval | Submitted | Filled | PartiallyFilled | Cancelled | Rejected

  datatype Order = Order(symbol: string, side: Side, qty: real, status: OrderStatus)

  datatype Fill = Fill(symbol: string, side: Side, qty: real, price: real, commission: real)

  datatype Position = Position(symbol: string, qty: real, avg: real, stop: Option<real>, target: Option<real>,
                               realized: real, open: bool)

  datatype Account = Account(cash: real, equity: real)

  datatype RiskStatus = Fine | Warn | HaltNew | Liquidate | Halt

  datatype RiskRow = RiskRow(kill: bool, status: RiskStatus)

  /** The rows of one trading mode, oldest first; an order is known by its place. */
  datatype Book = Book(positions: seq<Position>, accounts: seq<Account>, orders: seq<Order>, fills: seq<Fill>,
                       risk: seq<RiskRow>)

  const EMPTY := Book([], [], [], [], [])

  // ---- the tables -------------------------------------------------------------------------

  /** The newest account row's cash, or the starting capital when there is none. */
  function Cash(start: real, b: Book): real
  {
    if b.accounts == [] then start else b.accounts[|b.accounts| - 1].cash
  }

  /** The row of `symbol`, open or closed. */
  function Row(ps: seq<Position>, symbol: string): Option<Position>
  {
    if ps == [] then None else if ps[0].symbol == symbol then Some(ps[0]) else Row(ps[1..], symbol)
  }

  /** `get_position`: open rows only. */
  function GetPosition(ps: seq<Position>, symbol: string): Option<Position>
  {
    var r := Row(ps, symbol);
    if r.Some? && r.value.open then r else None
  }

  /** `get_positions`: the open rows. */
  function OpenRows(ps: seq<Position>): (r: seq<Position>)
    ensures forall p :: p in r <==> p in ps && p.open
  {
    if ps == [] then [] else (if ps[0].open then [ps[0]] else []) + OpenRows(ps[1..])
  }

  /** Insert, or overwrite the row with the same symbol. */
  function Upsert(ps: seq<Position>, p: Position): seq<Position>
  {
    if ps == [] then [p]
    else if ps[0].symbol == p.symbol then [p] + ps[1..]
    else [ps[0]] + Upsert(ps[1..], p)
  }

  function Times(a: real, b: real): real { a * b }

  /** What the open positions cost at their average prices. */
  function OpenCost(ps: seq<Position>): real
  {
    if ps == [] then 0.0
    else (if ps[0].open then Times(ps[0].qty, ps[0].avg) else 0.0) + OpenCost(ps[1..])
  }

  /** One row per symbol, and open rows hold something. */
  predicate Consistent(ps: seq<Position>)
  {
    && (forall j, k :: 0 <= j < k < |ps| ==> ps[j].symbol != ps[k].symbol)
    && (forall p :: p in ps && p.open ==> p.qty > 0.0)
  }

  // ---- applying a fill -----------------------------------------------------------------------

  /** The row a buy leaves: the average is weighted by quantity; a closed or absent symbol starts afresh. */
  function AfterBuy(was: Option<Position>, f: Fill): Position
    requires f.qty > 0.0 && (was.Some? ==> was.value.qty > 0.0)
  {
    if was.Some? then
      var p := was.value;
      p.(qty := p.qty + f.qty,
         avg := (Times(p.qty, p.avg) + Times(f.qty, f.price)) / (p.qty + f.qty))
    else Position(f.symbol, f.qty, f.price, None, None, 0.0, true)
  }

  const CLOSE_EPS := 0.000000001

  function AfterSell(p: Position, f: Fill): Position
  {
    var sold := Min(f.qty, p.qty);
    p.(realized := p.realized + Times(f.price - p.avg, sold),
       qty := p.qty - sold,
       open := p.open && p.qty - sold > CLOSE_EPS)
  }

  /** Append the fill and the account snapshot that follows it. */
  function Posted(b: Book, ps: seq<Position>, cash: real, f: Fill): Book
  {
    b.(positions := ps, fills := b.fills + [f], accounts := b.accounts + [Account(cash, cash + OpenCost(ps))])
  }

  function Applied(start: real, b: Book, f: Fill): Book
    requires f.qty > 0.0 && Consistent(b.positions)
  {
    var pos := GetPosition(b.positions, f.symbol);
    RowIsIn(b.positions, f.symbol);
    if f.side == Buy then
      Posted(b, Upsert(b.positions, AfterBuy(pos, f)),
             Cash(start, b) - (Times(f.qty, f.price) + f.commission), f)
    else if pos.None? then b
    else
      Posted(b, Upsert(b.positions, AfterSell(pos.value, f)),
             Cash(start, b) + (Times(Min(f.qty, pos.value.qty), f.price) - f.commission), f)
  }

  lemma {:induction false} RowIsIn(ps: seq<Position>, symbol: string)
    ensures var r := Row(ps, symbol);
            (r.Some? ==> r.value in ps && r.value.symbol == symbol)
            && (r.None? ==> forall p :: p in ps ==> p.symbol != symbol)
  {
    if ps != [] {
      RowIsIn(ps[1..], symbol);
      assert ps == [ps[0]] + ps[1..];
    }
  }

  /** An upsert touches one row in place, or appends. */
  lemma {:induction false} UpsertAt(ps: seq<Position>, k: nat, p: Position)
    requires k <= |ps| && forall j :: 0 <= j < k ==> ps[j].symbol != p.symbol
    requires k < |ps| ==> ps[k].symbol == p.symbol
    ensures Upsert(ps, p) == if k < |ps| then ps[..k] + [p] + ps[k + 1..] else ps + [p]
  {
    if k > 0 {
      UpsertAt(ps[1..], k - 1, p);
      assert ps == [ps[0]] + ps[1..];
    }
  }

  // ---- the stored tables --------------------------------------------------------------------------

  class Store {
    const start: real
    var positions: seq<Position>
    var accounts: seq<Account>
    var orders: seq<Order>
    var fills: seq<Fill>
    var risk: seq<RiskRow>

    ghost function View(): Book
      reads this
    {
      Book(positions, accounts, orders, fills, risk)
    }

    constructor (start: real)
      ensures this.start == start && View() == EMPTY
    {
      this.start := start;
      positions, accounts, orders, fills, risk := [], [], [], [], [];
    }

    method LatestCash() returns (cash: real)
      ensures cash == Cash(start, View())
    {
      if accounts == [] {
        return start;
      }
      cash := accounts[|accounts| - 1].cash;
    }

    method SaveAccount(cash: real, equity: real)
      modifies this`accounts
      ensures accounts == old(accounts) + [Account(cash, equity)]
    {
      accounts := accounts + [Account(cash, equity)];
    }

    method UpsertPosition(p: Position)
      modifies this`positions
      ensures positions == Upsert(old(positions), p)
    {
      var k := 0;
      while k < |positions| && positions[k].symbol != p.symbol
        invariant 0 <= k <= |positions|
        invariant forall j :: 0 <= j < k ==> positions[j].symbol != p.symbol
      {
        k := k + 1;
      }
      UpsertAt(positions, k, p);
      if k < |positions| {
        positions := positions[..k] + [p] + positions[k + 1..];
      } else {
        positions := positions + [p];
      }
    }

    /** Insert an order and return its place. */
    method InsertOrder(o: Order) returns (id: nat)
      modifies this`orders
      ensures id == |old(orders)| && orders == old(orders) + [o]
    {
      id := |orders|;
      orders := orders + [o];
    }

    method UpdateOrderStatus(id: nat, status: OrderStatus)
      requires id < |orders|
      modifies this`orders
      ensures orders == old(orders)[id := old(orders)[id].(status := status)]
    {
      orders := orders[id := orders[id].(status := status)];
    }

    method InsertRiskState(kill: bool, status: RiskStatus)
      modifies this`risk
      ensures risk == old(risk) + [RiskRow(kill, status)]
    {
      risk := risk + [RiskRow(kill, status)];
    }

    method SumOpenCost() returns (total: real)
      ensures total == OpenCost(positions)
    {
      total := 0.0;
      for k := 0 to |positions|
        invariant total + OpenCost(positions[k..]) == OpenCost(positions)
      {
        assert positions[k..][1..] == positions[k + 1..];
        if positions[k].open {
          total := total + Times(positions[k].qty, positions[k].avg);
        }
      }
    }

    /** `apply_fill`: the single place where position, cash and account snapshot change. */
    method ApplyFill(f: Fill)
      requires f.qty > 0.0 && Consistent(positions)
      modifies this
      ensures View() == Applied(start, old(View()), f)
      ensures Consistent(positions)
    {
      hide Times, OpenCost, Upsert;
      ghost var before := View();
      AppliedConsistent(start, before, f);
      RowIsIn(positions, f.symbol);
      var pos := GetPosition(positions, f.symbol);
      var cash := LatestCash();
      if f.side == Buy {
        cash := cash - (Times(f.qty, f.price) + f.commission);
        if pos.Some? {
          var qty := pos.value.qty + f.qty;
          var avg := (Times(pos.value.qty, pos.value.avg) + Times(f.qty, f.price)) / qty;
          UpsertPosition(pos.value.(qty := qty, avg := avg));
        } else {
          UpsertPosition(Position(f.symbol, f.qty, f.price, None, None, 0.0, true));
        }
      } else {
        if pos.None? {
          return;
        }
        var p := pos.value;
        var sold := Min(f.qty, p.qty);
        p := p.(realized := p.realized + Times(f.price - p.avg, sold));
        p := p.(qty := p.qty - sold);
        cash := cash + (Times(sold, f.price) - f.commission);
        if p.qty <= CLOSE_EPS {
          p := p.(open := false);
        }
        UpsertPosition(p);
      }
      fills := fills + [f];
      var cost := SumOpenCost();
      SaveAccount(cash, cash + cost);
    }
  }

  // ---- what the upsert keeps -----------------------------------------------------------------------

  function PlaceOf(ps: seq<Position>, symbol: string): (k: nat)
    ensures k <= |ps| && forall j :: 0 <= j < k ==> ps[j].symbol != symbol
    ensures k < |ps| ==> ps[k].symbol == symbol
  {
    if ps == [] || ps[0].symbol == symbol then 0 else 1 + PlaceOf(ps[1..], symbol)
  }

  lemma {:induction false} UpsertMembers(ps: seq<Position>, p: Position)
    requires Consistent(ps)
    ensures var r := Upsert(ps, p);
            && p in r
            && (forall q :: q in r ==> q == p || (q in ps && q.symbol != p.symbol))
            && (forall q :: q in ps && q.symbol != p.symbol ==> q in r)
  {
    if ps != [] {
      var head, rest := ps[0], ps[1..];
      assert ps == [head] + rest;
      RestDiffers(ps);
      if head.symbol != p.symbol { UpsertMembers(rest, p); }
    }
  }

  /** The first row's symbol does not come back. */
  lemma RestDiffers(ps: seq<Position>)
    requires Consistent(ps) && ps != []
    ensures Consistent(ps[1..]) && forall q :: q in ps[1..] ==> q.symbol != ps[0].symbol
  {
    forall q | q in ps[1..] ensures q in ps && q.symbol != ps[0].symbol {
      var j :| 0 <= j < |ps[1..]| && ps[1..][j] == q;
      assert ps[j + 1] == q;
    }
  }

  lemma {:induction false} UpsertConsistent(ps: seq<Position>, p: Position)
    requires Consistent(ps) && (p.open ==> p.qty > 0.0)
    ensures Consistent(Upsert(ps, p))
  {
    if ps != [] {
      var head, rest := ps[0], ps[1..];
      assert ps == [head] + rest;
      RestDiffers(ps);
      if head.symbol == p.symbol {
        ConsCons(p, rest);
      } else {
        UpsertConsistent(rest, p);
        UpsertMembers(rest, p);
        ConsCons(head, Upsert(rest, p));
      }
    }
  }

  lemma ConsCons(p: Position, rest: seq<Position>)
    requires Consistent(rest) && (p.open ==> p.qty > 0.0) && forall q :: q in rest ==> q.symbol != p.symbol
    ensures Consistent([p] + rest)
  {
    assert forall j :: 0 <= j < |rest| ==> rest[j] in rest;
  }

  lemma UpsertKeeps(ps: seq<Position>, p: Position)
    requires Consistent(ps) && (p.open ==> p.qty > 0.0)
    ensures var r := Upsert(ps, p);
            && Consistent(r) && p in r && Row(r, p.symbol) == Some(p)
            && (forall q :: q in r ==> q == p || (q in ps && q.symbol != p.symbol))
            && (forall q :: q in ps && q.symbol != p.symbol ==> q in r)
  {
    hide Upsert, Row, Consistent;
    UpsertMembers(ps, p);
    UpsertConsistent(ps, p);
    RowIsIn(Upsert(ps, p), p.symbol);
  }

  /** What a row adds to the open cost. */
  function Held(r: Option<Position>): real
  {
    if r.Some? && r.value.open then Times(r.value.qty, r.value.avg) else 0.0
  }

  lemma {:induction false} UpsertCost(ps: seq<Position>, p: Position)
    ensures OpenCost(Upsert(ps, p)) == OpenCost(ps) - Held(Row(ps, p.symbol)) + Held(Some(p))
  {
    hide Times;
    if ps == [] {
      assert [p][1..] == [];
    } else if ps[0].symbol == p.symbol {
      assert ([p] + ps[1..])[1..] == ps[1..];
    } else {
      UpsertCost(ps[1..], p);
      assert ([ps[0]] + Upsert(ps[1..], p))[1..] == Upsert(ps[1..], p);
    }
  }

  lemma AppliedConsistent(start: real, b: Book, f: Fill)
    requires f.qty > 0.0 && Consistent(b.positions)
    ensures Consistent(Applied(start, b, f).positions)
  {
    hide Times, OpenCost;
    RowIsIn(b.positions, f.symbol);
    var pos := GetPosition(b.positions, f.symbol);
    if f.side == Buy {
      UpsertKeeps(b.positions, AfterBuy(pos, f));
    } else if pos.Some? {
      UpsertKeeps(b.positions, AfterSell(pos.value, f));
    }
  }

  // ---- conservation -----------------------------------------------------------------------------------

  /** Cash plus what the open positions cost. */
  function Worth(start: real, b: Book): real { Cash(start, b) + OpenCost(b.positions) }

  /** Commission a fill is charged: a sale without a position is ignored. */
  function Charged(b: Book, f: Fill): real
  {
    if f.side == Sell && GetPosition(b.positions, f.symbol).None? then 0.0 else f.commission
  }

  /** Profit a fill realises against the average cost. */
  function Realised(b: Book, f: Fill): real
  {
    var pos := GetPosition(b.positions, f.symbol);
    if f.side == Sell && pos.Some? then Times(f.price - pos.value.avg, Min(f.qty, pos.value.qty)) else 0.0
  }

  /** Cost of the fraction of a share that closing a nearly empty position forgets. */
  function Dust(b: Book, f: Fill): real
  {
    var pos := GetPosition(b.positions, f.symbol);
    if f.side == Sell && pos.Some? && 0.0 < pos.value.qty - f.qty <= CLOSE_EPS
    then Times(pos.value.qty - f.qty, pos.value.avg) else 0.0
  }

  lemma BuyCost(was: Option<Position>, f: Fill)
    requires f.qty > 0.0 && (was.Some? ==> was.value.qty > 0.0 && was.value.open)
    ensures Held(Some(AfterBuy(was, f))) == Held(was) + Times(f.qty, f.price)
  {
    if was.Some? {
      var q, total := was.value.qty + f.qty, Times(was.value.qty, was.value.avg) + Times(f.qty, f.price);
      assert q * (total / q) == total;
    }
  }

  lemma SellCost(p: Position, f: Fill)
    requires p.open && p.qty > 0.0 && f.qty > 0.0
    ensures var sold := Min(f.qty, p.qty);
            Held(Some(AfterSell(p, f)))
            + (if 0.0 < p.qty - f.qty <= CLOSE_EPS then Times(p.qty - f.qty, p.avg) else 0.0)
            == Held(Some(p)) + Times(f.price - p.avg, sold) - Times(sold, f.price)
  {
    var sold := Min(f.qty, p.qty);
    assert (p.qty - sold) * p.avg == p.qty * p.avg - sold * p.avg;
    assert (f.price - p.avg) * sold == sold * f.price - sold * p.avg;
  }

  /** One fill moves the worth by exactly its realised profit less its commission and any dust. */
  lemma FillConserves(start: real, b: Book, f: Fill)
    requires f.qty > 0.0 && Consistent(b.positions)
    ensures Worth(start, Applied(start, b, f)) == Worth(start, b) - Charged(b, f) + Realised(b, f) - Dust(b, f)
  {
    hide Times, OpenCost, Upsert;
    RowIsIn(b.positions, f.symbol);
    var pos := GetPosition(b.positions, f.symbol);
    if f.side == Buy {
      UpsertCost(b.positions, AfterBuy(pos, f));
      BuyCost(pos, f);
    } else if pos.Some? {
      UpsertCost(b.positions, AfterSell(pos.value, f));
      SellCost(pos.value, f);
    }
  }

  /** A fill leaves its mark once in every table: itself in the log, the account after it at cost, and on a sale the
      realised profit on the row, whose average stays; what is sold comes off the row, which closes at a sliver. */
  lemma FillIsBooked(start: real, b: Book, f: Fill)
    requires f.qty > 0.0 && Consistent(b.positions)
    ensures var r, was := Applied(start, b, f), GetPosition(b.positions, f.symbol);
            && (f.side == Sell && was.None? ==> r == b)
            && (f.side == Buy || was.Some? ==>
                  r.fills == b.fills + [f] && r.orders == b.orders && r.risk == b.risk
                  && r.accounts == b.accounts + [Account(Cash(start, r), Worth(start, r))])
            && (f.side == Sell && was.Some? ==>
                  Row(r.positions, f.symbol)
                  == Some(was.value.(qty := was.value.qty - Min(f.qty, was.value.qty),
                                     realized := was.value.realized + Realised(b, f),
                                     open := was.value.qty - Min(f.qty, was.value.qty) > 0.000000001)))
  {
    hide Times, OpenCost, Upsert;
    RowIsIn(b.positions, f.symbol);
    var pos := GetPosition(b.positions, f.symbol);
    if f.side == Sell && pos.Some? { UpsertKeeps(b.positions, AfterSell(pos.value, f)); }
  }

  /** A fill forgets value exactly when it closes a row with a sliver of positive length and nonzero cost left. */
  lemma FillLeaksExactly(start: real, b: Book, f: Fill)
    requires f.qty > 0.0 && Consistent(b.positions)
    ensures var pos := GetPosition(b.positions, f.symbol);
            Worth(start, Applied(start, b, f)) != Worth(start, b) - Charged(b, f) + Realised(b, f)
            <==> f.side == Sell && pos.Some? && pos.value.avg != 0.0 && 0.0 < pos.value.qty - f.qty <= CLOSE_EPS
  {
    hide Applied, Charged, Realised, OpenCost;
    FillConserves(start, b, f);
    RowIsIn(b.positions, f.symbol);
    var pos := GetPosition(b.positions, f.symbol);
    if pos.Some? { ProductNonzero(pos.value.qty - f.qty, pos.value.avg); }
  }

  lemma ProductNonzero(x: real, y: real)
    ensures x > 0.0 ==> (Times(x, y) == 0.0 <==> y == 0.0)
  {
    assert x > 0.0 && y > 0.0 ==> x * y > 0.0;
    assert x > 0.0 && y < 0.0 ==> x * y < 0.0;
  }

  // ---- runs of fills ------------------------------------------------------------------------------------

  function RunFills(start: real, fs: seq<Fill>): (b: Book)
    requires forall f :: f in fs ==> f.qty > 0.0
    ensures Consistent(b.positions)
  {
    if fs == [] then EMPTY
    else
      var b := RunFills(start, fs[..|fs| - 1]);
      AppliedConsistent(start, b, fs[|fs| - 1]);
      Applied(start, b, fs[|fs| - 1])
  }

  /** Cumulative commission, realised profit and dust along a run. */
  datatype Totals = Totals(commission: real, realised: real, dust: real)

  function RunTotals(start: real, fs: seq<Fill>): Totals
    requires forall f :: f in fs ==> f.qty > 0.0
  {
    if fs == [] then Totals(0.0, 0.0, 0.0)
    else
      var b, f, t := RunFills(start, fs[..|fs| - 1]), fs[|fs| - 1], RunTotals(start, fs[..|fs| - 1]);
      Totals(t.commission + Charged(b, f), t.realised + Realised(b, f), t.dust + Dust(b, f))
  }

  /** Conservation over any run, through averaging, closing and reopening. */
  lemma {:induction false} RunConserves(start: real, fs: seq<Fill>)
    requires forall f :: f in fs ==> f.qty > 0.0
    ensures var b, t := RunFills(start, fs), RunTotals(start, fs);
            Worth(start, b) + t.commission - t.realised + t.dust == start
  {
    hide Applied, Charged, Realised, Dust;
    if fs == [] {
    } else {
      RunConserves(start, fs[..|fs| - 1]);
      FillConserves(start, RunFills(start, fs[..|fs| - 1]), fs[|fs| - 1]);
    }
  }

  predicate IsWhole(x: real) { x == x.Floor as real }

  predicate WholeShares(fs: seq<Fill>)
  {
    forall f :: f in fs ==> f.qty > 0.0 && IsWhole(f.qty)
  }

  lemma WholeArithmetic(a: real, b: real)
    requires IsWhole(a) && IsWhole(b)
    ensures IsWhole(a + b) && IsWhole(a - b) && (a - b > 0.0 ==> a - b >= 1.0)
  {
    var m, n := a.Floor, b.Floor;
    assert a == m as real && b == n as real;
    assert a + b == (m + n) as real && a - b == (m - n) as real;
    IntegerIsWhole(m + n);
    IntegerIsWhole(m - n);
  }

  lemma IntegerIsWhole(n: int)
    ensures IsWhole(n as real)
  {
  }

  predicate WholeRows(ps: seq<Position>) { forall p :: p in ps ==> IsWhole(p.qty) }

  lemma WholeStep(start: real, b: Book, f: Fill)
    requires Consistent(b.positions) && WholeRows(b.positions) && f.qty > 0.0 && IsWhole(f.qty)
    ensures WholeRows(Applied(start, b, f).positions) && Dust(b, f) == 0.0
  {
    hide Times, OpenCost, IsWhole, Upsert;
    RowIsIn(b.positions, f.symbol);
    var pos := GetPosition(b.positions, f.symbol);
    if pos.Some? {
      WholeArithmetic(pos.value.qty, f.qty);
      WholeArithmetic(pos.value.qty, pos.value.qty);
    }
    if f.side == Buy {
      UpsertKeeps(b.positions, AfterBuy(pos, f));
    } else if pos.Some? {
      UpsertKeeps(b.positions, AfterSell(pos.value, f));
    }
  }

  lemma {:induction false} WholeStaysWhole(start: real, fs: seq<Fill>)
    requires WholeShares(fs)
    ensures WholeRows(RunFills(start, fs).positions) && RunTotals(start, fs).dust == 0.0
  {
    hide Applied, Dust, IsWhole;
    if fs != [] {
      WholeStaysWhole(start, fs[..|fs| - 1]);
      WholeStep(start, RunFills(start, fs[..|fs| - 1]), fs[|fs| - 1]);
    }
  }

  /** With whole shares nothing is ever lost: cash + open cost + commissions - realised profit is the starting
      capital. */
  lemma WholeSharesConserve(start: real, fs: seq<Fill>)
    requires WholeShares(fs)
    ensures var b, t := RunFills(start, fs), RunTotals(start, fs);
            Worth(start, b) + t.commission - t.realised == start
  {
    RunConserves(start, fs);
    WholeStaysWhole(start, fs);
  }

  /** Fractional shares can lose value: closing with a sliver left forgets what the sliver cost. */
  lemma FractionalSharesLeak()
    ensures var fs := [Fill("X", Buy, 1.0, 100.0, 0.0), Fill("X", Sell, 0.9999999995, 100.0, 0.0)];
            && (forall f :: f in fs ==> f.qty > 0.0)
            && Worth(1000.0, RunFills(1000.0, fs)) < 1000.0 && RunTotals(1000.0, fs).realised == 0.0
  {
    var buy, sell := Fill("X", Buy, 1.0, 100.0, 0.0), Fill("X", Sell, 0.9999999995, 100.0, 0.0);
    var fs := [buy, sell];
    assert fs[..1] == [buy] && [buy][..0] == [];
    assert RunFills(1000.0, [buy]).positions == [Position("X", 1.0, 100.0, None, None, 0.0, true)];
    assert Dust(RunFills(1000.0, [buy]), sell) == Times(1.0 - 0.9999999995, 100.0);
    assert RunTotals(1000.0, [buy]) == Totals(0.0, 0.0, 0.0);
    RunConserves(1000.0, fs);
  }
}
