/** Exactly when the simulator's cash check keeps cash from going negative: it compares the cost
    of the shares, and forgets the commission. */
module BacktestSolvency {
  import opened Prelude
  import opened Backtest
  import opened BacktestInvariants
  import opened BacktestTrades

  /** Parameters under which something can be bought. */
  predicate Trades(c: Params)
  {
    && c.capital > 0.0 && 0.0 < c.positionPct <= 1.0 && c.maxPositions >= 1
    && c.commission >= 0.0 && 0.0 <= c.slip <= 1.0
  }

  ghost predicate KeepsCash(c: Params, strategy: Strategy, data: Data, dates: seq<int>, n: nat)
    requires n <= |dates|
  {
    Run(c, strategy, data, dates, n).book.cash >= 0.0
  }

  /** No strategy on any data ever overdraws the account. */
  ghost predicate AlwaysSolvent(c: Params)
  {
    forall strategy: Strategy, data: Data, dates: seq<int>, n: nat ::
      IsClock(data, dates) && n <= |dates| && Sane(c, data) ==> KeepsCash(c, strategy, data, dates, n)
  }

  // ---- a market in which commissions dominate ------------------------------------------------

  function Flat(x: real): Bar { Bar(x, x, x, x) }

  const DAYS: seq<int> := [0, 1, 2]

  /** One symbol that trades at `x` throughout. */
  function FlatMarket(x: real): Data { map["A" := map[0 := Flat(x), 1 := Flat(x), 2 := Flat(x)]] }

  /** Buys that symbol whenever it can. */
  function Always(): Strategy { history => [("A", 1.0)] }

  lemma FlatMarketIsSane(c: Params, x: real)
    requires Trades(c) && x > 0.0
    ensures IsClock(FlatMarket(x), DAYS) && Sane(c, FlatMarket(x))
  {
    var data := FlatMarket(x);
    assert forall d :: d in DAYS ==> "A" in data && d in data["A"];
  }

  /** After the first day nothing is bought yet and the symbol is queued. */
  lemma DayZero(c: Params, x: real)
    requires Trades(c)
    ensures var st := Run(c, Always(), FlatMarket(x), DAYS, 1);
            st.book == Book(c.capital, [], []) && st.pending == ["A"]
  {
    hide History;
    var data := FlatMarket(x);
    var st := Run(c, Always(), data, DAYS, 0);
    var signals := Always()(History(data, 0));
    assert signals == [("A", 1.0)] && signals[1..] == [];
    assert NotHeld(signals, []) == ["A"];
  }

  /** The second day buys `qty` shares and perhaps sells them again the same day. */
  lemma DayOne(c: Params, x: real, qty: int)
    requires Trades(c) && x > 0.0 && FillPrice(c, Flat(x)) > 0.0
    requires qty == Affordable(c, c.capital, FillPrice(c, Flat(x))) >= 1
    ensures var cash := Run(c, Always(), FlatMarket(x), DAYS, 2).book.cash;
            var bought := c.capital - (Value(qty, FillPrice(c, Flat(x))) + Value(qty, c.commission));
            cash == bought || cash == bought + (Value(qty, SalePrice(c, x)) - Value(qty, c.commission))
  {
    hide Queue, Value, FillPrice, SalePrice, Affordable, StopAt, TargetAt;
    DayZero(c, x);
    var data, b := FlatMarket(x), Book(c.capital, [], []);
    var fill := FillPrice(c, Flat(x));
    assert data["A"][1] == Flat(x) && HasBar(data, "A", 1);
    EnoughCash(c, fill, qty);
    var p := NewPosition(c, 1, 1, "A", fill, qty);
    var b1 := Bought(c, 1, 1, b, "A", fill, qty);
    assert b1.positions == [p] && [p][1..] == [];
    assert Size(c, data, 1, b, fill) == qty;
    assert TryFill(c, data, 1, 1, b, "A") == Some(b1);
    assert ["A"][1..] == [];
    assert FillAll(c, data, 1, 1, b, ["A"]) == FillAll(c, data, 1, 1, b1, []) == b1;
    assert ExitAll(c, data, 1, 1, b1, [p]) == ExitAll(c, data, 1, 1, TryExit(c, data, 1, 1, b1, p), [])
        == TryExit(c, data, 1, 1, b1, p);
  }

  lemma EnoughCash(c: Params, fill: real, qty: int)
    requires Trades(c) && fill > 0.0 && qty == Affordable(c, c.capital, fill)
    ensures Value(qty, fill) <= c.capital
  {
    AffordableIsLargest(c, c.capital, fill, qty);
    MulMono(c.positionPct, 1.0, c.capital);
  }

  // ---- the price at which it happens -----------------------------------------------------------

  lemma Quotient(x: real, k: real) returns (q: real)
    requires x > 0.0 && k > 0.0
    ensures q > 0.0 && q * k == x
  {
    q := x / k;
    assert q * k == x;
    assert q <= 0.0 ==> q * k <= 0.0;
  }

  /** So many shares that their commission exceeds the capital. */
  lemma ManyShares(c: Params) returns (n: nat)
    requires Trades(c) && c.commission > 0.0
    ensures n >= 1 && Value(n, c.commission) > c.capital
  {
    hide Value;
    var q := Quotient(c.capital, c.commission);
    n := q.Floor + 1;
    ValueStrict(n, q, c.commission);
  }

  lemma ValueStrict(n: nat, q: real, x: real)
    requires n as real > q && x > 0.0
    ensures Value(n, x) > q * x
  {
    MulStrict(q, n as real, x);
  }

  /** A price at which the position's budget pays for exactly `n` shares. */
  lemma CheapPrice(c: Params, n: nat) returns (x: real)
    requires Trades(c) && n >= 1
    ensures x > 0.0 && FillPrice(c, Flat(x)) > 0.0 && n <= Affordable(c, c.capital, FillPrice(c, Flat(x)))
  {
    assert c.positionPct * c.capital > 0.0;
    var fill := Quotient(Budget(c, c.capital), n as real);
    x := Quotient(fill, 1.0 + c.slip);
    assert FillPrice(c, Flat(x)) == fill;
    assert Value(n, fill) == Budget(c, c.capital);
    AffordableIsLargest(c, c.capital, fill, n);
  }

  lemma MoreShares(m: int, n: int, x: real)
    requires m <= n && x >= 0.0
    ensures Value(m, x) <= Value(n, x)
  {
    MulMono(m as real, n as real, x);
  }

  /** Selling at the price paid before slippage never brings back more than was paid. */
  lemma NoProfitFlat(c: Params, x: real, qty: int)
    requires Trades(c) && x > 0.0 && qty >= 1
    ensures 0.0 <= Value(qty, SalePrice(c, x)) <= Value(qty, FillPrice(c, Flat(x)))
  {
    var low, high := SalePrice(c, x), FillPrice(c, Flat(x));
    assert x * c.slip >= 0.0;
    assert low == x - x * c.slip && high == x + x * c.slip;
    SaleNonnegative(c, x);
    MulMono(low, high, qty as real);
    MulMono(0.0, low, qty as real);
  }

  /** Any commission overdraws the account in some market. */
  lemma CommissionOverdraws(c: Params) returns (x: real)
    requires Trades(c) && c.commission > 0.0
    ensures x > 0.0 && Run(c, Always(), FlatMarket(x), DAYS, 2).book.cash < 0.0
  {
    hide Value, FillPrice, SalePrice, Affordable, Run;
    var n := ManyShares(c);
    x := CheapPrice(c, n);
    var qty := Affordable(c, c.capital, FillPrice(c, Flat(x)));
    MoreShares(n, qty, c.commission);
    NoProfitFlat(c, x, qty);
    DayOne(c, x, qty);
  }

  /** The account is never overdrawn, whatever the strategy and the data, exactly when there is no commission. */
  lemma SolventExactlyWithoutCommission(c: Params)
    requires Trades(c)
    ensures AlwaysSolvent(c) <==> c.commission == 0.0
  {
    hide Run, Sane, IsClock;
    if c.commission == 0.0 {
      forall strategy: Strategy, data: Data, dates: seq<int>, n: nat
        | IsClock(data, dates) && n <= |dates| && Sane(c, data)
        ensures KeepsCash(c, strategy, data, dates, n)
      {
        RunSolvent(c, strategy, data, dates, n);
      }
    } else {
      var x := CommissionOverdraws(c);
      FlatMarketIsSane(c, x);
      assert !KeepsCash(c, Always(), FlatMarket(x), DAYS, 2);
    }
  }
}
