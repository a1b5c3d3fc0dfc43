/** What sizes an entry in the simulator (src/surge/backtest/engine.py): entries fill at the open, but the equity that
    sizes them marks what is held at the close of the same day. */
module BacktestSizing {
  import opened Prelude
  import opened Backtest
  import BacktestInvariants

  /** The same bars, but for the closes of one date. */
  ghost predicate SameButCloses(a: Data, b: Data, date: int)
  {
    && a.Keys == b.Keys
    && (forall s :: s in a ==> a[s].Keys == b[s].Keys)
    && (forall s, d :: s in a && d in a[s] ==>
          b[s][d] == if d == date then a[s][d].(close := b[s][d].close) else a[s][d])
  }

  /** What becomes of the entry does not depend on the closes of its day. */
  ghost predicate DecidedAtOpen(c: Params, data: Data, date: int, i: nat, b: Book, symbol: string)
  {
    forall other :: SameButCloses(data, other, date) ==>
      TryFill(c, other, date, i, b, symbol) == TryFill(c, data, date, i, b, symbol)
  }

  /** Some equity would fill the entry: a free slot, a usable open, and cash for one share. */
  predicate Fillable(c: Params, data: Data, date: int, b: Book, symbol: string)
  {
    && !Held(b.positions, symbol) && HasBar(data, symbol, date) && |b.positions| < c.maxPositions
    && 0.0 < FillPrice(c, data[symbol][date]) <= b.cash
  }

  /** Something held trades on the date. */
  predicate HeldTrades(data: Data, date: int, ps: seq<Open>)
  {
    exists k :: 0 <= k < |ps| && HasBar(data, ps[k].symbol, date)
  }

  predicate LongPositions(ps: seq<Open>) { forall k :: 0 <= k < |ps| ==> ps[k].qty >= 1 }

  // ---- what marking the book reads -------------------------------------------------------------------

  /** The bars with another close for one symbol on the date. */
  function Reclosed(data: Data, date: int, symbol: string, x: real): Data
    requires HasBar(data, symbol, date)
  {
    data[symbol := data[symbol][date := data[symbol][date].(close := x)]]
  }

  lemma ReclosedDiffersInClose(data: Data, date: int, symbol: string, x: real)
    requires HasBar(data, symbol, date)
    ensures SameButCloses(data, Reclosed(data, date, symbol, x), date)
  {
  }

  function SharesHeld(ps: seq<Open>, symbol: string): int
  {
    if ps == [] then 0
    else SharesHeld(ps[..|ps| - 1], symbol) + if ps[|ps| - 1].symbol == symbol then ps[|ps| - 1].qty else 0
  }

  /** The marked value moves with a close by the shares held. */
  lemma {:induction false} MtmMoves(ps: seq<Open>, data: Data, date: int, symbol: string, x: real)
    requires HasBar(data, symbol, date)
    ensures Mtm(ps, Reclosed(data, date, symbol, x), date)
            == Mtm(ps, Reclosed(data, date, symbol, 0.0), date) + Value(SharesHeld(ps, symbol), x)
  {
    if ps == [] {
      assert Value(0, x) == 0.0;
    } else {
      var p, rest := ps[|ps| - 1], ps[..|ps| - 1];
      MtmMoves(rest, data, date, symbol, x);
      BacktestInvariants.ValueAdds(SharesHeld(rest, symbol), p.qty, x, 0.0);
      assert Value(p.qty, 0.0) == 0.0;
    }
  }

  lemma {:induction false} SharesHeldPositive(ps: seq<Open>, symbol: string)
    requires LongPositions(ps)
    ensures SharesHeld(ps, symbol) >= 0 && (Held(ps, symbol) ==> SharesHeld(ps, symbol) >= 1)
  {
    if ps != [] {
      SharesHeldPositive(ps[..|ps| - 1], symbol);
      if Held(ps, symbol) && ps[|ps| - 1].symbol != symbol {
        var k :| 0 <= k < |ps| && ps[k].symbol == symbol;
        assert ps[..|ps| - 1][k].symbol == symbol;
      }
    }
  }

  /** Marking a book of which nothing trades reads no close. */
  lemma {:induction false} MtmBlind(ps: seq<Open>, a: Data, b: Data, date: int)
    requires SameButCloses(a, b, date) && !HeldTrades(a, date, ps)
    ensures Mtm(ps, a, date) == Mtm(ps, b, date)
  {
    if ps != [] {
      assert !HasBar(a, ps[|ps| - 1].symbol, date);
      assert forall k :: 0 <= k < |ps| - 1 ==> ps[..|ps| - 1][k] == ps[k];
      MtmBlind(ps[..|ps| - 1], a, b, date);
    }
  }

  // ---- two closes, two sizes ---------------------------------------------------------------------------

  /** A close at which the equity is `equity`. */
  lemma CloseFor(b: Book, data: Data, date: int, symbol: string, equity: real) returns (x: real)
    requires HasBar(data, symbol, date) && SharesHeld(b.positions, symbol) >= 1
    ensures b.cash + Mtm(b.positions, Reclosed(data, date, symbol, x), date) == equity
  {
    var n := SharesHeld(b.positions, symbol) as real;
    var gap := equity - b.cash - Mtm(b.positions, Reclosed(data, date, symbol, 0.0), date);
    x := gap / n;
    assert n * x == gap;
    MtmMoves(b.positions, data, date, symbol, x);
  }

  lemma SizeAt(c: Params, fill: real) returns (equity: real)
    requires c.positionPct > 0.0 && fill > 0.0
    ensures Affordable(c, 0.0, fill) == 0 && Affordable(c, equity, fill) == 1
  {
    equity := fill / c.positionPct;
    assert Budget(c, equity) == fill && Budget(c, 0.0) == 0.0;
    QuotientIs(0.0, fill, 0.0);
    QuotientIs(fill, fill, 1.0);
  }

  /** A fill is blocked by one close of a held symbol and made by another. */
  lemma CloseDecides(c: Params, data: Data, date: int, i: nat, b: Book, symbol: string, held: string)
    requires c.positionPct > 0.0 && Fillable(c, data, date, b, symbol)
    requires LongPositions(b.positions) && Held(b.positions, held) && HasBar(data, held, date)
    ensures !DecidedAtOpen(c, data, date, i, b, symbol)
  {
    hide Mtm, Affordable, SharesHeld, FillPrice;
    var fill := FillPrice(c, data[symbol][date]);
    var equity := SizeAt(c, fill);
    SharesHeldPositive(b.positions, held);
    var low := CloseFor(b, data, date, held, 0.0);
    var high := CloseFor(b, data, date, held, equity);
    ReclosedDiffersInClose(data, date, held, low);
    ReclosedDiffersInClose(data, date, held, high);
    assert Value(1, fill) == fill;
    assert TryFill(c, Reclosed(data, date, held, low), date, i, b, symbol) == Some(b);
    assert TryFill(c, Reclosed(data, date, held, high), date, i, b, symbol)
           == Some(Bought(c, date, i, b, symbol, fill, 1));
    assert |Bought(c, date, i, b, symbol, fill, 1).positions| == |b.positions| + 1;
  }

  // ---- the exact condition --------------------------------------------------------------------------------

  lemma BlindFill(c: Params, data: Data, date: int, i: nat, b: Book, symbol: string)
    requires !Fillable(c, data, date, b, symbol) || !HeldTrades(data, date, b.positions)
    ensures DecidedAtOpen(c, data, date, i, b, symbol)
  {
    hide Mtm, Affordable;
    forall other | SameButCloses(data, other, date)
      ensures TryFill(c, other, date, i, b, symbol) == TryFill(c, data, date, i, b, symbol)
    {
      if HasBar(data, symbol, date) {
        var fill := FillPrice(c, data[symbol][date]);
        assert FillPrice(c, other[symbol][date]) == fill;
        if fill > 0.0 {
          TooDear(Size(c, data, date, b, fill), fill, b.cash);
          TooDear(Size(c, other, date, b, fill), fill, b.cash);
          if !HeldTrades(data, date, b.positions) { MtmBlind(b.positions, data, other, date); }
        }
      }
    }
  }

  lemma TooDear(qty: int, fill: real, cash: real)
    requires fill > 0.0
    ensures fill > cash ==> qty <= 0 || Value(qty, fill) > cash
  {
    if qty >= 1 { MulMono(1.0, qty as real, fill); }
  }

  /** An entry is decided at its open exactly when it cannot be filled anyway, or nothing held trades that day. */
  lemma DecidedAtOpenExactly(c: Params, data: Data, date: int, i: nat, b: Book, symbol: string)
    requires c.positionPct > 0.0 && LongPositions(b.positions)
    ensures DecidedAtOpen(c, data, date, i, b, symbol)
            <==> !(Fillable(c, data, date, b, symbol) && HeldTrades(data, date, b.positions))
  {
    hide TryFill, DecidedAtOpen, Fillable;
    if Fillable(c, data, date, b, symbol) && HeldTrades(data, date, b.positions) {
      var k :| 0 <= k < |b.positions| && HasBar(data, b.positions[k].symbol, date);
      CloseDecides(c, data, date, i, b, symbol, b.positions[k].symbol);
    } else {
      BlindFill(c, data, date, i, b, symbol);
    }
  }

  // ---- a witness ---------------------------------------------------------------------------------------------

  /** One day of two symbols that open at 10; A closes at `x`. */
  function TwoSymbols(x: real): Data
  {
    map["A" := map[1 := Bar(10.0, 20.0, 10.0, x)], "B" := map[1 := Bar(10.0, 10.0, 10.0, 10.0)]]
  }

  const FUNDED := Book(1000.0, [], [])

  /** The book once A is bought. */
  function AfterA(c: Params): Book { Bought(c, 1, 0, FUNDED, "A", 10.0, 10) }

  lemma FillsA(c: Params, x: real)
    requires c.positionPct == 0.1 && c.maxPositions == 2 && c.slip == 0.0
    ensures TryFill(c, TwoSymbols(x), 1, 0, FUNDED, "A") == Some(AfterA(c))
  {
    hide NewPosition;
    var data := TwoSymbols(x);
    assert Mtm([], data, 1) == 0.0;
    assert Size(c, data, 1, FUNDED, 10.0) == (100.0 / 10.0).Floor == 10;
  }

  lemma FillsB(c: Params, x: real, n: nat)
    requires c.positionPct == 0.1 && c.maxPositions == 2 && c.slip == 0.0 && c.commission == 0.0
    requires n as real == 9.0 + 0.1 * x && 1 <= n <= 20
    ensures TryFill(c, TwoSymbols(x), 1, 0, AfterA(c), "B") == Some(Bought(c, 1, 0, AfterA(c), "B", 10.0, n))
  {
    hide NewPosition, Affordable, Mtm;
    MarkedA(c, x);
    SizedB(c, x, n);
    var data, b := TwoSymbols(x), AfterA(c);
    assert Value(10, 10.0) == 100.0 && Value(10, c.commission) == 0.0 && b.cash == 900.0;
    assert Value(n, 10.0) <= b.cash;
    assert NewPosition(c, 1, 0, "A", 10.0, 10).symbol == "A" by { SymbolOfA(c); }
    assert !Held(b.positions, "B");
    assert FillPrice(c, data["B"][1]) == 10.0;
    assert Size(c, data, 1, b, 10.0) == n;
  }

  lemma SymbolOfA(c: Params)
    ensures NewPosition(c, 1, 0, "A", 10.0, 10).symbol == "A"
  {
  }

  lemma MarkedA(c: Params, x: real)
    ensures Mtm(AfterA(c).positions, TwoSymbols(x), 1) == 10.0 * x
  {
    var ps := AfterA(c).positions;
    assert ps[..0] == [];
    assert Mtm(ps, TwoSymbols(x), 1) == Mtm(ps[..0], TwoSymbols(x), 1) + Value(10, x);
  }

  lemma SizedB(c: Params, x: real, n: nat)
    requires c.positionPct == 0.1 && n as real == 9.0 + 0.1 * x
    ensures Affordable(c, 900.0 + 10.0 * x, 10.0) == n
  {
    assert Budget(c, 900.0 + 10.0 * x) == 10.0 * n as real;
    QuotientIs(10.0 * n as real, 10.0, n as real);
  }

  lemma FillsTwo(c: Params, x: real, n: nat)
    requires c.positionPct == 0.1 && c.maxPositions == 2 && c.slip == 0.0 && c.commission == 0.0
    requires n as real == 9.0 + 0.1 * x && 1 <= n <= 20
    ensures FillAll(c, TwoSymbols(x), 1, 0, FUNDED, ["A", "B"]).cash == 900.0 - 10.0 * n as real
  {
    hide TryFill, TwoSymbols, NewPosition;
    FillsA(c, x);
    FillsB(c, x, n);
    var data, second := TwoSymbols(x), Bought(c, 1, 0, AfterA(c), "B", 10.0, n);
    assert ["A", "B"][1..] == ["B"] && ["B"][1..] == [];
    assert FillAll(c, data, 1, 0, second, []) == second;
    assert FillAll(c, data, 1, 0, AfterA(c), ["B"]) == second;
  }

  /** Two entries queued for one open: the second is sized by where the first will close. */
  lemma SecondEntrySeesClose(c: Params)
    requires c.positionPct == 0.1 && c.maxPositions == 2 && c.slip == 0.0 && c.commission == 0.0
    ensures FillAll(c, TwoSymbols(10.0), 1, 0, FUNDED, ["A", "B"]).cash == 800.0
    ensures FillAll(c, TwoSymbols(20.0), 1, 0, FUNDED, ["A", "B"]).cash == 790.0
  {
    FillsTwo(c, 10.0, 10);
    FillsTwo(c, 20.0, 11);
  }
}
