/** What a closed trade says: given its entry, its exit is the first bar that meets the
    bracket set at entry, at a price no better than that bar allowed. */
module BacktestTrades {
  import opened Prelude
  import opened Backtest
  import opened BacktestInvariants

  /** An open position is still the bracket set on its entry day, and no bar before day `n` has met it. */
  ghost predicate Leg(c: Params, data: Data, dates: seq<int>, n: nat, p: Open)
  {
    && 0 <= EntryDay(c, p) <= n && Spared(c, data, dates, n, p)
    && p == NewPosition(c, p.entryDate, EntryDay(c, p), p.symbol, p.entry, p.qty)
  }

  /** `t` went in on clock day `j` and came out on clock day `k`, the first whose bar meets its bracket. */
  ghost predicate EnteredAndExited(c: Params, data: Data, dates: seq<int>, t: Trade, j: nat, k: nat)
  {
    && j <= k < |dates| && HasBar(data, t.symbol, dates[k])
    && var p := NewPosition(c, dates[j], j, t.symbol, t.entry, t.qty);
       var e := ExitOf(p, data[t.symbol][dates[k]], k);
       && (forall d :: j <= d < k ==> Stays(data, dates[d], d, p))
       && e.Some? && e.value.1 == t.reason
       && t.entryDate == dates[j] && t.exitDate == dates[k]
       && t.exit == SalePrice(c, e.value.0) && t.pnl == Value(t.qty, t.exit - t.entry)
  }

  ghost predicate RoundTrip(c: Params, data: Data, dates: seq<int>, t: Trade)
  {
    exists j: nat, k: nat :: EnteredAndExited(c, data, dates, t, j, k)
  }

  ghost predicate Settled(c: Params, data: Data, dates: seq<int>, n: nat, b: Book)
  {
    && (forall p :: p in b.positions ==> Leg(c, data, dates, n, p))
    && (forall t :: t in b.trades ==> RoundTrip(c, data, dates, t))
  }

  lemma FillSettled(c: Params, data: Data, dates: seq<int>, i: nat, b: Book, s: string)
    requires i < |dates| && Settled(c, data, dates, i, b) && TryFill(c, data, dates[i], i, b, s).Some?
    ensures Settled(c, data, dates, i, TryFill(c, data, dates[i], i, b, s).value)
  {
    hide Value, FillPrice, Affordable, Mtm, ExitOf, RoundTrip;
    var b' := TryFill(c, data, dates[i], i, b, s).value;
    if b' != b {
      var p := b'.positions[|b'.positions| - 1];
      assert Leg(c, data, dates, i, p);
      assert forall q :: q in b'.positions ==> q in b.positions || q == p;
    }
  }

  lemma ExitSettled(c: Params, data: Data, dates: seq<int>, i: nat, b: Book, p: Open)
    requires i < |dates| && Settled(c, data, dates, i, b) && p in b.positions
    ensures Settled(c, data, dates, i, TryExit(c, data, dates[i], i, b, p))
  {
    hide Value, ExitOf, RoundTrip;
    var b' := TryExit(c, data, dates[i], i, b, p);
    if b' != b {
      WithoutKeeps(b.positions, p.symbol);
      var t := b'.trades[|b'.trades| - 1];
      LegCloses(c, data, dates, i, b, p);
      assert forall u :: u in b'.trades ==> u in b.trades || u == t;
    }
  }

  /** The trade an exit writes is the round trip of the position it closes. */
  lemma LegCloses(c: Params, data: Data, dates: seq<int>, i: nat, b: Book, p: Open)
    requires i < |dates| && Leg(c, data, dates, i, p) && HasBar(data, p.symbol, dates[i])
    requires ExitOf(p, data[p.symbol][dates[i]], i).Some?
    ensures var b' := TryExit(c, data, dates[i], i, b, p);
            b'.trades != [] && RoundTrip(c, data, dates, b'.trades[|b'.trades| - 1])
  {
    hide Value, ExitOf, Without;
    var b' := TryExit(c, data, dates[i], i, b, p);
    var t := b'.trades[|b'.trades| - 1];
    assert EnteredAndExited(c, data, dates, t, EntryDay(c, p), i);
  }

  lemma DaySettled(c: Params, strategy: Strategy, data: Data, dates: seq<int>, i: nat, st: State)
    requires i < |dates| && Settled(c, data, dates, i, st.book) && Distinct(st.book.positions)
    ensures Settled(c, data, dates, i + 1, Day(c, strategy, data, dates, i, st).book)
  {
    hide TryFill, TryExit, RoundTrip, Stays, Mtm, Queue, NewPosition;
    var inv := (b: Book) => Settled(c, data, dates, i, b) && Distinct(b.positions);
    var date := dates[i];
    forall b, s | inv(b) && s in st.pending && TryFill(c, data, date, i, b, s).Some?
      ensures inv(TryFill(c, data, date, i, b, s).value)
    {
      FillSettled(c, data, dates, i, b, s);
      FillDistinct(c, data, date, i, b, s);
    }
    FillLoop(c, data, date, i, st.book, st.pending, inv);
    var filled := FillAll(c, data, date, i, st.book, st.pending);
    var settled := (b: Book) => Settled(c, data, dates, i, b);
    forall b, p | settled(b) && Distinct(b.positions) && p in b.positions
      ensures settled(TryExit(c, data, date, i, b, p))
    {
      ExitSettled(c, data, dates, i, b, p);
    }
    ExitLoop(c, data, date, i, filled, filled.positions, settled);
  }

  /** After every day each closed trade is the round trip its entry determines, and each open position is its
      untouched bracket: neither depends on anything else the simulator did. */
  lemma {:induction false} RunSettled(c: Params, strategy: Strategy, data: Data, dates: seq<int>, n: nat)
    requires n <= |dates|
    ensures Settled(c, data, dates, n, Run(c, strategy, data, dates, n).book)
  {
    hide Day, Leg, RoundTrip;
    if n > 0 {
      RunSettled(c, strategy, data, dates, n - 1);
      RunBalances(c, strategy, data, dates, n - 1);
      DaySettled(c, strategy, data, dates, n - 1, Run(c, strategy, data, dates, n - 1));
    }
  }

  /** A round trip determines its exit: the same entry cannot have come out on another day, price or reason. */
  lemma RoundTripUnique(c: Params, data: Data, dates: seq<int>, t: Trade, u: Trade)
    requires Increasing(dates) && RoundTrip(c, data, dates, t) && RoundTrip(c, data, dates, u)
    requires t.symbol == u.symbol && t.entryDate == u.entryDate && t.entry == u.entry && t.qty == u.qty
    ensures t == u
  {
    hide ExitOf, Value, NewPosition, Stays;
    var j: nat, k: nat :| EnteredAndExited(c, data, dates, t, j, k);
    var j': nat, k': nat :| EnteredAndExited(c, data, dates, u, j', k');
    assert j == j';
    ExitsFirst(c, data, dates, t, j, k, k');
    ExitsFirst(c, data, dates, u, j, k', k);
  }

  /** No bar from the entry on meets the bracket before the exit, and the exit bar does. */
  lemma ExitsFirst(c: Params, data: Data, dates: seq<int>, t: Trade, j: nat, k: nat, d: nat)
    requires EnteredAndExited(c, data, dates, t, j, k) && j <= d < |dates|
    ensures var p := NewPosition(c, dates[j], j, t.symbol, t.entry, t.qty);
            !Stays(data, dates[k], k, p) && (!Stays(data, dates[d], d, p) ==> k <= d)
  {
    hide ExitOf, Value;
  }

  /** A fill buys the largest number of shares worth at most the position's fraction of equity. */
  lemma AffordableIsLargest(c: Params, equity: real, fill: real, n: int)
    requires fill > 0.0
    ensures Value(n, fill) <= Budget(c, equity) <==> n <= Affordable(c, equity, fill)
  {
    hide Budget, Value;
    FloorFits(Budget(c, equity), fill, Budget(c, equity) / fill, n);
  }

  lemma FloorFits(budget: real, fill: real, q: real, n: int)
    requires fill > 0.0 && q == budget / fill
    ensures Value(n, fill) <= budget <==> n <= q.Floor
  {
    assert q * fill == budget;
    var d, cost := n as real - q, Value(n, fill);
    assert d * fill == cost - budget;
    assert d > 0.0 ==> d * fill > 0.0;
    assert d <= 0.0 ==> d * fill <= 0.0;
  }
}
