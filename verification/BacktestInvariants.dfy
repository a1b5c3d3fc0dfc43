/** What every day of the backtest simulator keeps: the books balance, positions stay
    within their limit, cash is never overdrawn but for commissions, entries follow
    yesterday's signals, and no position outlives its exit rule. */
module BacktestInvariants {
  import opened Prelude
  import opened Backtest

  // ---- loop rules ---------------------------------------------------------------------

  predicate Distinct(ps: seq<Open>)
  {
    forall j, k :: 0 <= j < k < |ps| ==> ps[j].symbol != ps[k].symbol
  }

  /** What one fill keeps, the whole queue keeps. */
  lemma {:induction false} FillLoop(c: Params, data: Data, date: int, i: nat, b: Book, pending: seq<string>,
                                    inv: Book -> bool)
    requires inv(b)
    requires forall b, s :: inv(b) && s in pending && TryFill(c, data, date, i, b, s).Some?
               ==> inv(TryFill(c, data, date, i, b, s).value)
    ensures inv(FillAll(c, data, date, i, b, pending))
    decreases |pending|
  {
    hide TryFill;
    if pending != [] {
      match TryFill(c, data, date, i, b, pending[0])
      case None =>
      case Some(b') => FillLoop(c, data, date, i, b', pending[1..], inv);
    }
  }

  lemma {:induction false} WithoutMembers(ps: seq<Open>, symbol: string)
    ensures forall p :: p in Without(ps, symbol) <==> p in ps && p.symbol != symbol
    ensures |Without(ps, symbol)| <= |ps|
  {
    if ps != [] {
      WithoutMembers(ps[1..], symbol);
      assert ps == [ps[0]] + ps[1..];
    }
  }

  lemma {:induction false} WithoutDistinct(ps: seq<Open>, symbol: string)
    requires Distinct(ps)
    ensures Distinct(Without(ps, symbol))
  {
    if ps != [] {
      var rest := Without(ps[1..], symbol);
      WithoutDistinct(ps[1..], symbol);
      WithoutMembers(ps[1..], symbol);
      forall k | 0 <= k < |rest| ensures rest[k].symbol != ps[0].symbol {
        assert rest[k] in ps[1..];
        var j :| 0 <= j < |ps[1..]| && ps[1..][j] == rest[k];
        assert ps[j + 1] == rest[k];
      }
    }
  }

  lemma WithoutKeeps(ps: seq<Open>, symbol: string)
    ensures forall p :: p in Without(ps, symbol) <==> p in ps && p.symbol != symbol
    ensures Distinct(ps) ==> Distinct(Without(ps, symbol))
    ensures |Without(ps, symbol)| <= |ps|
  {
    hide Without, Distinct;
    WithoutMembers(ps, symbol);
    if Distinct(ps) { WithoutDistinct(ps, symbol); }
  }

  /** The exit rule leaves `p` open on `date`. */
  predicate Stays(data: Data, date: int, i: nat, p: Open)
  {
    HasBar(data, p.symbol, date) ==> ExitOf(p, data[p.symbol][date], i) == None
  }

  /** What one exit keeps, the sweep over the open positions keeps; and only positions the rule spares survive it. */
  lemma {:induction false} ExitLoop(c: Params, data: Data, date: int, i: nat, b: Book, todo: seq<Open>,
                                    inv: Book -> bool)
    requires inv(b) && Distinct(b.positions) && Distinct(todo)
    requires forall p :: p in todo ==> p in b.positions
    requires forall b, p :: inv(b) && Distinct(b.positions) && p in b.positions
               ==> inv(TryExit(c, data, date, i, b, p))
    ensures var r := ExitAll(c, data, date, i, b, todo);
            && inv(r) && Distinct(r.positions)
            && (forall p :: p in r.positions ==> p in b.positions && (p in todo ==> Stays(data, date, i, p)))
    decreases |todo|
  {
    if todo != [] {
      var p, rest := todo[0], todo[1..];
      var b' := TryExit(c, data, date, i, b, p);
      WithoutKeeps(b.positions, p.symbol);
      assert todo == [p] + rest;
      forall q | q in rest ensures q in b'.positions {
        var k :| 0 <= k < |rest| && rest[k] == q;
        assert todo[k + 1] == q && todo[0].symbol != todo[k + 1].symbol;
      }
      ExitLoop(c, data, date, i, b', rest, inv);
    }
  }

  // ---- the books balance ------------------------------------------------------------------

  function OpenCost(ps: seq<Open>): real
  {
    if ps == [] then 0.0 else Value(ps[0].qty, ps[0].entry) + OpenCost(ps[1..])
  }

  function OpenShares(ps: seq<Open>): int
  {
    if ps == [] then 0 else ps[0].qty + OpenShares(ps[1..])
  }

  function Pnl(ts: seq<Trade>): real
  {
    if ts == [] then 0.0 else Pnl(ts[..|ts| - 1]) + ts[|ts| - 1].pnl
  }

  function ClosedShares(ts: seq<Trade>): int
  {
    if ts == [] then 0 else ClosedShares(ts[..|ts| - 1]) + ts[|ts| - 1].qty
  }

  /** Shares bought and shares sold so far: open ones once, closed ones twice. */
  function SharesTraded(b: Book): int { OpenShares(b.positions) + 2 * ClosedShares(b.trades) }

  /** Cash plus what the open positions cost is the starting capital plus realised profit less commissions. */
  ghost predicate Balanced(c: Params, b: Book)
  {
    b.cash + OpenCost(b.positions) == c.capital + Pnl(b.trades) - Value(SharesTraded(b), c.commission)
  }

  lemma {:induction false} OpenAppend(ps: seq<Open>, p: Open)
    ensures OpenCost(ps + [p]) == OpenCost(ps) + Value(p.qty, p.entry)
    ensures OpenShares(ps + [p]) == OpenShares(ps) + p.qty
  {
    hide Value;
    if ps == [] {
      assert ps + [p] == [p];
    } else {
      assert (ps + [p])[1..] == ps[1..] + [p];
      OpenAppend(ps[1..], p);
    }
  }

  lemma {:induction false} OpenWithout(ps: seq<Open>, p: Open)
    requires Distinct(ps) && p in ps
    ensures OpenCost(Without(ps, p.symbol)) == OpenCost(ps) - Value(p.qty, p.entry)
    ensures OpenShares(Without(ps, p.symbol)) == OpenShares(ps) - p.qty
  {
    hide Value;
    if ps[0] == p {
      WithoutNone(ps[1..], p.symbol);
      assert Without(ps, p.symbol) == ps[1..];
    } else {
      assert ps == [ps[0]] + ps[1..] && p in ps[1..];
      var k :| 0 <= k < |ps[1..]| && ps[1..][k] == p;
      assert ps[k + 1] == p;
      OpenWithout(ps[1..], p);
      assert Without(ps, p.symbol)[1..] == Without(ps[1..], p.symbol);
    }
  }

  lemma {:induction false} WithoutNone(ps: seq<Open>, symbol: string)
    requires forall k :: 0 <= k < |ps| ==> ps[k].symbol != symbol
    ensures Without(ps, symbol) == ps
  {
    if ps != [] { WithoutNone(ps[1..], symbol); }
  }

  lemma TradesAppend(ts: seq<Trade>, t: Trade)
    ensures Pnl(ts + [t]) == Pnl(ts) + t.pnl && ClosedShares(ts + [t]) == ClosedShares(ts) + t.qty
  {
    assert (ts + [t])[..|ts|] == ts;
  }

  lemma ValueAdds(a: int, b: int, x: real, y: real)
    ensures Value(a + b, x) == Value(a, x) + Value(b, x)
    ensures Value(a, x + y) == Value(a, x) + Value(a, y)
    ensures Value(a, x - y) == Value(a, x) - Value(a, y)
  {
    assert (a + b) as real == a as real + b as real;
  }

  lemma FillBalanced(c: Params, data: Data, date: int, i: nat, b: Book, s: string)
    requires Balanced(c, b) && TryFill(c, data, date, i, b, s).Some?
    ensures Balanced(c, TryFill(c, data, date, i, b, s).value)
  {
    hide Value, FillPrice, Affordable, Mtm, OpenCost, OpenShares;
    var b' := TryFill(c, data, date, i, b, s).value;
    if b' != b {
      var p := b'.positions[|b'.positions| - 1];
      OpenAppend(b.positions, p);
      ValueAdds(SharesTraded(b), p.qty, c.commission, 0.0);
    }
  }

  lemma ExitBalanced(c: Params, data: Data, date: int, i: nat, b: Book, p: Open)
    requires Balanced(c, b) && Distinct(b.positions) && p in b.positions
    ensures Balanced(c, TryExit(c, data, date, i, b, p))
  {
    hide Value, ExitOf, OpenCost, OpenShares, Pnl, ClosedShares;
    var b' := TryExit(c, data, date, i, b, p);
    if b' != b {
      var t := b'.trades[|b'.trades| - 1];
      OpenWithout(b.positions, p);
      TradesAppend(b.trades, t);
      ValueAdds(SharesTraded(b), p.qty, c.commission, 0.0);
      ValueAdds(p.qty, 0, t.exit, p.entry);
    }
  }

  // ---- limits --------------------------------------------------------------------------------

  /** Long positions only, one per symbol, never more than the limit. */
  predicate Shaped(c: Params, b: Book)
  {
    && Distinct(b.positions)
    && (b.positions == [] || |b.positions| <= c.maxPositions)
    && (forall p :: p in b.positions ==> p.qty >= 1 && p.entry > 0.0)
  }

  lemma FillShaped(c: Params, data: Data, date: int, i: nat, b: Book, s: string)
    requires Shaped(c, b) && TryFill(c, data, date, i, b, s).Some?
    ensures Shaped(c, TryFill(c, data, date, i, b, s).value)
  {
    hide Value, FillPrice, Affordable, Mtm;
  }

  lemma ExitShaped(c: Params, data: Data, date: int, i: nat, b: Book, p: Open)
    requires Shaped(c, b)
    ensures Shaped(c, TryExit(c, data, date, i, b, p))
  {
    hide Value, ExitOf;
    WithoutKeeps(b.positions, p.symbol);
  }

  /** Costs are nonnegative and no bar is quoted below zero. */
  ghost predicate Sane(c: Params, data: Data)
  {
    && c.commission >= 0.0 && c.capital >= 0.0 && 0.0 <= c.slip <= 1.0
    && (forall s, d :: HasBar(data, s, d) ==>
          data[s][d].open >= 0.0 && data[s][d].low >= 0.0 && data[s][d].close >= 0.0)
  }

  /** Cash never falls below what commissions have taken. */
  ghost predicate Solvent(c: Params, b: Book)
  {
    b.cash >= -Value(SharesTraded(b), c.commission) && SharesTraded(b) >= 0
  }

  lemma ValueSign(n: int, x: real)
    requires n >= 0 && x >= 0.0
    ensures Value(n, x) >= 0.0
  {
  }

  lemma FillSolvent(c: Params, data: Data, date: int, i: nat, b: Book, s: string)
    requires Sane(c, data) && Solvent(c, b) && TryFill(c, data, date, i, b, s).Some?
    ensures Solvent(c, TryFill(c, data, date, i, b, s).value)
  {
    hide Value, FillPrice, Affordable, Mtm, OpenShares;
    var b' := TryFill(c, data, date, i, b, s).value;
    if b' != b {
      var p := b'.positions[|b'.positions| - 1];
      OpenAppend(b.positions, p);
      ValueAdds(SharesTraded(b), p.qty, c.commission, 0.0);
      ValueSign(SharesTraded(b), c.commission);
    }
  }

  lemma ExitSolvent(c: Params, data: Data, date: int, i: nat, b: Book, p: Open)
    requires Sane(c, data) && Solvent(c, b) && Distinct(b.positions) && p in b.positions && p.qty >= 1
    ensures Solvent(c, TryExit(c, data, date, i, b, p))
  {
    hide Value, OpenCost, OpenShares, Pnl, ClosedShares;
    var b' := TryExit(c, data, date, i, b, p);
    if b' != b {
      var bar := data[p.symbol][date];
      var price := ExitOf(p, bar, i).value.0;
      assert price >= 0.0;
      var t := b'.trades[|b'.trades| - 1];
      SaleNonnegative(c, price);
      OpenWithout(b.positions, p);
      TradesAppend(b.trades, t);
      ValueAdds(SharesTraded(b), p.qty, c.commission, 0.0);
      ValueSign(p.qty, t.exit);
    }
  }

  lemma SaleNonnegative(c: Params, price: real)
    requires price >= 0.0 && 0.0 <= c.slip <= 1.0
    ensures SalePrice(c, price) >= 0.0
  {
  }

  // ---- timing ----------------------------------------------------------------------------------

  /** The strategy named `s` on `date`. */
  ghost predicate Signalled(strategy: Strategy, data: Data, date: int, s: string)
  {
    var signals := strategy(History(data, date));
    exists k :: 0 <= k < |signals| && signals[k].0 == s
  }

  /** A fill on a day of the first `n`, at that day's slipped open, one clock day after the strategy named the
      symbol. */
  ghost predicate EntryOk(c: Params, strategy: Strategy, data: Data, dates: seq<int>, n: nat, s: string, date: int,
                          price: real)
  {
    exists k :: EnteredOn(c, strategy, data, dates, n, s, date, price, k)
  }

  ghost predicate EnteredOn(c: Params, strategy: Strategy, data: Data, dates: seq<int>, n: nat, s: string, date: int,
                            price: real, k: nat)
  {
    && 1 <= k < n <= |dates| && dates[k] == date && HasBar(data, s, date)
    && price == FillPrice(c, data[s][date]) && Signalled(strategy, data, dates[k - 1], s)
  }

  /** Every open position and every trade was entered one clock day after a signal. */
  ghost predicate SignalledEntries(c: Params, strategy: Strategy, data: Data, dates: seq<int>, n: nat, b: Book)
  {
    && (forall p :: p in b.positions ==> EntryOk(c, strategy, data, dates, n, p.symbol, p.entryDate, p.entry))
    && (forall t :: t in b.trades ==> EntryOk(c, strategy, data, dates, n, t.symbol, t.entryDate, t.entry))
  }

  /** In each symbol the next entry comes strictly after the previous exit. */
  predicate Apart(b: Book)
  {
    && (forall j, k :: 0 <= j < k < |b.trades| && b.trades[j].symbol == b.trades[k].symbol
          ==> b.trades[j].exitDate < b.trades[k].entryDate)
    && (forall t, p :: t in b.trades && p in b.positions && t.symbol == p.symbol ==> t.exitDate < p.entryDate)
  }

  /** The entry day of an open position. */
  function EntryDay(c: Params, p: Open): int { p.holdUntil - c.holdDays }

  /** Through day `n - 1` no bar of `p` has met an exit rule. */
  ghost predicate Spared(c: Params, data: Data, dates: seq<int>, n: nat, p: Open)
  {
    && 0 <= EntryDay(c, p) < |dates| && dates[EntryDay(c, p)] == p.entryDate
    && forall d :: EntryDay(c, p) <= d < n <= |dates| ==> Stays(data, dates[d], d, p)
  }

  /** Timing facts that hold after the fills of day `i` and throughout its exits. */
  ghost predicate Timely(c: Params, strategy: Strategy, data: Data, dates: seq<int>, i: nat, b: Book)
  {
    && SignalledEntries(c, strategy, data, dates, i + 1, b) && Apart(b)
    && (forall t :: t in b.trades ==> i < |dates| && t.entryDate <= t.exitDate <= dates[i])
    && (forall p :: p in b.positions ==> i < |dates| && p.entryDate <= dates[i] && Spared(c, data, dates, i, p))
  }

  /** ... and that hold between days, before day `n`. */
  ghost predicate TimelyBefore(c: Params, strategy: Strategy, data: Data, dates: seq<int>, n: nat, b: Book)
  {
    && SignalledEntries(c, strategy, data, dates, n, b) && Apart(b)
    && (forall t :: t in b.trades ==> 1 <= n <= |dates| && t.entryDate <= t.exitDate <= dates[n - 1])
    && (forall p :: p in b.positions ==>
          1 <= n <= |dates| && p.entryDate <= dates[n - 1] && Spared(c, data, dates, n, p))
  }

  /** Through the fills of day `i`, every trade so far was closed before today. */
  ghost predicate TimelyFills(c: Params, strategy: Strategy, data: Data, dates: seq<int>, i: nat, b: Book)
  {
    Timely(c, strategy, data, dates, i, b) && forall t :: t in b.trades ==> i < |dates| && t.exitDate < dates[i]
  }

  lemma FillTimely(c: Params, strategy: Strategy, data: Data, dates: seq<int>, i: nat, b: Book, s: string)
    requires 1 <= i < |dates| && Increasing(dates) && TimelyFills(c, strategy, data, dates, i, b)
    requires Signalled(strategy, data, dates[i - 1], s) && TryFill(c, data, dates[i], i, b, s).Some?
    ensures TimelyFills(c, strategy, data, dates, i, TryFill(c, data, dates[i], i, b, s).value)
  {
    hide Value, FillPrice, Affordable, Mtm, Signalled, ExitOf;
    var b' := TryFill(c, data, dates[i], i, b, s).value;
    if b' != b {
      var p := b'.positions[|b'.positions| - 1];
      assert EnteredOn(c, strategy, data, dates, i + 1, p.symbol, p.entryDate, p.entry, i);
      assert forall q :: q in b'.positions ==> q in b.positions || q == p;
    }
  }

  lemma ExitApart(c: Params, data: Data, date: int, i: nat, b: Book, p: Open)
    requires Apart(b) && p in b.positions
    ensures Apart(TryExit(c, data, date, i, b, p))
  {
    hide Value, ExitOf, Without, SalePrice;
    WithoutMembers(b.positions, p.symbol);
    assert forall j :: 0 <= j < |b.trades| ==> b.trades[j] in b.trades;
  }

  lemma ExitTimely(c: Params, strategy: Strategy, data: Data, dates: seq<int>, i: nat, b: Book, p: Open)
    requires i < |dates| && Timely(c, strategy, data, dates, i, b) && p in b.positions
    ensures Timely(c, strategy, data, dates, i, TryExit(c, data, dates[i], i, b, p))
  {
    hide Value, ExitOf, EntryOk, Spared, Apart, Without, SalePrice;
    ExitApart(c, data, dates[i], i, b, p);
    var b' := TryExit(c, data, dates[i], i, b, p);
    if b' != b {
      WithoutMembers(b.positions, p.symbol);
      var t := b'.trades[|b'.trades| - 1];
      assert forall u :: u in b'.trades ==> u in b.trades || u == t;
    }
  }

  ghost predicate QueueOk(strategy: Strategy, data: Data, dates: seq<int>, n: nat, pending: seq<string>)
  {
    forall s :: s in pending ==> 1 <= n <= |dates| && Signalled(strategy, data, dates[n - 1], s)
  }

  lemma {:induction false} NotHeldSignalled(signals: seq<(string, real)>, ps: seq<Open>)
    ensures forall s :: s in NotHeld(signals, ps) ==> exists k :: 0 <= k < |signals| && signals[k].0 == s
  {
    if signals != [] {
      NotHeldSignalled(signals[1..], ps);
      forall s | s in NotHeld(signals, ps)
        ensures exists k :: 0 <= k < |signals| && signals[k].0 == s
      {
        if signals[0].0 != s {
          assert s in NotHeld(signals[1..], ps);
          var k :| 0 <= k < |signals[1..]| && signals[1..][k].0 == s;
          assert signals[k + 1].0 == s;
        }
      }
    }
  }

  lemma QueueSignalled(c: Params, strategy: Strategy, data: Data, dates: seq<int>, i: nat, ps: seq<Open>)
    requires i < |dates|
    ensures QueueOk(strategy, data, dates, i + 1, Queue(c, strategy, data, dates, i, ps))
  {
    hide History, NotHeld;
    var signals := strategy(History(data, dates[i]));
    NotHeldSignalled(signals, ps);
    assert forall s :: s in Queue(c, strategy, data, dates, i, ps) ==> s in NotHeld(signals, ps);
  }

  lemma DayStarts(c: Params, strategy: Strategy, data: Data, dates: seq<int>, i: nat, b: Book)
    requires i < |dates| && Increasing(dates) && TimelyBefore(c, strategy, data, dates, i, b)
    ensures TimelyFills(c, strategy, data, dates, i, b)
  {
    hide EnteredOn, Apart, Stays;
    forall s, date, price | EntryOk(c, strategy, data, dates, i, s, date, price)
      ensures EntryOk(c, strategy, data, dates, i + 1, s, date, price)
    {
      var k :| EnteredOn(c, strategy, data, dates, i, s, date, price, k);
      EnteredLater(c, strategy, data, dates, i, s, date, price, k);
    }
  }

  lemma EnteredLater(c: Params, strategy: Strategy, data: Data, dates: seq<int>, n: nat, s: string, date: int,
                     price: real, k: nat)
    requires n < |dates| && EnteredOn(c, strategy, data, dates, n, s, date, price, k)
    ensures EnteredOn(c, strategy, data, dates, n + 1, s, date, price, k)
  {
    hide Signalled, FillPrice;
  }

  /** A day keeps the timing facts. */
  lemma DayTimely(c: Params, strategy: Strategy, data: Data, dates: seq<int>, i: nat, st: State)
    requires i < |dates| && Increasing(dates) && Distinct(st.book.positions)
    requires TimelyBefore(c, strategy, data, dates, i, st.book) && QueueOk(strategy, data, dates, i, st.pending)
    ensures var st' := Day(c, strategy, data, dates, i, st);
            TimelyBefore(c, strategy, data, dates, i + 1, st'.book)
            && QueueOk(strategy, data, dates, i + 1, st'.pending)
  {
    hide Value, ExitOf, Signalled, TryFill, TryExit, EntryOk, Apart, Stays;
    DayStarts(c, strategy, data, dates, i, st.book);
    var inv := (b: Book) => TimelyFills(c, strategy, data, dates, i, b) && Distinct(b.positions);
    forall b, s | inv(b) && s in st.pending && TryFill(c, data, dates[i], i, b, s).Some?
      ensures inv(TryFill(c, data, dates[i], i, b, s).value)
    {
      FillTimely(c, strategy, data, dates, i, b, s);
      FillDistinct(c, data, dates[i], i, b, s);
    }
    FillLoop(c, data, dates[i], i, st.book, st.pending, inv);
    var filled := FillAll(c, data, dates[i], i, st.book, st.pending);
    DayCloses(c, strategy, data, dates, i, filled);
    QueueSignalled(c, strategy, data, dates, i, ExitAll(c, data, dates[i], i, filled, filled.positions).positions);
  }

  lemma FillDistinct(c: Params, data: Data, date: int, i: nat, b: Book, s: string)
    requires Distinct(b.positions) && TryFill(c, data, date, i, b, s).Some?
    ensures Distinct(TryFill(c, data, date, i, b, s).value.positions)
  {
    hide Value, FillPrice, Affordable, Mtm;
  }

  lemma DayCloses(c: Params, strategy: Strategy, data: Data, dates: seq<int>, i: nat, b: Book)
    requires i < |dates| && Distinct(b.positions) && Timely(c, strategy, data, dates, i, b)
    ensures TimelyBefore(c, strategy, data, dates, i + 1, ExitAll(c, data, dates[i], i, b, b.positions))
  {
    hide TryExit, EntryOk, Apart, Stays, ExitAll, Distinct, SignalledEntries;
    var inv := (b: Book) => Timely(c, strategy, data, dates, i, b);
    forall b, p | inv(b) && Distinct(b.positions) && p in b.positions
      ensures inv(TryExit(c, data, dates[i], i, b, p))
    {
      ExitTimely(c, strategy, data, dates, i, b, p);
    }
    ExitLoop(c, data, dates[i], i, b, b.positions, inv);
  }

  // ---- every run -----------------------------------------------------------------------------------

  lemma DayBalanced(c: Params, strategy: Strategy, data: Data, dates: seq<int>, i: nat, st: State)
    requires i < |dates| && Balanced(c, st.book) && Shaped(c, st.book)
    ensures var b := Day(c, strategy, data, dates, i, st).book;
            Balanced(c, b) && Shaped(c, b)
  {
    hide Balanced, TryFill, TryExit, Mtm;
    var inv := (b: Book) => Balanced(c, b) && Shaped(c, b);
    var date := dates[i];
    forall b, s | inv(b) && s in st.pending && TryFill(c, data, date, i, b, s).Some?
      ensures inv(TryFill(c, data, date, i, b, s).value)
    {
      FillBalanced(c, data, date, i, b, s);
      FillShaped(c, data, date, i, b, s);
    }
    FillLoop(c, data, date, i, st.book, st.pending, inv);
    forall b, p | inv(b) && Distinct(b.positions) && p in b.positions
      ensures inv(TryExit(c, data, date, i, b, p))
    {
      ExitBalanced(c, data, date, i, b, p);
      ExitShaped(c, data, date, i, b, p);
    }
    var filled := FillAll(c, data, date, i, st.book, st.pending);
    ExitLoop(c, data, date, i, filled, filled.positions, inv);
  }

  lemma DaySolvent(c: Params, strategy: Strategy, data: Data, dates: seq<int>, i: nat, st: State)
    requires i < |dates| && Sane(c, data) && Solvent(c, st.book) && Shaped(c, st.book)
    ensures Solvent(c, Day(c, strategy, data, dates, i, st).book)
  {
    hide Solvent, TryFill, TryExit, Mtm, Sane;
    var inv := (b: Book) => Solvent(c, b) && Shaped(c, b);
    var date := dates[i];
    forall b, s | inv(b) && s in st.pending && TryFill(c, data, date, i, b, s).Some?
      ensures inv(TryFill(c, data, date, i, b, s).value)
    {
      FillSolvent(c, data, date, i, b, s);
      FillShaped(c, data, date, i, b, s);
    }
    FillLoop(c, data, date, i, st.book, st.pending, inv);
    forall b, p | inv(b) && Distinct(b.positions) && p in b.positions
      ensures inv(TryExit(c, data, date, i, b, p))
    {
      ExitSolvent(c, data, date, i, b, p);
      ExitShaped(c, data, date, i, b, p);
    }
    var filled := FillAll(c, data, date, i, st.book, st.pending);
    ExitLoop(c, data, date, i, filled, filled.positions, inv);
  }

  /** After every day: the books balance, one long position per symbol within the limit, one equity point per day. */
  lemma {:induction false} RunBalances(c: Params, strategy: Strategy, data: Data, dates: seq<int>, n: nat)
    requires n <= |dates|
    ensures var st := Run(c, strategy, data, dates, n);
            Balanced(c, st.book) && Shaped(c, st.book) && |st.curve| == n
  {
    hide Day;
    if n == 0 {
      ValueAdds(0, 0, c.commission, 0.0);
    } else {
      RunBalances(c, strategy, data, dates, n - 1);
      DayBalanced(c, strategy, data, dates, n - 1, Run(c, strategy, data, dates, n - 1));
    }
  }

  /** After every day cash is at least minus the commissions paid; at zero commission it is never negative. */
  lemma {:induction false} RunSolvent(c: Params, strategy: Strategy, data: Data, dates: seq<int>, n: nat)
    requires n <= |dates| && Sane(c, data)
    ensures var b := Run(c, strategy, data, dates, n).book;
            Solvent(c, b) && (c.commission == 0.0 ==> b.cash >= 0.0)
  {
    hide Day, Sane;
    if n == 0 {
      ValueAdds(0, 0, c.commission, 0.0);
      StartSolvent(c, data);
    } else {
      RunSolvent(c, strategy, data, dates, n - 1);
      RunBalances(c, strategy, data, dates, n - 1);
      DaySolvent(c, strategy, data, dates, n - 1, Run(c, strategy, data, dates, n - 1));
    }
  }

  lemma StartSolvent(c: Params, data: Data)
    requires Sane(c, data)
    ensures Solvent(c, Book(c.capital, [], []))
  {
  }

  /** After every day: entries follow yesterday's signals, round trips in a symbol never overlap, and no position
      has lived through a bar that met its exit rule. */
  lemma {:induction false} RunTimely(c: Params, strategy: Strategy, data: Data, dates: seq<int>, n: nat)
    requires n <= |dates| && Increasing(dates)
    ensures var st := Run(c, strategy, data, dates, n);
            TimelyBefore(c, strategy, data, dates, n, st.book) && QueueOk(strategy, data, dates, n, st.pending)
  {
    hide Day;
    if n > 0 {
      RunTimely(c, strategy, data, dates, n - 1);
      RunBalances(c, strategy, data, dates, n - 1);
      DayTimely(c, strategy, data, dates, n - 1, Run(c, strategy, data, dates, n - 1));
    }
  }

  /** In particular no position survives its first bar at or after `holdUntil`. */
  lemma HeldNoLongerThanAllowed(c: Params, strategy: Strategy, data: Data, dates: seq<int>, n: nat, p: Open, d: nat)
    requires n <= |dates| && Increasing(dates) && p in Run(c, strategy, data, dates, n).book.positions
    requires p.holdUntil <= d < n && EntryDay(c, p) <= d
    ensures !HasBar(data, p.symbol, dates[d])
  {
    hide Run;
    RunTimely(c, strategy, data, dates, n);
    assert Stays(data, dates[d], d, p);
  }

  // ---- what the curve and the exit prices mean -------------------------------------------------------

  /** Paper profit of the open positions at the day's close. */
  function Unrealised(ps: seq<Open>, data: Data, date: int): real
  {
    if ps == [] then 0.0
    else
      var p := ps[|ps| - 1];
      Unrealised(ps[..|ps| - 1], data, date)
      + if HasBar(data, p.symbol, date) then Value(p.qty, data[p.symbol][date].close - p.entry) else 0.0
  }

  lemma {:induction false} MtmIsCostPlusGain(ps: seq<Open>, data: Data, date: int)
    ensures Mtm(ps, data, date) == OpenCost(ps) + Unrealised(ps, data, date)
  {
    hide Value;
    if ps != [] {
      var k := |ps| - 1;
      var p := ps[k];
      MtmIsCostPlusGain(ps[..k], data, date);
      assert ps == ps[..k] + [p];
      OpenAppend(ps[..k], p);
      if HasBar(data, p.symbol, date) { ValueAdds(p.qty, 0, data[p.symbol][date].close, p.entry); }
    }
  }

  /** Each equity point is the starting capital plus realised and paper profit less commissions. */
  lemma EquityDecomposes(c: Params, strategy: Strategy, data: Data, dates: seq<int>, i: nat)
    requires i < |dates| && Increasing(dates)
    ensures var b := Run(c, strategy, data, dates, i + 1).book;
            Run(c, strategy, data, dates, |dates|).curve[i]
            == c.capital + Pnl(b.trades) + Unrealised(b.positions, data, dates[i])
               - Value(SharesTraded(b), c.commission)
  {
    hide FillAll, ExitAll, Mtm, OpenCost, Unrealised, Pnl, SharesTraded, Value, Queue;
    var st := Run(c, strategy, data, dates, i + 1);
    RunAppends(c, strategy, data, dates, i + 1, |dates|);
    RunBalances(c, strategy, data, dates, i + 1);
    MtmIsCostPlusGain(st.book.positions, data, dates[i]);
    var whole := Run(c, strategy, data, dates, |dates|).curve;
    assert whole[i] == whole[..i + 1][i] == st.curve[i];
  }

  predicate Quoted(bar: Bar) { bar.low <= bar.open <= bar.high && bar.low <= bar.close <= bar.high }

  /** Exit prices are attainable that day, and a bar that meets both rules is filled at the worse one. */
  lemma ExitIsAttainableAndPessimistic(p: Open, bar: Bar, i: nat)
    requires Quoted(bar)
    ensures var e := ExitOf(p, bar, i);
            && (e.Some? ==> bar.low <= e.value.0 <= bar.high)
            && (e.Some? && bar.low <= p.stop ==> e.value.0 <= p.stop)
            && (e.Some? && bar.low > p.stop && bar.high >= p.target ==> e.value.0 >= p.target)
            && (e == None <==> p.stop < bar.low && bar.high < p.target && i < p.holdUntil)
  {
  }
}
