/** The day-by-day backtest simulator (src/surge/backtest/engine.py).  Prices are
    exact reals, a strategy is any deterministic function of the visible history. */
module Backtest {
  import opened Prelude

  datatype Bar = Bar(open: real, high: real, low: real, close: real)

  /** Per symbol, the bars by date. */
  type Data = map<string, map<int, Bar>>

  datatype Params = Params(capital: real, positionPct: real, maxPositions: int, stopPct: real, targetPct: real,
                           holdDays: int, slip: real, commission: real)

  datatype Open = Open(symbol: string, qty: int, entry: real, entryDate: int, stop: real, target: real, holdUntil: int)

  datatype Reason = StopHit | TargetHit | TimeUp

  datatype Trade = Trade(symbol: string, entryDate: int, entry: real, exitDate: int, exit: real, qty: int, pnl: real,
                         reason: Reason)

  /** Cash, open positions in the order they were opened, and closed trades in the order they were closed. */
  datatype Book = Book(cash: real, positions: seq<Open>, trades: seq<Trade>)

  datatype State = State(book: Book, pending: seq<string>, curve: seq<real>)

  type Strategy = Data -> seq<(string, real)>

  predicate HasBar(data: Data, symbol: string, date: int) { symbol in data && date in data[symbol] }

  predicate Held(ps: seq<Open>, symbol: string) { exists k :: 0 <= k < |ps| && ps[k].symbol == symbol }

  // ---- one day ----------------------------------------------------------------------

  /** Positions at the day's close, or at entry price where the symbol did not trade. */
  function Mtm(ps: seq<Open>, data: Data, date: int): real
  {
    if ps == [] then 0.0
    else
      var p := ps[|ps| - 1];
      Mtm(ps[..|ps| - 1], data, date)
      + Value(p.qty, if HasBar(data, p.symbol, date) then data[p.symbol][date].close else p.entry)
  }

  function FillPrice(c: Params, bar: Bar): real { bar.open * (1.0 + c.slip) }

  /** What a sale at `price` yields per share. */
  function SalePrice(c: Params, price: real): real { price * (1.0 - c.slip) }

  function Value(qty: int, price: real): real { qty as real * price }

  /** How many shares a fill of price `fill` buys; 0 or less means none. */
  function Size(c: Params, data: Data, date: int, b: Book, fill: real): int
    requires fill > 0.0
  {
    Affordable(c, b.cash + Mtm(b.positions, data, date), fill)
  }

  /** The fraction of equity one position may take. */
  function Budget(c: Params, equity: real): real { c.positionPct * equity }

  function Affordable(c: Params, equity: real, fill: real): int
    requires fill > 0.0
  {
    (Budget(c, equity) / fill).Floor
  }

  function StopAt(c: Params, entry: real): real { entry * (1.0 - c.stopPct) }

  function TargetAt(c: Params, entry: real): real { entry * (1.0 + c.targetPct) }

  function NewPosition(c: Params, date: int, i: nat, symbol: string, fill: real, qty: int): Open
  {
    Open(symbol, qty, fill, date, StopAt(c, fill), TargetAt(c, fill), i + c.holdDays)
  }

  function Bought(c: Params, date: int, i: nat, b: Book, symbol: string, fill: real, qty: int): Book
  {
    Book(b.cash - (Value(qty, fill) + Value(qty, c.commission)),
         b.positions + [NewPosition(c, date, i, symbol, fill, qty)],
         b.trades)
  }

  /** One queued entry at today's open; None ends the queue. */
  function TryFill(c: Params, data: Data, date: int, i: nat, b: Book, symbol: string): Option<Book>
  {
    if Held(b.positions, symbol) || !HasBar(data, symbol, date) then Some(b)
    else if |b.positions| >= c.maxPositions then None
    else
      var fill := FillPrice(c, data[symbol][date]);
      if fill <= 0.0 then Some(b)
      else
        var qty := Size(c, data, date, b, fill);
        if qty <= 0 || Value(qty, fill) > b.cash then Some(b)
        else Some(Bought(c, date, i, b, symbol, fill, qty))
  }

  function FillAll(c: Params, data: Data, date: int, i: nat, b: Book, pending: seq<string>): Book
    decreases |pending|
  {
    if pending == [] then b
    else
      match TryFill(c, data, date, i, b, pending[0])
      case None => b
      case Some(b') => FillAll(c, data, date, i, b', pending[1..])
  }

  /** The exit rule on today's range: stop before target before time, gaps fill at the open. */
  function ExitOf(p: Open, bar: Bar, i: nat): Option<(real, Reason)>
  {
    if bar.low <= p.stop then Some((Min(bar.open, p.stop), StopHit))
    else if bar.high >= p.target then Some((Max(bar.open, p.target), TargetHit))
    else if i >= p.holdUntil then Some((bar.close, TimeUp))
    else None
  }

  function Without(ps: seq<Open>, symbol: string): seq<Open>
  {
    if ps == [] then []
    else (if ps[0].symbol == symbol then [] else [ps[0]]) + Without(ps[1..], symbol)
  }

  function Sold(c: Params, date: int, b: Book, p: Open, price: real, reason: Reason): Book
  {
    var fill := SalePrice(c, price);
    Book(b.cash + (Value(p.qty, fill) - Value(p.qty, c.commission)),
         Without(b.positions, p.symbol),
         b.trades + [Trade(p.symbol, p.entryDate, p.entry, date, fill, p.qty, Value(p.qty, fill - p.entry), reason)])
  }

  function TryExit(c: Params, data: Data, date: int, i: nat, b: Book, p: Open): Book
  {
    if !HasBar(data, p.symbol, date) then b
    else
      match ExitOf(p, data[p.symbol][date], i)
      case None => b
      case Some((price, reason)) => Sold(c, date, b, p, price, reason)
  }

  function ExitAll(c: Params, data: Data, date: int, i: nat, b: Book, todo: seq<Open>): Book
    decreases |todo|
  {
    if todo == [] then b
    else ExitAll(c, data, date, i, TryExit(c, data, date, i, b, todo[0]), todo[1..])
  }

  /** What a strategy may see on `date`: bars dated on or before it, and no symbol without any. */
  function History(data: Data, date: int): Data
  {
    map s | s in data && (exists d :: d in data[s] && d <= date)
      :: map d | d in data[s] && d <= date :: data[s][d]
  }

  function NotHeld(signals: seq<(string, real)>, ps: seq<Open>): seq<string>
  {
    if signals == [] then []
    else (if Held(ps, signals[0].0) then [] else [signals[0].0]) + NotHeld(signals[1..], ps)
  }

  function Take<T>(xs: seq<T>, n: nat): seq<T> { if n >= |xs| then xs else xs[..n] }

  function Queue(c: Params, strategy: Strategy, data: Data, dates: seq<int>, i: nat, ps: seq<Open>): seq<string>
    requires i < |dates|
  {
    if |ps| < c.maxPositions && i < |dates| - 1 then
      Take(NotHeld(strategy(History(data, dates[i])), ps), c.maxPositions - |ps|)
    else []
  }

  /** Fills at the open, exits on the range, equity at the close, then signals for tomorrow. */
  function Day(c: Params, strategy: Strategy, data: Data, dates: seq<int>, i: nat, st: State): State
    requires i < |dates|
  {
    var filled := FillAll(c, data, dates[i], i, st.book, st.pending);
    var closed := ExitAll(c, data, dates[i], i, filled, filled.positions);
    State(closed, Queue(c, strategy, data, dates, i, closed.positions),
          st.curve + [closed.cash + Mtm(closed.positions, data, dates[i])])
  }

  function Run(c: Params, strategy: Strategy, data: Data, dates: seq<int>, n: nat): (r: State)
    requires n <= |dates|
    ensures |r.curve| == n
  {
    if n == 0 then State(Book(c.capital, [], []), [], [])
    else Day(c, strategy, data, dates, n - 1, Run(c, strategy, data, dates, n - 1))
  }

  // ---- the master clock ------------------------------------------------------------------

  predicate Increasing(dates: seq<int>)
  {
    forall i, j :: 0 <= i < j < |dates| ==> dates[i] < dates[j]
  }

  predicate Traded(data: Data, date: int) { exists s :: s in data && date in data[s] }

  /** The strictly increasing union of all dates. */
  predicate IsClock(data: Data, dates: seq<int>)
  {
    && Increasing(dates)
    && (forall d :: d in dates ==> Traded(data, d))
    && (forall s, d :: s in data && d in data[s] ==> d in dates)
  }

  method Insert(dates: seq<int>, d: int) returns (r: seq<int>)
    requires Increasing(dates) && d !in dates
    ensures Increasing(r)
    ensures forall x :: x in r <==> x == d || x in dates
  {
    var k := 0;
    while k < |dates| && dates[k] < d
      invariant 0 <= k <= |dates|
      invariant forall j :: 0 <= j < k ==> dates[j] < d
    {
      k := k + 1;
    }
    r := dates[..k] + [d] + dates[k..];
  }

  /** `sorted(all_dates)`. */
  method SortedDates(data: Data) returns (dates: seq<int>)
    ensures IsClock(data, dates)
  {
    var all := set s, d | s in data && d in data[s] :: d;
    var left := all;
    dates := [];
    while left != {}
      invariant left <= all && Increasing(dates)
      invariant forall d :: d in dates <==> d in all && d !in left
      decreases left
    {
      var d :| d in left;
      dates := Insert(dates, d);
      left := left - {d};
    }
    forall s, d | s in data && d in data[s]
      ensures d in dates
    {
      assert d in all;
    }
    assert forall d :: d in all ==> Traded(data, d);
  }

  // ---- the code ----------------------------------------------------------------------------

  method MarkToMarket(ps: seq<Open>, data: Data, date: int) returns (total: real)
    ensures total == Mtm(ps, data, date)
  {
    total := 0.0;
    for k := 0 to |ps|
      invariant total == Mtm(ps[..k], data, date)
    {
      assert ps[..k + 1][..k] == ps[..k];
      var p := ps[k];
      var last := if HasBar(data, p.symbol, date) then data[p.symbol][date].close else p.entry;
      total := total + Value(p.qty, last);
    }
    assert ps[..|ps|] == ps;
  }

  method Shares(c: Params, data: Data, date: int, b: Book, fill: real) returns (qty: int)
    requires fill > 0.0
    ensures qty == Size(c, data, date, b, fill)
  {
    var mtm := MarkToMarket(b.positions, data, date);
    qty := Affordable(c, b.cash + mtm, fill);
  }

  method FillPending(c: Params, data: Data, date: int, i: nat, b: Book, pending: seq<string>) returns (r: Book)
    ensures r == FillAll(c, data, date, i, b, pending)
  {
    hide Size, FillPrice, Value, Mtm, NewPosition, Affordable;
    r := b;
    var k := 0;
    while k < |pending|
      invariant 0 <= k <= |pending|
      invariant FillAll(c, data, date, i, r, pending[k..]) == FillAll(c, data, date, i, b, pending)
      decreases |pending| - k
    {
      var symbol := pending[k];
      assert pending[k..][1..] == pending[k + 1..];
      k := k + 1;
      if Held(r.positions, symbol) || !HasBar(data, symbol, date) {
        continue;
      }
      if |r.positions| >= c.maxPositions {
        return;
      }
      var fill := FillPrice(c, data[symbol][date]);
      if fill <= 0.0 {
        continue;
      }
      var qty := Shares(c, data, date, r, fill);
      if qty <= 0 || Value(qty, fill) > r.cash {
        continue;
      }
      r := Book(r.cash - (Value(qty, fill) + Value(qty, c.commission)),
                r.positions + [NewPosition(c, date, i, symbol, fill, qty)],
                r.trades);
    }
  }

  method TakeExits(c: Params, data: Data, date: int, i: nat, b: Book) returns (r: Book)
    ensures r == ExitAll(c, data, date, i, b, b.positions)
  {
    r := b;
    for k := 0 to |b.positions|
      invariant ExitAll(c, data, date, i, r, b.positions[k..]) == ExitAll(c, data, date, i, b, b.positions)
    {
      var p := b.positions[k];
      assert b.positions[k..][1..] == b.positions[k + 1..];
      if HasBar(data, p.symbol, date) {
        var bar := data[p.symbol][date];
        var exit: Option<(real, Reason)> := None;
        if bar.low <= p.stop {
          exit := Some((Min(bar.open, p.stop), StopHit));
        } else if bar.high >= p.target {
          exit := Some((Max(bar.open, p.target), TargetHit));
        } else if i >= p.holdUntil {
          exit := Some((bar.close, TimeUp));
        }
        if exit.Some? {
          r := Sold(c, date, r, p, exit.value.0, exit.value.1);
        }
      }
    }
  }

  datatype BacktestResult = BacktestResult(dates: seq<int>, curve: seq<real>, trades: seq<Trade>)

  /** `BacktestEngine.run`. */
  method RunBacktest(c: Params, strategy: Strategy, data: Data) returns (r: BacktestResult)
    ensures IsClock(data, r.dates)
    ensures |r.dates| < 3 ==> r.curve == [c.capital] && r.trades == []
    ensures |r.dates| >= 3 ==> r.curve == Run(c, strategy, data, r.dates, |r.dates|).curve
    ensures |r.dates| >= 3 ==> r.trades == Run(c, strategy, data, r.dates, |r.dates|).book.trades
  {
    hide FillAll, ExitAll, Mtm, History, NotHeld, Take;
    var dates := SortedDates(data);
    if |dates| < 3 {
      return BacktestResult(dates, [c.capital], []);
    }
    var book, pending, curve := Book(c.capital, [], []), [], [];
    for i := 0 to |dates|
      invariant State(book, pending, curve) == Run(c, strategy, data, dates, i)
    {
      var date := dates[i];
      book := FillPending(c, data, date, i, book, pending);
      book := TakeExits(c, data, date, i, book);
      var mtm := MarkToMarket(book.positions, data, date);
      curve := curve + [book.cash + mtm];
      pending := [];
      if |book.positions| < c.maxPositions && i < |dates| - 1 {
        pending := Take(NotHeld(strategy(History(data, date)), book.positions), c.maxPositions - |book.positions|);
      }
    }
    r := BacktestResult(dates, curve, book.trades);
  }

  // ---- causality ---------------------------------------------------------------------------

  /** The two data sets hold the same bars on every date up to `cutoff`. */
  ghost predicate AgreeThrough(data: Data, data': Data, cutoff: int)
  {
    forall s, d :: d <= cutoff ==>
      HasBar(data, s, d) == HasBar(data', s, d) && (HasBar(data, s, d) ==> data[s][d] == data'[s][d])
  }

  lemma {:induction false} MtmCausal(ps: seq<Open>, data: Data, data': Data, date: int)
    requires AgreeThrough(data, data', date)
    ensures Mtm(ps, data, date) == Mtm(ps, data', date)
  {
    if ps != [] { MtmCausal(ps[..|ps| - 1], data, data', date); }
  }

  lemma TryFillCausal(c: Params, data: Data, data': Data, date: int, i: nat, b: Book, symbol: string)
    requires AgreeThrough(data, data', date)
    ensures TryFill(c, data, date, i, b, symbol) == TryFill(c, data', date, i, b, symbol)
  {
    hide Value, NewPosition, Affordable;
    MtmCausal(b.positions, data, data', date);
  }

  lemma {:induction false} FillCausal(c: Params, data: Data, data': Data, date: int, i: nat, b: Book,
                                      pending: seq<string>)
    requires AgreeThrough(data, data', date)
    ensures FillAll(c, data, date, i, b, pending) == FillAll(c, data', date, i, b, pending)
    decreases |pending|
  {
    hide TryFill;
    if pending != [] {
      TryFillCausal(c, data, data', date, i, b, pending[0]);
      match TryFill(c, data, date, i, b, pending[0])
      case None =>
      case Some(b') => FillCausal(c, data, data', date, i, b', pending[1..]);
    }
  }

  lemma {:induction false} ExitCausal(c: Params, data: Data, data': Data, date: int, i: nat, b: Book, todo: seq<Open>)
    requires AgreeThrough(data, data', date)
    ensures ExitAll(c, data, date, i, b, todo) == ExitAll(c, data', date, i, b, todo)
    decreases |todo|
  {
    hide Sold;
    if todo != [] {
      assert TryExit(c, data, date, i, b, todo[0]) == TryExit(c, data', date, i, b, todo[0]);
      ExitCausal(c, data, data', date, i, TryExit(c, data, date, i, b, todo[0]), todo[1..]);
    }
  }

  lemma HistoryCausal(data: Data, data': Data, date: int)
    requires AgreeThrough(data, data', date)
    ensures History(data, date) == History(data', date)
  {
    var h, h' := History(data, date), History(data', date);
    forall s ensures (s in h <==> s in h') && (s in h ==> h[s] == h'[s]) {
      if s in h {
        var d :| d in data[s] && d <= date;
        assert HasBar(data', s, d);
      }
      if s in h' {
        var d :| d in data'[s] && d <= date;
        assert HasBar(data, s, d);
      }
      if s in h {
        forall d ensures (d in h[s] <==> d in h'[s]) && (d in h[s] ==> h[s][d] == h'[s][d]) {
          assert d <= date ==> HasBar(data, s, d) == HasBar(data', s, d);
        }
      }
    }
  }

  lemma AgreeEarlier(data: Data, data': Data, cutoff: int, date: int)
    requires AgreeThrough(data, data', cutoff) && date <= cutoff
    ensures AgreeThrough(data, data', date)
  {
  }

  /** Data that agree through a date share their clock up to that date. */
  lemma {:induction false} ClockCausal(data: Data, data': Data, dates: seq<int>, dates': seq<int>, i: nat, j: nat)
    requires IsClock(data, dates) && IsClock(data', dates') && j <= i < |dates|
    requires AgreeThrough(data, data', dates[i])
    ensures j < |dates'| && dates[..j + 1] == dates'[..j + 1]
  {
    if j > 0 { ClockCausal(data, data', dates, dates', i, j - 1); }
    assert forall k :: 0 <= k < j ==> dates[k] == dates[..j][k] == dates'[..j][k] == dates'[k];
    assert dates[j] in dates && Traded(data, dates[j]);
    var s :| s in data && dates[j] in data[s];
    assert HasBar(data', s, dates[j]);
    assert dates[j] in dates';
    var k :| 0 <= k < |dates'| && dates'[k] == dates[j];
    assert k >= j;
    assert dates'[j] in dates' && Traded(data', dates'[j]);
    var s' :| s' in data' && dates'[j] in data'[s'];
    assert HasBar(data, s', dates'[j]);
    assert dates'[j] in dates;
    var m :| 0 <= m < |dates| && dates[m] == dates'[j];
    assert m >= j;
  }

  lemma DayCausal(c: Params, strategy: Strategy, data: Data, data': Data, dates: seq<int>, dates': seq<int>, k: nat,
                  st: State)
    requires k < |dates| && k < |dates'| && dates[k] == dates'[k] && AgreeThrough(data, data', dates[k])
    ensures var r, r' := Day(c, strategy, data, dates, k, st), Day(c, strategy, data', dates', k, st);
            && r.book == r'.book && r.curve == r'.curve
            && (k < |dates| - 1 && k < |dates'| - 1 ==> r.pending == r'.pending)
  {
    hide FillAll, ExitAll, Mtm, History, NotHeld, Take;
    var date := dates[k];
    FillCausal(c, data, data', date, k, st.book, st.pending);
    var filled := FillAll(c, data, date, k, st.book, st.pending);
    ExitCausal(c, data, data', date, k, filled, filled.positions);
    var closed := ExitAll(c, data, date, k, filled, filled.positions);
    MtmCausal(closed.positions, data, data', date);
    HistoryCausal(data, data', date);
  }

  /** After `n` days, both runs hold the same book and curve; before the cutoff they also queue the same entries. */
  lemma {:induction false} RunCausal(c: Params, strategy: Strategy, data: Data, data': Data, dates: seq<int>,
                                    dates': seq<int>, i: nat, n: nat)
    requires n <= i + 1 && i < |dates| && i < |dates'| && dates[..i + 1] == dates'[..i + 1]
    requires Increasing(dates) && AgreeThrough(data, data', dates[i])
    ensures var st, st' := Run(c, strategy, data, dates, n), Run(c, strategy, data', dates', n);
            st.book == st'.book && st.curve == st'.curve && (n <= i ==> st.pending == st'.pending)
  {
    hide Day;
    if n > 0 {
      RunCausal(c, strategy, data, data', dates, dates', i, n - 1);
      assert dates[n - 1] == dates[..i + 1][n - 1] == dates'[..i + 1][n - 1] == dates'[n - 1];
      AgreeEarlier(data, data', dates[i], dates[n - 1]);
      DayCausal(c, strategy, data, data', dates, dates', n - 1, Run(c, strategy, data, dates, n - 1));
    }
  }

  /** The trades closed on or before `cutoff`. */
  function ClosedBy(trades: seq<Trade>, cutoff: int): seq<Trade>
  {
    if trades == [] then []
    else
      var t := trades[|trades| - 1];
      ClosedBy(trades[..|trades| - 1], cutoff) + if t.exitDate <= cutoff then [t] else []
  }

  lemma {:induction false} ClosedByAll(early: seq<Trade>, cutoff: int)
    requires forall t :: t in early ==> t.exitDate <= cutoff
    ensures ClosedBy(early, cutoff) == early
  {
    if early != [] {
      var before, last := early[..|early| - 1], early[|early| - 1];
      assert early == before + [last];
      assert last in early;
      ClosedByAll(before, cutoff);
    }
  }

  lemma {:induction false} ClosedBySplit(early: seq<Trade>, late: seq<Trade>, cutoff: int)
    requires forall t :: t in early ==> t.exitDate <= cutoff
    requires forall t :: t in late ==> t.exitDate > cutoff
    ensures ClosedBy(early + late, cutoff) == early
  {
    if late == [] {
      assert early + late == early;
      ClosedByAll(early, cutoff);
    } else {
      var all, k := early + late, |late| - 1;
      assert all[..|all| - 1] == early + late[..k] && all[|all| - 1] == late[k];
      ClosedBySplit(early, late[..k], cutoff);
      assert late[k] in late;
    }
  }

  lemma {:induction false} FillKeepsTrades(c: Params, data: Data, date: int, i: nat, b: Book, pending: seq<string>)
    ensures FillAll(c, data, date, i, b, pending).trades == b.trades
    decreases |pending|
  {
    hide Mtm, Affordable, Value;
    if pending != [] {
      match TryFill(c, data, date, i, b, pending[0])
      case None =>
      case Some(b') => FillKeepsTrades(c, data, date, i, b', pending[1..]);
    }
  }

  /** A day's exits append trades dated that day. */
  lemma {:induction false} ExitAppends(c: Params, data: Data, date: int, i: nat, b: Book, todo: seq<Open>)
    ensures var r := ExitAll(c, data, date, i, b, todo).trades;
            b.trades <= r && forall k :: |b.trades| <= k < |r| ==> r[k].exitDate == date
    decreases |todo|
  {
    if todo != [] {
      ExitAppends(c, data, date, i, TryExit(c, data, date, i, b, todo[0]), todo[1..]);
    }
  }

  /** One day appends one point and trades dated that day. */
  lemma DayAppends(c: Params, strategy: Strategy, data: Data, dates: seq<int>, i: nat, st: State)
    requires i < |dates|
    ensures var st' := Day(c, strategy, data, dates, i, st);
            && |st'.curve| == |st.curve| + 1 && st.curve <= st'.curve && st.book.trades <= st'.book.trades
            && forall k :: |st.book.trades| <= k < |st'.book.trades| ==> st'.book.trades[k].exitDate == dates[i]
  {
    hide FillAll, ExitAll, Mtm, Queue;
    FillKeepsTrades(c, data, dates[i], i, st.book, st.pending);
    var filled := FillAll(c, data, dates[i], i, st.book, st.pending);
    ExitAppends(c, data, dates[i], i, filled, filled.positions);
  }

  /** `date` is one of the clock days from `m` to before `n`. */
  predicate DatedWithin(dates: seq<int>, m: nat, n: nat, date: int)
    requires n <= |dates|
  {
    exists d :: m <= d < n && dates[d] == date
  }

  /** Days only append to the curve and the trades; a day's new trades carry its date. */
  lemma {:induction false} RunAppends(c: Params, strategy: Strategy, data: Data, dates: seq<int>, m: nat, n: nat)
    requires Increasing(dates) && m <= n <= |dates|
    ensures var st, st' := Run(c, strategy, data, dates, m), Run(c, strategy, data, dates, n);
            && |st'.curve| == n && st'.curve[..m] == st.curve
            && st.book.trades <= st'.book.trades
            && (forall k :: 0 <= k < |st.book.trades| ==> DatedWithin(dates, 0, m, st.book.trades[k].exitDate))
            && (forall k :: |st.book.trades| <= k < |st'.book.trades| ==>
                  DatedWithin(dates, m, n, st'.book.trades[k].exitDate))
  {
    hide Day;
    if n > 0 {
      RunAppends(c, strategy, data, dates, if m < n then m else n - 1, n - 1);
      DayAppends(c, strategy, data, dates, n - 1, Run(c, strategy, data, dates, n - 1));
      assert m < n ==> DatedWithin(dates, m, n, dates[n - 1]);
      assert DatedWithin(dates, 0, n, dates[n - 1]);
    }
  }

  /** No look-ahead: the equity up to day `i` and the trades closed by it depend only on bars dated up to it. */
  lemma BacktestCausal(c: Params, strategy: Strategy, data: Data, data': Data, dates: seq<int>, dates': seq<int>,
                       i: nat)
    requires IsClock(data, dates) && IsClock(data', dates') && i < |dates|
    requires AgreeThrough(data, data', dates[i])
    ensures i < |dates'| && dates[..i + 1] == dates'[..i + 1]
    ensures Run(c, strategy, data, dates, |dates|).curve[..i + 1]
            == Run(c, strategy, data', dates', |dates'|).curve[..i + 1]
    ensures ClosedBy(Run(c, strategy, data, dates, |dates|).book.trades, dates[i])
            == ClosedBy(Run(c, strategy, data', dates', |dates'|).book.trades, dates[i])
  {
    hide Run;
    ClockCausal(data, data', dates, dates', i, i);
    RunCausal(c, strategy, data, data', dates, dates', i, i + 1);
    assert dates[i] == dates[..i + 1][i] == dates'[..i + 1][i] == dates'[i];
    RunClosedBy(c, strategy, data, dates, i);
    RunClosedBy(c, strategy, data', dates', i);
  }

  lemma RunClosedBy(c: Params, strategy: Strategy, data: Data, dates: seq<int>, i: nat)
    requires Increasing(dates) && i < |dates|
    ensures var whole, part := Run(c, strategy, data, dates, |dates|), Run(c, strategy, data, dates, i + 1);
            && |whole.curve| == |dates| && whole.curve[..i + 1] == part.curve
            && ClosedBy(whole.book.trades, dates[i]) == part.book.trades
  {
    hide Run;
    RunAppends(c, strategy, data, dates, i + 1, |dates|);
    var whole := Run(c, strategy, data, dates, |dates|).book.trades;
    var part := Run(c, strategy, data, dates, i + 1).book.trades;
    assert whole == part + whole[|part|..];
    ClosedBySplit(part, whole[|part|..], dates[i]);
  }
}
