/** The simulator's entries and exits in prices and parameters alone (src/surge/backtest/engine.py): what an entry
    paid, which bar a position left on and at what price, and what a strategy was shown. */
module BacktestBrackets {
  import opened Prelude
  import opened Backtest
  import opened BacktestInvariants
  import opened BacktestTrades

  // ---- the bracket -----------------------------------------------------------------------------------

  /** `stopPct` below the entry price, and `targetPct` above it. */
  function Lower(c: Params, entry: real): real { entry * (1.0 - c.stopPct) }

  function Upper(c: Params, entry: real): real { entry * (1.0 + c.targetPct) }

  /** What is left of a price after slippage. */
  function Net(c: Params, price: real): real { price * (1.0 - c.slip) }

  predicate Stops(c: Params, entry: real, bar: Bar) { bar.low <= Lower(c, entry) }

  predicate Targets(c: Params, entry: real, bar: Bar) { bar.high >= Upper(c, entry) }

  /** Held from clock day `j`, the position has reason to leave on day `d`. */
  predicate Leaves(c: Params, data: Data, dates: seq<int>, symbol: string, entry: real, j: nat, d: nat)
    requires d < |dates|
  {
    HasBar(data, symbol, dates[d])
    && (Stops(c, entry, data[symbol][dates[d]]) || Targets(c, entry, data[symbol][dates[d]]) || d >= j + c.holdDays)
  }

  /** The price the reason allows: a gap through the stop or beyond the target fills at the open. */
  function LeavesAt(c: Params, reason: Reason, entry: real, bar: Bar): real
  {
    match reason
    case StopHit => Min(bar.open, Lower(c, entry))
    case TargetHit => Max(bar.open, Upper(c, entry))
    case TimeUp => bar.close
  }

  /** The trade left on the first day it had reason to, at the price that reason allows, slippage taken off. */
  ghost predicate FirstTouch(c: Params, data: Data, dates: seq<int>, t: Trade, j: nat, k: nat)
  {
    && j <= k < |dates| && t.entryDate == dates[j] && t.exitDate == dates[k] && HasBar(data, t.symbol, dates[k])
    && (forall d: nat :: j <= d < k ==> !Leaves(c, data, dates, t.symbol, t.entry, j, d))
    && Leaves(c, data, dates, t.symbol, t.entry, j, k)
    && var bar := data[t.symbol][dates[k]];
       && (t.reason == StopHit <==> Stops(c, t.entry, bar))
       && (t.reason == TargetHit <==> Targets(c, t.entry, bar) && !Stops(c, t.entry, bar))
       && t.exit == Net(c, LeavesAt(c, t.reason, t.entry, bar))
       && t.pnl == t.qty as real * (t.exit - t.entry)
  }

  lemma BracketOf(c: Params, date: int, j: nat, symbol: string, entry: real, qty: int)
    ensures var p := NewPosition(c, date, j, symbol, entry, qty);
            && p.symbol == symbol && p.entry == entry && p.holdUntil == j + c.holdDays
            && p.stop == Lower(c, entry) && p.target == Upper(c, entry)
  {
    hide StopAt, TargetAt, Lower, Upper;
    StopIsLower(c, entry);
    TargetIsUpper(c, entry);
  }

  lemma StopIsLower(c: Params, entry: real)
    ensures StopAt(c, entry) == Lower(c, entry)
  {
  }

  lemma TargetIsUpper(c: Params, entry: real)
    ensures TargetAt(c, entry) == Upper(c, entry)
  {
  }

  /** A bracket stays through a day exactly when it has no reason to leave. */
  lemma StaysUnlessLeaves(c: Params, data: Data, dates: seq<int>, p: Open, j: nat, d: nat)
    requires d < |dates| && p.holdUntil == j + c.holdDays
    requires p.stop == Lower(c, p.entry) && p.target == Upper(c, p.entry)
    ensures Stays(data, dates[d], d, p) <==> !Leaves(c, data, dates, p.symbol, p.entry, j, d)
  {
    hide Lower, Upper;
  }

  lemma RoundTripTouches(c: Params, data: Data, dates: seq<int>, t: Trade, j: nat, k: nat)
    requires EnteredAndExited(c, data, dates, t, j, k)
    ensures FirstTouch(c, data, dates, t, j, k)
  {
    hide NewPosition, Stays, Leaves, Lower, Upper, Value, SalePrice, Net;
    var p := NewPosition(c, dates[j], j, t.symbol, t.entry, t.qty);
    BracketOf(c, dates[j], j, t.symbol, t.entry, t.qty);
    forall d: nat | j <= d < k ensures !Leaves(c, data, dates, t.symbol, t.entry, j, d) {
      StaysUnlessLeaves(c, data, dates, p, j, d);
    }
    LeavesNow(c, data, dates, p, j, k);
    NetIsSalePrice(c, ExitOf(p, data[t.symbol][dates[k]], k).value.0);
    PnlOf(t.qty, t.exit - t.entry);
  }

  lemma NetIsSalePrice(c: Params, price: real)
    ensures SalePrice(c, price) == Net(c, price)
  {
  }

  lemma PnlOf(qty: int, gain: real)
    ensures Value(qty, gain) == qty as real * gain
  {
  }

  lemma LeavesNow(c: Params, data: Data, dates: seq<int>, p: Open, j: nat, k: nat)
    requires k < |dates| && p.holdUntil == j + c.holdDays && HasBar(data, p.symbol, dates[k])
    requires p.stop == Lower(c, p.entry) && p.target == Upper(c, p.entry)
    requires ExitOf(p, data[p.symbol][dates[k]], k).Some?
    ensures Leaves(c, data, dates, p.symbol, p.entry, j, k)
  {
    hide Lower, Upper;
  }

  /** Every closed trade left at its first touch of the percentages around its entry. */
  lemma TradesAreFirstTouches(c: Params, strategy: Strategy, data: Data, dates: seq<int>, n: nat, t: Trade)
    requires n <= |dates| && t in Run(c, strategy, data, dates, n).book.trades
    ensures exists j: nat, k: nat :: FirstTouch(c, data, dates, t, j, k)
  {
    hide Run, FirstTouch, EnteredAndExited;
    RunSettled(c, strategy, data, dates, n);
    assert RoundTrip(c, data, dates, t);
    var j: nat, k: nat :| EnteredAndExited(c, data, dates, t, j, k);
    RoundTripTouches(c, data, dates, t, j, k);
  }

  ghost predicate AllQuoted(data: Data)
  {
    forall s, d :: HasBar(data, s, d) ==> Quoted(data[s][d])
  }

  /** So a stop sells no higher than the stop percentage below the entry, a target no lower than the target percentage
      above it, and a time exit strictly between, after at least the holding days; always within the bar. */
  lemma ReasonsBoundPrices(c: Params, strategy: Strategy, data: Data, dates: seq<int>, n: nat, t: Trade)
    requires n <= |dates| && t in Run(c, strategy, data, dates, n).book.trades && c.slip < 1.0
    ensures t.reason == StopHit ==> t.exit <= Net(c, Lower(c, t.entry))
    ensures t.reason == TargetHit ==> t.exit >= Net(c, Upper(c, t.entry))
    ensures t.reason == TimeUp && AllQuoted(data) ==>
              Net(c, Lower(c, t.entry)) < t.exit < Net(c, Upper(c, t.entry))
    ensures t.reason == TimeUp ==> exists j: nat, k: nat :: HeldOut(c, dates, t, j, k)
    ensures HasBar(data, t.symbol, t.exitDate)
    ensures AllQuoted(data) ==>
              Net(c, data[t.symbol][t.exitDate].low) <= t.exit <= Net(c, data[t.symbol][t.exitDate].high)
  {
    hide Run, FirstTouch, HeldOut, Lower, Upper, Net;
    TradesAreFirstTouches(c, strategy, data, dates, n, t);
    var j: nat, k: nat :| FirstTouch(c, data, dates, t, j, k);
    TouchBoundsPrice(c, data, dates, t, j, k);
  }

  /** The trade was open for at least the holding days, counted on the clock. */
  predicate HeldOut(c: Params, dates: seq<int>, t: Trade, j: nat, k: nat)
  {
    j <= k < |dates| && dates[j] == t.entryDate && dates[k] == t.exitDate && k >= j + c.holdDays
  }

  lemma TouchBoundsPrice(c: Params, data: Data, dates: seq<int>, t: Trade, j: nat, k: nat)
    requires FirstTouch(c, data, dates, t, j, k) && c.slip < 1.0
    ensures t.reason == StopHit ==> t.exit <= Net(c, Lower(c, t.entry))
    ensures t.reason == TargetHit ==> t.exit >= Net(c, Upper(c, t.entry))
    ensures t.reason == TimeUp ==> HeldOut(c, dates, t, j, k)
    ensures t.reason == TimeUp && AllQuoted(data) ==>
              Net(c, Lower(c, t.entry)) < t.exit < Net(c, Upper(c, t.entry))
    ensures HasBar(data, t.symbol, t.exitDate)
    ensures AllQuoted(data) ==>
              Net(c, data[t.symbol][t.exitDate].low) <= t.exit <= Net(c, data[t.symbol][t.exitDate].high)
  {
    hide Lower, Upper, Net;
    var bar := data[t.symbol][dates[k]];
    assert AllQuoted(data) ==> Quoted(bar);
    var stop, target := Lower(c, t.entry), Upper(c, t.entry);
    NetOrder(c, Min(bar.open, stop), stop);
    NetOrder(c, target, Max(bar.open, target));
    NetOrder(c, stop, bar.close);
    NetOrder(c, bar.close, target);
    NetOrder(c, bar.low, LeavesAt(c, t.reason, t.entry, bar));
    NetOrder(c, LeavesAt(c, t.reason, t.entry, bar), bar.high);
  }

  lemma NetOrder(c: Params, x: real, y: real)
    requires c.slip < 1.0
    ensures x <= y ==> Net(c, x) <= Net(c, y)
    ensures x < y ==> Net(c, x) < Net(c, y)
  {
    var k, d, a, b := 1.0 - c.slip, y - x, Net(c, x), Net(c, y);
    assert d * k == b - a;
    assert d >= 0.0 ==> d * k >= 0.0;
    assert d > 0.0 ==> d * k > 0.0;
  }

  /** Entered on day `j`, the position has had no reason to leave on any day before `n`. */
  predicate UntouchedSince(c: Params, data: Data, dates: seq<int>, p: Open, j: nat, n: nat)
    requires n <= |dates|
  {
    && j < |dates| && dates[j] == p.entryDate
    && forall d: nat :: j <= d < n ==> !Leaves(c, data, dates, p.symbol, p.entry, j, d)
  }

  /** The other half: while a position is open, no bar since its entry has come within reach of either side, nor come
      after its holding days. */
  lemma OpenPositionsUntouched(c: Params, strategy: Strategy, data: Data, dates: seq<int>, n: nat, p: Open)
    returns (j: nat)
    requires n <= |dates| && p in Run(c, strategy, data, dates, n).book.positions
    ensures UntouchedSince(c, data, dates, p, j, n)
  {
    hide Run, Stays, Leaves, NewPosition, Lower, Upper;
    RunSettled(c, strategy, data, dates, n);
    assert Leg(c, data, dates, n, p);
    j := EntryDay(c, p);
    BracketOf(c, p.entryDate, j, p.symbol, p.entry, p.qty);
    assert p.holdUntil == j + c.holdDays && Spared(c, data, dates, n, p);
    forall d: nat | j <= d < n ensures !Leaves(c, data, dates, p.symbol, p.entry, j, d) {
      assert Stays(data, dates[d], d, p);
      StaysUnlessLeaves(c, data, dates, p, j, d);
    }
  }

  // ---- entries ------------------------------------------------------------------------------------------

  /** The strategy is shown every bar up to and including the date, no later one, and no symbol without any. */
  lemma HistoryIsThePast(data: Data, date: int, s: string, d: int)
    ensures HasBar(History(data, date), s, d) <==> HasBar(data, s, d) && d <= date
    ensures HasBar(History(data, date), s, d) ==> History(data, date)[s][d] == data[s][d]
    ensures s in History(data, date) ==> exists d' :: HasBar(History(data, date), s, d')
  {
    var h := History(data, date);
    if s in h {
      var d' :| d' in data[s] && d' <= date;
      assert HasBar(h, s, d');
    }
  }

  /** Entered on clock day `k` at its open plus slippage, on a signal drawn the day before from the past alone. */
  ghost predicate EnteredAtOpen(c: Params, strategy: Strategy, data: Data, dates: seq<int>, symbol: string, date: int,
                                entry: real, k: nat)
  {
    && 1 <= k < |dates| && dates[k] == date && HasBar(data, symbol, date)
    && entry == data[symbol][date].open * (1.0 + c.slip)
    && Names(strategy(History(data, dates[k - 1])), symbol)
  }

  predicate Names(signals: seq<(string, real)>, symbol: string)
  {
    exists i :: 0 <= i < |signals| && signals[i].0 == symbol
  }

  /** Every entry, still open or closed since, was filled at an open one clock day after the strategy named it. */
  lemma EntriesFillAtOpen(c: Params, strategy: Strategy, data: Data, dates: seq<int>, n: nat)
    requires n <= |dates| && Increasing(dates)
    ensures var b := Run(c, strategy, data, dates, n).book;
            && (forall p :: p in b.positions ==>
                  exists k: nat :: EnteredAtOpen(c, strategy, data, dates, p.symbol, p.entryDate, p.entry, k))
            && (forall t :: t in b.trades ==>
                  exists k: nat :: EnteredAtOpen(c, strategy, data, dates, t.symbol, t.entryDate, t.entry, k))
  {
    hide Run, EnteredAtOpen, EntryOk;
    RunTimely(c, strategy, data, dates, n);
    forall symbol, date, entry | EntryOk(c, strategy, data, dates, n, symbol, date, entry)
      ensures exists k: nat :: EnteredAtOpen(c, strategy, data, dates, symbol, date, entry, k)
    {
      EntryIsAtOpen(c, strategy, data, dates, n, symbol, date, entry);
    }
  }

  lemma EntryIsAtOpen(c: Params, strategy: Strategy, data: Data, dates: seq<int>, n: nat, symbol: string, date: int,
                      entry: real)
    requires n <= |dates| && EntryOk(c, strategy, data, dates, n, symbol, date, entry)
    ensures exists k: nat :: EnteredAtOpen(c, strategy, data, dates, symbol, date, entry, k)
  {
    hide History;
    var k :| EnteredOn(c, strategy, data, dates, n, symbol, date, entry, k);
    assert EnteredAtOpen(c, strategy, data, dates, symbol, date, entry, k);
  }

  /** What a fill costs and leaves: the shares are worth no more than the position's fraction of equity, one more
      would be, they fit the cash, and the cash falls by their price and commission. */
  lemma FillInMoney(c: Params, data: Data, date: int, i: nat, b: Book, symbol: string, b': Book)
    requires TryFill(c, data, date, i, b, symbol) == Some(b') && b' != b
    ensures HasBar(data, symbol, date) && !Held(b.positions, symbol) && |b.positions| < c.maxPositions
    ensures b'.positions != [] && b'.positions[..|b.positions|] == b.positions && |b'.positions| == |b.positions| + 1
    ensures var p, fill := b'.positions[|b.positions|], data[symbol][date].open * (1.0 + c.slip);
            var equity := b.cash + Mtm(b.positions, data, date);
            && p.symbol == symbol && p.entry == fill > 0.0 && p.qty >= 1
            && p.qty as real * fill <= c.positionPct * equity < (p.qty + 1) as real * fill
            && p.qty as real * fill <= b.cash
            && b'.cash == b.cash - p.qty as real * (fill + c.commission)
  {
    hide Mtm, NewPosition, Affordable;
    var fill, equity := FillPrice(c, data[symbol][date]), b.cash + Mtm(b.positions, data, date);
    var qty := Affordable(c, equity, fill);
    AffordableIsLargest(c, equity, fill, qty);
    AffordableIsLargest(c, equity, fill, qty + 1);
    BracketOf(c, date, i, symbol, fill, qty);
    QuantityOf(c, date, i, symbol, fill, qty);
    CostAndCommission(qty as real, fill, c.commission);
  }

  lemma QuantityOf(c: Params, date: int, i: nat, symbol: string, fill: real, qty: int)
    ensures NewPosition(c, date, i, symbol, fill, qty).qty == qty
  {
  }

  lemma CostAndCommission(q: real, fill: real, commission: real)
    ensures q * fill + q * commission == q * (fill + commission)
  {
  }

  // ---- the queue ---------------------------------------------------------------------------------------------

  /** Signal `k` is waiting in `queue` at place `place`. */
  predicate QueuedAt(signals: seq<(string, real)>, k: nat, queue: seq<string>, place: nat)
    requires k < |signals|
  {
    place < |queue| && queue[place] == signals[k].0
  }

  /** How many of the first `k` signals name symbols not held. */
  function FreeBefore(signals: seq<(string, real)>, ps: seq<Open>, k: nat): nat
    requires k <= |signals|
  {
    if k == 0 then 0 else FreeBefore(signals, ps, k - 1) + if Held(ps, signals[k - 1].0) then 0 else 1
  }

  /** The signals not held keep their order and none is dropped. */
  lemma {:induction false} KeepsPlace(signals: seq<(string, real)>, ps: seq<Open>, k: nat)
    requires k < |signals| && !Held(ps, signals[k].0)
    ensures QueuedAt(signals, k, NotHeld(signals, ps), FreeBefore(signals, ps, k))
  {
    hide Held;
    if k > 0 {
      assert signals[1..][k - 1] == signals[k];
      KeepsPlace(signals[1..], ps, k - 1);
      FreeShift(signals, ps, k - 1);
    }
  }

  lemma {:induction false} FreeShift(signals: seq<(string, real)>, ps: seq<Open>, k: nat)
    requires signals != [] && k < |signals|
    ensures FreeBefore(signals, ps, k + 1) == FreeBefore(signals[1..], ps, k) + if Held(ps, signals[0].0) then 0 else 1
  {
    if k > 0 {
      FreeShift(signals, ps, k - 1);
      assert signals[1..][k - 1] == signals[k];
    }
  }

  /** Tomorrow's queue holds the first signals for symbols not held, in the strategy's order, as many as there are free
      slots; nothing is queued on the last day. */
  lemma QueueTakesFirst(c: Params, strategy: Strategy, data: Data, dates: seq<int>, i: nat, ps: seq<Open>, k: nat)
    requires i < |dates|
    ensures var signals, queue := strategy(History(data, dates[i])), Queue(c, strategy, data, dates, i, ps);
            && (i == |dates| - 1 || |ps| >= c.maxPositions ==> queue == [])
            && |queue| <= (if |ps| < c.maxPositions then c.maxPositions - |ps| else 0)
            && (i < |dates| - 1 && k < |signals| && !Held(ps, signals[k].0)
                && FreeBefore(signals, ps, k) < c.maxPositions - |ps| ==>
                  QueuedAt(signals, k, queue, FreeBefore(signals, ps, k)))
  {
    hide History, NotHeld;
    var signals := strategy(History(data, dates[i]));
    if k < |signals| && !Held(ps, signals[k].0) { KeepsPlace(signals, ps, k); }
  }
}
