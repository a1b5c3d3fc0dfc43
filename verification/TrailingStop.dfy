/** The trailing stop of a paper position between buys, in closed form over any run of cycles. */
module TrailingStop {
  import opened Prelude
  import opened Ledger
  import opened Risk
  import opened Trading
  import opened TradingRules
  import opened TradingLimits

  /** The highest of the initial stop and every observed price above cost, trailed. */
  function BestStop(s: Settings, initial: real, avg: real, prices: seq<real>): real
  {
    if prices == [] then initial
    else
      var best, last := BestStop(s, initial, avg, prices[..|prices| - 1]), prices[|prices| - 1];
      if last > avg then Max(best, Trail(s, last)) else best
  }

  /** Observation `k` is at or below the best stop so far, or at or above the target. */
  predicate Touches(s: Settings, p: Position, prices: seq<real>, k: nat)
    requires k < |prices| && p.stop.Some?
  {
    prices[k] <= BestStop(s, p.stop.value, p.avg, prices[..k]) || (Truthy(p.target) && prices[k] >= p.target.value)
  }

  /** Some observation has touched the stop or the target. */
  predicate Touched(s: Settings, p: Position, prices: seq<real>)
    requires p.stop.Some?
  {
    prices != [] && (Touched(s, p, prices[..|prices| - 1]) || Touches(s, p, prices, |prices| - 1))
  }

  lemma {:induction false} TouchedMeans(s: Settings, p: Position, prices: seq<real>)
    requires p.stop.Some?
    ensures Touched(s, p, prices) <==> exists k :: 0 <= k < |prices| && Touches(s, p, prices, k)
  {
    if prices != [] {
      var n := |prices| - 1;
      var before := prices[..n];
      TouchedMeans(s, p, before);
      forall k | 0 <= k < n ensures Touches(s, p, before, k) <==> Touches(s, p, prices, k) {
        assert before[..k] == prices[..k];
      }
      assert Touched(s, p, prices) <==> Touched(s, p, before) || Touches(s, p, prices, n);
    }
  }

  predicate Trails(d: Desk)
  {
    d.mode == Paper && d.s.trailing && 0.0 < d.s.trailingPct < 1.0
  }

  lemma {:induction false} BestStopRises(s: Settings, initial: real, avg: real, prices: seq<real>)
    ensures BestStop(s, initial, avg, prices) >= initial
  {
    if prices != [] { BestStopRises(s, initial, avg, prices[..|prices| - 1]); }
  }

  /** A price less the trailing percentage. */
  function Behind(s: Settings, price: real): real { price - s.trailingPct * price }

  lemma TrailIsBehind(s: Settings, price: real)
    ensures Trail(s, price) == Behind(s, price)
  {
    assert price * (1.0 - s.trailingPct) == price - s.trailingPct * price;
  }

  /** `BestStop` is the maximum of the initial stop and of every price above cost, each less the trailing percentage:
      it is attained, and nothing eligible exceeds it. */
  lemma {:induction false} BestStopIsMaximum(s: Settings, initial: real, avg: real, prices: seq<real>)
    ensures var best := BestStop(s, initial, avg, prices);
            && best >= initial
            && (forall k :: 0 <= k < |prices| && prices[k] > avg ==> best >= Behind(s, prices[k]))
            && (best == initial || exists k :: 0 <= k < |prices| && prices[k] > avg && best == Behind(s, prices[k]))
  {
    hide Trail, Behind;
    if prices != [] {
      var before := prices[..|prices| - 1];
      BestStopIsMaximum(s, initial, avg, before);
      TrailIsBehind(s, prices[|prices| - 1]);
      var best := BestStop(s, initial, avg, before);
      if best != initial {
        var k :| 0 <= k < |before| && before[k] > avg && best == Behind(s, before[k]);
        assert prices[k] == before[k];
      }
      assert forall k :: 0 <= k < |before| ==> before[k] == prices[k];
    }
  }

  /** With trailing off no price moves a stop; with it on, a price moves a stop it has only up, and only above cost. */
  lemma StopsMoveOnlyUp(s: Settings, p: Position, last: real)
    ensures !s.trailing ==> Trailed(s, p, last) == p
    ensures s.trailing && p.stop.None? ==> Trailed(s, p, last) == p.(stop := Some(Behind(s, last)))
    ensures s.trailing && p.stop.Some? ==>
              Trailed(s, p, last)
              == if last > p.avg then p.(stop := Some(Max(p.stop.value, Behind(s, last)))) else p
  {
    hide Trail, Behind;
    TrailIsBehind(s, last);
  }

  lemma TrailBelow(s: Settings, last: real)
    requires 0.0 < s.trailingPct < 1.0 && last > 0.0
    ensures 0.0 < Trail(s, last) < last
  {
    assert last * s.trailingPct > 0.0;
    assert last * (1.0 - s.trailingPct) == last - last * s.trailingPct;
    assert last * (1.0 - s.trailingPct) > 0.0;
  }

  /** A price never trips the stop it has just raised. */
  lemma RatchetNeverTripsItself(s: Settings, p: Position, last: real)
    requires s.trailing && 0.0 < s.trailingPct < 1.0 && last > 0.0 && p.stop.Some? && p.stop.value > 0.0
    ensures HitsExit(Trailed(s, p, last), last)
            <==> last <= p.stop.value || (Truthy(p.target) && last >= p.target.value)
  {
    hide Trail;
    TrailBelow(s, last);
  }

  // ---- one sweep over all positions ---------------------------------------------------------

  lemma {:induction false} WatchedAllOthers(d: Desk, b: Book, todo: seq<Position>, prices: map<string, real>,
                                           symbol: string)
    requires Consistent(b.positions) && Snapshots(todo) && forall q :: q in todo ==> q.symbol != symbol
    ensures Row(WatchedAll(d, b, todo, prices).positions, symbol) == Row(b.positions, symbol)
    decreases |todo|
  {
    hide Watched, Row;
    if todo != [] {
      WatchedOther(d, b, todo[0], prices, symbol);
      WatchedAllOthers(d, Watched(d, b, todo[0], prices), todo[1..], prices, symbol);
    }
  }

  /** What observing its price does to an open paper position; without a price, nothing. */
  function AfterPrice(s: Settings, p: Position, prices: map<string, real>): Option<Position>
  {
    if p.symbol !in prices then Some(p)
    else
      var p' := Trailed(s, p, prices[p.symbol]);
      if HitsExit(p', prices[p.symbol]) then None else Some(p')
  }

  /** Watching the position itself. */
  lemma WatchedOwn(d: Desk, b: Book, p: Position, prices: map<string, real>)
    requires d.mode == Paper && Consistent(b.positions) && GetPosition(b.positions, p.symbol) == Some(p) && p.open
    requires p.qty > 0.0
    ensures GetPosition(Watched(d, b, p, prices).positions, p.symbol) == AfterPrice(d.s, p, prices)
  {
    hide Trailed, HitsExit, Upsert, Traded, Times;
    if p.symbol in prices {
      var last := prices[p.symbol];
      var p' := Trailed(d.s, p, last);
      TrailedIsSame(d.s, p, last);
      UpsertKeeps(b.positions, p');
      var b' := if p' == p then b else b.(positions := Upsert(b.positions, p'));
      assert GetPosition(b'.positions, p.symbol) == Some(p');
      if HitsExit(p', last) {
        ClosedShape(d, b', p.symbol, last);
        UpsertKeeps(b'.positions, AfterSell(p', PaperFill(d.s, p.symbol, Sell, p'.qty, last)));
      }
    }
  }

  /** A sweep over distinct rows that include the position's own does to it what watching it alone does. */
  lemma {:induction false} SweepObserves(d: Desk, b: Book, todo: seq<Position>, prices: map<string, real>, p: Position)
    requires d.mode == Paper && Consistent(b.positions) && Snapshots(todo) && DistinctRows(todo)
    requires GetPosition(b.positions, p.symbol) == Some(p) && p in todo
    ensures GetPosition(WatchedAll(d, b, todo, prices).positions, p.symbol) == AfterPrice(d.s, p, prices)
    decreases |todo|
  {
    hide Watched, Row, AfterPrice;
    var q, rest := todo[0], todo[1..];
    assert todo == [q] + rest;
    forall r | r in rest ensures r.symbol != q.symbol {
      var k :| 0 <= k < |rest| && rest[k] == r;
      assert todo[k + 1] == r;
    }
    if q.symbol == p.symbol {
      assert q == p;
      WatchedOwn(d, b, p, prices);
      WatchedAllOthers(d, Watched(d, b, p, prices), rest, prices, p.symbol);
    } else {
      WatchedOther(d, b, q, prices, p.symbol);
      SweepObserves(d, Watched(d, b, q, prices), rest, prices, p);
    }
  }

  // ---- one cycle that leaves the symbol alone --------------------------------------------------

  /** No candidate decision of the cycle acts on `symbol`. */
  predicate LeavesAlone(t: Tick, symbol: string)
  {
    symbol !in t.universe || symbol !in t.prices || t.decide(symbol).action == HoldIt
  }

  /** The system runs and the cycle's losses are within the weekly and monthly limits. */
  predicate Runs(d: Desk, b: Book, t: Tick)
  {
    !Halted(b) && !Kills(StatusOf(d.s, Equity(d, b, t.prices), t.base))
  }

  lemma ExecutedOther(d: Desk, b: Book, other: string, c: Decision, ref: real, equity: real, status: RiskStatus,
                      symbol: string)
    requires Consistent(b.positions) && other != symbol
    ensures Row(Executed(d, b, other, c, ref, equity, status).positions, symbol) == Row(b.positions, symbol)
  {
    hide Upsert, Traded, Closed, Attached, BuyVerdict, StopFor, TargetFor, Row;
    if ref > 0.0 {
      ClosedOther(d, b, other, ref, symbol);
      if c.action == BuyIt {
        var v := BuyVerdict(d, b, other, c, ref, equity, status);
        if v.Approved? && v.qty >= 1 {
          BoughtOther(d, b, other, v.qty as real, ref, symbol);
          AttachedOther(Traded(d, b, other, Buy, v.qty as real, ref), other,
                        StopFor(d.s, c, ref), TargetFor(d.s, c, ref), symbol);
        }
      }
    }
  }

  lemma BoughtOther(d: Desk, b: Book, other: string, qty: real, ref: real, symbol: string)
    requires Consistent(b.positions) && other != symbol && qty > 0.0
    ensures Row(Traded(d, b, other, Buy, qty, ref).positions, symbol) == Row(b.positions, symbol)
  {
    hide Upsert, Traded, Row, Times;
    RowIsIn(b.positions, other);
    BoughtShape(d, b, other, qty, ref);
    RowOfOther(b.positions, AfterBuy(GetPosition(b.positions, other), PaperFill(d.s, other, Buy, qty, ref)), symbol);
  }

  lemma AttachedOther(b: Book, other: string, stop: real, target: real, symbol: string)
    requires Consistent(b.positions) && other != symbol
    ensures Row(Attached(b, other, stop, target).positions, symbol) == Row(b.positions, symbol)
  {
    hide Upsert;
    RowIsIn(b.positions, other);
    var pos := GetPosition(b.positions, other);
    if pos.Some? {
      RowOfOther(b.positions, pos.value.(stop := Some(stop), target := Some(target)), symbol);
    }
  }

  lemma {:induction false} CandidatesLeaveAlone(d: Desk, b: Book, t: Tick, todo: seq<string>, equity: real,
                                               status: RiskStatus, symbol: string)
    requires Consistent(b.positions)
    requires symbol in todo && symbol in t.prices ==> t.decide(symbol).action == HoldIt
    ensures Row(Candidates(d, b, t, todo, equity, status).positions, symbol) == Row(b.positions, symbol)
    decreases |todo|
  {
    hide Row, Closed, BuyVerdict, Traded, Attached, StopFor, TargetFor;
    if todo != [] {
      var other := todo[0];
      var b' := if other in t.prices
                then Executed(d, b, other, t.decide(other), t.prices[other], equity, status) else b;
      if other in t.prices && other != symbol {
        ExecutedOther(d, b, other, t.decide(other), t.prices[other], equity, status, symbol);
      }
      assert todo == [other] + todo[1..];
      CandidatesLeaveAlone(d, b', t, todo[1..], equity, status, symbol);
    }
  }

  lemma InSnapshot(ps: seq<Position>, symbol: string)
    requires Consistent(ps)
    ensures GetPosition(ps, symbol).Some? ==> GetPosition(ps, symbol).value in OpenRows(ps)
    ensures GetPosition(ps, symbol).None? ==> forall q :: q in OpenRows(ps) ==> q.symbol != symbol
  {
    hide OpenRows, Row;
    RowIsIn(ps, symbol);
    forall q | q in OpenRows(ps) ensures Row(ps, q.symbol) == Some(q) { HeldRow(ps, q); }
  }

  /** A running cycle that leaves the symbol alone does to its position exactly what its price does. */
  lemma CycleObserves(d: Desk, b: Book, t: Tick, symbol: string)
    requires d.mode == Paper && Consistent(b.positions) && Runs(d, b, t) && LeavesAlone(t, symbol)
    ensures var pos := GetPosition(b.positions, symbol);
            GetPosition(Cycled(d, b, t).positions, symbol)
            == if pos.None? then None else AfterPrice(d.s, pos.value, t.prices)
  {
    hide WatchedAll, Candidates, StatusOf, Equity, OpenRows, AfterPrice, Halted, Row;
    var equity := Equity(d, b, t.prices);
    var status := StatusOf(d.s, equity, t.base);
    var b1 := WithRisk(b, false, status);
    var rows := OpenRows(b.positions);
    OpenRowsDistinct(b.positions);
    InSnapshot(b.positions, symbol);
    RowIsIn(b.positions, symbol);
    if GetPosition(b.positions, symbol).Some? {
      SweepObserves(d, b1, rows, t.prices, GetPosition(b.positions, symbol).value);
    } else {
      WatchedAllOthers(d, b1, rows, t.prices, symbol);
    }
    CandidatesLeaveAlone(d, WatchedAll(d, b1, rows, t.prices), t, t.universe, equity, status, symbol);
  }

  // ---- runs of cycles -------------------------------------------------------------------------------

  /** The prices quoted for `symbol`, cycle by cycle. */
  function Quotes(es: seq<Event>, symbol: string): seq<real>
  {
    if es == [] then []
    else
      var before, e := Quotes(es[..|es| - 1], symbol), es[|es| - 1];
      if e.Cycle? && symbol in e.tick.prices then before + [e.tick.prices[symbol]] else before
  }

  /** Running cycles only, none of which acts on `symbol`. */
  ghost predicate Quiet(d: Desk, b: Book, es: seq<Event>, symbol: string)
    requires Consistent(b.positions)
  {
    es == [] || (var before, e := es[..|es| - 1], es[|es| - 1];
                 && Quiet(d, b, before, symbol) && e.Cycle?
                 && Runs(d, Run(d, b, before), e.tick) && LeavesAlone(e.tick, symbol))
  }

  predicate AllPositive(prices: seq<real>) { forall k :: 0 <= k < |prices| ==> prices[k] > 0.0 }

  /** The position with the stop from which the ratchet starts: its own, or the first trailed price. */
  function Armed(s: Settings, p: Position, prices: seq<real>): (q: Position)
    requires prices != []
    ensures q.stop.Some?
  {
    if p.stop.Some? then p else p.(stop := Some(Trail(s, prices[0])))
  }

  /** Through any quiet run of cycles, whatever the other positions and candidates do, a paper position is open exactly
      while no price quoted for it has met its best stop so far or its target, and then its stop is the best one. */
  lemma TrailingStopClosedForm(d: Desk, b: Book, p: Position, es: seq<Event>)
    requires Trails(d) && Consistent(b.positions) && GetPosition(b.positions, p.symbol) == Some(p)
    requires Quiet(d, b, es, p.symbol) && AllPositive(Quotes(es, p.symbol))
    requires p.stop.Some? ==> p.stop.value > 0.0
    ensures var prices, now := Quotes(es, p.symbol), GetPosition(Run(d, b, es).positions, p.symbol);
            if prices == [] then now == Some(p)
            else
              var q := Armed(d.s, p, prices);
              now == if exists k :: 0 <= k < |prices| && Touches(d.s, q, prices, k) then None
                     else Some(q.(stop := Some(BestStop(d.s, q.stop.value, q.avg, prices))))
  {
    hide Touches, Run, BestStop, Armed;
    OpenUntilTouched(d, b, p, es);
    var prices := Quotes(es, p.symbol);
    if prices != [] { TouchedMeans(d.s, Armed(d.s, p, prices), prices); }
  }

  /** What is left of the position after a record of prices. */
  function Remaining(s: Settings, p: Position, prices: seq<real>): Option<Position>
  {
    if prices == [] then Some(p)
    else
      var q := Armed(s, p, prices);
      if Touched(s, q, prices) then None else Some(q.(stop := Some(BestStop(s, q.stop.value, q.avg, prices))))
  }

  lemma {:induction false} OpenUntilTouched(d: Desk, b: Book, p: Position, es: seq<Event>)
    requires Trails(d) && Consistent(b.positions) && GetPosition(b.positions, p.symbol) == Some(p)
    requires Quiet(d, b, es, p.symbol) && AllPositive(Quotes(es, p.symbol))
    requires p.stop.Some? ==> p.stop.value > 0.0
    ensures GetPosition(Run(d, b, es).positions, p.symbol) == Remaining(d.s, p, Quotes(es, p.symbol))
  {
    hide Cycled, Runs, LeavesAlone, GetPosition, AfterPrice;
    if es != [] {
      hide Remaining;
      var before, t := es[..|es| - 1], es[|es| - 1].tick;
      QuotesBefore(es, p.symbol);
      OpenUntilTouched(d, b, p, before);
      CycleObserves(d, Run(d, b, before), t, p.symbol);
      OneMorePrice(d.s, p, Quotes(before, p.symbol), t.prices);
    }
  }

  /** One more price does to what is left of the position what it does to any position. */
  lemma OneMorePrice(s: Settings, p: Position, prices: seq<real>, quoted: map<string, real>)
    requires s.trailing && 0.0 < s.trailingPct < 1.0 && (p.stop.Some? ==> p.stop.value > 0.0) && AllPositive(prices)
    requires p.symbol in quoted ==> quoted[p.symbol] > 0.0
    ensures var more := if p.symbol in quoted then prices + [quoted[p.symbol]] else prices;
            Remaining(s, p, more)
            == if Remaining(s, p, prices).None? then None else AfterPrice(s, Remaining(s, p, prices).value, quoted)
  {
    hide Trail, HitsExit, Trailed, BestStop, Touched;
    if p.symbol in quoted {
      var last := quoted[p.symbol];
      if prices != [] {
        ArmedPositive(s, p, prices);
        assert (prices + [last])[0] == prices[0];
        StillOpenAfter(s, Armed(s, p, prices), prices, quoted);
      } else if p.stop.Some? {
        assert [] + [last] == [last];
        NothingQuoted(s, p);
        StillOpenAfter(s, p, [], quoted);
      } else {
        assert [] + [last] == [last];
        FirstPrice(s, p, last);
      }
    }
  }

  lemma ArmedPositive(s: Settings, p: Position, prices: seq<real>)
    requires prices != [] && AllPositive(prices) && 0.0 < s.trailingPct < 1.0 && (p.stop.Some? ==> p.stop.value > 0.0)
    ensures Armed(s, p, prices).stop.value > 0.0
  {
    hide Trail;
    TrailBelow(s, prices[0]);
  }

  /** The first price a position without a stop meets arms it, and cannot trip it. */
  lemma FirstPrice(s: Settings, p: Position, last: real)
    requires s.trailing && 0.0 < s.trailingPct < 1.0 && p.stop.None? && last > 0.0
    ensures var q := p.(stop := Some(Trail(s, last)));
            && Armed(s, p, [last]) == Trailed(s, p, last) == q
            && (HitsExit(q, last) <==> Touched(s, q, [last]))
            && BestStop(s, q.stop.value, q.avg, [last]) == q.stop.value
  {
    hide Trail;
    TrailBelow(s, last);
    var q := p.(stop := Some(Trail(s, last)));
    assert [last][..0] == [];
    assert !Touched(s, q, []) && BestStop(s, q.stop.value, q.avg, []) == q.stop.value;
  }

  lemma NothingQuoted(s: Settings, p: Position)
    requires p.stop.Some?
    ensures !Touched(s, p, []) && p == p.(stop := Some(BestStop(s, p.stop.value, p.avg, [])))
  {
  }

  lemma QuotesBefore(es: seq<Event>, symbol: string)
    requires es != [] && AllPositive(Quotes(es, symbol))
    ensures AllPositive(Quotes(es[..|es| - 1], symbol))
    ensures var e := es[|es| - 1];
            e.Cycle? && symbol in e.tick.prices ==> e.tick.prices[symbol] > 0.0
  {
    var before, now := Quotes(es[..|es| - 1], symbol), Quotes(es, symbol);
    forall k | 0 <= k < |before| ensures before[k] > 0.0 { assert now[k] > 0.0; }
    assert |now| > |before| ==> now[|before|] > 0.0;
  }

  /** One more price: the ratchet step takes the best stop of the shorter record to that of the longer one. */
  lemma StillOpenAfter(s: Settings, p: Position, prices: seq<real>, quoted: map<string, real>)
    requires s.trailing && 0.0 < s.trailingPct < 1.0 && p.stop.Some? && p.stop.value > 0.0
    requires p.symbol in quoted ==> quoted[p.symbol] > 0.0
    ensures var q := p.(stop := Some(BestStop(s, p.stop.value, p.avg, prices)));
            var more := if p.symbol in quoted then prices + [quoted[p.symbol]] else prices;
            && (Touched(s, p, prices) ==> Touched(s, p, more))
            && (!Touched(s, p, prices) ==>
                  AfterPrice(s, q, quoted)
                  == if Touched(s, p, more) then None
                     else Some(p.(stop := Some(BestStop(s, p.stop.value, p.avg, more)))))
  {
    hide Trail, HitsExit, Trailed, BestStop, Truthy;
    if p.symbol in quoted {
      var last, more := quoted[p.symbol], prices + [quoted[p.symbol]];
      assert more[..|prices|] == prices;
      var q := p.(stop := Some(BestStop(s, p.stop.value, p.avg, prices)));
      BestStopRises(s, p.stop.value, p.avg, prices);
      RatchetNeverTripsItself(s, q, last);
      TrailedIsBest(s, p, prices, last);
    }
  }

  lemma TrailedIsBest(s: Settings, p: Position, before: seq<real>, last: real)
    requires s.trailing && p.stop.Some?
    ensures Trailed(s, p.(stop := Some(BestStop(s, p.stop.value, p.avg, before))), last)
            == p.(stop := Some(BestStop(s, p.stop.value, p.avg, before + [last])))
  {
    hide Trail;
    assert (before + [last])[..|before|] == before;
  }
}
