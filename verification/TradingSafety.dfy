/** What every run of cycles, kill-switch triggers and resets keeps. */
module TradingSafety {
  import opened Prelude
  import opened Ledger
  import opened Risk
  import opened Trading
  import opened TradingRules

  // ---- the halt -----------------------------------------------------------------------------

  /** A halted system's cycle does nothing at all. */
  lemma HaltedCycleIsInert(d: Desk, b: Book, t: Tick)
    requires Consistent(b.positions) && Halted(b)
    ensures Cycled(d, b, t) == b
  {
  }

  lemma TriggerHalts(d: Desk, b: Book, prices: map<string, real>)
    requires Consistent(b.positions)
    ensures Halted(Triggered(d, b, prices))
  {
    hide Flattened;
  }

  /** A reset puts the system back to work and touches nothing else. */
  lemma ResetResumes(d: Desk, b: Book)
    requires Consistent(b.positions)
    ensures !Halted(Step(d, b, Reset)) && Step(d, b, Reset).risk[..|b.risk|] == b.risk
    ensures Step(d, b, Reset) == b.(risk := Step(d, b, Reset).risk)
  {
  }

  /** The events without the cycles. */
  function NoCycles(es: seq<Event>): seq<Event>
  {
    if es == [] then []
    else NoCycles(es[..|es| - 1]) + if es[|es| - 1].Cycle? then [] else [es[|es| - 1]]
  }

  /** From a trigger until the next reset, cycles can be deleted from the run without any difference: they create no
      order, touch no position and write no row. */
  lemma CyclesInertUntilReset(d: Desk, b: Book, es: seq<Event>)
    requires Consistent(b.positions) && forall e :: e in es ==> !e.Reset?
    requires b.risk != [] && (b.risk[|b.risk| - 1].kill || b.risk[|b.risk| - 1].status == Halt)
    ensures Halted(Run(d, b, es)) && Run(d, b, es) == Run(d, b, NoCycles(es))
  {
    assert Halted(b);
    InertWhileHalted(d, b, es);
  }

  lemma {:induction false} InertWhileHalted(d: Desk, b: Book, es: seq<Event>)
    requires Consistent(b.positions) && Halted(b) && forall e :: e in es ==> !e.Reset?
    ensures Halted(Run(d, b, es)) && Run(d, b, es) == Run(d, b, NoCycles(es))
  {
    hide Cycled, Triggered, Halted;
    if es != [] {
      var before, e := es[..|es| - 1], es[|es| - 1];
      assert e in es && !e.Reset?;
      InertWhileHalted(d, b, before);
      if e.Cycle? {
        HaltedCycleIsInert(d, Run(d, b, before), e.tick);
        assert NoCycles(es) == NoCycles(before);
      } else {
        TriggerHalts(d, Run(d, b, before), e.prices);
        assert NoCycles(es)[..|NoCycles(es)| - 1] == NoCycles(before);
      }
    }
  }

  lemma TradesKeepRisk(d: Desk, b: Book, symbol: string, side: Side, qty: real, ref: real)
    requires Consistent(b.positions)
    ensures qty > 0.0 ==> Traded(d, b, symbol, side, qty, ref).risk == b.risk
    ensures Closed(d, b, symbol, ref).risk == b.risk
  {
    hide AfterSell, AfterBuy, Upsert, OpenCost, Times;
  }

  lemma DecisionKeepsRisk(d: Desk, b: Book, symbol: string, c: Decision, ref: real, equity: real, status: RiskStatus)
    requires Consistent(b.positions)
    ensures Executed(d, b, symbol, c, ref, equity, status).risk == b.risk
  {
    hide Traded, Closed, Upsert, BuyVerdict, StopFor, TargetFor;
    if ref > 0.0 {
      var v := BuyVerdict(d, b, symbol, c, ref, equity, status);
      TradesKeepRisk(d, b, symbol, Buy, if v.Approved? then v.qty as real else 0.0, ref);
    }
  }

  /** A running system's cycle ends halted exactly when the weekly or the monthly loss has reached its limit. */
  lemma CycleHaltsExactly(d: Desk, b: Book, t: Tick)
    requires Consistent(b.positions) && !Halted(b)
    ensures var equity := Equity(d, b, t.prices);
            Halted(Cycled(d, b, t)) <==> LossReached(t.base.monthly, equity, d.s.monthlyLimit)
                                         || LossReached(t.base.weekly, equity, d.s.weeklyLimit)
  {
    hide Equity, Flattened, CancelledAll, WatchedAll, Candidates, LossReached, StatusOf, OpenRows, Closed, Executed;
    var equity := Equity(d, b, t.prices);
    var status := StatusOf(d.s, equity, t.base);
    StatusInMoney(d.s, equity, t.base);
    var b1 := WithRisk(b, Kills(status), status);
    if !Kills(status) {
      var inv, ok := (r: Book) => r.risk == b1.risk, (x: real) => true;
      forall r: Book, symbol, ref | Consistent(r.positions) && inv(r) ensures inv(Closed(d, r, symbol, ref)) {
        TradesKeepRisk(d, r, symbol, Sell, 0.0, ref);
      }
      forall r: Book, symbol, c, ref | Consistent(r.positions) && inv(r)
        ensures inv(Executed(d, r, symbol, c, ref, equity, status))
      {
        DecisionKeepsRisk(d, r, symbol, c, ref, equity, status);
      }
      DeskRule(d, b1, t, equity, status, inv, ok);
    }
  }

  // ---- loss limits stop entries -------------------------------------------------------------------

  /** Every order that `r` has and `b` has not is a sale. */
  predicate OnlySales(b: Book, r: Book)
  {
    && |r.orders| >= |b.orders|
    && (forall k :: 0 <= k < |b.orders| ==> r.orders[k].side == b.orders[k].side)
    && (forall k :: |b.orders| <= k < |r.orders| ==> r.orders[k].side == Sell)
  }

  lemma OnlySalesTrans(a: Book, b: Book, c: Book)
    requires OnlySales(a, b) && OnlySales(b, c)
    ensures OnlySales(a, c)
  {
  }

  lemma ClosedOnlySells(d: Desk, b: Book, symbol: string, ref: real)
    requires Consistent(b.positions)
    ensures OnlySales(b, Closed(d, b, symbol, ref))
  {
    hide Upsert, OpenCost, Times, AfterSell;
  }

  /** With new entries halted, acting on a decision only sells. */
  lemma DecisionOnlySells(d: Desk, b: Book, symbol: string, c: Decision, ref: real, equity: real)
    requires Consistent(b.positions)
    ensures OnlySales(b, Executed(d, b, symbol, c, ref, equity, HaltNew))
  {
    hide Closed, StopFor, TargetFor, PositionSize, Traded, Attached;
    ClosedOnlySells(d, b, symbol, ref);
  }

  lemma CancelOnlySells(b: Book)
    ensures OnlySales(b, b.(orders := CancelledAll(b.orders)))
  {
    hide CancelledAll;
    forall k | 0 <= k < |b.orders| ensures CancelledAll(b.orders)[k].side == b.orders[k].side { CancelAt(b.orders, k); }
  }

  /** A cycle that finds the daily, weekly or monthly loss at its limit enters nothing: every order it creates is a
      sale. */
  lemma LossLimitStopsEntries(d: Desk, b: Book, t: Tick)
    requires Consistent(b.positions)
    requires var equity := Equity(d, b, t.prices);
             || LossReached(t.base.daily, equity, d.s.dailyLimit)
             || LossReached(t.base.weekly, equity, d.s.weeklyLimit)
             || LossReached(t.base.monthly, equity, d.s.monthlyLimit)
    ensures OnlySales(b, Cycled(d, b, t))
  {
    hide Equity, Cycled, Closed, Executed, Upsert, CancelledAll, OnlySales, LossReached, StatusOf;
    var equity := Equity(d, b, t.prices);
    var status := StatusOf(d.s, equity, t.base);
    StatusInMoney(d.s, equity, t.base);
    var inv, ok := (r: Book) => OnlySales(b, r), (x: real) => true;
    SalesAboutTrading(d, b);
    forall r: Book, symbol, ref | Consistent(r.positions) && inv(r) ensures inv(Closed(d, r, symbol, ref)) {
      ClosedOnlySells(d, r, symbol, ref);
      OnlySalesTrans(b, r, Closed(d, r, symbol, ref));
    }
    if status == HaltNew {
      forall r: Book, symbol, c, ref | Consistent(r.positions) && inv(r)
        ensures inv(Executed(d, r, symbol, c, ref, equity, status))
      {
        DecisionOnlySells(d, r, symbol, c, ref, equity);
        OnlySalesTrans(b, r, Executed(d, r, symbol, c, ref, equity, HaltNew));
      }
    }
    CycleRule(d, b, t, inv, ok);
  }

  lemma SalesAboutTrading(d: Desk, b: Book)
    ensures OnlySales(b, b) && AboutTrading(d, r => OnlySales(b, r)) && StopsKeep(r => OnlySales(b, r))
  {
    hide CancelledAll, Upsert;
    forall r: Book | OnlySales(b, r) ensures OnlySales(b, r.(orders := CancelledAll(r.orders))) {
      CancelOnlySells(r);
      OnlySalesTrans(b, r, r.(orders := CancelledAll(r.orders)));
    }
  }

  // ---- the kill switch flattens -----------------------------------------------------------------

  lemma ClosedOnPaper(d: Desk, b: Book, symbol: string, ref: real)
    requires d.mode == Paper && Consistent(b.positions)
    ensures var r := Closed(d, b, symbol, ref);
            && (forall p :: p in r.positions && p.open ==> p in b.positions && p.symbol != symbol)
            && |r.orders| >= |b.orders| && r.orders[..|b.orders|] == b.orders
            && (forall k :: |b.orders| <= k < |r.orders| ==> r.orders[k].status == Filled)
  {
    hide Times, OpenCost, Upsert;
    RowIsIn(b.positions, symbol);
    var pos := GetPosition(b.positions, symbol);
    if pos.Some? {
      var f := PaperFill(d.s, symbol, Sell, pos.value.qty, ref);
      UpsertKeeps(b.positions, AfterSell(pos.value, f));
    }
  }

  lemma {:induction false} FlattenedOnPaper(d: Desk, b: Book, todo: seq<Position>, prices: map<string, real>)
    requires d.mode == Paper && Consistent(b.positions)
    ensures var r := Flattened(d, b, todo, prices);
            && (forall p :: p in r.positions && p.open
                  ==> p in b.positions && forall q :: q in todo ==> q.symbol != p.symbol)
            && |r.orders| >= |b.orders| && r.orders[..|b.orders|] == b.orders
            && (forall k :: |b.orders| <= k < |r.orders| ==> r.orders[k].status == Filled)
    decreases |todo|
  {
    hide Closed;
    if todo != [] {
      var p := todo[0];
      var ref := if p.symbol in prices then prices[p.symbol] else p.avg;
      ClosedOnPaper(d, b, p.symbol, ref);
      var b' := Closed(d, b, p.symbol, ref);
      FlattenedOnPaper(d, b', todo[1..], prices);
      var r := Flattened(d, b', todo[1..], prices);
      assert todo == [p] + todo[1..];
      assert r.orders[..|b.orders|] == r.orders[..|b'.orders|][..|b.orders|];
      forall k | |b.orders| <= k < |r.orders| ensures r.orders[k].status == Filled {
        if k < |b'.orders| { assert r.orders[k] == r.orders[..|b'.orders|][k]; }
      }
    }
  }

  lemma {:induction false} FlattenedKeepsRisk(d: Desk, b: Book, todo: seq<Position>, prices: map<string, real>)
    requires Consistent(b.positions)
    ensures Flattened(d, b, todo, prices).risk == b.risk
    decreases |todo|
  {
    hide Closed;
    if todo != [] {
      var ref := if todo[0].symbol in prices then prices[todo[0].symbol] else todo[0].avg;
      TradesKeepRisk(d, b, todo[0].symbol, Sell, 0.0, ref);
      FlattenedKeepsRisk(d, Closed(d, b, todo[0].symbol, ref), todo[1..], prices);
    }
  }

  lemma SettledOrder(o: Order)
    ensures Working(o) <==> o.status !in {Filled, Cancelled, Rejected}
  {
    match o.status
    case New =>
    case PendingApproval =>
    case Submitted =>
    case Filled =>
    case PartiallyFilled =>
    case Cancelled =>
    case Rejected =>
  }

  /** On paper the trigger leaves no open position, no working order, and a halted system. */
  lemma TriggerFlattens(d: Desk, b: Book, prices: map<string, real>)
    requires d.mode == Paper && Consistent(b.positions)
    ensures var r := Triggered(d, b, prices);
            && Halted(r) && (forall p :: p in r.positions ==> !p.open) && r.risk == b.risk + [RiskRow(true, Halt)]
            && |r.orders| >= |b.orders|
            && (forall k :: 0 <= k < |r.orders| ==> r.orders[k].status in {Filled, Cancelled, Rejected})
            && (forall k :: 0 <= k < |b.orders| && b.orders[k].status in {Filled, Cancelled, Rejected} ==>
                  r.orders[k] == b.orders[k])
  {
    hide Flattened, CancelledAll, OpenRows;
    TriggerHalts(d, b, prices);
    FlattenedKeepsRisk(d, b.(orders := CancelledAll(b.orders)), OpenRows(b.positions), prices);
    var cancelled := b.(orders := CancelledAll(b.orders));
    var rows := OpenRows(b.positions);
    FlattenedOnPaper(d, cancelled, rows, prices);
    var r := Triggered(d, b, prices);
    forall p | p in r.positions ensures !p.open {
      assert p.open && p in b.positions ==> p in rows;
    }
    forall k | 0 <= k < |r.orders|
      ensures r.orders[k].status in {Filled, Cancelled, Rejected}
      ensures k < |b.orders| && b.orders[k].status in {Filled, Cancelled, Rejected} ==> r.orders[k] == b.orders[k]
    {
      if k < |b.orders| {
        CancelAt(b.orders, k);
        assert r.orders[k] == r.orders[..|cancelled.orders|][k] == cancelled.orders[k];
        SettledOrder(b.orders[k]);
      }
    }
  }

  // ---- live mode never trades by itself -------------------------------------------------------------

  /** Same holdings, row by row, stops aside. */
  predicate SameHoldings(ps: seq<Position>, qs: seq<Position>)
  {
    |ps| == |qs| && forall k :: 0 <= k < |ps| ==> ps[k].(stop := None) == qs[k].(stop := None)
  }

  /** `r` came from `b` without a fill: cash and holdings stand, new orders only wait for approval. */
  predicate Unattended(start: real, b: Book, r: Book)
  {
    && r.fills == b.fills && Cash(start, r) == Cash(start, b) && SameHoldings(b.positions, r.positions)
    && |r.orders| >= |b.orders|
    && (forall k :: 0 <= k < |b.orders| ==>
          r.orders[k] == b.orders[k] || r.orders[k] == b.orders[k].(status := Cancelled))
    && (forall k :: |b.orders| <= k < |r.orders| ==> r.orders[k].status in {PendingApproval, Cancelled})
  }

  lemma UnattendedTrans(start: real, a: Book, b: Book, c: Book)
    requires Unattended(start, a, b) && Unattended(start, b, c)
    ensures Unattended(start, a, c)
  {
  }

  lemma LiveClosed(d: Desk, b: Book, symbol: string, ref: real)
    requires d.mode == Live && Consistent(b.positions)
    ensures Unattended(d.start, b, Closed(d, b, symbol, ref))
  {
  }

  lemma LiveExecuted(d: Desk, b: Book, symbol: string, c: Decision, ref: real, equity: real, status: RiskStatus)
    requires d.mode == Live && Consistent(b.positions)
    ensures Unattended(d.start, b, Executed(d, b, symbol, c, ref, equity, status))
  {
    hide BuyVerdict;
    LiveClosed(d, b, symbol, ref);
  }

  /** Rewriting a row with a new stop changes nothing else. */
  lemma StopRewrite(start: real, b: Book, p: Position, stop: real)
    requires Consistent(b.positions) && p in b.positions
    ensures Unattended(start, b, b.(positions := Upsert(b.positions, p.(stop := Some(stop)))))
  {
    hide Upsert;
    RewrittenRows(b.positions, p, stop);
  }

  lemma {:induction false} RewrittenRows(ps: seq<Position>, p: Position, stop: real)
    requires Consistent(ps) && p in ps
    ensures SameHoldings(ps, Upsert(ps, p.(stop := Some(stop))))
  {
    var rest := ps[1..];
    if ps[0].symbol != p.symbol {
      assert ps == [ps[0]] + rest;
      assert Consistent(rest);
      RewrittenRows(rest, p, stop);
    } else {
      var j :| 0 <= j < |ps| && ps[j] == p;
      assert j == 0;
    }
  }

  /** Between `b` and now nothing was traded unattended. */
  ghost function LiveInv(start: real, b: Book): Book -> bool { r => Unattended(start, b, r) }

  lemma LiveAboutTrading(d: Desk, b: Book)
    ensures AboutTrading(d, LiveInv(d.start, b)) && StopsKeep(LiveInv(d.start, b))
  {
    hide CancelledAll, Upsert, Unattended;
    forall r: Book, r': Book | Unattended(d.start, b, r) && SameTrading(d, r, r') ensures Unattended(d.start, b, r') {
      UnattendedTrans(d.start, b, r, r');
    }
    forall r: Book | Unattended(d.start, b, r) ensures Unattended(d.start, b, r.(orders := CancelledAll(r.orders))) {
      CancelIsUnattended(d.start, r);
      UnattendedTrans(d.start, b, r, r.(orders := CancelledAll(r.orders)));
    }
    forall r: Book, p: Position, stop
      | Consistent(r.positions) && Unattended(d.start, b, r) && p in r.positions && p.open
      ensures Unattended(d.start, b, WithStop(r, p, stop))
    {
      StopRewrite(d.start, r, p, stop);
      UnattendedTrans(d.start, b, r, WithStop(r, p, stop));
    }
  }

  lemma CancelIsUnattended(start: real, b: Book)
    ensures Unattended(start, b, b.(orders := CancelledAll(b.orders)))
  {
    hide CancelledAll;
    var now := CancelledAll(b.orders);
    forall k | 0 <= k < |b.orders| ensures now[k] == b.orders[k] || now[k] == b.orders[k].(status := Cancelled) {
      CancelAt(b.orders, k);
    }
  }

  lemma LiveStepsKeep(d: Desk, b: Book, equity: real, status: RiskStatus)
    requires d.mode == Live
    ensures ClosesKeep(d, LiveInv(d.start, b), x => true) && DecisionsKeep(d, LiveInv(d.start, b), equity, status)
  {
    hide Closed, Executed, Unattended;
    forall r: Book, symbol, ref | Consistent(r.positions) && Unattended(d.start, b, r)
      ensures Unattended(d.start, b, Closed(d, r, symbol, ref))
    {
      LiveClosed(d, r, symbol, ref);
      UnattendedTrans(d.start, b, r, Closed(d, r, symbol, ref));
    }
    forall r: Book, symbol, c, ref | Consistent(r.positions) && Unattended(d.start, b, r)
      ensures Unattended(d.start, b, Executed(d, r, symbol, c, ref, equity, status))
    {
      LiveExecuted(d, r, symbol, c, ref, equity, status);
      UnattendedTrans(d.start, b, r, Executed(d, r, symbol, c, ref, equity, status));
    }
  }

  lemma LiveStep(d: Desk, b: Book, r: Book, e: Event)
    requires d.mode == Live && Consistent(r.positions) && Unattended(d.start, b, r)
    ensures Unattended(d.start, b, Step(d, r, e))
  {
    hide Cycled, Triggered, Unattended, ClosesKeep, StopsKeep, DecisionsKeep, AboutTrading;
    LiveAboutTrading(d, b);
    match e {
      case Cycle(t) =>
        var equity := Equity(d, r, t.prices);
        LiveStepsKeep(d, b, equity, StatusOf(d.s, equity, t.base));
        CycleRule(d, r, t, LiveInv(d.start, b), x => true);
      case Trigger(prices) =>
        LiveStepsKeep(d, b, 0.0, Fine);
        TriggerRule(d, r, prices, LiveInv(d.start, b), x => true);
      case Reset =>
        Rebooked(d, LiveInv(d.start, b), r, WithRisk(r, false, Fine));
    }
  }

  /** In live mode no run ever fills an order, moves cash or changes a holding; every order it creates waits for
      approval. */
  lemma {:induction false} LiveNeverTrades(d: Desk, b: Book, es: seq<Event>)
    requires d.mode == Live && Consistent(b.positions)
    ensures Unattended(d.start, b, Run(d, b, es))
  {
    hide Step, Unattended;
    if es == [] {
      UnattendedRefl(d.start, b);
    } else {
      LiveNeverTrades(d, b, es[..|es| - 1]);
      LiveStep(d, b, Run(d, b, es[..|es| - 1]), es[|es| - 1]);
    }
  }

  lemma UnattendedRefl(start: real, b: Book)
    ensures Unattended(start, b, b)
  {
  }
}
