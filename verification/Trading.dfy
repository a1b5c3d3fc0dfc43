/** The trading state machine: order execution (src/surge/trading/execution.py) with the
    paper broker's fills (src/surge/trading/brokers.py), the decision cycle
    (src/surge/trading/orchestrator.py) and the kill switch
    (src/surge/trading/killswitch.py).  Prices, decisions and loss baselines are inputs. */
module Trading {
  import opened Prelude
  import opened Ledger
  import opened Risk

  datatype Mode = Paper | Live

  datatype Action = BuyIt | SellIt | HoldIt

  datatype Decision = Decision(action: Action, sizePct: Option<real>, stop: Option<real>, target: Option<real>)

  /** The engine's fixed surroundings. */
  datatype Desk = Desk(s: Settings, mode: Mode, start: real)

  /** Python's truth value of an optional price. */
  predicate Truthy(x: Option<real>) { x.Some? && x.value != 0.0 }

  // ---- execution --------------------------------------------------------------------------

  /** A paper fill: adverse slippage and the larger of minimum and per-share commission. */
  function PaperFill(s: Settings, symbol: string, side: Side, qty: real, ref: real): Fill
  {
    var slip := ref * s.slip;
    Fill(symbol, side, qty, if side == Buy then ref + slip else ref - slip,
         Max(s.commissionMin, s.commissionPerShare * qty))
  }

  /** Insert a market order, fill it on paper, mark it filled. */
  function Traded(d: Desk, b: Book, symbol: string, side: Side, qty: real, ref: real): (r: Book)
    requires qty > 0.0 && Consistent(b.positions)
    ensures Consistent(r.positions)
  {
    var f := PaperFill(d.s, symbol, side, qty, ref);
    var placed := b.(orders := b.orders + [Order(symbol, side, qty, Filled)]);
    AppliedConsistent(d.start, placed, f);
    Applied(d.start, placed, f)
  }

  /** A live order waits for a human. */
  function Staged(b: Book, symbol: string, side: Side, qty: real): Book
  {
    b.(orders := b.orders + [Order(symbol, side, qty, PendingApproval)])
  }

  /** `close_position`. */
  function Closed(d: Desk, b: Book, symbol: string, ref: real): (r: Book)
    requires Consistent(b.positions)
    ensures Consistent(r.positions)
  {
    RowIsIn(b.positions, symbol);
    var pos := GetPosition(b.positions, symbol);
    if pos.None? || pos.value.qty <= 0.0 then b
    else if d.mode == Live then Staged(b, symbol, Sell, pos.value.qty)
    else Traded(d, b, symbol, Sell, pos.value.qty, ref)
  }

  /** Attach the stop and target to the position just bought. */
  function Attached(b: Book, symbol: string, stop: real, target: real): (r: Book)
    requires Consistent(b.positions)
    ensures Consistent(r.positions)
  {
    RowIsIn(b.positions, symbol);
    var pos := GetPosition(b.positions, symbol);
    if pos.None? then b
    else
      var p := pos.value.(stop := Some(stop), target := Some(target));
      UpsertKeeps(b.positions, p);
      b.(positions := Upsert(b.positions, p))
  }

  function StopFor(s: Settings, c: Decision, ref: real): real
  {
    if Truthy(c.stop) then c.stop.value else ref * (1.0 - s.defaultStopPct)
  }

  function TargetFor(s: Settings, c: Decision, ref: real): real
  {
    if Truthy(c.target) then c.target.value else ref * (1.0 + s.defaultTargetPct)
  }

  /** What the risk engine says to buying `symbol` now. */
  function BuyVerdict(d: Desk, b: Book, symbol: string, c: Decision, ref: real, equity: real,
                      status: RiskStatus): Verdict
    requires ref > 0.0
  {
    var stop := StopFor(d.s, c, ref);
    Assess(d.s, Proposal(symbol, true, PositionSize(d.s, equity, ref, stop, c.sizePct), ref, stop),
           OpenRows(b.positions), equity, Cash(d.start, b), status)
  }

  /** `execute_decision`. */
  function Executed(d: Desk, b: Book, symbol: string, c: Decision, ref: real, equity: real,
                    status: RiskStatus): (r: Book)
    requires Consistent(b.positions)
    ensures Consistent(r.positions)
  {
    if ref <= 0.0 then b
    else match c.action
      case SellIt => Closed(d, b, symbol, ref)
      case HoldIt => b
      case BuyIt =>
        var v := BuyVerdict(d, b, symbol, c, ref, equity, status);
        if v.Vetoed? || v.qty <= 0 then b
        else if d.mode == Live then Staged(b, symbol, Buy, v.qty as real)
        else Attached(Traded(d, b, symbol, Buy, v.qty as real, ref), symbol,
                      StopFor(d.s, c, ref), TargetFor(d.s, c, ref))
  }

  // ---- exits ------------------------------------------------------------------------------

  function Trail(s: Settings, last: real): real { last * (1.0 - s.trailingPct) }

  /** The stop after observing `last`: a ratchet that rises only while the position is above its cost. */
  function Trailed(s: Settings, p: Position, last: real): Position
  {
    var trail := Trail(s, last);
    if s.trailing && (p.stop.None? || (trail > p.stop.value && last > p.avg)) then p.(stop := Some(trail)) else p
  }

  /** The position is to be closed at `last`. */
  predicate HitsExit(p: Position, last: real)
  {
    (Truthy(p.stop) && last <= p.stop.value) || (Truthy(p.target) && last >= p.target.value)
  }

  /** One turn of `_manage_exits` for the snapshot row `p`. */
  function Watched(d: Desk, b: Book, p: Position, prices: map<string, real>): (r: Book)
    requires Consistent(b.positions) && (p.open ==> p.qty > 0.0)
    ensures Consistent(r.positions)
  {
    if p.symbol !in prices then b
    else
      var last := prices[p.symbol];
      var p' := Trailed(d.s, p, last);
      UpsertKeeps(b.positions, p');
      var b' := if p' == p then b else b.(positions := Upsert(b.positions, p'));
      if HitsExit(p', last) then Closed(d, b', p.symbol, last) else b'
  }

  predicate Snapshots(ps: seq<Position>) { forall p :: p in ps && p.open ==> p.qty > 0.0 }

  function WatchedAll(d: Desk, b: Book, todo: seq<Position>, prices: map<string, real>): (r: Book)
    requires Consistent(b.positions) && Snapshots(todo)
    ensures Consistent(r.positions)
    decreases |todo|
  {
    if todo == [] then b
    else WatchedAll(d, Watched(d, b, todo[0], prices), todo[1..], prices)
  }

  // ---- kill switch ---------------------------------------------------------------------------

  predicate Halted(b: Book)
  {
    b.risk != [] && (b.risk[|b.risk| - 1].kill || b.risk[|b.risk| - 1].status == Halt)
  }

  predicate Working(o: Order) { o.status in {New, Submitted, PendingApproval, PartiallyFilled} }

  function CancelledAll(os: seq<Order>): (r: seq<Order>)
    ensures |r| == |os|
  {
    if os == [] then []
    else [if Working(os[0]) then os[0].(status := Cancelled) else os[0]] + CancelledAll(os[1..])
  }

  function Flattened(d: Desk, b: Book, todo: seq<Position>, prices: map<string, real>): (r: Book)
    requires Consistent(b.positions)
    ensures Consistent(r.positions)
    decreases |todo|
  {
    if todo == [] then b
    else
      var p := todo[0];
      Flattened(d, Closed(d, b, p.symbol, if p.symbol in prices then prices[p.symbol] else p.avg), todo[1..], prices)
  }

  function WithRisk(b: Book, kill: bool, status: RiskStatus): Book
  {
    b.(risk := b.risk + [RiskRow(kill, status)])
  }

  /** `trigger`: cancel what works, flatten what is open, record the halt. */
  function Triggered(d: Desk, b: Book, prices: map<string, real>): (r: Book)
    requires Consistent(b.positions)
    ensures Consistent(r.positions)
  {
    var cancelled := b.(orders := CancelledAll(b.orders));
    WithRisk(Flattened(d, cancelled, OpenRows(b.positions), prices), true, Halt)
  }

  // ---- one cycle --------------------------------------------------------------------------------

  function MarketValue(ps: seq<Position>, prices: map<string, real>): real
  {
    if ps == [] then 0.0
    else Times(ps[0].qty, if ps[0].symbol in prices then prices[ps[0].symbol] else ps[0].avg)
         + MarketValue(ps[1..], prices)
  }

  function Equity(d: Desk, b: Book, prices: map<string, real>): real
  {
    Cash(d.start, b) + MarketValue(OpenRows(b.positions), prices)
  }

  /** What a cycle observes: candidates in order, the last prices it kept (quoted and nonzero), the committee's
      decisions, the loss baselines. */
  datatype Tick = Tick(universe: seq<string>, prices: map<string, real>, decide: string -> Decision, base: Baselines)

  function Candidates(d: Desk, b: Book, t: Tick, todo: seq<string>, equity: real, status: RiskStatus): (r: Book)
    requires Consistent(b.positions)
    ensures Consistent(r.positions)
    decreases |todo|
  {
    if todo == [] then b
    else
      var symbol := todo[0];
      var b' := if symbol in t.prices
                then Executed(d, b, symbol, t.decide(symbol), t.prices[symbol], equity, status) else b;
      Candidates(d, b', t, todo[1..], equity, status)
  }

  function Snapshot(d: Desk, b: Book, prices: map<string, real>): Book
  {
    b.(accounts := b.accounts + [Account(Cash(d.start, b), Equity(d, b, prices))])
  }

  predicate Kills(status: RiskStatus) { status == Liquidate || status == Halt }

  /** `run_cycle`. */
  function Cycled(d: Desk, b: Book, t: Tick): (r: Book)
    requires Consistent(b.positions)
    ensures Consistent(r.positions)
  {
    if Halted(b) then b
    else
      var equity := Equity(d, b, t.prices);
      var status := StatusOf(d.s, equity, t.base);
      var b1 := WithRisk(b, Kills(status), status);
      if Kills(status) then Triggered(d, b1, t.prices)
      else
        var b2 := WatchedAll(d, b1, OpenRows(b1.positions), t.prices);
        Snapshot(d, Candidates(d, b2, t, t.universe, equity, status), t.prices)
  }

  datatype Event = Cycle(tick: Tick) | Trigger(prices: map<string, real>) | Reset

  function Step(d: Desk, b: Book, e: Event): (r: Book)
    requires Consistent(b.positions)
    ensures Consistent(r.positions)
  {
    match e
    case Cycle(t) => Cycled(d, b, t)
    case Trigger(prices) => Triggered(d, b, prices)
    case Reset => WithRisk(b, false, Fine)
  }

  function Run(d: Desk, b: Book, es: seq<Event>): (r: Book)
    requires Consistent(b.positions)
    ensures Consistent(r.positions)
  {
    if es == [] then b else Step(d, Run(d, b, es[..|es| - 1]), es[|es| - 1])
  }

  // ---- the code -----------------------------------------------------------------------------------

  class TradingEngine {
    const d: Desk
    const store: Store

    constructor (s: Settings, mode: Mode, store: Store)
      ensures this.d == Desk(s, mode, store.start) && this.store == store
    {
      this.d := Desk(s, mode, store.start);
      this.store := store;
    }

    ghost predicate Valid()
      reads this, store
    {
      d.start == store.start && Consistent(store.positions)
    }

    method PlaceOnPaper(symbol: string, side: Side, qty: real, ref: real)
      requires Valid() && qty > 0.0
      modifies store
      ensures Valid() && store.View() == Traded(d, old(store.View()), symbol, side, qty, ref)
    {
      hide Applied;
      var id := store.InsertOrder(Order(symbol, side, qty, New));
      ghost var placed := store.View();
      var fill := PaperFill(d.s, symbol, side, qty, ref);
      store.ApplyFill(fill);
      AppliedKeepsOrders(d.start, placed, fill, old(store.orders) + [Order(symbol, side, qty, Filled)]);
      store.UpdateOrderStatus(id, Filled);
    }

    method Stage(symbol: string, side: Side, qty: real)
      requires Valid()
      modifies store
      ensures Valid() && store.View() == Staged(old(store.View()), symbol, side, qty)
    {
      var _ := store.InsertOrder(Order(symbol, side, qty, PendingApproval));
    }

    method ClosePosition(symbol: string, ref: real)
      requires Valid()
      modifies store
      ensures Valid() && store.View() == Closed(d, old(store.View()), symbol, ref)
    {
      hide Traded;
      RowIsIn(store.positions, symbol);
      var pos := GetPosition(store.positions, symbol);
      if pos.None? || pos.value.qty <= 0.0 {
        return;
      }
      if d.mode == Live {
        Stage(symbol, Sell, pos.value.qty);
      } else {
        PlaceOnPaper(symbol, Sell, pos.value.qty, ref);
      }
    }

    method ExecuteDecision(symbol: string, c: Decision, ref: real, equity: real, status: RiskStatus)
      requires Valid()
      modifies store
      ensures Valid() && store.View() == Executed(d, old(store.View()), symbol, c, ref, equity, status)
    {
      hide Traded, Assess, PositionSize;
      if ref <= 0.0 {
        return;
      }
      if c.action == SellIt {
        ClosePosition(symbol, ref);
        return;
      }
      if c.action != BuyIt {
        return;
      }
      var stop := StopFor(d.s, c, ref);
      var qty := PositionSize(d.s, equity, ref, stop, c.sizePct);
      var cash := store.LatestCash();
      var verdict := AssessTrade(d.s, Proposal(symbol, true, qty, ref, stop), OpenRows(store.positions), equity, cash,
                                 status);
      if verdict.Vetoed? || verdict.qty <= 0 {
        return;
      }
      if d.mode == Live {
        Stage(symbol, Buy, verdict.qty as real);
        return;
      }
      PlaceOnPaper(symbol, Buy, verdict.qty as real, ref);
      RowIsIn(store.positions, symbol);
      var pos := GetPosition(store.positions, symbol);
      if pos.Some? {
        var p := pos.value.(stop := Some(stop), target := Some(TargetFor(d.s, c, ref)));
        UpsertKeeps(store.positions, p);
        store.UpsertPosition(p);
      }
    }

    /** Ratchet one position's stop, then close it if the price has met its stop or target. */
    method WatchPosition(p: Position, prices: map<string, real>)
      requires Valid() && (p.open ==> p.qty > 0.0)
      modifies store
      ensures Valid() && store.View() == Watched(d, old(store.View()), p, prices)
    {
      hide Closed, HitsExit, Upsert, Trail;
      if p.symbol !in prices {
        return;
      }
      var last := prices[p.symbol];
      var p' := p;
      if d.s.trailing {
        var potential := Trail(d.s, last);
        if p.stop.None? || potential > p.stop.value {
          if p.stop.None? || (last > p.avg && potential > p.stop.value) {
            p' := p.(stop := Some(potential));
            UpsertKeeps(store.positions, p');
            store.UpsertPosition(p');
          }
        }
      }
      if HitsExit(p', last) {
        ClosePosition(p.symbol, last);
      }
    }

    method ManageExits(prices: map<string, real>)
      requires Valid()
      modifies store
      ensures Valid()
      ensures store.View() == WatchedAll(d, old(store.View()), OpenRows(old(store.positions)), prices)
    {
      hide Watched;
      var rows := OpenRows(store.positions);
      for k := 0 to |rows|
        invariant Valid() && Snapshots(rows[k..]) && Snapshots(rows)
        invariant WatchedAll(d, store.View(), rows[k..], prices) == WatchedAll(d, old(store.View()), rows, prices)
      {
        assert rows[k] in rows && rows[k..][1..] == rows[k + 1..];
        WatchPosition(rows[k], prices);
      }
    }

    method CancelWorking()
      requires Valid()
      modifies store
      ensures Valid()
      ensures store.View() == old(store.View()).(orders := CancelledAll(old(store.orders)))
    {
      ghost var was, now := store.orders, CancelledAll(store.orders);
      hide CancelledAll;
      var k := 0;
      while k < |store.orders|
        invariant 0 <= k <= |store.orders| == |was|
        invariant Consistent(store.positions) && store.View() == old(store.View()).(orders := store.orders)
        invariant forall j :: 0 <= j < k ==> store.orders[j] == now[j]
        invariant forall j :: k <= j < |was| ==> store.orders[j] == was[j]
      {
        CancelAt(was, k);
        if Working(store.orders[k]) {
          store.UpdateOrderStatus(k, Cancelled);
        }
        k := k + 1;
      }
      assert store.orders == now;
    }

    method FlattenAll(prices: map<string, real>)
      requires Valid()
      modifies store
      ensures Valid()
      ensures store.View() == Flattened(d, old(store.View()), OpenRows(old(store.positions)), prices)
    {
      hide Closed, OpenRows;
      ghost var before := store.View();
      var rows := OpenRows(store.positions);
      for j := 0 to |rows|
        invariant Valid()
        invariant Flattened(d, store.View(), rows[j..], prices) == Flattened(d, before, rows, prices)
      {
        assert rows[j..][1..] == rows[j + 1..];
        ClosePosition(rows[j].symbol, if rows[j].symbol in prices then prices[rows[j].symbol] else rows[j].avg);
      }
    }

    method FireKillSwitch(prices: map<string, real>)
      requires Valid()
      modifies store
      ensures Valid() && store.View() == Triggered(d, old(store.View()), prices)
    {
      hide Flattened, CancelledAll;
      CancelWorking();
      FlattenAll(prices);
      store.InsertRiskState(true, Halt);
    }

    method ResetHalt()
      requires Valid()
      modifies store
      ensures Valid() && store.View() == WithRisk(old(store.View()), false, Fine)
    {
      store.InsertRiskState(false, Fine);
    }

    method RunCandidates(t: Tick, equity: real, status: RiskStatus)
      requires Valid()
      modifies store
      ensures Valid() && store.View() == Candidates(d, old(store.View()), t, t.universe, equity, status)
    {
      hide Executed;
      ghost var before := store.View();
      for k := 0 to |t.universe|
        invariant Valid()
        invariant Candidates(d, store.View(), t, t.universe[k..], equity, status)
               == Candidates(d, before, t, t.universe, equity, status)
      {
        assert t.universe[k..][1..] == t.universe[k + 1..];
        var symbol := t.universe[k];
        if symbol in t.prices {
          ExecuteDecision(symbol, t.decide(symbol), t.prices[symbol], equity, status);
        }
      }
    }

    method RunCycle(t: Tick)
      requires Valid()
      modifies store
      ensures Valid() && store.View() == Cycled(d, old(store.View()), t)
    {
      hide Candidates, WatchedAll, Triggered, StatusOf, MarketValue, OpenRows;
      if store.risk != [] && (store.risk[|store.risk| - 1].kill || store.risk[|store.risk| - 1].status == Halt) {
        return;
      }
      var cash := store.LatestCash();
      var equity := cash + MarketValue(OpenRows(store.positions), t.prices);
      var status := StatusOf(d.s, equity, t.base);
      store.InsertRiskState(status == Liquidate || status == Halt, status);
      if status == Liquidate || status == Halt {
        FireKillSwitch(t.prices);
        return;
      }
      ManageExits(t.prices);
      RunCandidates(t, equity, status);
      cash := store.LatestCash();
      store.SaveAccount(cash, cash + MarketValue(OpenRows(store.positions), t.prices));
    }

    method RunEvent(e: Event)
      requires Valid()
      modifies store
      ensures Valid() && store.View() == Step(d, old(store.View()), e)
    {
      hide Cycled, Triggered;
      match e {
        case Cycle(t) => RunCycle(t);
        case Trigger(prices) => FireKillSwitch(prices);
        case Reset => ResetHalt();
      }
    }

    /** The life of the system: scheduled cycles and the operator's triggers and resets, one after the other. */
    method RunEvents(es: seq<Event>)
      requires Valid()
      modifies store
      ensures Valid() && store.View() == Run(d, old(store.View()), es)
    {
      hide Step;
      ghost var before := store.View();
      for k := 0 to |es|
        invariant Valid() && store.View() == Run(d, before, es[..k])
      {
        assert es[..k + 1][..k] == es[..k];
        RunEvent(es[k]);
      }
      assert es[..|es|] == es;
    }
  }

  /** Applying a fill neither reads nor changes the order table. */
  lemma AppliedKeepsOrders(start: real, b: Book, f: Fill, orders: seq<Order>)
    requires f.qty > 0.0 && Consistent(b.positions)
    ensures Applied(start, b.(orders := orders), f) == Applied(start, b, f).(orders := orders)
    ensures Applied(start, b, f).orders == b.orders
  {
    hide OpenCost, Upsert, AfterBuy, AfterSell, Times;
  }

  lemma {:induction false} CancelAt(os: seq<Order>, k: nat)
    requires k < |os|
    ensures CancelledAll(os)[k] == if Working(os[k]) then os[k].(status := Cancelled) else os[k]
  {
    if k > 0 { CancelAt(os[1..], k - 1); }
  }
}
