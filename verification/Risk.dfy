/** The risk engine (src/surge/trading/risk.py): sizing, the chained pre-trade gates
    and the loss-limit status. */
module Risk {
  import opened Prelude
  import opened Ledger

  datatype Settings = Settings(maxPositionPct: real, maxConcurrent: nat, maxPortfolioRisk: real, perTradeRisk: real,
                               defaultStopPct: real, defaultTargetPct: real, trailing: bool, trailingPct: real,
                               dailyLimit: real, weeklyLimit: real, monthlyLimit: real, slip: real,
                               commissionPerShare: real, commissionMin: real)

  function Shares(n: int, price: real): real { n as real * price }

  // ---- sizing -----------------------------------------------------------------------------

  /** Loss per share if stopped out, floored at 1% of the entry price. */
  function PerShareRisk(entry: real, distance: real): (r: real)
    ensures entry > 0.0 ==> r > 0.0
    ensures r >= distance
  {
    Max(distance, entry * 0.01)
  }

  /** The most a single name may be worth. */
  function PositionCap(s: Settings, equity: real): real { s.maxPositionPct * equity }

  /** How many whole shares of `price` fit in `x`. */
  function Fits(x: real, price: real): int
    requires price > 0.0
  {
    (x / price).Floor
  }

  function SizeCap(s: Settings, sizePct: Option<real>): real
  {
    var wanted := if sizePct.Some? && sizePct.value > 0.0 then sizePct.value else s.maxPositionPct;
    Min(s.maxPositionPct, Max(0.0, wanted))
  }

  /** The share of the full position a requested size stands for. */
  function SizeRatio(s: Settings, sizePct: Option<real>): real
  {
    if s.maxPositionPct > 0.0 then SizeCap(s, sizePct) / s.maxPositionPct else 1.0
  }

  /** Money the trade may lose, and money it may tie up. */
  function RiskBudget(s: Settings, equity: real, sizePct: Option<real>): real
  {
    s.perTradeRisk * equity * SizeRatio(s, sizePct)
  }

  function CapBudget(s: Settings, equity: real, sizePct: Option<real>): real { SizeCap(s, sizePct) * equity }

  /** `position_size`. */
  function PositionSize(s: Settings, equity: real, entry: real, stop: real, sizePct: Option<real>): int
  {
    if entry <= 0.0 then 0
    else
      var byRisk := RiskBudget(s, equity, sizePct) / PerShareRisk(entry, entry - stop);
      var byCap := CapBudget(s, equity, sizePct) / entry;
      var n := Min(byRisk, byCap).Floor;
      if n >= 0 then n else 0
  }

  // ---- portfolio risk ------------------------------------------------------------------------

  /** What a position loses if stopped out; without a stop the default distance counts. */
  function PositionRisk(s: Settings, p: Position): real
  {
    var stop := if p.stop.Some? && p.stop.value != 0.0 then p.stop.value else p.avg * (1.0 - s.defaultStopPct);
    Abs(p.qty) * Abs(p.avg - stop)
  }

  function PortfolioRisk(s: Settings, ps: seq<Position>): real
  {
    if ps == [] then 0.0 else PositionRisk(s, ps[0]) + PortfolioRisk(s, ps[1..])
  }

  // ---- the gates -------------------------------------------------------------------------------

  datatype Veto = SystemHalted | EntriesHalted | NonPositive | TooManyPositions | OverPositionCap | RiskExhausted
                | OverRiskBudget | NoCash

  datatype Verdict = Approved(qty: int) | Vetoed(why: Veto)

  const CLUSTERS: seq<set<string>> := [{"SOXL", "SOXS", "TQQQ", "SQQQ", "TECL", "TECS", "NVDL", "NVD"},
                                       {"FAS", "FAZ"}, {"TNA", "TZA"}, {"LABU", "LABD"}]

  predicate Holds(ps: seq<Position>, symbol: string) { exists p :: p in ps && p.symbol == symbol }

  /** Another member of a cluster that contains `symbol` is already held. */
  predicate Crowded(ps: seq<Position>, symbol: string)
  {
    exists k :: 0 <= k < |CLUSTERS| && symbol in CLUSTERS[k]
                && exists p :: p in ps && p.symbol in CLUSTERS[k] && p.symbol != symbol
  }

  function Symbols(ps: seq<Position>): set<string> { set p | p in ps :: p.symbol }

  /** A trade proposed to the risk engine. */
  datatype Proposal = Proposal(symbol: string, opening: bool, qty: int, entry: real, stop: real)

  function Half(n: int): int
  {
    var h := (n as real * 0.50).Floor;
    if h >= 1 then h else 1
  }

  /** Gate 3: the notional cap. */
  function CapQty(s: Settings, qty: int, entry: real, equity: real): int
    requires entry > 0.0
  {
    if Shares(qty, entry) > PositionCap(s, equity) then Fits(PositionCap(s, equity), entry) else qty
  }

  /** Gate 4: what is left of the at-risk budget. */
  function Room(s: Settings, equity: real, ps: seq<Position>): real
  {
    s.maxPortfolioRisk * equity - PortfolioRisk(s, ps)
  }

  function RiskQty(qty: int, entry: real, stop: real, room: real): int
    requires entry > 0.0
  {
    if Shares(qty, Abs(entry - stop)) > room then Fits(room, PerShareRisk(entry, Abs(entry - stop))) else qty
  }

  /** Gate 5: what the cash affords. */
  function CashQty(qty: int, entry: real, cash: real): int
    requires entry > 0.0
  {
    if Shares(qty, entry) > cash + 0.000001 then
      var affordable := Fits(cash, entry);
      if qty <= affordable then qty else affordable
    else qty
  }

  /** `assess` as a function of what it reads. */
  function Assess(s: Settings, t: Proposal, ps: seq<Position>, equity: real, cash: real, status: RiskStatus): Verdict
    requires t.entry > 0.0
  {
    if status == Halt || status == Liquidate then Vetoed(SystemHalted)
    else if status == HaltNew && t.opening then Vetoed(EntriesHalted)
    else if t.qty <= 0 then Vetoed(NonPositive)
    else if t.opening && !Holds(ps, t.symbol) && |Symbols(ps)| >= s.maxConcurrent then Vetoed(TooManyPositions)
    else
      var capped := CapQty(s, t.qty, t.entry, equity);
      if capped <= 0 then Vetoed(OverPositionCap)
      else
        var crowd := if t.opening && Crowded(ps, t.symbol) then Half(capped) else capped;
        var room := Room(s, equity, ps);
        if Shares(crowd, Abs(t.entry - t.stop)) > room && room <= 0.0 then Vetoed(RiskExhausted)
        else
          var risked := RiskQty(crowd, t.entry, t.stop, room);
          if risked <= 0 then Vetoed(OverRiskBudget)
          else
            var final := CashQty(risked, t.entry, cash);
            if final <= 0 then Vetoed(NoCash) else Approved(final)
  }

  /** The code: one running quantity through successive gates. */
  method AssessTrade(s: Settings, t: Proposal, ps: seq<Position>, equity: real, cash: real, status: RiskStatus)
    returns (r: Verdict)
    requires t.entry > 0.0
    ensures r == Assess(s, t, ps, equity, cash, status)
  {
    hide Shares, PortfolioRisk, PerShareRisk, PositionCap, Fits, Half, Crowded;
    if status == Halt || status == Liquidate {
      return Vetoed(SystemHalted);
    }
    if status == HaltNew && t.opening {
      return Vetoed(EntriesHalted);
    }
    if t.qty <= 0 {
      return Vetoed(NonPositive);
    }
    var held := Symbols(ps);
    if t.opening && t.symbol !in held && |held| >= s.maxConcurrent {
      return Vetoed(TooManyPositions);
    }
    var adjusted := t.qty;
    var cap := PositionCap(s, equity);
    if Shares(t.qty, t.entry) > cap {
      adjusted := Fits(cap, t.entry);
      if adjusted <= 0 {
        return Vetoed(OverPositionCap);
      }
    }
    if t.opening && Crowded(ps, t.symbol) {
      HalfRange(adjusted);
      adjusted := Half(adjusted);
    }
    var distance := Abs(t.entry - t.stop);
    var room := Room(s, equity, ps);
    if Shares(adjusted, distance) > room {
      if room <= 0.0 {
        return Vetoed(RiskExhausted);
      }
      adjusted := Fits(room, PerShareRisk(t.entry, distance));
      if adjusted <= 0 {
        return Vetoed(OverRiskBudget);
      }
    }
    if Shares(adjusted, t.entry) > cash + 0.000001 {
      var affordable := Fits(cash, t.entry);
      adjusted := if adjusted <= affordable then adjusted else affordable;
      if adjusted <= 0 {
        return Vetoed(NoCash);
      }
    }
    r := Approved(adjusted);
  }

  // ---- what approval guarantees ---------------------------------------------------------------------

  lemma SharesMono(m: int, n: int, price: real)
    requires m <= n && price >= 0.0
    ensures Shares(m, price) <= Shares(n, price)
  {
    MulMono(m as real, n as real, price);
  }

  /** `Fits` is the largest quantity that fits. */
  lemma FitsExactly(x: real, price: real, m: int)
    requires price > 0.0
    ensures Shares(m, price) <= x <==> m <= Fits(x, price)
  {
    var q, k := x / price, m as real;
    assert q * price == x;
    assert m <= q.Floor <==> k <= q;
    if k <= q { MulMono(k, q, price); } else { MulStrict(q, k, price); }
  }

  lemma CapQtyFits(s: Settings, qty: int, entry: real, equity: real)
    requires entry > 0.0
    ensures var n := CapQty(s, qty, entry, equity);
            && n <= qty && Shares(n, entry) <= PositionCap(s, equity)
            && forall m: int :: n < m <= qty ==> Shares(m, entry) > PositionCap(s, equity)
  {
    hide Shares, Fits, PositionCap;
    forall m: int ensures Shares(m, entry) <= PositionCap(s, equity) <==> m <= Fits(PositionCap(s, equity), entry) {
      FitsExactly(PositionCap(s, equity), entry, m);
    }
  }

  lemma RiskQtyFits(qty: int, entry: real, stop: real, room: real)
    requires entry > 0.0 && qty >= 1
    ensures var n, psr := RiskQty(qty, entry, stop, room), PerShareRisk(entry, Abs(entry - stop));
            && (n >= 1 ==> n <= qty && Shares(n, Abs(entry - stop)) <= room)
            && forall m: int :: n < m <= qty && m >= 1 ==> Shares(m, psr) > room
  {
    hide Shares, Fits, PerShareRisk;
    var d := Abs(entry - stop);
    var psr := PerShareRisk(entry, d);
    forall m: int ensures Shares(m, psr) <= room <==> m <= Fits(room, psr) {
      FitsExactly(room, psr, m);
    }
    var n := Fits(room, psr);
    if n >= 1 { SharesRisk(n, d, psr); }
    SharesRisk(qty, d, psr);
  }

  lemma SharesRisk(n: int, d: real, psr: real)
    requires n >= 0 && d <= psr
    ensures Shares(n, d) <= Shares(n, psr)
  {
    MulMono(d, psr, n as real);
  }

  lemma CashQtyFits(qty: int, entry: real, cash: real)
    requires entry > 0.0
    ensures var n := CashQty(qty, entry, cash);
            && n <= qty && Shares(n, entry) <= cash + 0.000001
            && forall m: int :: n < m <= qty ==> Shares(m, entry) > cash
  {
    hide Shares, Fits;
    forall m: int ensures Shares(m, entry) <= cash <==> m <= Fits(cash, entry) {
      FitsExactly(cash, entry, m);
    }
  }

  lemma HalfRange(n: int)
    requires n >= 1
    ensures 1 <= Half(n) <= n && (Half(n) == 1 || 2 * Half(n) <= n)
  {
  }

  /** All caps at once for a quantity. */
  ghost predicate WithinCaps(s: Settings, t: Proposal, ps: seq<Position>, equity: real, cash: real, n: int)
  {
    && Shares(n, t.entry) <= PositionCap(s, equity)
    && Shares(n, Abs(t.entry - t.stop)) <= Room(s, equity, ps)
    && Shares(n, t.entry) <= cash + 0.000001
  }

  /** Approval leaves between 1 and the proposed quantity and meets every cap together: no later shrink undoes an
      earlier one, and the adjusted size never falls back to the raw one. */
  lemma ApprovedWithinCaps(s: Settings, t: Proposal, ps: seq<Position>, equity: real, cash: real, status: RiskStatus)
    requires t.entry > 0.0 && Assess(s, t, ps, equity, cash, status).Approved?
    ensures var n := Assess(s, t, ps, equity, cash, status).qty;
            1 <= n <= t.qty && WithinCaps(s, t, ps, equity, cash, n)
    ensures status != Halt && status != Liquidate && (t.opening ==> status != HaltNew)
    ensures t.opening && !Holds(ps, t.symbol) ==> |Symbols(ps)| < s.maxConcurrent
    ensures var n := Assess(s, t, ps, equity, cash, status).qty;
            t.opening && Crowded(ps, t.symbol) ==> n == 1 || 2 * n <= t.qty
  {
    hide Shares, CapQty, Half, RiskQty, CashQty, Room, PerShareRisk, Holds, Crowded, Symbols, PositionCap;
    var capped := CapQty(s, t.qty, t.entry, equity);
    var crowd := if t.opening && Crowded(ps, t.symbol) then Half(capped) else capped;
    var risked := RiskQty(crowd, t.entry, t.stop, Room(s, equity, ps));
    var n := CashQty(risked, t.entry, cash);
    CapQtyFits(s, t.qty, t.entry, equity);
    HalfRange(capped);
    RiskQtyFits(crowd, t.entry, t.stop, Room(s, equity, ps));
    CashQtyFits(risked, t.entry, cash);
    SharesMono(n, risked, Abs(t.entry - t.stop));
    SharesMono(n, capped, t.entry);
  }

  /** A larger quantity would break a cap (with the 1% floor on the stop distance, and no cash tolerance). */
  ghost predicate BreaksACap(s: Settings, t: Proposal, ps: seq<Position>, equity: real, cash: real, n: int)
  {
    || Shares(n, t.entry) > PositionCap(s, equity)
    || Shares(n, PerShareRisk(t.entry, Abs(t.entry - t.stop))) > Room(s, equity, ps)
    || Shares(n, t.entry) > cash
  }

  /** The gates shrink no more than they must: outside a crowded cluster every larger quantity breaks a cap. */
  lemma ShrinksNoMoreThanNeeded(s: Settings, t: Proposal, ps: seq<Position>, equity: real, cash: real,
                                status: RiskStatus, m: int)
    requires t.entry > 0.0 && !(t.opening && Crowded(ps, t.symbol)) && 1 <= m <= t.qty
    requires match Assess(s, t, ps, equity, cash, status)
             case Approved(n) => m > n
             case Vetoed(why) => why in {OverPositionCap, RiskExhausted, OverRiskBudget, NoCash}
    ensures BreaksACap(s, t, ps, equity, cash, m)
  {
    hide Shares, CapQty, Half, RiskQty, CashQty, Room, PerShareRisk, Holds, Crowded, Symbols, PositionCap;
    var capped, room := CapQty(s, t.qty, t.entry, equity), Room(s, equity, ps);
    CapQtyFits(s, t.qty, t.entry, equity);
    if m <= capped {
      var risked := RiskQty(capped, t.entry, t.stop, room);
      RiskQtyFits(capped, t.entry, t.stop, room);
      CashQtyFits(risked, t.entry, cash);
      ExhaustedBreaks(m, t.entry, t.stop, room);
    }
  }

  lemma ExhaustedBreaks(m: int, entry: real, stop: real, room: real)
    requires entry > 0.0 && m >= 1
    ensures room <= 0.0 ==> Shares(m, PerShareRisk(entry, Abs(entry - stop))) > room
  {
    assert m as real * PerShareRisk(entry, Abs(entry - stop)) > 0.0;
  }

  // ---- what the notional cap bounds ------------------------------------------------------------------

  /** Shares of `symbol` already in the portfolio. */
  function HeldShares(ps: seq<Position>, symbol: string): real
  {
    if ps == [] then 0.0 else (if ps[0].symbol == symbol then ps[0].qty else 0.0) + HeldShares(ps[1..], symbol)
  }

  predicate LongOnly(ps: seq<Position>) { forall p :: p in ps ==> p.qty > 0.0 }

  lemma {:induction false} HeldMeansHolds(ps: seq<Position>, symbol: string)
    requires LongOnly(ps)
    ensures HeldShares(ps, symbol) >= 0.0 && (HeldShares(ps, symbol) > 0.0 <==> Holds(ps, symbol))
  {
    if ps != [] {
      HeldMeansHolds(ps[1..], symbol);
      assert ps == [ps[0]] + ps[1..];
      assert Holds(ps, symbol) <==> ps[0].symbol == symbol || Holds(ps[1..], symbol);
    }
  }

  /** If the buy is approved, held and bought shares together are worth no more than the cap. */
  ghost predicate StaysWithinCap(s: Settings, t: Proposal, ps: seq<Position>, equity: real, cash: real,
                                 status: RiskStatus)
    requires t.entry > 0.0
  {
    var v := Assess(s, t, ps, equity, cash, status);
    v.Approved? ==> Times(HeldShares(ps, t.symbol) + v.qty as real, t.entry) <= PositionCap(s, equity)
  }

  /** Every buy of `symbol` at `entry` does, whatever its size and stop, the equity, the cash and the status. */
  ghost predicate BuysStayWithinCap(s: Settings, ps: seq<Position>, symbol: string, entry: real)
    requires entry > 0.0
  {
    forall qty, stop, equity, cash, status ::
      StaysWithinCap(s, Proposal(symbol, true, qty, entry, stop), ps, equity, cash, status)
  }

  /** Limits that allow a position at all. */
  predicate Permissive(s: Settings) { s.maxPositionPct > 0.0 && s.maxPortfolioRisk > 0.0 && s.maxConcurrent >= 1 }

  lemma NewHoldingWithinCap(s: Settings, t: Proposal, ps: seq<Position>, equity: real, cash: real, status: RiskStatus)
    requires t.entry > 0.0 && HeldShares(ps, t.symbol) == 0.0
    ensures StaysWithinCap(s, t, ps, equity, cash, status)
  {
    hide Assess, PositionCap, HeldShares;
    if Assess(s, t, ps, equity, cash, status).Approved? { ApprovedWithinCaps(s, t, ps, equity, cash, status); }
  }

  /** An equity at which `m` shares of price `entry` are worth exactly the cap. */
  function CapEquity(s: Settings, m: nat, entry: real): (e: real)
    requires s.maxPositionPct > 0.0 && entry > 0.0
    ensures PositionCap(s, e) == Shares(m, entry)
  {
    var e := m as real * entry / s.maxPositionPct;
    assert e * s.maxPositionPct == m as real * entry;
    e
  }

  /** Enough shares that the portfolio's risk fits the budget at that equity. */
  function EnoughShares(s: Settings, risk: real, entry: real): (m: nat)
    requires Permissive(s) && entry > 0.0
    ensures m >= 1 && s.maxPortfolioRisk * CapEquity(s, m, entry) >= risk
  {
    var unit := s.maxPortfolioRisk * CapEquity(s, 1, entry);
    UnitPositive(s, entry);
    var n := (risk / unit).Floor + 1;
    var m := if n >= 1 then n else 1;
    EnoughArithmetic(s, risk, entry, unit, m);
    m
  }

  lemma UnitPositive(s: Settings, entry: real)
    requires Permissive(s) && entry > 0.0
    ensures s.maxPortfolioRisk * CapEquity(s, 1, entry) > 0.0
  {
    var e := CapEquity(s, 1, entry);
    assert s.maxPositionPct * e == entry;
    assert e > 0.0 by { assert e <= 0.0 ==> s.maxPositionPct * e <= 0.0; }
  }

  lemma EnoughArithmetic(s: Settings, risk: real, entry: real, unit: real, m: nat)
    requires Permissive(s) && entry > 0.0 && unit == s.maxPortfolioRisk * CapEquity(s, 1, entry) > 0.0
    requires m as real >= risk / unit
    ensures s.maxPortfolioRisk * CapEquity(s, m, entry) >= risk
  {
    var e, e', k := CapEquity(s, 1, entry), CapEquity(s, m, entry), m as real;
    CapEquityScales(s, m, entry);
    assert s.maxPortfolioRisk * (k * e) == k * unit;
    var q := risk / unit;
    assert q * unit == risk;
    MulMono(q, k, unit);
  }

  lemma CapEquityScales(s: Settings, m: nat, entry: real)
    requires s.maxPositionPct > 0.0 && entry > 0.0
    ensures CapEquity(s, m, entry) == m as real * CapEquity(s, 1, entry)
  {
    var pct, e, e', k := s.maxPositionPct, CapEquity(s, 1, entry), CapEquity(s, m, entry), m as real;
    var scaled := k * e;
    assert pct * e == entry && pct * e' == k * entry;
    assert pct * scaled == k * (pct * e);
    var gap := e' - scaled;
    assert pct * gap == pct * e' - pct * scaled;
    assert gap > 0.0 ==> pct * gap > 0.0;
    assert gap < 0.0 ==> pct * gap < 0.0;
  }

  /** A symbol that is already held can be bought up to the whole cap once more. */
  lemma HeldCanBeDoubled(s: Settings, ps: seq<Position>, symbol: string, entry: real)
    requires Permissive(s) && entry > 0.0 && LongOnly(ps) && !Crowded(ps, symbol) && HeldShares(ps, symbol) > 0.0
    ensures !BuysStayWithinCap(s, ps, symbol, entry)
  {
    var m := EnoughShares(s, PortfolioRisk(s, ps), entry);
    var t, equity, cash := Proposal(symbol, true, m, entry, entry), CapEquity(s, m, entry), Shares(m, entry);
    hide Assess, PortfolioRisk, Crowded, Shares, PositionCap, HeldShares, Holds, EnoughShares, CapEquity;
    HeldMeansHolds(ps, symbol);
    FullSizeApproved(s, ps, t, equity, cash);
    MoreCostsMore(HeldShares(ps, symbol), m, entry);
    assert !StaysWithinCap(s, t, ps, equity, cash, Fine);
  }

  /** A buy that just fits the cap and the cash, with its stop at its price, passes every gate. */
  lemma FullSizeApproved(s: Settings, ps: seq<Position>, t: Proposal, equity: real, cash: real)
    requires t.entry > 0.0 && t.opening && t.qty >= 1 && t.stop == t.entry
    requires Holds(ps, t.symbol) && !Crowded(ps, t.symbol)
    requires Shares(t.qty, t.entry) == PositionCap(s, equity) == cash && Room(s, equity, ps) >= 0.0
    ensures Assess(s, t, ps, equity, cash, Fine) == Approved(t.qty)
  {
    hide Crowded, Shares, Fits, PositionCap, Holds, Symbols, Room, PerShareRisk;
    NoDistance(t.qty, t.entry);
  }

  lemma NoDistance(m: nat, entry: real)
    ensures Shares(m, Abs(entry - entry)) == 0.0
  {
  }

  lemma MoreCostsMore(held: real, m: nat, entry: real)
    requires held > 0.0 && entry > 0.0
    ensures Times(held + m as real, entry) > Shares(m, entry)
  {
    assert held * entry > 0.0;
    assert (held + m as real) * entry == held * entry + m as real * entry;
  }

  lemma NewHoldingsWithinCap(s: Settings, ps: seq<Position>, symbol: string, entry: real)
    requires entry > 0.0 && HeldShares(ps, symbol) == 0.0
    ensures BuysStayWithinCap(s, ps, symbol, entry)
  {
    hide Assess, StaysWithinCap, HeldShares;
    forall qty, stop, equity, cash, status
      ensures StaysWithinCap(s, Proposal(symbol, true, qty, entry, stop), ps, equity, cash, status)
    {
      NewHoldingWithinCap(s, Proposal(symbol, true, qty, entry, stop), ps, equity, cash, status);
    }
  }

  /** The cap bounds what is held, in a portfolio without crowding, exactly when the symbol is new to it. */
  lemma CapBoundsExactlyNewHoldings(s: Settings, ps: seq<Position>, symbol: string, entry: real)
    requires Permissive(s) && entry > 0.0 && LongOnly(ps) && !Crowded(ps, symbol)
    ensures BuysStayWithinCap(s, ps, symbol, entry) <==> HeldShares(ps, symbol) == 0.0
  {
    hide Assess, StaysWithinCap, HeldShares, Crowded;
    HeldMeansHolds(ps, symbol);
    if HeldShares(ps, symbol) == 0.0 {
      NewHoldingsWithinCap(s, ps, symbol, entry);
    } else {
      HeldCanBeDoubled(s, ps, symbol, entry);
    }
  }

  /** Every portfolio that holds `held` shares of the symbol stays within the cap. */
  ghost predicate CapBoundsHolding(s: Settings, symbol: string, entry: real, held: real)
    requires entry > 0.0
  {
    forall ps :: LongOnly(ps) && HeldShares(ps, symbol) == held ==> BuysStayWithinCap(s, ps, symbol, entry)
  }

  /** Over all portfolios, crowded ones included: exactly when nothing of the symbol is held. */
  lemma CapBoundsHoldingExactly(s: Settings, symbol: string, entry: real, held: real)
    requires Permissive(s) && entry > 0.0 && held >= 0.0
    ensures CapBoundsHolding(s, symbol, entry, held) <==> held == 0.0
  {
    hide Assess, StaysWithinCap, BuysStayWithinCap;
    if held == 0.0 {
      forall ps | LongOnly(ps) && HeldShares(ps, symbol) == held ensures BuysStayWithinCap(s, ps, symbol, entry) {
        NewHoldingsWithinCap(s, ps, symbol, entry);
      }
    } else {
      var ps := [Position(symbol, held, entry, None, None, 0.0, true)];
      assert ps[1..] == [] && HeldShares(ps, symbol) == held;
      CapBoundsExactlyNewHoldings(s, ps, symbol, entry);
    }
  }

  /** The notional cap looks at one order, not at what is already held: a full position can be doubled. */
  lemma CapIsPerOrder(s: Settings)
    requires s.maxPositionPct == 0.1 && s.maxConcurrent >= 1 && s.maxPortfolioRisk == 0.1
    ensures var held := [Position("X", 10.0, 10.0, Some(9.0), None, 0.0, true)];
            var v := Assess(s, Proposal("X", true, 10, 10.0, 9.0), held, 1000.0, 900.0, Fine);
            && Shares(10, 10.0) == PositionCap(s, 1000.0)
            && v == Approved(10) && Shares(10 + v.qty, 10.0) > PositionCap(s, 1000.0)
  {
    var p := Position("X", 10.0, 10.0, Some(9.0), None, 0.0, true);
    var held := [p];
    assert p in held && Holds(held, "X");
    assert held[1..] == [];
    assert PortfolioRisk(s, held) == 10.0;
  }

  // ---- composed with sizing ------------------------------------------------------------------------------

  /** The size asked for is the largest whole quantity within both budgets. */
  lemma SizeIsLargest(s: Settings, equity: real, entry: real, stop: real, sizePct: Option<real>, m: int)
    requires entry > 0.0 && m >= 1
    ensures m <= PositionSize(s, equity, entry, stop, sizePct)
            <==> Shares(m, PerShareRisk(entry, entry - stop)) <= RiskBudget(s, equity, sizePct)
                 && Shares(m, entry) <= CapBudget(s, equity, sizePct)
  {
    hide Shares, PerShareRisk, RiskBudget, CapBudget;
    var psr := PerShareRisk(entry, entry - stop);
    FitsExactly(RiskBudget(s, equity, sizePct), psr, m);
    FitsExactly(CapBudget(s, equity, sizePct), entry, m);
  }

  /** It keeps the per-trade risk and the position's value within their limits. */
  lemma SizeWithinBudget(s: Settings, equity: real, entry: real, stop: real, sizePct: Option<real>)
    requires entry > 0.0 && s.maxPositionPct >= 0.0 && s.perTradeRisk >= 0.0
    ensures var n := PositionSize(s, equity, entry, stop, sizePct);
            n >= 0 && (n > 0 ==> Shares(n, PerShareRisk(entry, entry - stop)) <= s.perTradeRisk * equity
                                 && Shares(n, entry) <= PositionCap(s, equity))
  {
    var n := PositionSize(s, equity, entry, stop, sizePct);
    if n > 0 {
      SizeIsLargest(s, equity, entry, stop, sizePct, n);
      SharesPositive(n, entry);
      BudgetsWithinLimits(s, equity, sizePct);
    }
  }

  lemma SharesPositive(n: int, price: real)
    requires n > 0 && price > 0.0
    ensures Shares(n, price) > 0.0
  {
  }

  lemma BudgetsWithinLimits(s: Settings, equity: real, sizePct: Option<real>)
    requires s.maxPositionPct >= 0.0 && s.perTradeRisk >= 0.0 && CapBudget(s, equity, sizePct) > 0.0
    ensures RiskBudget(s, equity, sizePct) <= s.perTradeRisk * equity
    ensures CapBudget(s, equity, sizePct) <= PositionCap(s, equity)
  {
    var cap, ratio := SizeCap(s, sizePct), SizeRatio(s, sizePct);
    RatioRange(cap, s.maxPositionPct);
    assert equity > 0.0 by { assert equity <= 0.0 ==> cap * equity <= 0.0; }
    MulMono(cap, s.maxPositionPct, equity);
    var full := s.perTradeRisk * equity;
    assert full >= 0.0;
    MulMono(ratio, 1.0, full);
  }

  lemma RatioRange(cap: real, most: real)
    requires 0.0 <= cap <= most
    ensures most > 0.0 ==> 0.0 <= cap / most <= 1.0
  {
    if most > 0.0 {
      var r := cap / most;
      assert r * most == cap;
      assert r > 1.0 ==> (r - 1.0) * most > 0.0;
      assert r < 0.0 ==> r * most < 0.0;
    }
  }

  /** Sized and assessed, an opening trade risks no more than the per-trade budget. */
  lemma TradeRiskWithinBudget(s: Settings, symbol: string, equity: real, entry: real, stop: real,
                              sizePct: Option<real>, ps: seq<Position>, cash: real, status: RiskStatus)
    requires entry > 0.0 && s.maxPositionPct >= 0.0 && s.perTradeRisk >= 0.0
    ensures var t := Proposal(symbol, true, PositionSize(s, equity, entry, stop, sizePct), entry, stop);
            var v := Assess(s, t, ps, equity, cash, status);
            v.Approved? ==> Shares(v.qty, entry - stop) <= s.perTradeRisk * equity
  {
    var t := Proposal(symbol, true, PositionSize(s, equity, entry, stop, sizePct), entry, stop);
    hide Assess, Shares, PositionSize;
    var v := Assess(s, t, ps, equity, cash, status);
    if v.Approved? {
      ApprovedWithinCaps(s, t, ps, equity, cash, status);
      SizeWithinBudget(s, equity, entry, stop, sizePct);
      var psr := PerShareRisk(entry, entry - stop);
      SharesMono(v.qty, t.qty, psr);
      SharesRisk(v.qty, entry - stop, psr);
    }
  }

  // ---- loss limits ---------------------------------------------------------------------------------------------

  /** Change against a baseline; no (or zero) baseline counts as no change. */
  function Change(equity: real, base: Option<real>): real
  {
    if base.Some? && base.value != 0.0 then (equity - base.value) / base.value else 0.0
  }

  /** Equity at the start of the day, week and month. */
  datatype Baselines = Baselines(daily: Option<real>, weekly: Option<real>, monthly: Option<real>)

  function StatusOf(s: Settings, equity: real, base: Baselines): RiskStatus
  {
    if Change(equity, base.monthly) <= -s.monthlyLimit then Halt
    else if Change(equity, base.weekly) <= -s.weeklyLimit then Liquidate
    else if Change(equity, base.daily) <= -s.dailyLimit then HaltNew
    else if Change(equity, base.daily) <= -s.dailyLimit / 2.0 then Warn
    else Fine
  }

  /** The equity has come down to the limit below a recorded baseline.  Without a baseline, or with one of 0, nothing
      was lost; a negative baseline is lost against by rising. */
  predicate LossReached(base: Option<real>, equity: real, limit: real)
  {
    if base.None? || base.value == 0.0 then limit <= 0.0
    else if base.value > 0.0 then equity <= base.value * (1.0 - limit)
    else equity >= base.value * (1.0 - limit)
  }

  lemma ChangeReaches(base: Option<real>, equity: real, limit: real)
    ensures Change(equity, base) <= -limit <==> LossReached(base, equity, limit)
  {
    if base.Some? && base.value != 0.0 {
      var b := base.value;
      var r := (equity - b) / b;
      assert r * b == equity - b;
      var gap := r + limit;
      assert gap * b == equity - b * (1.0 - limit);
      SignOfProduct(gap, b);
    }
  }

  lemma SignOfProduct(x: real, b: real)
    requires b != 0.0
    ensures x <= 0.0 <==> if b > 0.0 then x * b <= 0.0 else x * b >= 0.0
  {
    if x > 0.0 && b > 0.0 { MulStrict(0.0, x, b); }
    if x > 0.0 && b < 0.0 { MulStrict(0.0, x, -b); }
  }

  /** The status in money: the month's loss halts, else the week's liquidates, else the day's stops new entries, else
      half of the day's warns. */
  lemma StatusInMoney(s: Settings, equity: real, base: Baselines)
    ensures var month, week := LossReached(base.monthly, equity, s.monthlyLimit),
                               LossReached(base.weekly, equity, s.weeklyLimit);
            var day, half := LossReached(base.daily, equity, s.dailyLimit),
                             LossReached(base.daily, equity, s.dailyLimit / 2.0);
            var status := StatusOf(s, equity, base);
            && (status == Halt <==> month)
            && (status == Liquidate <==> week && !month)
            && (status == HaltNew <==> day && !week && !month)
            && (status == Warn <==> half && !day && !week && !month)
  {
    hide Change, LossReached;
    ChangeReaches(base.monthly, equity, s.monthlyLimit);
    ChangeReaches(base.weekly, equity, s.weeklyLimit);
    ChangeReaches(base.daily, equity, s.dailyLimit);
    ChangeReaches(base.daily, equity, s.dailyLimit / 2.0);
  }

  /** Down 15% on all three baselines under the repository's limits: halted. */
  lemma DeepLossHalts(s: Settings)
    requires s.dailyLimit == 0.02 && s.weeklyLimit == 0.05 && s.monthlyLimit == 0.1
    ensures StatusOf(s, 85000.0, Baselines(Some(100000.0), Some(100000.0), Some(100000.0))) == Halt
  {
    StatusInMoney(s, 85000.0, Baselines(Some(100000.0), Some(100000.0), Some(100000.0)));
  }

  function Severity(r: RiskStatus): nat
  {
    match r case Fine => 0 case Warn => 1 case HaltNew => 2 case Liquidate => 3 case Halt => 4
  }

  lemma ChangeMono(x: real, y: real, base: Option<real>)
    requires x <= y && (base.Some? ==> base.value >= 0.0)
    ensures Change(x, base) <= Change(y, base)
  {
    if base.Some? && base.value != 0.0 {
      var b := base.value;
      var p, q := (x - b) / b, (y - b) / b;
      assert p * b == x - b && q * b == y - b;
      assert p > q ==> (p - q) * b > 0.0;
    }
  }

  /** Losing more never softens the status. */
  lemma StatusMonotone(s: Settings, x: real, y: real, base: Baselines)
    requires x <= y
    requires forall b :: b in {base.daily, base.weekly, base.monthly} && b.Some? ==> b.value >= 0.0
    ensures Severity(StatusOf(s, x, base)) >= Severity(StatusOf(s, y, base))
  {
    hide Change;
    assert base.daily in {base.daily, base.weekly, base.monthly};
    ChangeMono(x, y, base.daily);
    ChangeMono(x, y, base.weekly);
    ChangeMono(x, y, base.monthly);
  }
}
