/** Sizes and gates of the risk engine (src/surge/trading/risk.py) in money: how many shares a request becomes, and
    which holdings stand in the way. */
module RiskSizing {
  import opened Prelude
  import opened Ledger
  import opened Risk

  /** The part of equity a position may take: what was asked for, if positive and smaller, else the full cap. */
  function Fraction(s: Settings, sizePct: Option<real>): real
  {
    if sizePct.Some? && 0.0 < sizePct.value < s.maxPositionPct then sizePct.value else s.maxPositionPct
  }

  lemma FractionIsSizeCap(s: Settings, sizePct: Option<real>)
    ensures SizeCap(s, sizePct) == Fraction(s, sizePct)
  {
  }

  /** Shares stay below a maximum of two prices exactly when they stay below each. */
  lemma BothPrices(m: int, p: real, q: real, x: real)
    requires m >= 1
    ensures Shares(m, Max(p, q)) <= x <==> Shares(m, p) <= x && Shares(m, q) <= x
  {
    if p <= q { MulMono(p, q, m as real); } else { MulMono(q, p, m as real); }
  }

  /** The proposed size is the largest whole quantity whose loss down to the stop (or over 1% of the price, if that is
      more) fits the per-trade risk, scaled to the part asked for, and whose value fits that part of equity. */
  lemma SizeInMoney(s: Settings, equity: real, entry: real, stop: real, sizePct: Option<real>, m: int)
    requires m >= 1
    ensures var part := Fraction(s, sizePct);
            var scale := if s.maxPositionPct > 0.0 then part / s.maxPositionPct else 1.0;
            var n := PositionSize(s, equity, entry, stop, sizePct);
            && n >= 0 && (entry <= 0.0 ==> n == 0)
            && (entry > 0.0 ==>
                  (m <= n <==> Shares(m, entry - stop) <= s.perTradeRisk * equity * scale
                               && Shares(m, 0.01 * entry) <= s.perTradeRisk * equity * scale
                               && Shares(m, entry) <= part * equity))
  {
    hide Shares, SizeCap, Fraction;
    FractionIsSizeCap(s, sizePct);
    if entry > 0.0 {
      SizeIsLargest(s, equity, entry, stop, sizePct, m);
      BothPrices(m, entry - stop, entry * 0.01, RiskBudget(s, equity, sizePct));
    }
  }

  /** What an open position puts at risk: its shares times the distance from average cost to its stop, and without a
      stop times the default percentage of that cost. */
  lemma RiskInMoney(s: Settings, p: Position)
    ensures p.stop.Some? && p.stop.value != 0.0 ==> PositionRisk(s, p) == Abs(p.qty) * Abs(p.avg - p.stop.value)
    ensures p.stop.None? || p.stop.value == 0.0 ==> PositionRisk(s, p) == Abs(p.qty) * Abs(p.avg * s.defaultStopPct)
  {
    assert p.avg - p.avg * (1.0 - s.defaultStopPct) == p.avg * s.defaultStopPct;
  }

  // ---- holdings in the way --------------------------------------------------------------------------------

  /** Symbols that move together. */
  predicate Correlated(a: string, b: string)
  {
    || (Tech(a) && Tech(b))
    || (a in {"FAS", "FAZ"} && b in {"FAS", "FAZ"})
    || (a in {"TNA", "TZA"} && b in {"TNA", "TZA"})
    || (a in {"LABU", "LABD"} && b in {"LABU", "LABD"})
  }

  predicate Tech(a: string) { a in {"SOXL", "SOXS", "TQQQ", "SQQQ", "TECL", "TECS", "NVDL", "NVD"} }

  lemma CorrelatedIsClustered(a: string, b: string)
    ensures Correlated(a, b) <==> exists k :: 0 <= k < |CLUSTERS| && a in CLUSTERS[k] && b in CLUSTERS[k]
  {
    assert |CLUSTERS| == 4;
    if Tech(a) && Tech(b) { assert a in CLUSTERS[0] && b in CLUSTERS[0]; }
    if a in {"FAS", "FAZ"} && b in {"FAS", "FAZ"} { assert a in CLUSTERS[1] && b in CLUSTERS[1]; }
    if a in {"TNA", "TZA"} && b in {"TNA", "TZA"} { assert a in CLUSTERS[2] && b in CLUSTERS[2]; }
    if a in {"LABU", "LABD"} && b in {"LABU", "LABD"} { assert a in CLUSTERS[3] && b in CLUSTERS[3]; }
  }

  /** A portfolio is crowded for a symbol exactly when it holds another one that moves with it. */
  lemma CrowdedByCorrelated(ps: seq<Position>, symbol: string)
    ensures Crowded(ps, symbol) <==> exists p :: p in ps && p.symbol != symbol && Correlated(symbol, p.symbol)
  {
    hide Correlated;
    if Crowded(ps, symbol) {
      var k :| 0 <= k < |CLUSTERS| && symbol in CLUSTERS[k]
               && exists p :: p in ps && p.symbol in CLUSTERS[k] && p.symbol != symbol;
      var p :| p in ps && p.symbol in CLUSTERS[k] && p.symbol != symbol;
      CorrelatedIsClustered(symbol, p.symbol);
    }
    if p :| p in ps && p.symbol != symbol && Correlated(symbol, p.symbol) {
      CorrelatedIsClustered(symbol, p.symbol);
      var k :| 0 <= k < |CLUSTERS| && symbol in CLUSTERS[k] && p.symbol in CLUSTERS[k];
    }
  }

  /** What stops a proposal outright: a halted system, halted entries, no quantity, or the position limit for a symbol
      not held; a held symbol is never turned away for the number of positions. */
  lemma OutrightVetoes(s: Settings, t: Proposal, ps: seq<Position>, equity: real, cash: real, status: RiskStatus)
    requires t.entry > 0.0
    ensures var v := Assess(s, t, ps, equity, cash, status);
            var running := status != Halt && status != Liquidate && !(status == HaltNew && t.opening);
            && (v == Vetoed(SystemHalted) || v == Vetoed(EntriesHalted) <==> !running)
            && (v == Vetoed(NonPositive) <==> running && t.qty <= 0)
            && (v == Vetoed(TooManyPositions) <==>
                  running && t.qty >= 1 && t.opening && |Symbols(ps)| >= s.maxConcurrent
                  && forall p :: p in ps ==> p.symbol != t.symbol)
  {
    hide CapQty, Half, RiskQty, CashQty, Room, Crowded, Symbols;
  }

  /** With correlated holdings an opening trade within every limit is halved; with none it is not. */
  lemma CrowdingHalves(s: Settings, t: Proposal, ps: seq<Position>, equity: real, cash: real)
    requires t.entry > 0.0 && t.opening && t.qty >= 2 && WithinCaps(s, t, ps, equity, cash, t.qty)
    requires Holds(ps, t.symbol) || |Symbols(ps)| < s.maxConcurrent
    ensures Assess(s, t, ps, equity, cash, Fine)
            == Approved(if exists p :: p in ps && p.symbol != t.symbol && Correlated(t.symbol, p.symbol)
                        then t.qty / 2 else t.qty)
  {
    hide Correlated, Crowded, Symbols, Holds, Room, Shares, PositionCap, Fits, PerShareRisk;
    CrowdedByCorrelated(ps, t.symbol);
    HalfIsFloor(t.qty);
    SharesMono(t.qty / 2, t.qty, Abs(t.entry - t.stop));
    SharesMono(t.qty / 2, t.qty, t.entry);
  }

  lemma HalfIsFloor(n: int)
    requires n >= 2
    ensures Half(n) == n / 2
  {
  }
}
