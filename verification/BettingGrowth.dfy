/** What `evalue_returns` stakes (src/surge/verdict.py): the fraction that grows the capital fastest on the returns kept
    so far, within the one-sided range, and nothing on a record that has not gained. */
module BettingGrowth {
  import opened Prelude
  import opened Betting

  function Mean(xs: seq<real>): real
    requires xs != []
  {
    Sum(xs) / |xs| as real
  }

  /** Squared deviations from `m`, added up. */
  function Deviations(xs: seq<real>, m: real): real
  {
    if xs == [] then 0.0 else Deviations(xs[..|xs| - 1], m) + Square(xs[|xs| - 1] - m)
  }

  /** The mean squared deviation, floored at 1e-6. */
  function Spread(xs: seq<real>): real
    requires xs != []
  {
    Max(Deviations(xs, Mean(xs)) / |xs| as real, 0.000001)
  }

  /** Second-order growth of the capital when the fraction `l` is staked on returns of mean `m` and spread `v`. */
  function Growth(l: real, m: real, v: real): real { l * m - l * l * v / 2.0 }

  lemma {:induction false} DeviationsExpand(xs: seq<real>, m: real)
    ensures Deviations(xs, m) == SumSquares(xs) - 2.0 * m * Sum(xs) + |xs| as real * (m * m)
  {
    if xs != [] {
      var past, x := xs[..|xs| - 1], xs[|xs| - 1];
      DeviationsExpand(past, m);
      OneMoreDeviation(SumSquares(past), Sum(past), |past| as real, m, x);
      assert |xs| as real == |past| as real + 1.0;
    }
  }

  lemma OneMoreDeviation(ss: real, s: real, n: real, m: real, x: real)
    ensures ss - 2.0 * m * s + n * (m * m) + Square(x - m)
            == (ss + Square(x)) - 2.0 * m * (s + x) + (n + 1.0) * (m * m)
  {
    assert Square(x - m) == x * x - 2.0 * m * x + m * m;
    assert 2.0 * m * (s + x) == 2.0 * m * s + 2.0 * m * x;
    assert (n + 1.0) * (m * m) == n * (m * m) + m * m;
  }

  /** The code's running variance is the mean squared deviation. */
  lemma VarianceIsSpread(xs: seq<real>)
    requires xs != []
    ensures Max(SumSquares(xs) / |xs| as real - Mean(xs) * Mean(xs), 0.000001) == Spread(xs)
  {
    hide Sum, SumSquares, Deviations;
    DeviationsExpand(xs, Mean(xs));
    Centred(SumSquares(xs), Sum(xs), |xs| as real, Mean(xs), Deviations(xs, Mean(xs)));
  }

  lemma Centred(ss: real, s: real, n: real, m: real, d: real)
    requires n > 0.0 && m == s / n && d == ss - 2.0 * m * s + n * (m * m)
    ensures d / n == ss / n - m * m
  {
    var q := ss / n;
    assert m * n == s && q * n == ss;
    assert (q - m * m) * n == q * n - m * (m * n);
    assert 2.0 * m * s == 2.0 * (m * s) && n * (m * m) == m * (m * n);
    assert d == (q - m * m) * n;
  }

  /** The stake is the mean over the spread, kept between nothing and `lamMax`. */
  lemma LambdaIs(h: seq<Return>, c: Rules)
    requires |Kept(h, c)| >= 2
    ensures var xs := Kept(h, c);
            Lambda(h, c) == Min(Max(Mean(xs) / Spread(xs), 0.0), c.lamMax)
  {
    hide Sum, SumSquares, Spread, Bet, Kept;
    var xs := Kept(h, c);
    VarianceIsSpread(xs);
    BetIs(|xs|, Sum(xs), SumSquares(xs), Mean(xs), Spread(xs), c);
  }

  lemma BetIs(m: nat, s: real, ss: real, mean: real, spread: real, c: Rules)
    requires m >= 2 && mean == s / m as real && spread == Max(ss / m as real - mean * mean, 0.000001)
    ensures Bet(m, s, ss, c) == Min(Max(mean / spread, 0.0), c.lamMax)
  {
  }

  lemma BestFraction(m: real, v: real, cap: real, lam: real, l: real)
    requires v > 0.0 && 0.0 <= l <= cap && lam == Min(Max(m / v, 0.0), cap)
    ensures Growth(l, m, v) <= Growth(lam, m, v)
  {
    var q := m / v;
    assert q * v == m;
    GrowthGap(lam, l, q, v);
    assert (lam - l) * (2.0 * q - lam - l) >= 0.0 by {
      if q <= 0.0 {
        assert lam == 0.0;
        Opposed(-l, 2.0 * q - l);
      } else if q <= cap {
        assert lam == q && (lam - l) * (2.0 * q - lam - l) == (q - l) * (q - l);
        Opposed(q - l, q - l);
      } else {
        assert lam == cap;
        Opposed(cap - l, 2.0 * q - cap - l);
      }
    }
    MulMono(0.0, (lam - l) * (2.0 * q - lam - l), v);
  }

  lemma Opposed(a: real, b: real)
    requires (a >= 0.0 && b >= 0.0) || (a <= 0.0 && b <= 0.0)
    ensures a * b >= 0.0
  {
  }

  lemma GrowthGap(lam: real, l: real, q: real, v: real)
    ensures 2.0 * (Growth(lam, q * v, v) - Growth(l, q * v, v)) == (lam - l) * (2.0 * q - lam - l) * v
  {
    var a, b := lam * (q * v), l * (q * v);
    assert 2.0 * Growth(lam, q * v, v) == 2.0 * a - lam * lam * v;
    assert 2.0 * Growth(l, q * v, v) == 2.0 * b - l * l * v;
    assert (lam - l) * (2.0 * q - lam - l) == 2.0 * q * lam - 2.0 * q * l - lam * lam + l * l;
    assert (2.0 * q * lam - 2.0 * q * l - lam * lam + l * l) * v
           == 2.0 * q * lam * v - 2.0 * q * l * v - lam * lam * v + l * l * v;
    assert 2.0 * q * lam * v == 2.0 * a && 2.0 * q * l * v == 2.0 * b;
  }

  /** Once two returns are kept, no fraction in the allowed range would have grown the capital faster on them. */
  lemma StakeMaximisesGrowth(h: seq<Return>, c: Rules, l: real)
    requires |Kept(h, c)| >= 2 && 0.0 <= l <= c.lamMax
    ensures var xs := Kept(h, c);
            Growth(l, Mean(xs), Spread(xs)) <= Growth(Lambda(h, c), Mean(xs), Spread(xs))
  {
    hide Lambda, Growth;
    LambdaIs(h, c);
    BestFraction(Mean(Kept(h, c)), Spread(Kept(h, c)), c.lamMax, Lambda(h, c), l);
  }

  /** Nothing is staked before two returns are kept, nor while the kept returns have not gained. */
  lemma NothingStaked(h: seq<Return>, c: Rules)
    requires c.lamMax >= 0.0
    ensures |Kept(h, c)| < 2 || Sum(Kept(h, c)) <= 0.0 ==> Lambda(h, c) == 0.0
  {
    var xs := Kept(h, c);
    if |xs| >= 2 && Sum(xs) <= 0.0 {
      hide Sum, SumSquares, Lambda;
      LambdaIs(h, c);
      NotPositive(Sum(xs), |xs| as real);
      NotPositive(Mean(xs), Spread(xs));
    }
  }

  lemma NotPositive(x: real, y: real)
    requires x <= 0.0 && y > 0.0
    ensures x / y <= 0.0
  {
    var q := x / y;
    assert q * y == x;
    if q > 0.0 { MulStrict(0.0, q, y); }
  }

  /** A record that has never gained shows no evidence at all: its capital is still exactly 1. */
  lemma {:induction false} NeverGainedStaysAtOne(rs: seq<Return>, c: Rules)
    requires c.lamMax >= 0.0
    requires forall k :: 0 <= k < |rs| ==> Sum(Kept(rs[..k], c)) <= 0.0
    ensures Capital(rs, c) == 1.0
    ensures Evidence(rs, c) == if rs == [] then 0.0 else 1.0
  {
    if rs != [] {
      hide Lambda, Kept, Sum, Winsorized;
      var past := rs[..|rs| - 1];
      assert forall k :: 0 <= k < |past| ==> past[..k] == rs[..k];
      NeverGainedStaysAtOne(past, c);
      NothingStaked(past, c);
    }
  }

  // ---- what a lottery win is worth -----------------------------------------------------------------------

  /** The record with every return above `hi` replaced by `hi`. */
  function Cut(rs: seq<Return>, c: Rules): seq<Return>
  {
    if rs == [] then [] else Cut(rs[..|rs| - 1], c) + [CutOne(rs[|rs| - 1], c)]
  }

  function CutOne(v: Return, c: Rules): Return { if v.Value? && v.r > c.hi then Value(c.hi) else v }

  lemma CutLast(rs: seq<Return>, c: Rules)
    requires rs != [] && |Cut(rs[..|rs| - 1], c)| == |rs| - 1
    ensures Cut(rs, c) == Cut(rs[..|rs| - 1], c) + [CutOne(rs[|rs| - 1], c)]
    ensures Cut(rs, c)[..|Cut(rs, c)| - 1] == Cut(rs[..|rs| - 1], c)
  {
  }

  lemma CutOneKept(v: Return, c: Rules)
    requires c.lo <= c.hi
    ensures IsKept(CutOne(v, c), c) == IsKept(v, c)
    ensures IsKept(v, c) ==> Winsorized(CutOne(v, c), c) == Winsorized(v, c)
  {
  }

  lemma {:induction false} CutKept(rs: seq<Return>, c: Rules)
    requires c.lo <= c.hi
    ensures |Cut(rs, c)| == |rs| && Kept(Cut(rs, c), c) == Kept(rs, c)
  {
    if rs != [] {
      hide Cut, CutOne, IsKept, Winsorized;
      CutKept(rs[..|rs| - 1], c);
      CutLast(rs, c);
      CutOneKept(rs[|rs| - 1], c);
    } else {
      assert Cut(rs, c) == [];
    }
  }

  /** One more return after records with the same kept returns and the same capital. */
  lemma SameCapital(h: seq<Return>, v: Return, h': seq<Return>, v': Return, c: Rules)
    requires Kept(h, c) == Kept(h', c) && Capital(h, c) == Capital(h', c) && IsKept(v, c) == IsKept(v', c)
    requires IsKept(v, c) ==> Winsorized(v, c) == Winsorized(v', c)
    ensures Capital(h + [v], c) == Capital(h' + [v'], c)
  {
    hide Kept, Bet, Sum, SumSquares, Grown, Floored, Winsorized;
    assert (h + [v])[..|h|] == h && (h' + [v'])[..|h'|] == h';
    assert Factor(c)(h, v) == Factor(c)(h', v');
    assert Staked(h, v, c) == Staked(h', v', c);
  }

  /** Returns above `hi` count as `hi`: cutting them first changes neither the kept returns nor the evidence. */
  lemma {:induction false} WinsCountAsHi(rs: seq<Return>, c: Rules)
    requires c.lo <= c.hi
    ensures Kept(Cut(rs, c), c) == Kept(rs, c) && Capital(Cut(rs, c), c) == Capital(rs, c)
    ensures Evidence(Cut(rs, c), c) == Evidence(rs, c)
  {
    CutKept(rs, c);
    if rs != [] {
      hide Cut, CutOne, Kept, Capital, IsKept, Winsorized;
      var past, v := rs[..|rs| - 1], rs[|rs| - 1];
      WinsCountAsHi(past, c);
      CutKept(past, c);
      CutLast(rs, c);
      CutOneKept(v, c);
      assert rs == past + [v];
      SameCapital(Cut(past, c), CutOne(v, c), past, v, c);
    }
  }
}
