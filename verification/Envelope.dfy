/** How much evidence the flat process can show against a fair coin, as a function
    of the win and loss counts alone: a bound for every order of the outcomes, and
    an order that attains it. */
module Envelope {
  import opened Prelude
  import opened Martingale
  import opened EProcess

  predicate IsBinary(xs: seq<int>)
  {
    forall i :: 0 <= i < |xs| ==> xs[i] == 0 || xs[i] == 1
  }

  /** The factor 2(w + 1/2)/(w + l + 1) by which one more win multiplies `Phi`. */
  function Gain(w: nat, l: nat): real
  {
    (2.0 * w as real + 1.0) / (w + l + 1) as real
  }

  /** The Krichevsky-Trofimov probability of `w` wins and `l` losses, times 2 to the number of outcomes. */
  function Phi(w: nat, l: nat): real
  {
    if w > 0 then Phi(w - 1, l) * Gain(w - 1, l)
    else if l > 0 then Phi(0, l - 1) * Gain(l - 1, 0)
    else 1.0
  }

  lemma Cancel(a: real, b: real, k: real)
    requires k > 0.0 && a * k == b * k
    ensures a == b
  {
    assert (a - b) * k == 0.0;
    assert a > b ==> (a - b) * k > 0.0;
    assert a < b ==> (a - b) * k < 0.0;
  }

  lemma GainPositive(w: nat, l: nat)
    ensures Gain(w, l) > 0.0
    ensures Gain(w, l) + Gain(l, w) == 2.0
    ensures w >= l <==> Gain(w, l) >= 1.0
  {
    var k := (w + l + 1) as real;
    QuotientSign(2.0 * w as real + 1.0, k);
    assert Gain(w, l) * k == 2.0 * w as real + 1.0;
    assert Gain(l, w) * k == 2.0 * l as real + 1.0;
    Cancel(Gain(w, l) + Gain(l, w), 2.0, k);
    assert w < l ==> (Gain(w, l) - 1.0) * k < 0.0;
    if w < l && Gain(w, l) >= 1.0 { MulMono(0.0, Gain(w, l) - 1.0, k); }
  }

  lemma {:induction false} PhiPositive(w: nat, l: nat)
    ensures Phi(w, l) > 0.0
  {
    if w > 0 {
      PhiPositive(w - 1, l);
      GainPositive(w - 1, l);
      Positive(Phi(w - 1, l), Gain(w - 1, l));
    } else if l > 0 {
      PhiPositive(0, l - 1);
      GainPositive(l - 1, 0);
      Positive(Phi(0, l - 1), Gain(l - 1, 0));
    }
  }

  lemma Positive(a: real, b: real)
    requires a > 0.0 && b > 0.0
    ensures a * b > 0.0
  {
  }

  lemma PhiWin(w: nat, l: nat)
    ensures Phi(w + 1, l) == Phi(w, l) * Gain(w, l)
  {
  }

  lemma PhiStart(l: nat)
    ensures Phi(0, 0) == 1.0
    ensures Phi(0, l + 1) == Phi(0, l) * Gain(l, 0)
  {
  }

  /** `Phi` does not depend on the order in which wins and losses are counted. */
  lemma {:induction false} PhiLoss(w: nat, l: nat)
    ensures Phi(w, l + 1) == Phi(w, l) * Gain(l, w)
  {
    hide Phi, Gain;
    if w > 0 {
      PhiWin(w - 1, l + 1);
      PhiWin(w - 1, l);
      PhiLoss(w - 1, l);
      Exchange(Phi(w - 1, l), Phi(w - 1, l + 1), Phi(w, l), w - 1, l);
    } else {
      PhiStart(l);
    }
  }

  /** Win-then-loss and loss-then-win multiply by the same amount. */
  lemma Exchange(p: real, lossFirst: real, winFirst: real, w: nat, l: nat)
    requires lossFirst == p * Gain(l, w) && winFirst == p * Gain(w, l)
    ensures lossFirst * Gain(w, l + 1) == winFirst * Gain(l, w + 1)
  {
    var a, b, k := 2.0 * w as real + 1.0, 2.0 * l as real + 1.0, (w + l + 1) as real;
    assert (w + (l + 1) + 1) as real == k + 1.0 && (l + (w + 1) + 1) as real == k + 1.0;
    CrossRatio(a, b, k, k + 1.0);
    Regroup(p, b / k, a / (k + 1.0), a / k, b / (k + 1.0));
  }

  lemma Regroup(p: real, x: real, y: real, x': real, y': real)
    requires x * y == x' * y'
    ensures p * x * y == p * x' * y'
  {
    assert p * x * y == p * (x * y) && p * x' * y' == p * (x' * y');
  }

  lemma CrossRatio(a: real, b: real, k: real, m: real)
    requires k > 0.0 && m > 0.0
    ensures b / k * (a / m) == a / k * (b / m)
  {
    var x, y := a / m, 1.0 / k;
    assert b / k == b * y && a / k == a * y;
    var z := 1.0 / m;
    assert a / m == a * z && b / m == b * z;
    assert b * y * (a * z) == a * y * (b * z);
  }

  lemma PhiDiagonal(l: nat)
    ensures Phi(l + 1, l + 1) <= Phi(l, l)
  {
    PhiLoss(l, l);
    PhiPositive(l, l + 1);
    PhiPositive(l, l);
    GainPositive(l, l);
    assert Gain(l, l) == 1.0;
    assert Phi(l, l + 1) == Phi(l, l);
    GainPositive(l, l + 1);
    assert Gain(l, l + 1) <= 1.0;
    MulMono(Gain(l, l + 1), 1.0, Phi(l, l));
  }

  // ---- the bound ---------------------------------------------------------------

  /** The cap `1 - EPS` has not bound at any bet along `xs`. */
  predicate CapIdle(xs: seq<int>)
  {
    forall k :: 0 <= k < |xs| ==> Rate(Wins(xs[..k]), k, FLAT) <= 1.0 - EPS
  }

  lemma {:induction false} WinsRange(xs: seq<int>)
    requires IsBinary(xs)
    ensures 0 <= Wins(xs) <= |xs|
  {
    if xs != [] {
      WinsRange(xs[..|xs| - 1]);
    }
  }

  /** No record of at most 500,000 outcomes reaches the cap. */
  lemma ShortRecordsIdle(xs: seq<int>)
    requires IsBinary(xs) && |xs| <= 500_000
    ensures CapIdle(xs)
  {
    forall k | 0 <= k < |xs|
      ensures Rate(Wins(xs[..k]), k, FLAT) <= 1.0 - EPS
    {
      WinsRange(xs[..k]);
      FlatRate(Wins(xs[..k]), k);
      var w, n := Wins(xs[..k]) as real, k as real + 1.0;
      DivLe(w + 0.5, 1.0 - EPS, n);
      assert w <= n - 1.0 && n <= 500_000.0;
    }
  }

  /** Against a fair coin, with the cap idle, one bet multiplies by `Gain` or stands still. */
  lemma FairCoinFactor(w: nat, l: nat)
    requires Rate(w, w + l, FLAT) <= 1.0 - EPS
    ensures var phat := Phat(w, w + l, FLAT, 0.5);
            && Factor(1, phat, 0.5) == (if w >= l then Gain(w, l) else 1.0)
            && Factor(0, phat, 0.5) == (if w >= l then Gain(l, w) else 1.0)
  {
    FlatRate(w, w + l);
    GainPositive(w, l);
    var k := (w + l + 1) as real;
    assert (w + l) as real + 1.0 == k;
    TwiceRate(w as real, k);
    TwiceRate(l as real, k);
  }

  lemma TwiceRate(a: real, k: real)
    requires k > 0.0
    ensures (2.0 * a + 1.0) / k == 2.0 * ((a + 0.5) / k)
  {
    var r, g := (a + 0.5) / k, (2.0 * a + 1.0) / k;
    assert r * k == a + 0.5 && g * k == 2.0 * a + 1.0;
    Cancel(g, 2.0 * r, k);
  }

  /** What one outcome does to fair-coin evidence after `w` wins and `l` losses. */
  function Turn(w: nat, l: nat, x: int): real
  {
    if w < l then 1.0 else if x == 1 then Gain(w, l) else Gain(l, w)
  }

  lemma BetIsTurn(h: seq<int>, x: int, w: nat, l: nat)
    requires CapIdle(h + [x]) && Wins(h) == w && |h| == w + l && (x == 0 || x == 1)
    ensures Wins(h + [x]) == w + x && Bet(FLAT, 0.5)(h, x) == Turn(w, l, x)
  {
    hide Rate, Gain;
    assert (h + [x])[..|h|] == h;
    assert Rate(Wins((h + [x])[..|h|]), |h|, FLAT) <= 1.0 - EPS;
    FairCoinFactor(w, l);
  }

  lemma ProcessFairCoin(h: seq<int>, x: int, w: nat, l: nat)
    requires CapIdle(h + [x]) && Wins(h) == w && |h| == w + l && (x == 0 || x == 1)
    ensures Wins(h + [x]) == w + x
    ensures Process(h + [x], FLAT, 0.5) == Process(h, FLAT, 0.5) * Turn(w, l, x)
  {
    hide Turn, Bet, Compound, Rate, Gain;
    BetIsTurn(h, x, w, l);
    var xs := h + [x];
    assert xs[..|h|] == h && xs[..|h| + 1] == xs;
    CompoundTurn(Bet(FLAT, 0.5), xs, |h|, Process(h, FLAT, 0.5), Turn(w, l, x));
  }

  /** The evidence that `w` wins and `l` losses allow. */
  ghost predicate WithinEnvelope(e: real, w: nat, l: nat)
  {
    if w >= l then e * Phi(l, l) <= Phi(w, l) else e <= 1.0
  }

  /** On or above the diagonal, an outcome moves `Phi` as it moves the evidence. */
  lemma PhiTurn(w: nat, l: nat)
    requires w >= l
    ensures Turn(w, l, 1) > 0.0 && Turn(w, l, 0) > 0.0
    ensures Phi(w + 1, l) == Phi(w, l) * Turn(w, l, 1)
    ensures Phi(w, l + 1) == Phi(w, l) * Turn(w, l, 0)
  {
    hide Phi, Gain;
    GainPositive(w, l);
    GainPositive(l, w);
    PhiWin(w, l);
    PhiLoss(w, l);
  }

  lemma EnvelopeWin(e: real, w: nat, l: nat)
    requires e > 0.0 && WithinEnvelope(e, w, l)
    ensures WithinEnvelope(e * Turn(w, l, 1), w + 1, l)
  {
    hide Phi, Gain;
    PhiPositive(l, l);
    if w >= l {
      hide Turn;
      PhiTurn(w, l);
      EnvelopeArithmetic(e, Phi(l, l), Phi(w, l), Phi(l, l), Turn(w, l, 1));
    } else if w + 1 == l {
      MulMono(e, 1.0, Phi(l, l));
    }
  }

  lemma EnvelopeLoss(e: real, w: nat, l: nat)
    requires e > 0.0 && WithinEnvelope(e, w, l)
    ensures WithinEnvelope(e * Turn(w, l, 0), w, l + 1)
  {
    hide Phi;
    PhiPositive(l, l);
    if w == l {
      GainPositive(l, l);
      AtMostOne(e, Phi(l, l), Phi(w, l));
    } else if w > l {
      hide Turn, Gain;
      PhiTurn(w, l);
      PhiDiagonal(l);
      EnvelopeArithmetic(e, Phi(l, l), Phi(w, l), Phi(l + 1, l + 1), Turn(w, l, 0));
    }
  }

  lemma EnvelopeStep(e: real, w: nat, l: nat, x: int, e': real)
    requires e > 0.0 && WithinEnvelope(e, w, l) && (x == 0 || x == 1) && e' == e * Turn(w, l, x)
    ensures WithinEnvelope(e', w + x, l + 1 - x)
  {
    hide WithinEnvelope, Turn;
    if x == 1 {
      EnvelopeWin(e, w, l);
      assert e' == e * Turn(w, l, 1);
    } else {
      EnvelopeLoss(e, w, l);
      assert e' == e * Turn(w, l, 0);
    }
  }

  lemma EnvelopeArithmetic(e: real, d: real, p: real, d': real, u: real)
    requires e > 0.0 && d > 0.0 && e * d <= p && d' <= d && u > 0.0
    ensures e * u * d' <= p * u
  {
    MulMono(e * d, p, u);
    Positive(e, u);
    MulMono(d', d, e * u);
    assert e * u * d == e * d * u;
  }

  lemma AtMostOne(e: real, d: real, p: real)
    requires d > 0.0 && e * d <= p && p == d
    ensures e <= 1.0
  {
    assert (e - 1.0) * d <= 0.0;
    assert e > 1.0 ==> (e - 1.0) * d > 0.0;
  }

  lemma EmptyEnvelope()
    ensures Process([], FLAT, 0.5) == 1.0 && Phi(0, 0) == 1.0
    ensures WithinEnvelope(Process([], FLAT, 0.5), 0, 0)
  {
  }

  /** Whatever the order, `w` wins and `l` losses show at most `Phi(w, l) / Phi(l, l)`, and less than a fair share
      shows at most 1. */
  lemma {:induction false} FlatBound(xs: seq<int>)
    requires IsBinary(xs) && CapIdle(xs)
    ensures 0 <= Wins(xs) <= |xs| && WithinEnvelope(Process(xs, FLAT, 0.5), Wins(xs), |xs| - Wins(xs))
  {
    hide Compound, Phi, Gain, Turn, Rate, WithinEnvelope;
    if xs == [] {
      EmptyEnvelope();
    } else {
      var h, x := xs[..|xs| - 1], xs[|xs| - 1];
      assert forall k :: 0 <= k < |h| ==> h[..k] == xs[..k];
      FlatBound(h);
      var w, l := Wins(h), |h| - Wins(h);
      assert xs == h + [x];
      ProcessPositive(h, FLAT, 0.5);
      ProcessFairCoin(h, x, w, l);
      EnvelopeStep(Process(h, FLAT, 0.5), w, l, x, Process(xs, FLAT, 0.5));
    }
  }

  /** A record that wins no more often than it loses shows no evidence, in any order. */
  lemma NoFalseEvidence(xs: seq<int>)
    requires IsBinary(xs) && CapIdle(xs) && Wins(xs) <= |xs| - Wins(xs)
    ensures Evalue(xs, Some(0.5), FLAT) <= 1.0
  {
    hide Compound, Phi, CapIdle, IsBinary, Wins, WithinEnvelope;
    FlatBound(xs);
    WithinIsAtMostOne(Process(xs, FLAT, 0.5), Wins(xs), |xs| - Wins(xs));
  }

  lemma WithinIsAtMostOne(e: real, w: nat, l: nat)
    requires WithinEnvelope(e, w, l) && w <= l
    ensures e <= 1.0
  {
    hide Phi;
    PhiPositive(l, l);
    if w == l {
      AtMostOne(e, Phi(l, l), Phi(w, l));
    }
  }

  // ---- an order that attains the bound ----------------------------------------------

  /** All losses first, then all wins. */
  function LossesThenWins(w: nat, l: nat): seq<int>
  {
    seq(l, i => 0) + seq(w, i => 1)
  }

  lemma LossesThenWinsShape(w: nat, l: nat)
    ensures IsBinary(LossesThenWins(w, l)) && |LossesThenWins(w, l)| == w + l
    ensures w > 0 ==> LossesThenWins(w, l) == LossesThenWins(w - 1, l) + [1]
    ensures l > 0 ==> LossesThenWins(0, l) == LossesThenWins(0, l - 1) + [0]
  {
  }

  /** The bound is attained: losses first, then wins. */
  lemma {:induction false} FlatBoundAttained(w: nat, l: nat)
    requires w + l <= 500_000
    ensures var xs := LossesThenWins(w, l);
            && IsBinary(xs) && Wins(xs) == w && |xs| == w + l
            && (w <= l ==> Process(xs, FLAT, 0.5) == 1.0)
            && (w >= l ==> Process(xs, FLAT, 0.5) * Phi(l, l) == Phi(w, l))
    decreases w + l
  {
    hide Phi, Compound, Turn, IsBinary, CapIdle, LossesThenWins;
    var xs := LossesThenWins(w, l);
    LossesThenWinsShape(w, l);
    if w + l == 0 {
      EmptyEnvelope();
      assert xs == [];
    } else {
      var x := if w > 0 then 1 else 0;
      var w', l' := w - x, l - 1 + x;
      var h := LossesThenWins(w', l');
      FlatBoundAttained(w', l');
      ShortRecordsIdle(xs);
      ProcessFairCoin(h, x, w', l');
      AttainedStep(Process(h, FLAT, 0.5), w', l', x);
    }
  }

  /** Evidence that attains the bound keeps attaining it, in this order. */
  lemma AttainedStep(e: real, w: nat, l: nat, x: int)
    requires x == 1 || (x == 0 && w == 0)
    requires w <= l ==> e == 1.0
    requires w >= l ==> e * Phi(l, l) == Phi(w, l)
    ensures var e', w', l' := e * Turn(w, l, x), w + x, l + 1 - x;
            && (w' <= l' ==> e' == 1.0)
            && (w' >= l' ==> e' * Phi(l', l') == Phi(w', l'))
  {
    hide Phi;
    if w >= l && x == 1 {
      hide Turn, Gain;
      PhiTurn(w, l);
      Reorder(e, Turn(w, l, 1), Phi(l, l), Phi(w, l));
    } else {
      GainPositive(0, 0);
    }
  }

  lemma Reorder(e: real, g: real, d: real, p: real)
    requires e * d == p
    ensures e * g * d == p * g
  {
    assert e * g * d == e * d * g;
  }
}
