/** How well conviction ranks right calls above wrong ones: the sort-and-bisect AUC
    (src/surge/duel/calibsearch.py) against the pairwise count it stands for. */
module Auc {
  import opened Prelude

  /** A prediction's conviction, and whether it was correct (1), wrong (0) or neither. */
  datatype Sample = Sample(conviction: real, correct: int)

  function WithClass(samples: seq<Sample>, k: int): seq<real>
  {
    if samples == [] then []
    else (if samples[0].correct == k then [samples[0].conviction] else []) + WithClass(samples[1..], k)
  }

  // ---- the pairwise definition -----------------------------------------------------------

  /** A correct call against a wrong one: 1 for higher conviction, half for a tie. */
  function Score(p: real, n: real): real { if p > n then 1.0 else if p == n then 0.5 else 0.0 }

  function Beats(pos: seq<real>, n: real): real
  {
    if pos == [] then 0.0 else Score(pos[0], n) + Beats(pos[1..], n)
  }

  /** Mann-Whitney: summed over every pair. */
  function Pairs(pos: seq<real>, neg: seq<real>): real
  {
    if neg == [] then 0.0 else Beats(pos, neg[0]) + Pairs(pos, neg[1..])
  }

  function Product(m: nat, n: nat): real { m as real * n as real }

  function PairwiseAuc(pos: seq<real>, neg: seq<real>): real
    requires pos != [] && neg != []
  {
    Pairs(pos, neg) / Product(|pos|, |neg|)
  }

  // ---- sorting and bisection -----------------------------------------------------------------

  predicate Sorted(a: seq<real>) { forall i, j :: 0 <= i < j < |a| ==> a[i] <= a[j] }

  function Insert(x: real, s: seq<real>): seq<real>
  {
    if s == [] || x <= s[0] then [x] + s else [s[0]] + Insert(x, s[1..])
  }

  function Sort(s: seq<real>): (r: seq<real>)
    ensures |r| == |s|
  {
    if s == [] then [] else InsertLength(s[0], Sort(s[1..])); Insert(s[0], Sort(s[1..]))
  }

  lemma {:induction false} InsertLength(x: real, s: seq<real>)
    ensures |Insert(x, s)| == |s| + 1
  {
    if s != [] && x > s[0] { InsertLength(x, s[1..]); }
  }

  lemma {:induction false} InsertSorted(x: real, s: seq<real>)
    requires Sorted(s)
    ensures Sorted(Insert(x, s)) && forall y :: y in Insert(x, s) <==> y == x || y in s
    ensures forall n :: Beats(Insert(x, s), n) == Score(x, n) + Beats(s, n)
  {
    if s == [] || x <= s[0] {
      assert ([x] + s)[1..] == s;
    } else {
      InsertSorted(x, s[1..]);
      var t := Insert(x, s[1..]);
      assert s == [s[0]] + s[1..];
      assert ([s[0]] + t)[1..] == t;
      forall j | 0 <= j < |t| ensures s[0] <= t[j] { assert t[j] in t; }
    }
  }

  lemma {:induction false} SortSorts(s: seq<real>)
    ensures Sorted(Sort(s)) && forall n :: Beats(Sort(s), n) == Beats(s, n)
  {
    if s != [] {
      SortSorts(s[1..]);
      InsertSorted(s[0], Sort(s[1..]));
    }
  }

  method BisectLeft(a: seq<real>, x: real) returns (lo: nat)
    requires Sorted(a)
    ensures lo <= |a|
    ensures forall j :: 0 <= j < lo ==> a[j] < x
    ensures forall j :: lo <= j < |a| ==> a[j] >= x
  {
    lo := 0;
    var hi := |a|;
    while lo < hi
      invariant 0 <= lo <= hi <= |a|
      invariant forall j :: 0 <= j < lo ==> a[j] < x
      invariant forall j :: hi <= j < |a| ==> a[j] >= x
    {
      var mid := (lo + hi) / 2;
      if a[mid] < x { lo := mid + 1; } else { hi := mid; }
    }
  }

  method BisectRight(a: seq<real>, x: real) returns (lo: nat)
    requires Sorted(a)
    ensures lo <= |a|
    ensures forall j :: 0 <= j < lo ==> a[j] <= x
    ensures forall j :: lo <= j < |a| ==> a[j] > x
  {
    lo := 0;
    var hi := |a|;
    while lo < hi
      invariant 0 <= lo <= hi <= |a|
      invariant forall j :: 0 <= j < lo ==> a[j] <= x
      invariant forall j :: hi <= j < |a| ==> a[j] > x
    {
      var mid := (lo + hi) / 2;
      if x < a[mid] { hi := mid; } else { lo := mid + 1; }
    }
  }

  /** In sorted order the score against `x` is read off the two bisection points. */
  lemma {:induction false} BeatsFromBisection(a: seq<real>, x: real, lo: nat, hi: nat)
    requires lo <= hi <= |a|
    requires forall j :: 0 <= j < lo ==> a[j] < x
    requires forall j :: lo <= j < hi ==> a[j] == x
    requires forall j :: hi <= j < |a| ==> a[j] > x
    ensures Beats(a, x) == (|a| - hi) as real + 0.5 * (hi - lo) as real
  {
    if a != [] {
      BeatsFromBisection(a[1..], x, if lo > 0 then lo - 1 else 0, if hi > 0 then hi - 1 else 0);
    }
  }

  // ---- the code ----------------------------------------------------------------------------------

  method AucConvictionCorrect(samples: seq<Sample>) returns (auc: Option<real>)
    ensures var pos, neg := WithClass(samples, 1), WithClass(samples, 0);
            auc == if pos == [] || neg == [] then None else Some(PairwiseAuc(pos, neg))
  {
    var raw, neg := WithClass(samples, 1), WithClass(samples, 0);
    var pos := Sort(raw);
    SortSorts(raw);
    if pos == [] || neg == [] {
      return None;
    }
    var n := |pos|;
    var tot := 0.0;
    for i := 0 to |neg|
      invariant tot + Pairs(raw, neg[i..]) == Pairs(raw, neg)
    {
      var c := neg[i];
      var hi := BisectRight(pos, c);
      var lo := BisectLeft(pos, c);
      assert lo > 0 ==> pos[lo - 1] < c;
      assert lo <= hi;
      assert forall j :: lo <= j < hi ==> pos[j] == c;
      BeatsFromBisection(pos, c, lo, hi);
      assert neg[i..][1..] == neg[i + 1..];
      tot := tot + ((n - hi) as real + 0.5 * (hi - lo) as real);
    }
    auc := Some(tot / Product(n, |neg|));
  }

  // ---- what the number means ----------------------------------------------------------------------

  lemma {:induction false} BeatsRange(pos: seq<real>, n: real)
    ensures 0.0 <= Beats(pos, n) <= |pos| as real
  {
    if pos != [] { BeatsRange(pos[1..], n); }
  }

  lemma ProductStep(m: nat, n: nat)
    ensures Product(m, n + 1) == Product(m, n) + m as real
    ensures Product(m, n) == Product(n, m) && Product(m, 0) == 0.0
  {
    assert (n + 1) as real == n as real + 1.0;
  }

  lemma {:induction false} PairsRange(pos: seq<real>, neg: seq<real>)
    ensures 0.0 <= Pairs(pos, neg) <= Product(|pos|, |neg|)
  {
    hide Product;
    if neg == [] {
      ProductStep(|pos|, 0);
    } else {
      PairsRange(pos, neg[1..]);
      BeatsRange(pos, neg[0]);
      ProductStep(|pos|, |neg| - 1);
    }
  }

  /** The AUC is a fraction. */
  lemma AucRange(pos: seq<real>, neg: seq<real>)
    requires pos != [] && neg != []
    ensures 0.0 <= PairwiseAuc(pos, neg) <= 1.0
  {
    hide Pairs;
    PairsRange(pos, neg);
    Fraction(Pairs(pos, neg), Product(|pos|, |neg|));
  }

  predicate Above(pos: seq<real>, n: real) { forall k :: 0 <= k < |pos| ==> pos[k] > n }

  lemma {:induction false} BeatsAll(pos: seq<real>, n: real)
    requires Above(pos, n)
    ensures Beats(pos, n) == |pos| as real
  {
    if pos != [] { BeatsAll(pos[1..], n); }
  }

  lemma {:induction false} PairsAll(pos: seq<real>, neg: seq<real>)
    requires forall j :: 0 <= j < |neg| ==> Above(pos, neg[j])
    ensures Pairs(pos, neg) == Product(|pos|, |neg|)
  {
    hide Product, Above;
    if neg == [] {
      ProductStep(|pos|, 0);
    } else {
      PairsAll(pos, neg[1..]);
      BeatsAll(pos, neg[0]);
      ProductStep(|pos|, |neg| - 1);
    }
  }

  /** It is 1 when every correct call was made with more conviction than every wrong one. */
  lemma PerfectRankingIsOne(pos: seq<real>, neg: seq<real>)
    requires pos != [] && neg != [] && forall j :: 0 <= j < |neg| ==> Above(pos, neg[j])
    ensures PairwiseAuc(pos, neg) == 1.0
  {
    hide Pairs;
    PairsAll(pos, neg);
    QuotientIs(Product(|pos|, |neg|), Product(|pos|, |neg|), 1.0);
  }

  lemma {:induction false} ClassMembers(samples: seq<Sample>, k: int)
    ensures forall x :: x in WithClass(samples, k) <==> Sample(x, k) in samples
  {
    if samples != [] {
      ClassMembers(samples[1..], k);
      assert samples == [samples[0]] + samples[1..];
    }
  }

  /** In the samples' own terms: with calls of both kinds, and every correct one more convinced than every wrong one,
      the AUC is 1. */
  lemma SeparatedSamples(samples: seq<Sample>)
    requires exists x :: Sample(x, 1) in samples
    requires exists y :: Sample(y, 0) in samples
    requires forall x, y :: Sample(x, 1) in samples && Sample(y, 0) in samples ==> x > y
    ensures var pos, neg := WithClass(samples, 1), WithClass(samples, 0);
            pos != [] && neg != [] && PairwiseAuc(pos, neg) == 1.0
  {
    var pos, neg := WithClass(samples, 1), WithClass(samples, 0);
    ClassMembers(samples, 1);
    ClassMembers(samples, 0);
    var x :| Sample(x, 1) in samples;
    var y :| Sample(y, 0) in samples;
    assert x in pos && y in neg;
    forall j | 0 <= j < |neg| ensures Above(pos, neg[j]) {
      assert neg[j] in neg;
      forall k | 0 <= k < |pos| ensures pos[k] > neg[j] { assert pos[k] in pos; }
    }
    PerfectRankingIsOne(pos, neg);
  }

  lemma Fraction(x: real, y: real)
    requires 0.0 <= x <= y && y > 0.0
    ensures 0.0 <= x / y <= 1.0
  {
    var r := x / y;
    assert r * y == x;
    assert r > 1.0 ==> (r - 1.0) * y > 0.0;
    assert r < 0.0 ==> r * y < 0.0;
  }

  lemma {:induction false} PairsCons(p: real, pos: seq<real>, neg: seq<real>)
    ensures Pairs([p] + pos, neg) + Beats(neg, p) == Pairs(pos, neg) + |neg| as real
  {
    if neg != [] {
      PairsCons(p, pos, neg[1..]);
      assert ([p] + pos)[1..] == pos;
    }
  }

  /** Every pair is won by one side or split. */
  lemma {:induction false} PairsMirror(pos: seq<real>, neg: seq<real>)
    ensures Pairs(pos, neg) + Pairs(neg, pos) == Product(|pos|, |neg|)
  {
    hide Product;
    if pos == [] {
      NothingBeats(neg);
      ProductStep(|neg|, 0);
    } else {
      PairsMirror(pos[1..], neg);
      assert pos == [pos[0]] + pos[1..];
      PairsCons(pos[0], pos[1..], neg);
      ProductStep(|neg|, |pos| - 1);
      ProductStep(|pos|, |neg|);
      ProductStep(|pos| - 1, |neg|);
    }
  }

  lemma {:induction false} NothingBeats(neg: seq<real>)
    ensures Pairs([], neg) == 0.0
  {
    if neg != [] { NothingBeats(neg[1..]); }
  }

  /** The samples with right and wrong exchanged. */
  function Flipped(samples: seq<Sample>): seq<Sample>
  {
    if samples == [] then []
    else
      var s := samples[0];
      [s.(correct := if s.correct == 1 then 0 else if s.correct == 0 then 1 else s.correct)] + Flipped(samples[1..])
  }

  lemma {:induction false} FlippedClasses(samples: seq<Sample>)
    ensures WithClass(Flipped(samples), 1) == WithClass(samples, 0)
    ensures WithClass(Flipped(samples), 0) == WithClass(samples, 1)
  {
    if samples != [] {
      FlippedClasses(samples[1..]);
      assert Flipped(samples)[1..] == Flipped(samples[1..]);
    }
  }

  /** Exchanging right and wrong turns the AUC into its complement to 1. */
  lemma FlipComplements(samples: seq<Sample>)
    requires WithClass(samples, 1) != [] && WithClass(samples, 0) != []
    ensures WithClass(Flipped(samples), 1) != [] && WithClass(Flipped(samples), 0) != []
    ensures PairwiseAuc(WithClass(Flipped(samples), 1), WithClass(Flipped(samples), 0))
            == 1.0 - PairwiseAuc(WithClass(samples, 1), WithClass(samples, 0))
  {
    hide Pairs;
    FlippedClasses(samples);
    var pos, neg := WithClass(samples, 1), WithClass(samples, 0);
    PairsMirror(pos, neg);
    ProductStep(|pos|, |neg|);
    Complement(Pairs(pos, neg), Pairs(neg, pos), Product(|pos|, |neg|));
  }

  lemma Complement(x: real, y: real, total: real)
    requires total > 0.0 && x + y == total
    ensures y / total == 1.0 - x / total
  {
    var a, b := x / total, y / total;
    assert a * total == x && b * total == y;
    var rest := 1.0 - a - b;
    assert rest * total == total - a * total - b * total;
    assert rest > 0.0 ==> rest * total > 0.0;
    assert rest < 0.0 ==> rest * total < 0.0;
  }
}
