/** The conviction ledger (src/surge/duel/calibration.py) and the anchoring of a raw
    probability to the hit rate its conviction bucket has shown
    (src/surge/duel/adaptive.py, `recalibrate_prob`). */
module Calibration {
  import opened Prelude

  /** The conviction bands of max(p, 1 - p). */
  datatype Bucket = From50 | From53 | From55 | From58 | From62

  datatype Tally = Tally(n: nat, wins: nat)

  type Ledger = map<Bucket, Tally>

  const ALL: set<Bucket> := {From50, From53, From55, From58, From62}

  const BLANK: Ledger := map b | b in ALL :: Tally(0, 0)

  function BucketOf(p: real): Bucket
  {
    var m := Max(p, 1.0 - p);
    if 0.50 <= m < 0.53 then From50
    else if 0.53 <= m < 0.55 then From53
    else if 0.55 <= m < 0.58 then From55
    else if 0.58 <= m < 0.62 then From58
    else From62
  }

  /** The call was right: it said "up" exactly when the session rose. */
  predicate Hit(p: real, ret: real) { (p > 0.5) == (ret > 0.0) }

  /** One more scored prediction. */
  function Scored(t: Ledger, p: real, ret: real): Ledger
  {
    var b := BucketOf(p);
    var was := if b in t then t[b] else Tally(0, 0);
    t[b := Tally(was.n + 1, was.wins + if Hit(p, ret) then 1 else 0)]
  }

  // ---- the ledger of a whole record ---------------------------------------------

  /** How many predictions fell in `b`. */
  function CountIn(b: Bucket, probs: seq<Option<real>>): nat
  {
    if probs == [] then 0
    else
      var p := probs[|probs| - 1];
      CountIn(b, probs[..|probs| - 1]) + if p.Some? && BucketOf(p.value) == b then 1 else 0
  }

  /** How many of them were right. */
  function CountHits(b: Bucket, probs: seq<Option<real>>, labels: seq<real>): nat
    requires |labels| == |probs|
  {
    if probs == [] then 0
    else
      var k := |probs| - 1;
      CountHits(b, probs[..k], labels[..k])
      + if probs[k].Some? && BucketOf(probs[k].value) == b && Hit(probs[k].value, labels[k]) then 1 else 0
  }

  /** Every bucket's counts over the whole record at once. */
  function BatchTally(probs: seq<Option<real>>, labels: seq<real>): Ledger
    requires |labels| == |probs|
  {
    map b | b in ALL :: Tally(CountIn(b, probs), CountHits(b, probs, labels))
  }

  lemma AllBuckets(b: Bucket)
    ensures b in ALL
  {
  }

  /** Scoring one session online is the same as recounting the longer record. */
  lemma BatchTallySnoc(probs: seq<Option<real>>, labels: seq<real>, p: Option<real>, ret: real)
    requires |labels| == |probs|
    ensures BatchTally(probs + [p], labels + [ret])
            == if p.Some? then Scored(BatchTally(probs, labels), p.value, ret) else BatchTally(probs, labels)
  {
    var k := |probs|;
    assert (probs + [p])[..k] == probs && (labels + [ret])[..k] == labels;
    if p.Some? { AllBuckets(BucketOf(p.value)); }
  }

  lemma {:induction false} HitsWithinCount(b: Bucket, probs: seq<Option<real>>, labels: seq<real>)
    requires |labels| == |probs|
    ensures CountHits(b, probs, labels) <= CountIn(b, probs) <= |probs|
  {
    if probs != [] {
      HitsWithinCount(b, probs[..|probs| - 1], labels[..|probs| - 1]);
    }
  }

  // ---- what the counts count ---------------------------------------------------------

  /** The conviction bands, on both sides of one half. */
  predicate InBand(b: Bucket, p: real)
  {
    match b
    case From50 => 0.47 < p < 0.53
    case From53 => 0.53 <= p < 0.55 || 0.45 < p <= 0.47
    case From55 => 0.55 <= p < 0.58 || 0.42 < p <= 0.45
    case From58 => 0.58 <= p < 0.62 || 0.38 < p <= 0.42
    case From62 => p >= 0.62 || p <= 0.38
  }

  /** The sessions predicted in the band. */
  function Calls(b: Bucket, probs: seq<Option<real>>): set<nat>
  {
    set i: nat | i < |probs| && probs[i].Some? && InBand(b, probs[i].value)
  }

  /** Those that rose after more than one half, or did not rise after one half or less. */
  function RightCalls(b: Bucket, probs: seq<Option<real>>, labels: seq<real>): set<nat>
    requires |labels| == |probs|
  {
    set i: nat | i in Calls(b, probs)
                 && ((probs[i].value > 0.5 && labels[i] > 0.0) || (probs[i].value <= 0.5 && labels[i] <= 0.0))
  }

  lemma BandIsBucket(b: Bucket, p: real)
    ensures InBand(b, p) <==> BucketOf(p) == b
  {
  }

  lemma CallsSnoc(b: Bucket, probs: seq<Option<real>>)
    requires probs != []
    ensures var k := |probs| - 1;
            && k !in Calls(b, probs[..k])
            && Calls(b, probs)
               == Calls(b, probs[..k]) + if probs[k].Some? && InBand(b, probs[k].value) then {k} else {}
  {
    hide InBand;
  }

  lemma RightCallsSnoc(b: Bucket, probs: seq<Option<real>>, labels: seq<real>)
    requires |labels| == |probs| > 0
    ensures var k := |probs| - 1;
            var right := probs[k].Some? && InBand(b, probs[k].value) && Hit(probs[k].value, labels[k]);
            && k !in RightCalls(b, probs[..k], labels[..k])
            && RightCalls(b, probs, labels) == RightCalls(b, probs[..k], labels[..k]) + if right then {k} else {}
  {
    hide InBand;
    CallsSnoc(b, probs);
  }

  lemma {:induction false} CountsAreCalls(b: Bucket, probs: seq<Option<real>>, labels: seq<real>)
    requires |labels| == |probs|
    ensures CountIn(b, probs) == |Calls(b, probs)|
    ensures CountHits(b, probs, labels) == |RightCalls(b, probs, labels)|
  {
    if probs == [] {
      assert Calls(b, probs) == {} && RightCalls(b, probs, labels) == {};
    } else {
      hide BucketOf, InBand, Calls, RightCalls, Hit;
      var k := |probs| - 1;
      CountsAreCalls(b, probs[..k], labels[..k]);
      if probs[k].Some? { BandIsBucket(b, probs[k].value); }
      CallsSnoc(b, probs);
      RightCallsSnoc(b, probs, labels);
    }
  }

  /** The ledger of a record holds, band by band, how many sessions were called and how many of those calls were
      right. */
  lemma TallyCountsCalls(probs: seq<Option<real>>, labels: seq<real>)
    requires |labels| == |probs|
    ensures BatchTally(probs, labels).Keys == ALL
    ensures forall b :: b in ALL ==>
              BatchTally(probs, labels)[b] == Tally(|Calls(b, probs)|, |RightCalls(b, probs, labels)|)
  {
    forall b | b in ALL
      ensures BatchTally(probs, labels)[b] == Tally(|Calls(b, probs)|, |RightCalls(b, probs, labels)|)
    {
      CountsAreCalls(b, probs, labels);
    }
  }

  datatype TallyError = UnequalLengths

  /** `_tally`: the loop refuses records of different lengths. */
  method TallyRecord(probs: seq<Option<real>>, labels: seq<real>) returns (r: Result<Ledger, TallyError>)
    ensures |probs| != |labels| ==> r == Err(UnequalLengths)
    ensures |probs| == |labels| ==> r == Ok(BatchTally(probs, labels))
    ensures |probs| == |labels| ==> forall b :: b in ALL ==>
              b in r.value && r.value[b] == Tally(|Calls(b, probs)|, |RightCalls(b, probs, labels)|)
  {
    if |probs| != |labels| {
      return Err(UnequalLengths);
    }
    var out := BLANK;
    for i := 0 to |probs|
      invariant out == BatchTally(probs[..i], labels[..i])
    {
      BatchTallySnoc(probs[..i], labels[..i], probs[i], labels[i]);
      assert probs[..i + 1] == probs[..i] + [probs[i]] && labels[..i + 1] == labels[..i] + [labels[i]];
      if probs[i].Some? {
        out := Scored(out, probs[i].value, labels[i]);
      }
    }
    assert probs[..|probs|] == probs && labels[..|labels|] == labels;
    TallyCountsCalls(probs, labels);
    r := Ok(out);
  }

  // ---- anchoring -------------------------------------------------------------------

  const SMOOTHING := 100

  function Recalibrate(raw: real, t: Ledger): real
  {
    var b := BucketOf(raw);
    var s := if b in t then t[b] else Tally(0, 0);
    var acc := (s.wins as real + 0.5 * SMOOTHING as real) / (s.n + SMOOTHING) as real;
    var edge := Max(acc - 0.5, 0.0005);
    if raw > 0.5 then 0.5 + edge else 0.5 - edge
  }

  /** Anchoring never changes sides, never says less than 0.0005 of edge, and never claims certainty. */
  lemma AnchorKeepsSide(raw: real, t: Ledger)
    requires forall b :: b in t ==> t[b].wins <= t[b].n
    ensures raw > 0.5 ==> 0.5005 <= Recalibrate(raw, t) < 1.0
    ensures raw <= 0.5 ==> 0.0 < Recalibrate(raw, t) <= 0.4995
  {
    var s := if BucketOf(raw) in t then t[BucketOf(raw)] else Tally(0, 0);
    AccuracyBelowOne(s.wins as real, s.n as real);
  }

  lemma AccuracyBelowOne(wins: real, n: real)
    requires 0.0 <= wins <= n
    ensures (wins + 50.0) / (n + 100.0) < 1.0
  {
    var acc := (wins + 50.0) / (n + 100.0);
    assert acc * (n + 100.0) == wins + 50.0;
    assert acc >= 1.0 ==> (acc - 1.0) * (n + 100.0) >= 0.0;
  }

  /** With `k` of the `n` earlier calls of its band right, a value is anchored at their excess over half, shrunk by a
      hundred coin tosses, and no closer than 0.0005. */
  function Distance(n: nat, k: nat): real
  {
    Max((2 * k - n) as real / (2.0 * (n + 100) as real), 0.0005)
  }

  lemma AnchorFromCounts(raw: real, past: seq<Option<real>>, labels: seq<real>, b: Bucket)
    requires |labels| == |past| && InBand(b, raw)
    ensures var n, k := |Calls(b, past)|, |RightCalls(b, past, labels)|;
            Recalibrate(raw, BatchTally(past, labels))
            == if raw > 0.5 then 0.5 + Distance(n, k) else 0.5 - Distance(n, k)
  {
    hide Calls, RightCalls, InBand, BucketOf, BatchTally;
    BandIsBucket(b, raw);
    AllBuckets(b);
    TallyCountsCalls(past, labels);
    ExcessOverHalf(|Calls(b, past)|, |RightCalls(b, past, labels)|);
  }

  lemma ExcessOverHalf(n: nat, k: nat)
    ensures (k as real + 0.5 * SMOOTHING as real) / (n + SMOOTHING) as real - 0.5
            == (2 * k - n) as real / (2.0 * (n + 100) as real)
  {
    var x, y := k as real + 50.0, (n + 100) as real;
    var q := x / y;
    assert q * y == x;
    QuotientIs((2 * k - n) as real, 2.0 * y, q - 0.5);
  }

  /** A better record in the bucket never anchors closer to "no opinion". */
  lemma AnchorMonotone(raw: real, t: Ledger, u: Ledger)
    requires BucketOf(raw) in t && BucketOf(raw) in u
    requires t[BucketOf(raw)].n == u[BucketOf(raw)].n && t[BucketOf(raw)].wins <= u[BucketOf(raw)].wins
    ensures Abs(Recalibrate(raw, t) - 0.5) <= Abs(Recalibrate(raw, u) - 0.5)
  {
    var n := (t[BucketOf(raw)].n + SMOOTHING) as real;
    var x, y := t[BucketOf(raw)].wins as real + 50.0, u[BucketOf(raw)].wins as real + 50.0;
    QuotientMono(x, y, n);
  }

  lemma QuotientMono(x: real, y: real, n: real)
    requires x <= y && n > 0.0
    ensures x / n <= y / n
  {
    var a, b := x / n, y / n;
    assert a * n == x && b * n == y;
    assert a > b ==> (a - b) * n > 0.0;
  }

  /** The anchored probabilities of any record's own ledger obey the bounds. */
  lemma LedgerIsSound(probs: seq<Option<real>>, labels: seq<real>)
    requires |labels| == |probs|
    ensures forall b :: b in BatchTally(probs, labels)
              ==> BatchTally(probs, labels)[b].wins <= BatchTally(probs, labels)[b].n
  {
    forall b | b in ALL ensures CountHits(b, probs, labels) <= CountIn(b, probs) {
      HitsWithinCount(b, probs, labels);
    }
  }
}
