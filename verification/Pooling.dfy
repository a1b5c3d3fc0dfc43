/** Head-to-head evidence: `paired_evalue` on one aligned record
    (src/surge/verdict.py) and `pooled_paired_evalue`, which interleaves every
    pair's record by date before testing (src/surge/duel/verify.py). */
module Pooling {
  import opened Prelude
  import opened EProcess
  import opened Envelope

  /** One session: its date, and whether the strategy and the baseline were right. */
  datatype Session = Session(date: string, strat: int, base: int)

  /** Python's order on strings. */
  predicate LexLe(a: string, b: string)
  {
    a == "" || (b != "" && (a[0] < b[0] || (a[0] == b[0] && LexLe(a[1..], b[1..]))))
  }

  lemma {:induction false} LexTotal(a: string, b: string)
    ensures LexLe(a, b) || LexLe(b, a)
    ensures LexLe(a, b) && LexLe(b, a) ==> a == b
  {
    if a != "" && b != "" {
      LexTotal(a[1..], b[1..]);
      assert a == [a[0]] + a[1..] && b == [b[0]] + b[1..];
    }
  }

  lemma {:induction false} LexTransitive(a: string, b: string, c: string)
    requires LexLe(a, b) && LexLe(b, c)
    ensures LexLe(a, c)
  {
    if a != "" && a[0] == b[0] == c[0] {
      LexTransitive(a[1..], b[1..], c[1..]);
    }
  }

  /** The first character that differs decides. */
  lemma {:induction false} FirstDifferenceDecides(same: string, x: char, a: string, y: char, b: string)
    requires x != y
    ensures LexLe(same + [x] + a, same + [y] + b) <==> x < y
  {
    var s, t := same + [x] + a, same + [y] + b;
    if same != "" {
      FirstDifferenceDecides(same[1..], x, a, y, b);
      assert s[1..] == same[1..] + [x] + a && t[1..] == same[1..] + [y] + b;
    }
  }

  /** A prefix comes first. */
  lemma {:induction false} PrefixComesFirst(a: string, b: string)
    ensures LexLe(a, a + b) && (LexLe(a + b, a) <==> b == "")
  {
    if a == "" {
      assert a + b == b;
    } else {
      PrefixComesFirst(a[1..], b);
      assert (a + b)[1..] == a[1..] + b;
    }
  }

  // ---- the stable sort -----------------------------------------------------------

  function Insert(x: Session, s: seq<Session>): seq<Session>
  {
    if s == [] || LexLe(x.date, s[0].date) then [x] + s else [s[0]] + Insert(x, s[1..])
  }

  /** `list.sort(key=date)`. */
  function SortByDate(s: seq<Session>): seq<Session>
  {
    if s == [] then [] else Insert(s[0], SortByDate(s[1..]))
  }

  predicate Chronological(s: seq<Session>)
  {
    forall i, j :: 0 <= i < j < |s| ==> LexLe(s[i].date, s[j].date)
  }

  /** The sessions of one date, in order of appearance. */
  function OnDate(s: seq<Session>, d: string): seq<Session>
  {
    if s == [] then [] else (if s[0].date == d then [s[0]] else []) + OnDate(s[1..], d)
  }

  lemma {:induction false} InsertChronological(x: Session, s: seq<Session>)
    requires Chronological(s)
    ensures Chronological(Insert(x, s))
    ensures forall y :: y in Insert(x, s) <==> y == x || y in s
  {
    if s == [] {
    } else if LexLe(x.date, s[0].date) {
      forall j | 0 <= j < |s| ensures LexLe(x.date, s[j].date) {
        if j > 0 { LexTransitive(x.date, s[0].date, s[j].date); }
      }
    } else {
      LexTotal(x.date, s[0].date);
      InsertChronological(x, s[1..]);
      assert s == [s[0]] + s[1..];
      var t := Insert(x, s[1..]);
      forall j | 0 <= j < |t| ensures LexLe(s[0].date, t[j].date) {
        assert t[j] in t;
      }
    }
  }

  lemma {:induction false} InsertOnDate(x: Session, s: seq<Session>, d: string)
    ensures OnDate(Insert(x, s), d) == (if x.date == d then [x] else []) + OnDate(s, d)
  {
    hide LexLe;
    LexReflexive(x.date);
    if s == [] || LexLe(x.date, s[0].date) {
      assert ([x] + s)[1..] == s;
    } else {
      InsertOnDate(x, s[1..], d);
      assert ([s[0]] + Insert(x, s[1..]))[1..] == Insert(x, s[1..]);
    }
  }

  lemma LexReflexive(a: string)
    ensures LexLe(a, a)
  {
    LexTotal(a, a);
  }

  /** The sort is chronological and keeps each date's sessions in their order. */
  lemma {:induction false} SortIsStable(s: seq<Session>)
    ensures Chronological(SortByDate(s))
    ensures forall d :: OnDate(SortByDate(s), d) == OnDate(s, d)
  {
    if s != [] {
      SortIsStable(s[1..]);
      InsertChronological(s[0], SortByDate(s[1..]));
      forall d ensures OnDate(SortByDate(s), d) == OnDate(s, d) {
        InsertOnDate(s[0], SortByDate(s[1..]), d);
      }
    }
  }

  lemma {:induction false} FirstOnDate(s: seq<Session>, d: string)
    requires Chronological(s) && OnDate(s, d) != []
    ensures s != [] && LexLe(s[0].date, d)
  {
    if s[0].date == d {
      LexReflexive(d);
    } else {
      assert Chronological(s[1..]);
      FirstOnDate(s[1..], d);
      LexTransitive(s[0].date, s[1].date, d);
    }
  }

  lemma OnDateHead(s: seq<Session>)
    ensures s != [] ==> OnDate(s, s[0].date) != []
  {
  }

  lemma OnDateStep(s: seq<Session>, d: string)
    requires s != []
    ensures s[0].date == d ==> OnDate(s, d) == [s[0]] + OnDate(s[1..], d)
    ensures s[0].date != d ==> OnDate(s, d) == OnDate(s[1..], d)
  {
  }

  lemma SameHead(a: seq<Session>, b: seq<Session>, x: Session, y: Session)
    requires [x] + a == [y] + b
    ensures x == y && a == b
  {
    assert ([x] + a)[0] == x && ([y] + b)[0] == y;
    assert ([x] + a)[1..] == a && ([y] + b)[1..] == b;
  }

  lemma ChronologicalTail(s: seq<Session>)
    requires Chronological(s)
    ensures s != [] ==> Chronological(s[1..])
  {
    hide LexLe;
  }

  lemma SameSequence(s: seq<Session>, t: seq<Session>)
    requires s != [] && t != [] && s[0] == t[0] && s[1..] == t[1..]
    ensures s == t
  {
    assert s == [s[0]] + s[1..] && t == [t[0]] + t[1..];
  }

  lemma SameTails(s: seq<Session>, t: seq<Session>, d: string)
    requires s != [] && t != [] && s[0] == t[0] && OnDate(s, d) == OnDate(t, d)
    ensures OnDate(s[1..], d) == OnDate(t[1..], d)
  {
    hide OnDate;
    OnDateStep(s, d);
    OnDateStep(t, d);
    if s[0].date == d { SameHead(OnDate(s[1..], d), OnDate(t[1..], d), s[0], t[0]); }
  }

  /** Being chronological and stable determines the result: there is only one stable sort. */
  lemma {:induction false} StableSortUnique(s: seq<Session>, t: seq<Session>)
    requires Chronological(s) && Chronological(t)
    requires forall d :: OnDate(s, d) == OnDate(t, d)
    ensures s == t
  {
    if s == [] {
      OnDateHead(t);
    } else {
      hide LexLe, OnDate, Chronological;
      ChronologicalTail(s);
      ChronologicalTail(t);
      OnDateHead(s);
      FirstOnDate(t, s[0].date);
      OnDateHead(t);
      FirstOnDate(s, t[0].date);
      LexTotal(s[0].date, t[0].date);
      var d := s[0].date;
      OnDateStep(s, d);
      OnDateStep(t, d);
      SameHead(OnDate(s[1..], d), OnDate(t[1..], d), s[0], t[0]);
      forall d' ensures OnDate(s[1..], d') == OnDate(t[1..], d') { SameTails(s, t, d'); }
      StableSortUnique(s[1..], t[1..]);
      SameSequence(s, t);
    }
  }

  // ---- discordant sessions ---------------------------------------------------------

  /** The sessions on which strategy and baseline disagree. */
  function Disagreements(s: seq<Session>): seq<Session>
  {
    if s == [] then []
    else (if s[0].strat != s[0].base then [s[0]] else []) + Disagreements(s[1..])
  }

  /** The coin each disagreement tosses: 1 when the strategy was right. */
  function Coins(s: seq<Session>): seq<int>
  {
    if s == [] then []
    else (if s[0].strat != s[0].base then [if s[0].strat == 1 then 1 else 0] else []) + Coins(s[1..])
  }

  function Flatten(streams: seq<seq<Session>>): seq<Session>
  {
    if streams == [] then [] else streams[0] + Flatten(streams[1..])
  }

  function CountDiscordant(streams: seq<seq<Session>>): nat
  {
    if streams == [] then 0 else |Disagreements(streams[0])| + CountDiscordant(streams[1..])
  }

  lemma {:induction false} CoinsOfDisagreements(s: seq<Session>)
    ensures Coins(Disagreements(s)) == Coins(s) && |Coins(s)| == |Disagreements(s)|
  {
    if s != [] {
      CoinsOfDisagreements(s[1..]);
      var rest := Disagreements(s[1..]);
      if s[0].strat != s[0].base {
        assert Disagreements(s)[1..] == rest;
      } else {
        assert Disagreements(s) == rest;
      }
    }
  }

  lemma {:induction false} DisagreementsConcat(a: seq<Session>, b: seq<Session>)
    ensures Disagreements(a + b) == Disagreements(a) + Disagreements(b)
  {
    if a == [] {
      assert a + b == b;
    } else {
      assert (a + b)[1..] == a[1..] + b;
      DisagreementsConcat(a[1..], b);
    }
  }

  lemma {:induction false} CoinsSnoc(s: seq<Session>, x: Session)
    ensures Coins(s + [x])
            == Coins(s) + (if x.strat != x.base then [if x.strat == 1 then 1 else 0] else [])
  {
    if s == [] {
      assert s + [x] == [x];
    } else {
      assert (s + [x])[1..] == s[1..] + [x];
      CoinsSnoc(s[1..], x);
    }
  }

  lemma {:induction false} FlattenSnoc(streams: seq<seq<Session>>, s: seq<Session>)
    ensures Flatten(streams + [s]) == Flatten(streams) + s
  {
    if streams == [] {
      assert streams + [s] == [s];
    } else {
      assert (streams + [s])[1..] == streams[1..] + [s];
      FlattenSnoc(streams[1..], s);
    }
  }

  lemma {:induction false} InsertCommutes(x: Session, s: seq<Session>)
    requires Chronological(s)
    ensures Disagreements(Insert(x, s))
            == if x.strat != x.base then Insert(x, Disagreements(s)) else Disagreements(s)
  {
    if s == [] {
      assert ([x] + s)[1..] == [];
    } else if LexLe(x.date, s[0].date) {
      assert ([x] + s)[1..] == s;
      DisagreementsAfter(x, s);
    } else {
      assert Chronological(s[1..]);
      InsertCommutes(x, s[1..]);
      assert ([s[0]] + Insert(x, s[1..]))[1..] == Insert(x, s[1..]);
      var rest := Disagreements(s[1..]);
      if s[0].strat != s[0].base {
        assert Disagreements(s)[1..] == rest && Disagreements(s)[0] == s[0];
        assert Disagreements(Insert(x, s)) == [s[0]] + Disagreements(Insert(x, s[1..]));
      } else {
        assert Disagreements(s) == rest;
        assert Disagreements(Insert(x, s)) == Disagreements(Insert(x, s[1..]));
      }
    }
  }

  lemma {:induction false} DisagreementsAfter(x: Session, s: seq<Session>)
    requires Chronological(s) && (s != [] ==> LexLe(x.date, s[0].date))
    ensures Insert(x, Disagreements(s)) == [x] + Disagreements(s)
  {
    if s != [] && s[0].strat == s[0].base {
      if |s| > 1 { LexTransitive(x.date, s[0].date, s[1].date); }
      assert Chronological(s[1..]);
      DisagreementsAfter(x, s[1..]);
      assert Disagreements(s) == Disagreements(s[1..]);
    }
  }

  /** Sorting by date commutes with dropping the sessions on which both agree. */
  lemma {:induction false} SortCommutes(s: seq<Session>)
    ensures Disagreements(SortByDate(s)) == SortByDate(Disagreements(s))
  {
    if s != [] {
      SortCommutes(s[1..]);
      SortIsStable(s[1..]);
      InsertCommutes(s[0], SortByDate(s[1..]));
      if s[0].strat != s[0].base {
        assert Disagreements(s)[1..] == Disagreements(s[1..]);
      } else {
        assert Disagreements(s) == Disagreements(s[1..]);
      }
    }
  }

  lemma {:induction false} SortKeepsLength(s: seq<Session>)
    ensures |SortByDate(s)| == |s|
  {
    if s != [] {
      SortKeepsLength(s[1..]);
      InsertLength(s[0], SortByDate(s[1..]));
    }
  }

  lemma {:induction false} InsertLength(x: Session, s: seq<Session>)
    ensures |Insert(x, s)| == |s| + 1
  {
    if s != [] && !LexLe(x.date, s[0].date) {
      InsertLength(x, s[1..]);
    }
  }

  /** The coins the pooled test tosses. */
  function PooledCoins(streams: seq<seq<Session>>): seq<int>
  {
    Coins(SortByDate(Flatten(streams)))
  }

  /** Pooling tosses exactly the disagreements of the separate records, date by date. */
  lemma PooledCount(streams: seq<seq<Session>>)
    ensures |PooledCoins(streams)| == CountDiscordant(streams)
    ensures PooledCoins(streams) == Coins(SortByDate(Disagreements(Flatten(streams))))
  {
    var m := Flatten(streams);
    CoinsOfDisagreements(SortByDate(m));
    SortCommutes(m);
    SortKeepsLength(Disagreements(m));
    CountFlatten(streams);
  }

  lemma {:induction false} CountFlatten(streams: seq<seq<Session>>)
    ensures |Disagreements(Flatten(streams))| == CountDiscordant(streams)
  {
    if streams != [] {
      DisagreementsConcat(streams[0], Flatten(streams[1..]));
      CountFlatten(streams[1..]);
    }
  }

  method PooledPairedEvalue(streams: seq<seq<Session>>, priorRate: Option<real>, priorWeight: real)
    returns (e: real)
    requires priorWeight > -1.0
    ensures e == Evalue(PooledCoins(streams), Some(0.5), MakePrior(priorRate, priorWeight))
  {
    var merged := [];
    for i := 0 to |streams|
      invariant merged == Flatten(streams[..i])
    {
      FlattenSnoc(streams[..i], streams[i]);
      assert streams[..i + 1] == streams[..i] + [streams[i]];
      merged := merged + streams[i];
    }
    assert streams[..|streams|] == streams;
    merged := SortByDate(merged);
    var disc := [];
    for i := 0 to |merged|
      invariant disc == Coins(merged[..i])
    {
      CoinsSnoc(merged[..i], merged[i]);
      assert merged[..i + 1] == merged[..i] + [merged[i]];
      if merged[i].strat != merged[i].base {
        disc := disc + [if merged[i].strat == 1 then 1 else 0];
      }
    }
    assert merged[..|merged|] == merged;
    e := WarmstartEvalue(disc, Some(0.5), priorRate, priorWeight);
  }

  // ---- one aligned record ------------------------------------------------------------

  /** The strategy's outcome on each session where it and the baseline differ. */
  function Discordant(hits: seq<int>, base: seq<int>): seq<int>
    requires |hits| == |base|
  {
    if hits == [] then []
    else
      var n := |hits| - 1;
      Discordant(hits[..n], base[..n]) + (if hits[n] != base[n] then [hits[n]] else [])
  }

  datatype PairedError = LengthMismatch(hits: nat, base: nat)

  method PairedEvalue(hits: seq<int>, base: seq<int>) returns (r: Result<real, PairedError>)
    ensures |hits| != |base| ==> r == Err(LengthMismatch(|hits|, |base|))
    ensures |hits| == |base| ==> r == Ok(Evalue(Discordant(hits, base), Some(0.5), FLAT))
  {
    if |hits| != |base| {
      return Err(LengthMismatch(|hits|, |base|));
    }
    var disc := [];
    for i := 0 to |hits|
      invariant disc == Discordant(hits[..i], base[..i])
    {
      assert hits[..i + 1][..i] == hits[..i] && base[..i + 1][..i] == base[..i];
      if hits[i] != base[i] {
        disc := disc + [hits[i]];
      }
    }
    assert hits[..|hits|] == hits && base[..|base|] == base;
    if disc == [] {
      return Ok(0.0);
    }
    var e := EvalueBernoulli(disc, Some(0.5));
    r := Ok(e);
  }

  lemma WinsSnoc(d: seq<int>, x: int)
    ensures Wins(d + [x]) == Wins(d) + x
  {
    assert (d + [x])[..|d|] == d;
  }

  lemma BinarySnoc(d: seq<int>, x: int)
    requires IsBinary(d) && (x == 0 || x == 1)
    ensures IsBinary(d + [x])
  {
  }

  lemma BinaryParts(d: seq<int>)
    requires IsBinary(d) && d != []
    ensures IsBinary(d[..|d| - 1]) && (d[|d| - 1] == 0 || d[|d| - 1] == 1)
  {
  }

  lemma DiscordantParts(hits: seq<int>, base: seq<int>)
    requires |hits| == |base| > 0
    ensures var n := |hits| - 1;
            Discordant(hits, base) == if hits[n] != base[n] then Discordant(hits[..n], base[..n]) + [hits[n]]
                                      else Discordant(hits[..n], base[..n])
  {
  }

  lemma {:induction false} DiscordantMirror(hits: seq<int>, base: seq<int>)
    requires |hits| == |base| && IsBinary(hits) && IsBinary(base)
    ensures var d, m := Discordant(hits, base), Discordant(base, hits);
            IsBinary(d) && IsBinary(m) && |d| == |m| <= |hits| && Wins(d) + Wins(m) == |d|
  {
    if hits != [] {
      hide Discordant, IsBinary, Wins;
      var n := |hits| - 1;
      BinaryParts(hits);
      BinaryParts(base);
      DiscordantMirror(hits[..n], base[..n]);
      DiscordantParts(hits, base);
      DiscordantParts(base, hits);
      var d, m := Discordant(hits[..n], base[..n]), Discordant(base[..n], hits[..n]);
      BinarySnoc(d, hits[n]);
      BinarySnoc(m, base[n]);
      WinsSnoc(d, hits[n]);
      WinsSnoc(m, base[n]);
    }
  }

  /** Strategy and baseline can never both look better than each other on the same sessions. */
  lemma NeverBothBetter(hits: seq<int>, base: seq<int>)
    requires |hits| == |base| <= 500_000 && IsBinary(hits) && IsBinary(base)
    ensures Evalue(Discordant(hits, base), Some(0.5), FLAT) <= 1.0
            || Evalue(Discordant(base, hits), Some(0.5), FLAT) <= 1.0
  {
    hide Evalue, CapIdle, Wins;
    DiscordantMirror(hits, base);
    var d, m := Discordant(hits, base), Discordant(base, hits);
    ShortRecordsIdle(d);
    ShortRecordsIdle(m);
    if Wins(d) <= Wins(m) { NoFalseEvidence(d); } else { NoFalseEvidence(m); }
  }

  function Total(xs: seq<int>): int { if xs == [] then 0 else Total(xs[..|xs| - 1]) + xs[|xs| - 1] }

  /** Won less lost sessions among those that differ are the strategy's hits less the baseline's. */
  lemma {:induction false} DiscordantLead(hits: seq<int>, base: seq<int>)
    requires |hits| == |base| && IsBinary(hits) && IsBinary(base)
    ensures var d := Discordant(hits, base);
            2 * Wins(d) - |d| == Total(hits) - Total(base)
  {
    hide IsBinary, Wins, Discordant;
    if hits == [] {
      NothingDiscordant();
    } else {
      var n := |hits| - 1;
      BinaryParts(hits);
      BinaryParts(base);
      DiscordantLead(hits[..n], base[..n]);
      DiscordantParts(hits, base);
      WinsSnoc(Discordant(hits[..n], base[..n]), hits[n]);
    }
  }

  lemma NothingDiscordant()
    ensures Discordant([], []) == [] && Wins([]) == 0
  {
  }

  /** The paired test shows evidence only for a strategy that was right more often than its baseline. */
  lemma PairedEvidenceBeatsBaseline(hits: seq<int>, base: seq<int>)
    requires |hits| == |base| <= 500_000 && IsBinary(hits) && IsBinary(base) && Total(hits) <= Total(base)
    ensures Evalue(Discordant(hits, base), Some(0.5), FLAT) <= 1.0
  {
    hide Evalue, CapIdle, Wins, IsBinary, Discordant, Total;
    DiscordantMirror(hits, base);
    DiscordantLead(hits, base);
    ShortRecordsIdle(Discordant(hits, base));
    NoFalseEvidence(Discordant(hits, base));
  }
}
