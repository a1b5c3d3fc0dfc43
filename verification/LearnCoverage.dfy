/** What one registration leaves in the race (src/surge/learn.py): every hypothesis the diagnostics call for, spelled
    out in components and multipliers. */
module LearnCoverage {
  import opened Prelude
  import opened Learn

  /** The variants persisted by one registration. */
  function After(d: Diagnostics, fixed: set<Multipliers>, discovered: Variants): Variants
  {
    discovered + Additions(d, fixed, discovered)
  }

  /** The map is raced afterwards, unless its tag was already taken by an earlier discovery. */
  predicate Raced(d: Diagnostics, fixed: set<Multipliers>, discovered: Variants, tag: string, m: Multipliers)
  {
    m in Maps(fixed, After(d, fixed, discovered)) || tag in discovered
  }

  /** Either the map was raced before, or it is proposed under its tag. */
  lemma ProposedIsRaced(d: Diagnostics, fixed: set<Multipliers>, discovered: Variants, tag: string, m: Multipliers)
    requires var e := Maps(fixed, discovered);
             m in e || (tag in Proposed(d, e) && Proposed(d, e)[tag] == m)
    ensures Raced(d, fixed, discovered, tag, m)
  {
    hide Proposed;
    var after := After(d, fixed, discovered);
    if m in discovered.Values {
      var t :| t in discovered && discovered[t] == m;
      assert after[t] == m;
    } else if m !in fixed && tag !in discovered {
      assert after[tag] == m;
    }
  }

  // ---- tags keep the proposers apart ---------------------------------------------------------------------

  lemma SameName(prefix: string, a: string, b: string)
    requires prefix + a == prefix + b
    ensures a == b
  {
    assert (prefix + a)[|prefix|..] == a && (prefix + b)[|prefix|..] == b;
  }

  lemma CharAt(prefix: string, name: string, k: nat)
    requires k < |prefix|
    ensures (prefix + name)[k] == prefix[k]
  {
  }

  /** An inversion and a drop never share a tag. */
  lemma TagsApart(a: string, b: string)
    ensures "disc_inv_" + a != "disc_drop_" + b
    ensures "disc_culprit_drop_" + a != "disc_culprit_inv_" + b
  {
    CharAt("disc_inv_", a, 5);
    CharAt("disc_drop_", b, 5);
    CharAt("disc_culprit_drop_", a, 13);
    CharAt("disc_culprit_inv_", b, 13);
  }

  /** Nor with what the conflict calls its own, at the sixth character or the seventh. */
  lemma ConflictTagApart(tag: string, existing: set<Multipliers>, c: Conflict)
    requires |tag| >= 7 && !(tag[5] == 'c' && tag[6] == 'o')
    ensures tag !in ConflictChallengers(c, existing)
  {
    assert "disc_conflict_trust_futures"[5] == 'c' && "disc_conflict_trust_futures"[6] == 'o';
    assert "disc_conflict_trust_asia"[5] == 'c' && "disc_conflict_trust_asia"[6] == 'o';
  }

  // ---- fixed thresholds -----------------------------------------------------------------------------------

  lemma CulpritTag(cs: seq<Culprit>, existing: set<Multipliers>, tag: string)
    requires tag in CulpritChallengers(cs, existing)
    ensures FromCulprits(cs, Idea(tag, CulpritChallengers(cs, existing)[tag]))
  {
    CulpritEntries(cs, existing);
    assert Entry(CulpritChallengers(cs, existing), existing, CulpritSource(cs), tag);
  }

  lemma CulpritTagChars(cs: seq<Culprit>, existing: set<Multipliers>, tag: string)
    requires tag in CulpritChallengers(cs, existing)
    ensures |tag| >= 7 && tag[5] == 'c'
  {
    CulpritTag(cs, existing, tag);
    var c :| c in cs && c.rate >= CULPRIT_RATE
             && (Idea(tag, CulpritChallengers(cs, existing)[tag]) == CulpritIdeas(c.name).0
                 || Idea(tag, CulpritChallengers(cs, existing)[tag]) == CulpritIdeas(c.name).1);
    CharAt("disc_culprit_drop_", c.name, 5);
    CharAt("disc_culprit_inv_", c.name, 5);
  }

  lemma StandardTag(accs: seq<Accuracy>, existing: set<Multipliers>, tag: string)
    requires tag in Standard(accs, existing)
    ensures FromThresholds(accs, Idea(tag, Standard(accs, existing)[tag]))
  {
    StandardEntries(accs, existing);
    assert Entry(Standard(accs, existing), existing, Thresholds(accs), tag);
  }

  /** What the thresholds propose reaches the race unchanged. */
  lemma StandardIsProposed(d: Diagnostics, existing: set<Multipliers>, a: Accuracy, idea: Idea)
    requires a in d.accs && StandardIdea(a) == Some(idea) && idea.m !in existing
    ensures idea.tag in Proposed(d, existing) && Proposed(d, existing)[idea.tag] == idea.m
  {
    hide Standard, CulpritChallengers, ConflictChallengers, Worst, AdaptiveIdea;
    StandardEntries(d.accs, existing);
    var v, tag := Standard(d.accs, existing), idea.tag;
    assert tag in v;
    StandardTag(d.accs, existing, tag);
    var a' :| a' in d.accs && StandardIdea(a') == Some(Idea(tag, v[tag]));
    SameStandardTag(a, a');
    if tag in CulpritChallengers(d.culprits, existing) { CulpritTagChars(d.culprits, existing, tag); }
    StandardTagChars(a);
    ConflictTagApart(tag, existing, d.conflict);
  }

  lemma StandardTagChars(a: Accuracy)
    requires StandardIdea(a).Some?
    ensures var tag := StandardIdea(a).value.tag;
            |tag| >= 7 && tag[5] != 'c'
  {
    CharAt("disc_inv_", a.name, 5);
    CharAt("disc_drop_", a.name, 5);
  }

  lemma SameStandardTag(a: Accuracy, b: Accuracy)
    requires StandardIdea(a).Some? && StandardIdea(b).Some? && StandardIdea(a).value.tag == StandardIdea(b).value.tag
    ensures StandardIdea(a) == StandardIdea(b)
  {
    TagsApart(a.name, b.name);
    TagsApart(b.name, a.name);
    if a.acc <= INVERT_BELOW { SameName("disc_inv_", a.name, b.name); } else { SameName("disc_drop_", a.name, b.name); }
  }

  /** A component right at most 40% of the time is raced inverted, and one right at most 45% of the time dropped. */
  lemma WeakComponentsAreRaced(d: Diagnostics, fixed: set<Multipliers>, discovered: Variants, a: Accuracy)
    requires a in d.accs
    ensures a.acc <= 0.40 ==> Raced(d, fixed, discovered, "disc_inv_" + a.name, map[a.name := -1.0])
    ensures 0.40 < a.acc <= 0.45 ==> Raced(d, fixed, discovered, "disc_drop_" + a.name, map[a.name := 0.0])
  {
    hide Proposed, Raced;
    var e := Maps(fixed, discovered);
    if StandardIdea(a).Some? {
      var idea := StandardIdea(a).value;
      if idea.m !in e { StandardIsProposed(d, e, a, idea); }
      ProposedIsRaced(d, fixed, discovered, idea.tag, idea.m);
    }
  }

  // ---- culprits ---------------------------------------------------------------------------------------------

  lemma CulpritIsProposed(d: Diagnostics, existing: set<Multipliers>, c: Culprit, idea: Idea)
    requires c in d.culprits && c.rate >= CULPRIT_RATE && idea.m !in existing
    requires idea == CulpritIdeas(c.name).0 || idea == CulpritIdeas(c.name).1
    ensures idea.tag in Proposed(d, existing) && Proposed(d, existing)[idea.tag] == idea.m
  {
    hide Standard, CulpritChallengers, ConflictChallengers, Challengers;
    CulpritEntries(d.culprits, existing);
    var v, tag := CulpritChallengers(d.culprits, existing), idea.tag;
    assert tag in v;
    CulpritTag(d.culprits, existing, tag);
    var c' :| c' in d.culprits && c'.rate >= CULPRIT_RATE
              && (Idea(tag, v[tag]) == CulpritIdeas(c'.name).0 || Idea(tag, v[tag]) == CulpritIdeas(c'.name).1);
    TagsApart(c.name, c'.name);
    TagsApart(c'.name, c.name);
    if tag == "disc_culprit_drop_" + c.name {
      SameName("disc_culprit_drop_", c.name, c'.name);
    } else {
      SameName("disc_culprit_inv_", c.name, c'.name);
    }
    CharAt("disc_culprit_drop_", c.name, 6);
    CharAt("disc_culprit_inv_", c.name, 6);
    ConflictTagApart(tag, existing, d.conflict);
  }

  /** A component to blame for at least 15% of the wrong calls is raced dropped beside a stronger VIX regime, and
      inverted beside stronger futures. */
  lemma CulpritsAreRaced(d: Diagnostics, fixed: set<Multipliers>, discovered: Variants, c: Culprit)
    requires c in d.culprits && c.rate >= 0.15
    ensures Raced(d, fixed, discovered, "disc_culprit_drop_" + c.name, map[c.name := 0.0]["vix_regime" := 1.5])
    ensures Raced(d, fixed, discovered, "disc_culprit_inv_" + c.name, map[c.name := -1.0]["futures" := 1.5])
  {
    hide Proposed, Raced;
    var e := Maps(fixed, discovered);
    var drop, invert := CulpritIdeas(c.name).0, CulpritIdeas(c.name).1;
    if drop.m !in e { CulpritIsProposed(d, e, c, drop); }
    if invert.m !in e { CulpritIsProposed(d, e, c, invert); }
    ProposedIsRaced(d, fixed, discovered, drop.tag, drop.m);
    ProposedIsRaced(d, fixed, discovered, invert.tag, invert.m);
  }

  // ---- conflicts --------------------------------------------------------------------------------------------

  /** From 15 disagreements on, whichever of futures and Asia was right more than 1.3 times as often as the other is
      raced at double weight, the other at 0.3. */
  lemma ConflictWinnerIsRaced(d: Diagnostics, fixed: set<Multipliers>, discovered: Variants)
    requires d.conflict.sessions >= 15
    ensures d.conflict.futuresWins as real > 1.3 * d.conflict.asiaWins as real ==>
              Raced(d, fixed, discovered, "disc_conflict_trust_futures", map["futures" := 2.0, "asia_lead" := 0.3])
    ensures d.conflict.asiaWins as real > 1.3 * d.conflict.futuresWins as real ==>
              Raced(d, fixed, discovered, "disc_conflict_trust_asia", map["asia_lead" := 2.0, "futures" := 0.3])
  {
    hide Challengers, CulpritChallengers, Raced;
    var e := Maps(fixed, discovered);
    if ConflictIdea(d.conflict).Some? {
      var idea := ConflictIdea(d.conflict).value;
      assert idea.m !in e ==> ConflictChallengers(d.conflict, e)[idea.tag] == idea.m;
      ProposedIsRaced(d, fixed, discovered, idea.tag, idea.m);
    }
  }

  // ---- when nothing stands out -------------------------------------------------------------------------------

  /** Place `k` holds the lowest accuracy, and the first of it. */
  predicate FirstLowest(accs: seq<Accuracy>, k: nat)
    requires k < |accs|
  {
    (forall j :: 0 <= j < k ==> accs[j].acc > accs[k].acc) && forall j :: k <= j < |accs| ==> accs[j].acc >= accs[k].acc
  }

  lemma {:induction false} WorstIsFirstLowest(accs: seq<Accuracy>, k: nat)
    requires k < |accs| && FirstLowest(accs, k)
    ensures Worst(accs) == accs[k]
  {
    if |accs| > 1 {
      var before := accs[..|accs| - 1];
      if k < |before| {
        assert FirstLowest(before, k);
        WorstIsFirstLowest(before, k);
      } else {
        assert Worst(before) in before;
        var j :| 0 <= j < |before| && before[j] == Worst(before);
        assert accs[j] == before[j];
      }
    }
  }

  lemma {:induction false} NoneWeak(accs: seq<Accuracy>, existing: set<Multipliers>)
    requires forall j :: 0 <= j < |accs| ==> accs[j].acc > 0.45
    ensures Standard(accs, existing) == map[]
  {
    if accs != [] { NoneWeak(accs[..|accs| - 1], existing); }
  }

  /** When no component is at or below 45%, the first worst below 49% is raced dropped, unless some raced map already
      touches it or another proposer takes its tag. */
  lemma WorstComponentIsRaced(d: Diagnostics, fixed: set<Multipliers>, discovered: Variants, k: nat)
    requires k < |d.accs| && FirstLowest(d.accs, k) && 0.45 < d.accs[k].acc < 0.49
    requires forall m :: m in Maps(fixed, discovered) ==> d.accs[k].name !in m
    ensures Raced(d, fixed, discovered, "disc_adapt_drop_" + d.accs[k].name, map[d.accs[k].name := 0.0])
  {
    hide Standard, CulpritChallengers, ConflictChallengers, Raced;
    var e, name := Maps(fixed, discovered), d.accs[k].name;
    WorstIsFirstLowest(d.accs, k);
    NoneWeak(d.accs, e);
    var tag, m := "disc_adapt_drop_" + name, map[name := 0.0];
    assert name in m;
    assert Challengers(d.accs, e) == map[tag := m];
    if tag in CulpritChallengers(d.culprits, e) { CulpritTagChars(d.culprits, e, tag); }
    CharAt("disc_adapt_drop_", name, 5);
    ConflictTagApart(tag, e, d.conflict);
    ProposedIsRaced(d, fixed, discovered, tag, m);
  }

  // ---- and nothing else ----------------------------------------------------------------------------------------

  /** The accuracies call for the idea: inverted at or below 40%, dropped at or below 45%, or the worst of all, below
      49%, dropped adaptively. */
  ghost predicate CalledByAccuracy(accs: seq<Accuracy>, tag: string, m: Multipliers)
  {
    exists a :: a in accs &&
      (|| (a.acc <= 0.40 && tag == "disc_inv_" + a.name && m == map[a.name := -1.0])
       || (0.40 < a.acc <= 0.45 && tag == "disc_drop_" + a.name && m == map[a.name := 0.0])
       || (a.acc < 0.49 && Lowest(accs, a) && tag == "disc_adapt_drop_" + a.name && m == map[a.name := 0.0]))
  }

  predicate Lowest(accs: seq<Accuracy>, a: Accuracy) { forall a' :: a' in accs ==> a.acc <= a'.acc }

  ghost predicate CalledByCulprit(cs: seq<Culprit>, tag: string, m: Multipliers)
  {
    exists c :: c in cs && c.rate >= 0.15 &&
      (|| (tag == "disc_culprit_drop_" + c.name && m == map[c.name := 0.0]["vix_regime" := 1.5])
       || (tag == "disc_culprit_inv_" + c.name && m == map[c.name := -1.0]["futures" := 1.5]))
  }

  predicate CalledByConflict(c: Conflict, tag: string, m: Multipliers)
  {
    c.sessions >= 15 &&
    (|| (c.futuresWins as real > 1.3 * c.asiaWins as real && tag == "disc_conflict_trust_futures"
         && m == map["futures" := 2.0, "asia_lead" := 0.3])
     || (c.asiaWins as real > 1.3 * c.futuresWins as real && tag == "disc_conflict_trust_asia"
         && m == map["asia_lead" := 2.0, "futures" := 0.3]))
  }

  /** Every addition is a hypothesis the diagnostics call for, with multipliers nothing raced before. */
  lemma OnlyCalledForIsAdded(d: Diagnostics, fixed: set<Multipliers>, discovered: Variants, tag: string)
    requires tag in Additions(d, fixed, discovered)
    ensures var m := Additions(d, fixed, discovered)[tag];
            && tag !in discovered && m !in fixed && m !in discovered.Values
            && (CalledByAccuracy(d.accs, tag, m) || CalledByCulprit(d.culprits, tag, m)
                || CalledByConflict(d.conflict, tag, m))
  {
    hide Additions, CalledByAccuracy, CalledByCulprit, CalledByConflict, FromThresholds, FromCulprits;
    AdditionsAreNew(d, fixed, discovered, tag);
    var m := Additions(d, fixed, discovered)[tag];
    if FromThresholds(d.accs, Idea(tag, m)) {
      ThresholdsCall(d.accs, tag, m);
    } else if FromCulprits(d.culprits, Idea(tag, m)) {
      CulpritsCall(d.culprits, tag, m);
    } else if ConflictIdea(d.conflict) == Some(Idea(tag, m)) {
      ConflictCalls(d.conflict, tag, m);
    } else {
      WorstCalls(d.accs, tag, m);
    }
  }

  lemma ThresholdsCall(accs: seq<Accuracy>, tag: string, m: Multipliers)
    requires FromThresholds(accs, Idea(tag, m))
    ensures CalledByAccuracy(accs, tag, m)
  {
    var a :| a in accs && StandardIdea(a) == Some(Idea(tag, m));
  }

  lemma WorstCalls(accs: seq<Accuracy>, tag: string, m: Multipliers)
    requires accs != [] && Worst(accs).acc < WORST_BELOW && Idea(tag, m) == AdaptiveIdea(Worst(accs).name)
    ensures CalledByAccuracy(accs, tag, m)
  {
    hide Worst;
    var a := Worst(accs);
    assert a in accs && Lowest(accs, a);
  }

  lemma CulpritsCall(cs: seq<Culprit>, tag: string, m: Multipliers)
    requires FromCulprits(cs, Idea(tag, m))
    ensures CalledByCulprit(cs, tag, m)
  {
  }

  lemma ConflictCalls(c: Conflict, tag: string, m: Multipliers)
    requires ConflictIdea(c) == Some(Idea(tag, m))
    ensures CalledByConflict(c, tag, m)
  {
  }

  /** What the thresholds would race for a component. */
  function WeakMap(a: Accuracy): Multipliers { if a.acc <= 0.40 then map[a.name := -1.0] else map[a.name := 0.0] }

  /** The adaptive idea comes up only when nothing else does: every weak component's own map is raced already, and no
      raced map touches the worst one. */
  lemma AdaptiveOnlyWhenStuck(accs: seq<Accuracy>, existing: set<Multipliers>, name: string)
    requires "disc_adapt_drop_" + name in Challengers(accs, existing)
    ensures forall a :: a in accs && a.acc <= 0.45 ==> WeakMap(a) in existing
    ensures forall m :: m in existing ==> name !in m
    ensures Challengers(accs, existing) == map["disc_adapt_drop_" + name := map[name := 0.0]]
  {
    hide Standard, Worst;
    var tag := "disc_adapt_drop_" + name;
    StandardEntries(accs, existing);
    CharAt("disc_adapt_drop_", name, 5);
    if tag in Standard(accs, existing) {
      StandardTag(accs, existing, tag);
      var a :| a in accs && StandardIdea(a) == Some(Idea(tag, Standard(accs, existing)[tag]));
      CharAt("disc_inv_", a.name, 5);
      CharAt("disc_drop_", a.name, 5);
    }
    SameName("disc_adapt_drop_", name, Worst(accs).name);
    forall a | a in accs && a.acc <= 0.45 ensures WeakMap(a) in existing {
      assert StandardIdea(a).value.m == WeakMap(a);
    }
  }
}
