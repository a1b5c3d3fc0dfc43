/** Hypothesis registration (src/surge/learn.py): the proposers read the system's own
    diagnostics and `register_discovered` merges what is new into the persisted set. */
module Learn {
  import opened Prelude

  /** A variant: multipliers by component. */
  type Multipliers = map<string, real>

  /** Variants by tag. */
  type Variants = map<string, Multipliers>

  /** A component's live sign accuracy, and how often it was the culprit of a wrong call. */
  datatype Accuracy = Accuracy(name: string, acc: real)

  datatype Culprit = Culprit(name: string, rate: real)

  /** Sessions on which the Asia lead and the futures disagreed, and who was right. */
  datatype Conflict = Conflict(sessions: nat, asiaWins: nat, futuresWins: nat)

  /** Everything the proposers read, in the order they iterate it; names are distinct. */
  datatype Diagnostics = Diagnostics(accs: seq<Accuracy>, culprits: seq<Culprit>, conflict: Conflict)

  const INVERT_BELOW := 0.40
  const DROP_BELOW := 0.45
  const WORST_BELOW := 0.49

  // ---- proposers -----------------------------------------------------------------------------

  /** A tagged hypothesis. */
  datatype Idea = Idea(tag: string, m: Multipliers)

  /** The fixed-threshold idea for one component: invert, drop, or none. */
  function StandardIdea(a: Accuracy): Option<Idea>
  {
    if a.acc <= INVERT_BELOW then Some(Idea("disc_inv_" + a.name, map[a.name := -1.0]))
    else if a.acc <= DROP_BELOW then Some(Idea("disc_drop_" + a.name, map[a.name := 0.0]))
    else None
  }

  function Standard(accs: seq<Accuracy>, existing: set<Multipliers>): Variants
  {
    if accs == [] then map[]
    else
      var before, idea := Standard(accs[..|accs| - 1], existing), StandardIdea(accs[|accs| - 1]);
      if idea.Some? && idea.value.m !in existing then before[idea.value.tag := idea.value.m] else before
  }

  /** The first component with the lowest accuracy. */
  function Worst(accs: seq<Accuracy>): (w: Accuracy)
    requires accs != []
    ensures w in accs && forall a :: a in accs ==> w.acc <= a.acc
  {
    var last := accs[|accs| - 1];
    if |accs| == 1 then last
    else
      assert accs == accs[..|accs| - 1] + [last];
      var w := Worst(accs[..|accs| - 1]);
      if last.acc < w.acc then last else w
  }

  /** Components some existing variant already modifies. */
  predicate Covered(existing: set<Multipliers>, name: string) { exists m :: m in existing && name in m }

  function AdaptiveIdea(name: string): Idea { Idea("disc_adapt_drop_" + name, map[name := 0.0]) }

  function Challengers(accs: seq<Accuracy>, existing: set<Multipliers>): Variants
  {
    var out := Standard(accs, existing);
    if out == map[] && accs != [] then
      var w := Worst(accs);
      var idea := AdaptiveIdea(w.name);
      if w.acc < WORST_BELOW && !Covered(existing, w.name) && idea.m !in existing then map[idea.tag := idea.m]
      else out
    else out
  }

  const CULPRIT_RATE := 0.15

  /** Drop the culprit and lean on the VIX regime, or invert it and lean on the futures. */
  function CulpritIdeas(name: string): (Idea, Idea)
  {
    (Idea("disc_culprit_drop_" + name, map[name := 0.0]["vix_regime" := 1.5]),
     Idea("disc_culprit_inv_" + name, map[name := -1.0]["futures" := 1.5]))
  }

  function With(out: Variants, idea: Idea, existing: set<Multipliers>): Variants
  {
    if idea.m !in existing then out[idea.tag := idea.m] else out
  }

  function CulpritChallengers(cs: seq<Culprit>, existing: set<Multipliers>): Variants
  {
    if cs == [] then map[]
    else
      var before, c := CulpritChallengers(cs[..|cs| - 1], existing), cs[|cs| - 1];
      if c.rate >= CULPRIT_RATE then
        With(With(before, CulpritIdeas(c.name).0, existing), CulpritIdeas(c.name).1, existing)
      else before
  }

  function ConflictIdea(c: Conflict): Option<Idea>
  {
    if c.sessions < 15 then None
    else if c.futuresWins as real > c.asiaWins as real * 1.3 then
      Some(Idea("disc_conflict_trust_futures", map["futures" := 2.0, "asia_lead" := 0.3]))
    else if c.asiaWins as real > c.futuresWins as real * 1.3 then
      Some(Idea("disc_conflict_trust_asia", map["asia_lead" := 2.0, "futures" := 0.3]))
    else None
  }

  function ConflictChallengers(c: Conflict, existing: set<Multipliers>): Variants
  {
    var idea := ConflictIdea(c);
    if idea.Some? then With(map[], idea.value, existing) else map[]
  }

  // ---- registration ------------------------------------------------------------------------------

  /** Every multiplier map already raced. */
  function Maps(fixed: set<Multipliers>, discovered: Variants): set<Multipliers>
  {
    fixed + discovered.Values
  }

  function Proposed(d: Diagnostics, existing: set<Multipliers>): Variants
  {
    Challengers(d.accs, existing) + CulpritChallengers(d.culprits, existing) + ConflictChallengers(d.conflict, existing)
  }

  /** What one registration adds. */
  function Additions(d: Diagnostics, fixed: set<Multipliers>, discovered: Variants): Variants
  {
    var proposed := Proposed(d, Maps(fixed, discovered));
    map tag | tag in proposed && tag !in discovered :: proposed[tag]
  }

  // ---- the code -------------------------------------------------------------------------------------

  /** The `discovered_variants` row of `model_state`. */
  class ModelState {
    const fixed: set<Multipliers>
    var discovered: Variants

    constructor (fixed: set<Multipliers>)
      ensures this.fixed == fixed && discovered == map[]
    {
      this.fixed := fixed;
      discovered := map[];
    }

    method RegisterDiscovered(d: Diagnostics) returns (added: Variants)
      modifies this
      ensures added == Additions(d, fixed, old(discovered))
      ensures discovered == old(discovered) + added
    {
      var existing := Maps(fixed, discovered);
      var proposed := ProposeChallengers(d.accs, existing);
      var culprits := ProposeCulpritChallengers(d.culprits, existing);
      proposed := proposed + culprits + ConflictChallengers(d.conflict, existing);
      added := map tag | tag in proposed && tag !in discovered :: proposed[tag];
      if added != map[] {
        discovered := discovered + added;
      }
    }
  }

  method ProposeChallengers(accs: seq<Accuracy>, existing: set<Multipliers>) returns (out: Variants)
    ensures out == Challengers(accs, existing)
  {
    out := map[];
    for i := 0 to |accs|
      invariant out == Standard(accs[..i], existing)
    {
      assert accs[..i + 1][..i] == accs[..i];
      var idea := StandardIdea(accs[i]);
      if idea.None? || idea.value.m in existing {
        continue;
      }
      out := out[idea.value.tag := idea.value.m];
    }
    assert accs[..|accs|] == accs;
    if out == map[] && accs != [] {
      var w := Worst(accs);
      if w.acc < 0.49 && !(exists m :: m in existing && w.name in m) {
        var m := map[w.name := 0.0];
        if m !in existing {
          out := out["disc_adapt_drop_" + w.name := m];
        }
      }
    }
  }

  method ProposeCulpritChallengers(cs: seq<Culprit>, existing: set<Multipliers>) returns (out: Variants)
    ensures out == CulpritChallengers(cs, existing)
  {
    out := map[];
    for i := 0 to |cs|
      invariant out == CulpritChallengers(cs[..i], existing)
    {
      assert cs[..i + 1][..i] == cs[..i];
      if cs[i].rate >= 0.15 {
        var drop, invert := CulpritIdeas(cs[i].name).0, CulpritIdeas(cs[i].name).1;
        if drop.m !in existing {
          out := out[drop.tag := drop.m];
        }
        if invert.m !in existing {
          out := out[invert.tag := invert.m];
        }
      }
    }
    assert cs[..|cs|] == cs;
  }

  // ---- what is proposed ------------------------------------------------------------------------------

  ghost predicate FromThresholds(accs: seq<Accuracy>, idea: Idea)
  {
    exists a :: a in accs && StandardIdea(a) == Some(idea)
  }

  ghost predicate FromCulprits(cs: seq<Culprit>, idea: Idea)
  {
    exists c :: c in cs && c.rate >= CULPRIT_RATE && (idea == CulpritIdeas(c.name).0 || idea == CulpritIdeas(c.name).1)
  }

  /** An idea some proposer can draw from the diagnostics. */
  ghost predicate IsIdea(d: Diagnostics, idea: Idea)
  {
    || FromThresholds(d.accs, idea)
    || (d.accs != [] && Worst(d.accs).acc < WORST_BELOW && idea == AdaptiveIdea(Worst(d.accs).name))
    || FromCulprits(d.culprits, idea)
    || ConflictIdea(d.conflict) == Some(idea)
  }

  /** The entry under `tag`, if any, is a new map drawn by one of the ideas `from`. */
  ghost predicate Entry(v: Variants, existing: set<Multipliers>, from: Idea -> bool, tag: string)
  {
    tag in v ==> v[tag] !in existing && from(Idea(tag, v[tag]))
  }

  ghost predicate Entries(v: Variants, existing: set<Multipliers>, from: Idea -> bool)
  {
    forall tag :: Entry(v, existing, from, tag)
  }

  lemma EntriesWith(v: Variants, existing: set<Multipliers>, from: Idea -> bool, idea: Idea)
    requires Entries(v, existing, from) && from(idea)
    ensures Entries(With(v, idea, existing), existing, from)
  {
    forall tag ensures Entry(With(v, idea, existing), existing, from, tag) {
      assert Entry(v, existing, from, tag);
    }
  }

  lemma EntriesWeaken(v: Variants, existing: set<Multipliers>, from: Idea -> bool, from': Idea -> bool)
    requires Entries(v, existing, from) && forall idea :: from(idea) ==> from'(idea)
    ensures Entries(v, existing, from')
  {
    forall tag ensures Entry(v, existing, from', tag) {
      assert Entry(v, existing, from, tag);
    }
  }

  ghost function Thresholds(accs: seq<Accuracy>): Idea -> bool { idea => FromThresholds(accs, idea) }

  ghost function CulpritSource(cs: seq<Culprit>): Idea -> bool { idea => FromCulprits(cs, idea) }

  /** What the fixed thresholds propose: only new maps, and a tag for every new map. */
  lemma {:induction false} StandardEntries(accs: seq<Accuracy>, existing: set<Multipliers>)
    ensures Entries(Standard(accs, existing), existing, Thresholds(accs))
    ensures forall a :: a in accs && StandardIdea(a).Some? && StandardIdea(a).value.m !in existing
              ==> StandardIdea(a).value.tag in Standard(accs, existing)
  {
    hide StandardIdea, Entries;
    if accs == [] {
      NoEntries(existing, Thresholds(accs));
    } else {
      var before, last := accs[..|accs| - 1], accs[|accs| - 1];
      StandardEntries(before, existing);
      assert accs == before + [last];
      forall idea | FromThresholds(before, idea) ensures FromThresholds(accs, idea) {
        var a :| a in before && StandardIdea(a) == Some(idea);
        assert a in accs;
      }
      EntriesWeaken(Standard(before, existing), existing, Thresholds(before), Thresholds(accs));
      if StandardIdea(last).Some? {
        assert last in accs;
        EntriesWith(Standard(before, existing), existing, Thresholds(accs), StandardIdea(last).value);
      }
    }
  }

  lemma NoEntries(existing: set<Multipliers>, from: Idea -> bool)
    ensures Entries(map[], existing, from)
  {
  }

  lemma {:induction false} CulpritEntries(cs: seq<Culprit>, existing: set<Multipliers>)
    ensures Entries(CulpritChallengers(cs, existing), existing, CulpritSource(cs))
    ensures forall c :: c in cs && c.rate >= CULPRIT_RATE ==>
              (CulpritIdeas(c.name).0.m !in existing ==> CulpritIdeas(c.name).0.tag in CulpritChallengers(cs, existing))
              && (CulpritIdeas(c.name).1.m !in existing ==>
                    CulpritIdeas(c.name).1.tag in CulpritChallengers(cs, existing))
  {
    hide CulpritIdeas, Entries;
    if cs == [] {
      NoEntries(existing, CulpritSource(cs));
    } else {
      var before, last := cs[..|cs| - 1], cs[|cs| - 1];
      CulpritEntries(before, existing);
      assert cs == before + [last];
      forall idea | FromCulprits(before, idea) ensures FromCulprits(cs, idea) {
        var c :| c in before && c.rate >= CULPRIT_RATE
                 && (idea == CulpritIdeas(c.name).0 || idea == CulpritIdeas(c.name).1);
        assert c in cs;
      }
      EntriesWeaken(CulpritChallengers(before, existing), existing, CulpritSource(before), CulpritSource(cs));
      if last.rate >= CULPRIT_RATE {
        assert last in cs;
        var v := CulpritChallengers(before, existing);
        EntriesWith(v, existing, CulpritSource(cs), CulpritIdeas(last.name).0);
        EntriesWith(With(v, CulpritIdeas(last.name).0, existing), existing, CulpritSource(cs),
                    CulpritIdeas(last.name).1);
      }
    }
  }

  /** Every addition is a hypothesis the diagnostics support and that nothing already races. */
  lemma AdditionsAreNew(d: Diagnostics, fixed: set<Multipliers>, discovered: Variants, tag: string)
    requires tag in Additions(d, fixed, discovered)
    ensures tag !in discovered
    ensures var m := Additions(d, fixed, discovered)[tag];
            IsIdea(d, Idea(tag, m)) && m !in fixed && m !in discovered.Values
  {
    hide CulpritIdeas, AdaptiveIdea, StandardIdea, ConflictIdea, Standard, CulpritChallengers, FromThresholds,
      FromCulprits;
    var e := Maps(fixed, discovered);
    StandardEntries(d.accs, e);
    CulpritEntries(d.culprits, e);
    assert Entry(Standard(d.accs, e), e, Thresholds(d.accs), tag);
    assert Entry(CulpritChallengers(d.culprits, e), e, CulpritSource(d.culprits), tag);
  }

  // ---- one call reaches the fixpoint -----------------------------------------------------------------

  /** With more maps raced, the standard, culprit and conflict proposers repeat only tags they proposed before. */
  lemma FewerProposals(d: Diagnostics, e: set<Multipliers>, e': set<Multipliers>, tag: string)
    requires e <= e'
    ensures tag in Standard(d.accs, e') ==> tag in Standard(d.accs, e)
    ensures tag in CulpritChallengers(d.culprits, e') ==> tag in CulpritChallengers(d.culprits, e)
    ensures tag in ConflictChallengers(d.conflict, e') ==> tag in ConflictChallengers(d.conflict, e)
  {
    hide CulpritIdeas, StandardIdea, ConflictIdea, Standard, CulpritChallengers;
    StandardEntries(d.accs, e);
    StandardEntries(d.accs, e');
    CulpritEntries(d.culprits, e);
    CulpritEntries(d.culprits, e');
    var v, w := Standard(d.accs, e'), CulpritChallengers(d.culprits, e');
    assert Entry(v, e', Thresholds(d.accs), tag) && Entry(w, e', CulpritSource(d.culprits), tag);
    if tag in v {
      var a :| a in d.accs && StandardIdea(a) == Some(Idea(tag, v[tag]));
    }
    if tag in w {
      var c :| c in d.culprits && c.rate >= CULPRIT_RATE
               && (Idea(tag, w[tag]) == CulpritIdeas(c.name).0 || Idea(tag, w[tag]) == CulpritIdeas(c.name).1);
    }
  }

  /** When the fixed thresholds have nothing new, a worst component below them has been raced already. */
  lemma WorstIsCovered(accs: seq<Accuracy>, existing: set<Multipliers>)
    requires accs != [] && Standard(accs, existing) == map[]
    ensures Worst(accs).acc <= DROP_BELOW ==> Covered(existing, Worst(accs).name)
  {
    var w := Worst(accs);
    StandardEntries(accs, existing);
    if w.acc <= DROP_BELOW {
      var m := StandardIdea(w).value.m;
      assert m in existing && w.name in m;
    }
  }

  /** The adaptive branch, too: once the fixed thresholds have nothing new, the worst component is either covered by
      what they added or was already up for the adaptive idea before. */
  lemma AdaptiveRepeats(accs: seq<Accuracy>, e: set<Multipliers>, e': set<Multipliers>, tag: string)
    requires e <= e' && tag in Challengers(accs, e') && Standard(accs, e') == map[]
    ensures tag in Challengers(accs, e)
  {
    var w := Worst(accs);
    WorstIsCovered(accs, e');
    StandardEntries(accs, e);
    if w.acc > DROP_BELOW {
      assert forall a :: a in accs ==> StandardIdea(a) == None;
      var v := Standard(accs, e);
      forall t ensures t !in v { assert Entry(v, e, Thresholds(accs), t); }
      assert v == map[];
      assert Covered(e, w.name) ==> Covered(e', w.name);
    }
  }

  lemma ProposedAgain(d: Diagnostics, e: set<Multipliers>, e': set<Multipliers>, tag: string)
    requires e <= e' && tag in Proposed(d, e')
    ensures tag in Proposed(d, e)
  {
    hide Standard, CulpritChallengers, ConflictChallengers, Worst, AdaptiveIdea;
    FewerProposals(d, e, e', tag);
    if tag in Challengers(d.accs, e') {
      if Standard(d.accs, e') == map[] {
        AdaptiveRepeats(d.accs, e, e', tag);
      } else {
        assert tag in Standard(d.accs, e');
      }
    }
  }

  /** On unchanged diagnostics a second registration adds nothing, and the first overwrites nothing. */
  lemma OneCallReachesFixpoint(d: Diagnostics, fixed: set<Multipliers>, discovered: Variants)
    ensures var after := discovered + Additions(d, fixed, discovered);
            && Additions(d, fixed, after) == map[]
            && forall tag :: tag in discovered ==> after[tag] == discovered[tag]
  {
    hide Proposed;
    var after := discovered + Additions(d, fixed, discovered);
    var e, e' := Maps(fixed, discovered), Maps(fixed, after);
    forall m | m in e ensures m in e' {
      if m in discovered.Values {
        var tag :| tag in discovered && discovered[tag] == m;
        assert after[tag] == m;
      }
    }
    forall tag | tag in Proposed(d, e') ensures tag in after {
      ProposedAgain(d, e, e', tag);
    }
  }
}
