/**
 What restoring promises (`_restore_projection_from_candidates` followed by `sanitize_compiled_ontology`):
 restored terms are new, distinct and rest on evidence of their own sign, and a negative skill never
 stands against a positive relation.
 */
module OntologyEvidence {
  import opened Wrappers
  import opened Ordering
  import opened TermNormalization
  import opened OntologyModel
  import opened Dedup
  import opened OntologySanitize
  import opened OntologyRemap
  import opened OntologyRestore

  // ----- evidence collected per skill -----------------------------------------------------------

  /** What is collected under a skill's name is exactly the evidence of its positive candidates. */
  lemma {:induction false} SkillEvidenceFrom(u: CharTable, kinds: Kinds, terms: seq<Term>, name: string)
    ensures forall id :: id in SkillEvidence(u, kinds, terms, name) <==>
              exists t :: t in terms && SkillEvidenceTerm(u, kinds, t) && Normalize(u, t.canonical) == name
                && id in t.evidence
  {
    if terms != [] {
      var before, last := terms[..|terms| - 1], terms[|terms| - 1];
      SkillEvidenceFrom(u, kinds, before, name);
      assert terms == before + [last];
      assert forall t :: t in terms <==> t in before || t == last;
    }
  }

  lemma SkillEvidenceIsPositive(u: CharTable, kinds: Kinds, terms: seq<Term>, name: string, t: Term)
    requires t in terms && SkillEvidenceTerm(u, kinds, t) && Normalize(u, t.canonical) == name
    ensures HasPositive(kinds, SkillEvidence(u, kinds, terms, name))
    ensures !HasNegative(kinds, SkillEvidence(u, kinds, terms, name))
  {
    SkillEvidenceFrom(u, kinds, terms, name);
    var id :| id in t.evidence && id in kinds && PositiveKind(kinds[id]);
    assert id in SkillEvidence(u, kinds, terms, name);
  }

  // ----- the candidate path ---------------------------------------------------------------------

  /** A restored term as such: accepted with evidence under a normal name the ontology did not have. */
  ghost predicate NewTerm(u: CharTable, existing: set<Key>, k: Key, x: Term) {
    TermKey(x) == k && Normalize(u, k.name) == k.name != "" && k !in existing && Backed(x)
  }

  /** A term restored from a candidate rests on evidence of its own sign. */
  ghost predicate WellFounded(c: Context, x: Term) {
    && x.canonical !in STRUCTURAL_LABELS
    && (x.polarity.Positive? || x.polarity.Negative?)
    && (x.polarity.Positive? ==> HasPositive(c.kinds, x.evidence) && !HasNegative(c.kinds, x.evidence))
    && (x.polarity.Negative? ==> HasNegative(c.kinds, x.evidence))
    && (x.polarity.Negative? && !x.entityType.AntiPattern? ==> TermKey(x) !in c.positiveKeys)
  }

  ghost predicate SoundTable(u: CharTable, c: Context, byKey: map<Key, Term>) {
    forall k :: k in byKey ==> NewTerm(u, c.existing, k, byKey[k]) && WellFounded(c, byKey[k])
  }

  lemma InsufficientIsNoLabel(name: string)
    ensures Insufficient(name) !in STRUCTURAL_LABELS
  {
    assert Insufficient(name)[0] == 'i';
  }

  lemma SkillIsWellFounded(u: CharTable, c: Context, t: Term)
    requires t in c.terms
    requires var name := Normalize(u, t.canonical);
             name != "" && name !in STRUCTURAL_LABELS && ExplicitSkill(u, c.kinds, c.terms, t, name)
    ensures var x := AsSkill(u, c, t, Normalize(u, t.canonical)); Backed(x) && WellFounded(c, x)
  {
    SkillEvidenceIsPositive(u, c.kinds, c.terms, Normalize(u, t.canonical), t);
  }

  lemma NegativeIsWellFounded(u: CharTable, c: Context, found: map<Key, Term>, t: Term)
    requires Lawful(u) && NegativeProjection(c.kinds, t)
    requires var name := Normalize(u, t.canonical); name != "" && name !in STRUCTURAL_LABELS
    ensures var x := AsNegative(c, found, t, Normalize(u, t.canonical));
            Normalize(u, x.canonical) == x.canonical != "" && Backed(x) && WellFounded(c, x)
  {
    var name := Normalize(u, t.canonical);
    NormalizeIdempotent(u, t.canonical);
    InsufficientIsNormal(u, t.canonical);
    InsufficientIsNoLabel(name);
  }

  lemma ProjectedIsWellFounded(u: CharTable, c: Context, s: Found, t: Term)
    requires Lawful(u) && t in c.terms
    requires var name := Normalize(u, t.canonical); name != "" && name !in STRUCTURAL_LABELS
    ensures var p := Projected(u, c, s, t, Normalize(u, t.canonical)); p.Some? ==>
              Normalize(u, p.value.canonical) == p.value.canonical != "" && Backed(p.value) && WellFounded(c, p.value)
  {
    var name := Normalize(u, t.canonical);
    NormalizeIdempotent(u, t.canonical);
    if PositiveRole(u, c.kinds, t, name, s.roles) {
      assert WellFounded(c, AsRole(t, name));
    } else if ExplicitSkill(u, c.kinds, c.terms, t, name) {
      SkillIsWellFounded(u, c, t);
    } else if NegativeProjection(c.kinds, t) {
      NegativeIsWellFounded(u, c, s.byKey, t);
    }
  }

  /** One candidate changes at most the entry of the term it becomes. */
  lemma WalkChangesOneEntry(u: CharTable, c: Context, s: Found, t: Term)
    ensures var name, byKey := Normalize(u, t.canonical), Walk(u, c, s, t).byKey;
            || byKey == s.byKey
            || (&& name != "" && name !in STRUCTURAL_LABELS && Projected(u, c, s, t, name).Some?
                && var x := Projected(u, c, s, t, name).value;
                   var k := Key(x.entityType, Normalize(u, x.canonical));
                   k !in c.existing && byKey == s.byKey[k := x])
  {
  }

  lemma WalkStepIsSound(u: CharTable, c: Context, s: Found, t: Term)
    requires Lawful(u) && t in c.terms && SoundTable(u, c, s.byKey)
    ensures SoundTable(u, c, Walk(u, c, s, t).byKey)
  {
    WalkChangesOneEntry(u, c, s, t);
    if Walk(u, c, s, t).byKey != s.byKey {
      ProjectedIsWellFounded(u, c, s, t);
    }
  }

  lemma {:induction false} WalkIsSound(u: CharTable, c: Context, accepted: seq<string>, terms: seq<Term>)
    requires Lawful(u) && forall t :: t in terms ==> t in c.terms
    ensures SoundTable(u, c, WalkAll(u, c, Found(map[], accepted), terms).byKey)
  {
    if terms != [] {
      var before, t := terms[..|terms| - 1], terms[|terms| - 1];
      WalkIsSound(u, c, accepted, before);
      WalkStepIsSound(u, c, WalkAll(u, c, Found(map[], accepted), before), t);
    }
  }

  lemma ExplicitSkillLands(u: CharTable, c: Context, s: Found, t: Term)
    requires Lawful(u)
    requires var name := Normalize(u, t.canonical);
             name != "" && name !in STRUCTURAL_LABELS && ExplicitSkill(u, c.kinds, c.terms, t, name)
    ensures var k := Key(Skill, Normalize(u, t.canonical)); k in c.existing || k in Walk(u, c, s, t).byKey
  {
    var name := Normalize(u, t.canonical);
    NormalizeIdempotent(u, t.canonical);
    assert Projected(u, c, s, t, name) == Some(AsSkill(u, c, t, name));
  }

  /** The walk never drops a key, and every explicit skill ends up known under its name. */
  lemma {:induction false} WalkCovers(u: CharTable, c: Context, accepted: seq<string>, terms: seq<Term>, t: Term)
    requires Lawful(u) && t in terms
    requires var name := Normalize(u, t.canonical);
             name != "" && name !in STRUCTURAL_LABELS && ExplicitSkill(u, c.kinds, c.terms, t, name)
    ensures var k := Key(Skill, Normalize(u, t.canonical));
            k in c.existing || k in WalkAll(u, c, Found(map[], accepted), terms).byKey
  {
    var before, last := terms[..|terms| - 1], terms[|terms| - 1];
    assert terms == before + [last];
    var s := WalkAll(u, c, Found(map[], accepted), before);
    if t in before {
      WalkCovers(u, c, accepted, before, t);
      WalkChangesOneEntry(u, c, s, last);
    } else {
      ExplicitSkillLands(u, c, s, t);
    }
  }

  // ----- the relation path ----------------------------------------------------------------------

  lemma {:induction false} ShotKindsFrom(shots: seq<Shot>)
    ensures forall id :: id in ShotKinds(shots) ==>
              exists s :: s in shots && s.id == id && s.kind == ShotKinds(shots)[id]
    ensures forall s :: s in shots ==> s.id in ShotKinds(shots)
  {
    if shots != [] {
      var before, last := shots[..|shots| - 1], shots[|shots| - 1];
      ShotKindsFrom(before);
      assert shots == before + [last];
      forall id | id in ShotKinds(shots)
        ensures exists s :: s in shots && s.id == id && s.kind == ShotKinds(shots)[id]
      {
        if id == last.id {
          assert last in shots;
        } else {
          assert id in ShotKinds(before) && ShotKinds(shots)[id] == ShotKinds(before)[id];
          var s :| s in before && s.id == id && s.kind == ShotKinds(before)[id];
          assert s in shots;
        }
      }
    }
  }

  /** Some of the ids belongs to a shot labelled positive. */
  predicate CitesPositive(shots: seq<Shot>, ids: seq<string>) {
    exists s :: s in shots && PositiveKind(s.kind) && s.id in ids
  }

  lemma FirstFourCite(shots: seq<Shot>, picked: seq<Shot>)
    requires forall s :: s in picked ==> s in shots && PositiveKind(s.kind)
    ensures FirstFour(picked) != [] ==> CitesPositive(shots, FirstFour(picked))
  {
    if picked != [] {
      assert picked[0] in picked;
      assert FirstFour(picked)[0] == picked[0].id;
    }
  }

  /** The evidence bound to a relation object cites a positive shot whenever there is one to cite. */
  lemma BoundEvidenceIsPositive(u: CharTable, ids: seq<string>, name: string, shots: seq<Shot>)
    requires var kinds := ShotKinds(shots); (exists id :: id in ids && id in kinds) ==> HasPositive(kinds, ids)
    ensures CitesPositive(shots, BoundEvidence(u, ids, name, shots)) || forall s :: s in shots ==> !PositiveKind(s.kind)
  {
    var kinds := ShotKinds(shots);
    ShotKindsFrom(shots);
    var known := Filtered(ids, (id: string) => id in kinds);
    FilteredFrom(ids, (id: string) => id in kinds);
    var mentioning := Filtered(shots, (s: Shot) => Contains(Fold(u, s.text), name) && PositiveKind(s.kind));
    FilteredFrom(shots, (s: Shot) => Contains(Fold(u, s.text), name) && PositiveKind(s.kind));
    var positive := Filtered(shots, (s: Shot) => PositiveKind(s.kind));
    FilteredFrom(shots, (s: Shot) => PositiveKind(s.kind));
    FirstFourCite(shots, mentioning);
    FirstFourCite(shots, positive);
    if known != [] {
      assert known[0] in known;
      var id :| id in ids && id in kinds && PositiveKind(kinds[id]);
      var s :| s in shots && s.id == id && s.kind == kinds[id];
      assert id in known;
    } else if exists s :: s in shots && PositiveKind(s.kind) {
      var s :| s in shots && PositiveKind(s.kind);
      assert s in positive;
      assert positive != [];
    }
  }

  /** A term recovered from a relation object. */
  ghost predicate FromRelation(src: Sources, x: Term) {
    && x.entityType.Skill? && x.polarity.Positive?
    && (CitesPositive(src.shots, x.evidence) || forall s :: s in src.shots ==> !PositiveKind(s.kind))
  }

  lemma RecoveredIsSound(u: CharTable, src: Sources, name: string)
    ensures var x := Recovered(u, src, name);
            x.Some? ==> TermKey(x.value) == Key(Skill, name) && Backed(x.value) && FromRelation(src, x.value)
  {
    var ids := RelationEvidence(u, src.relations, name);
    if Recovered(u, src, name).Some? {
      BoundEvidenceIsPositive(u, ids, name, src.shots);
    }
  }

  lemma RecoverStepIsSound(u: CharTable, src: Sources, existing: set<Key>, byKey: map<Key, Term>, name: string)
    requires Normalize(u, name) == name != ""
    ensures var m, k := Recover(u, src, existing, byKey, name), Key(Skill, name);
            && (m == byKey || (k !in byKey && k in m && m == byKey[k := m[k]]
                               && NewTerm(u, existing, k, m[k]) && FromRelation(src, m[k])))
            && (Recovered(u, src, name).Some? ==> k in existing || k in m)
  {
    RecoveredIsSound(u, src, name);
  }

  /** Recovering relation objects keeps the table and adds only new, positive skills to it. */
  lemma {:induction false} RecoverIsSound(u: CharTable, src: Sources, existing: set<Key>, found: map<Key, Term>,
                                          names: seq<string>)
    requires forall n :: n in names ==> Normalize(u, n) == n != ""
    ensures var m := RecoverAll(u, src, existing, found, names);
            && (forall k :: k in found ==> k in m && m[k] == found[k])
            && (forall k :: k in m && k !in found ==> NewTerm(u, existing, k, m[k]) && FromRelation(src, m[k]))
  {
    if names != [] {
      var before, last := names[..|names| - 1], names[|names| - 1];
      assert forall n :: n in before ==> n in names;
      RecoverIsSound(u, src, existing, found, before);
      RecoverStepIsSound(u, src, existing, RecoverAll(u, src, existing, found, before), last);
    }
  }

  /** No recoverable object is missed. */
  lemma {:induction false} RecoverCovers(u: CharTable, src: Sources, existing: set<Key>, found: map<Key, Term>,
                                         names: seq<string>, n: string)
    requires n in names && Recovered(u, src, n).Some?
    ensures Key(Skill, n) in existing || Key(Skill, n) in RecoverAll(u, src, existing, found, names)
  {
    var before, last := names[..|names| - 1], names[|names| - 1];
    assert names == before + [last];
    if n in before {
      RecoverCovers(u, src, existing, found, before, n);
    }
  }

  lemma {:induction false} ObjectNamesAreObjects(u: CharTable, relations: seq<Relation>, name: string)
    ensures name in ObjectNames(u, relations) <==> name in Objects(u, relations)
  {
    var all := seq(|relations|, i requires 0 <= i < |relations| => Normalize(u, relations[i].obj));
    if name in Objects(u, relations) {
      var r :| r in relations && Normalize(u, r.obj) == name;
      var i :| 0 <= i < |relations| && relations[i] == r;
      assert all[i] == name;
    }
  }

  lemma ObjectNamesAreNormal(u: CharTable, o: Ontology, chunks: seq<Chunk>)
    requires Lawful(u)
    ensures forall n :: n in ObjectNames(u, SkillRelations(u, o, chunks)) ==> Normalize(u, n) == n != ""
  {
    forall n | n in ObjectNames(u, SkillRelations(u, o, chunks))
      ensures Normalize(u, n) == n != ""
    {
      ObjectNamesAreObjects(u, SkillRelations(u, o, chunks), n);
      ObjectsArePositive(u, o.relations + ChunkRelations(chunks), n);
    }
  }

  // ----- the whole pass -------------------------------------------------------------------------

  /** What the table of restored terms holds, entry by entry. */
  lemma TableIsSound(u: CharTable, o: Ontology, chunks: seq<Chunk>, shots: seq<Shot>)
    requires Lawful(u)
    ensures var c, found := ContextOf(u, o, chunks, shots), FoundIn(u, o, chunks, shots).byKey;
            var m := Restorable(u, o, chunks, shots);
            && (forall k :: k in m ==> NewTerm(u, c.existing, k, m[k]))
            && (forall k :: k in found ==> k in m && m[k] == found[k] && WellFounded(c, m[k]))
            && (forall k :: k in m && k !in found ==> FromRelation(SourcesOf(u, o, chunks, shots), m[k]))
  {
    var c, src := ContextOf(u, o, chunks, shots), SourcesOf(u, o, chunks, shots);
    var accepted := AcceptedRoles(RemappedTerms(u, o, chunks));
    var found := FoundIn(u, o, chunks, shots).byKey;
    assert SoundTable(u, c, found) by {
      WalkIsSound(u, c, accepted, c.terms);
    }
    ObjectNamesAreNormal(u, o, chunks);
    RecoverIsSound(u, src, c.existing, found, ObjectNames(u, src.relations));
  }

  lemma RestoredAreTheTable(u: CharTable, o: Ontology, chunks: seq<Chunk>, shots: seq<Shot>)
    requires Lawful(u)
    ensures var m := Restorable(u, o, chunks, shots);
            && KeySorted(TermKey, KeyLe, RestoredTerms(u, o, chunks, shots))
            && (forall x :: x in RestoredTerms(u, o, chunks, shots) <==> TermKey(x) in m && m[TermKey(x)] == x)
  {
    KeyLeTotal();
    TableIsSound(u, o, chunks, shots);
    ValuesAreSorted(TermKey, KeyLe, Restorable(u, o, chunks, shots));
  }

  /** Restored terms have new and pairwise distinct names, and are accepted with evidence. Those from
      candidates rest on evidence of their own sign, a positive one on no negative shot; those from relations
      are positive skills that cite a positive shot, if there is any. */
  lemma RestorationIsSound(u: CharTable, o: Ontology, chunks: seq<Chunk>, shots: seq<Shot>)
    requires Lawful(u)
    ensures KeySorted(TermKey, KeyLe, RestoredTerms(u, o, chunks, shots))
    ensures forall x :: x in RestoredTerms(u, o, chunks, shots) ==>
              && Backed(x) && Normalize(u, x.canonical) == x.canonical != ""
              && (forall t :: t in RemappedTerms(u, o, chunks) ==> !Named(u, t, TermKey(x)))
              && (if TermKey(x) in FoundIn(u, o, chunks, shots).byKey
                  then WellFounded(ContextOf(u, o, chunks, shots), x)
                  else FromRelation(SourcesOf(u, o, chunks, shots), x))
  {
    TableIsSound(u, o, chunks, shots);
    RestoredAreTheTable(u, o, chunks, shots);
    forall x, t | x in RestoredTerms(u, o, chunks, shots) && t in RemappedTerms(u, o, chunks)
      ensures !Named(u, t, TermKey(x))
    {
      assert Key(t.entityType, Normalize(u, t.canonical)) in NamesOf(u, RemappedTerms(u, o, chunks));
    }
  }

  /** Of one key, `NormalTerms` holds only the term that alone has it. */
  lemma LoneTerm(u: CharTable, terms: seq<Term>, x: Term)
    requires x in terms && Normalize(u, x.canonical) == x.canonical != ""
    requires forall t :: t in terms && Named(u, t, TermKey(x)) ==> t == x
    ensures TermKey(x) in Best(TermKey, BetterTerm, NormalTerms(u, terms))
    ensures Best(TermKey, BetterTerm, NormalTerms(u, terms))[TermKey(x)] == x
  {
    var xs := NormalTerms(u, terms);
    NormalTermsFrom(u, terms);
    BestHolds(TermKey, BetterTerm, xs);
    assert x == x.(canonical := Normalize(u, x.canonical));
    assert x in xs;
    var y := Best(TermKey, BetterTerm, xs)[TermKey(x)];
    var t :| t in terms && Normalize(u, t.canonical) != "" && y == t.(canonical := Normalize(u, t.canonical));
    assert Named(u, t, TermKey(x));
  }

  /** A backed term that alone has its key comes through sanitising unless its name is a structural label. */
  lemma LoneTermSurvives(u: CharTable, terms: seq<Term>, x: Term)
    requires x in terms && Normalize(u, x.canonical) == x.canonical != "" && Backed(x)
    requires forall t :: t in terms && Named(u, t, TermKey(x)) ==> t == x
    ensures x in SanitizedTerms(u, terms) <==> x.canonical !in STRUCTURAL_LABELS
  {
    LoneTerm(u, terms, x);
    KeyLeTotal();
    BestHolds(TermKey, BetterTerm, NormalTerms(u, terms));
    ValuesAreSorted(TermKey, KeyLe, Best(TermKey, BetterTerm, NormalTerms(u, terms)));
    KeepTermsFrom(DedupedTerms(u, terms));
    assert x in DedupedTerms(u, terms);
    assert x.(accepted := Backed(x)) == x;
  }

  /** A restored term comes through the sanitising that follows unchanged, exactly when its name is no
      structural label. */
  lemma RestoredSurvive(u: CharTable, o: Ontology, chunks: seq<Chunk>, shots: seq<Shot>, x: Term)
    requires Lawful(u) && x in RestoredTerms(u, o, chunks, shots)
    ensures x in Sanitized(u, Restored(u, o, chunks, shots)).terms <==> x.canonical !in STRUCTURAL_LABELS
  {
    var restored, remapped := RestoredTerms(u, o, chunks, shots), RemappedTerms(u, o, chunks);
    RestorationIsSound(u, o, chunks, shots);
    RestoredAreTheTable(u, o, chunks, shots);
    forall t | t in remapped + restored && Named(u, t, TermKey(x))
      ensures t == x
    {
      assert t in restored;
    }
    LoneTermSurvives(u, remapped + restored, x);
  }

  function AllRelations(o: Ontology, chunks: seq<Chunk>): seq<Relation> { o.relations + ChunkRelations(chunks) }

  lemma OnlyRelation(u: CharTable, r: Relation)
    requires PositiveRelation(u, r)
    ensures PositiveRelations(u, [r]) == [NormalRelation(u, r)]
  {
    assert [r][..0] == [] && PositiveRelations(u, []) == [];
  }

  /** By what the object of an ontology's one relation is judged, without candidates. */
  lemma SourcesOfOne(u: CharTable, o: Ontology, r: Relation, shots: seq<Shot>)
    requires o == Ontology([], [r]) && PositiveRelation(u, r)
    ensures RemappedTerms(u, o, []) == [] && SkillRelations(u, o, []) == [NormalRelation(u, r)]
    ensures SourcesOf(u, o, [], shots) == Sources([NormalRelation(u, r)], [], shots, {})
  {
    assert o.relations + ChunkRelations([]) == [r];
    OnlyRelation(u, r);
    assert RemappedTerms(u, o, []) == [];
    assert AcceptedRoles([]) == [] && ChunkTerms([]) == [];
    assert FoundIn(u, o, [], shots).roles == [];
  }

  lemma OneRelationIsRecovered(u: CharTable, src: Sources, r: Relation, id: string)
    requires src.named == [] && src.roleTokens == {} && src.relations == [r] && r.evidence == [id]
    requires src.shots == [Shot(id, PositiveJob, "")] && Normalize(u, r.obj) == r.obj
    ensures Recovered(u, src, r.obj).Some?
  {
    assert src.relations[..0] == [] && src.shots[..0] == [];
    assert RelationEvidence(u, [], r.obj) == [] && [] + r.evidence == [id];
    var ids, kinds := RelationEvidence(u, src.relations, r.obj), ShotKinds(src.shots);
    assert ids == FirstOnly([id]);
    assert id in FirstOnly([id]);
    assert ShotKinds([]) == map[] && id in kinds && kinds[id] == PositiveJob;
    FilteredFrom(ids, i => i in kinds);
    assert HasPositive(kinds, ids);
  }

  /** What is restored of an empty ontology with one positive relation, backed by one positive shot. */
  lemma OneRelation(u: CharTable, r: Relation, id: string) returns (o: Ontology, shots: seq<Shot>, x: Term)
    requires Lawful(u) && PositiveRelation(u, r) && r.evidence == [id] && Normalize(u, r.obj) == r.obj
    ensures x in RestoredTerms(u, o, [], shots) && x.canonical == r.obj
  {
    o, shots := Ontology([], [r]), [Shot(id, PositiveJob, "")];
    var src, k := SourcesOf(u, o, [], shots), Key(Skill, r.obj);
    SourcesOfOne(u, o, r, shots);
    OneRelationIsRecovered(u, src, NormalRelation(u, r), id);
    ObjectNamesAreObjects(u, src.relations, r.obj);
    assert NormalRelation(u, r) in src.relations && NamesOf(u, []) == {};
    RecoverCovers(u, src, {}, FoundIn(u, o, [], shots).byKey, ObjectNames(u, src.relations), r.obj);
    TableIsSound(u, o, [], shots);
    RestoredAreTheTable(u, o, [], shots);
    x := Restorable(u, o, [], shots)[k];
  }

  /** A relation object with the name of a label is restored, and lost again in sanitising. */
  lemma LabelIsLost() returns (o: Ontology, shots: seq<Shot>, x: Term)
    ensures x in RestoredTerms(ASCII, o, [], shots) && x !in Sanitized(ASCII, Restored(ASCII, o, [], shots)).terms
  {
    AsciiIsLawful();
    var subject, name := "backend", "seniority";
    PlainName(subject);
    PlainName(name);
    var id := "s";
    o, shots, x := OneRelation(ASCII, Relation(subject, Requires, name, Positive, [id], 1.0, 1.0), id);
    RestoredSurvive(ASCII, o, [], shots, x);
  }

  // ----- positive evidence wins -----------------------------------------------------------------

  /** A negative skill that is not itself an "insufficient ..." name. */
  predicate NegativeSkill(u: CharTable, t: Term) {
    t.entityType.Skill? && t.polarity.Negative? && !IsInsufficient(Normalize(u, t.canonical))
  }

  lemma NegativeSkillsBeforeSanitising(u: CharTable, o: Ontology, chunks: seq<Chunk>, shots: seq<Shot>, t: Term)
    requires Lawful(u) && t in Restored(u, o, chunks, shots).terms && NegativeSkill(u, t)
    ensures !NamedByPositive(u, AllRelations(o, chunks), Normalize(u, t.canonical))
  {
    var relations, name := SkillRelations(u, o, chunks), Normalize(u, t.canonical);
    ObjectsArePositive(u, AllRelations(o, chunks), name);
    if t in RemappedTerms(u, o, chunks) {
      var positives := Objects(u, relations) + Subjects(u, relations);
      RemapClears(u, positives, InsufficientNames(u, o.terms), o.terms);
      assert !Overlaps(u, positives, t);
    } else {
      RestorationIsSound(u, o, chunks, shots);
      assert name in Objects(u, relations) ==> TermKey(t) in ContextOf(u, o, chunks, shots).positiveKeys;
    }
  }

  lemma KeptFrom(terms: seq<Term>, x: Term) returns (d: Term)
    requires x in KeepTerms(terms)
    ensures d in terms && x == d.(accepted := Backed(d))
  {
    KeepTermsFrom(terms);
    d :| d in terms && d.canonical !in STRUCTURAL_LABELS && x == d.(accepted := Backed(d));
  }

  lemma DedupedFrom(u: CharTable, terms: seq<Term>, d: Term) returns (t: Term)
    requires d in DedupedTerms(u, terms)
    ensures t in terms && d == t.(canonical := Normalize(u, t.canonical))
  {
    KeyLeTotal();
    DedupedIsSorted(TermKey, BetterTerm, KeyLe, NormalTerms(u, terms));
    assert d in NormalTerms(u, terms);
    NormalTermsFrom(u, terms);
    t :| t in terms && Normalize(u, t.canonical) != "" && d == t.(canonical := Normalize(u, t.canonical));
  }

  /** A sanitised term comes from a term of its type, polarity and name. */
  lemma SanitizedFrom(u: CharTable, terms: seq<Term>, x: Term) returns (t: Term)
    requires Lawful(u) && x in SanitizedTerms(u, terms)
    ensures t in terms && t.entityType == x.entityType && t.polarity == x.polarity
    ensures Normalize(u, t.canonical) == x.canonical == Normalize(u, x.canonical)
  {
    var d := KeptFrom(DedupedTerms(u, terms), x);
    t := DedupedFrom(u, terms, d);
    NormalizeIdempotent(u, t.canonical);
  }

  /** After restoring and sanitising, no negative skill is the object of a positive requires/supports
      relation of the ontology or of any candidate chunk, "insufficient ..." names aside. */
  lemma PositiveEvidenceWins(u: CharTable, o: Ontology, chunks: seq<Chunk>, shots: seq<Shot>, x: Term)
    requires Lawful(u) && x in Sanitized(u, Restored(u, o, chunks, shots)).terms && NegativeSkill(u, x)
    ensures !NamedByPositive(u, AllRelations(o, chunks), x.canonical)
  {
    var t := SanitizedFrom(u, Restored(u, o, chunks, shots).terms, x);
    NegativeSkillsBeforeSanitising(u, o, chunks, shots, t);
  }

  /** Of the ontology's own negative skills, restoring takes out exactly those that a positive relation names
      on either side. */
  lemma OverlapsTakenOut(u: CharTable, o: Ontology, chunks: seq<Chunk>, t: Term)
    requires Lawful(u) && t in o.terms && NegativeSkill(u, t)
    ensures t in RemappedTerms(u, o, chunks) <==>
              !exists r :: r in AllRelations(o, chunks) && PositiveRelation(u, r)
                && (Normalize(u, r.obj) == Normalize(u, t.canonical)
                    || Normalize(u, r.subject) == Normalize(u, t.canonical))
  {
    var relations, name := SkillRelations(u, o, chunks), Normalize(u, t.canonical);
    var positives := Objects(u, relations) + Subjects(u, relations);
    RemapClears(u, positives, InsufficientNames(u, o.terms), o.terms);
    ObjectsArePositive(u, AllRelations(o, chunks), name);
    SubjectsArePositive(u, AllRelations(o, chunks), name);
  }

  lemma SubjectsArePositive(u: CharTable, relations: seq<Relation>, name: string)
    requires Lawful(u)
    ensures name in Subjects(u, PositiveRelations(u, relations)) <==>
              exists r :: r in relations && PositiveRelation(u, r) && Normalize(u, r.subject) == name
  {
    var ordered := PositiveRelations(u, relations);
    PositiveRelationsFrom(u, relations);
    if name in Subjects(u, ordered) {
      var x :| x in ordered && Normalize(u, x.subject) == name;
      var r :| r in relations && PositiveRelation(u, r) && x == NormalRelation(u, r);
      NormalizeIdempotent(u, r.subject);
    }
    if exists r :: r in relations && PositiveRelation(u, r) && Normalize(u, r.subject) == name {
      var r :| r in relations && PositiveRelation(u, r) && Normalize(u, r.subject) == name;
      var x :| x in ordered && KeyOf(x) == KeyOf(NormalRelation(u, r));
      NormalizeIdempotent(u, r.subject);
      assert Normalize(u, x.subject) == name;
    }
  }

  /** A negative skill taken out leaves an "insufficient ..." term in the result. */
  lemma RejectionIsKept(u: CharTable, o: Ontology, chunks: seq<Chunk>, shots: seq<Shot>, t: Term)
    requires Lawful(u) && t in o.terms && NegativeSkill(u, t) && t !in RemappedTerms(u, o, chunks)
    requires Normalize(u, t.canonical) != ""
    ensures exists x :: x in Sanitized(u, Restored(u, o, chunks, shots)).terms
              && x.canonical == Insufficient(Normalize(u, t.canonical))
  {
    var relations, name := SkillRelations(u, o, chunks), Normalize(u, t.canonical);
    var positives := Objects(u, relations) + Subjects(u, relations);
    RemapClears(u, positives, InsufficientNames(u, o.terms), o.terms);
    RemapRemembers(u, positives, o.terms, t);
    var y :| y in RemappedTerms(u, o, chunks) && Normalize(u, y.canonical) == Insufficient(name);
    InsufficientIsNoLabel(name);
    var k := Key(y.entityType, Insufficient(name));
    assert Named(u, y, k) && y in Restored(u, o, chunks, shots).terms;
    AcceptanceIsExact(u, Restored(u, o, chunks, shots).terms, k);
  }

  /** No explicit positive skill of the candidates is lost: the result has a term for it, and a new one is
      positive. */
  lemma ExplicitSkillsKept(u: CharTable, o: Ontology, chunks: seq<Chunk>, shots: seq<Shot>, t: Term)
    requires Lawful(u) && t in ChunkTerms(chunks)
    requires var c, name := ContextOf(u, o, chunks, shots), Normalize(u, t.canonical);
             name != "" && name !in STRUCTURAL_LABELS && ExplicitSkill(u, c.kinds, c.terms, t, name)
    ensures var k := Key(Skill, Normalize(u, t.canonical));
            && (exists x :: x in Sanitized(u, Restored(u, o, chunks, shots)).terms && TermKey(x) == k)
            && (forall x :: x in RestoredTerms(u, o, chunks, shots) && TermKey(x) == k ==> !x.polarity.Negative?)
  {
    var c, k := ContextOf(u, o, chunks, shots), Key(Skill, Normalize(u, t.canonical));
    var m, terms := Restorable(u, o, chunks, shots), Restored(u, o, chunks, shots).terms;
    TableIsSound(u, o, chunks, shots);
    RestoredAreTheTable(u, o, chunks, shots);
    WalkCovers(u, c, AcceptedRoles(RemappedTerms(u, o, chunks)), c.terms, t);
    if k in c.existing {
      var y :| y in RemappedTerms(u, o, chunks) && Key(y.entityType, Normalize(u, y.canonical)) == k;
      assert y in terms && Named(u, y, k);
    } else {
      assert m[k] in RestoredTerms(u, o, chunks, shots);
      assert m[k] in terms && Named(u, m[k], k);
    }
    AcceptanceIsExact(u, terms, k);
    assert k in c.positiveKeys;
  }

  /** A candidate relation without a subject does not count: the negative skill it names stays. */
  lemma BlankSubjectDoesNotCount(u: CharTable, r: Relation, x: Term)
    requires Lawful(u) && Normalize(u, r.subject) == ""
    requires NegativeSkill(u, x) && CleanTerm(u, x) && Backed(x)
    ensures x in Sanitized(u, Restored(u, Ontology([x], []), [Chunk([], [r])], [])).terms
  {
    var o, chunks := Ontology([x], []), [Chunk([], [r])];
    assert chunks[1..] == [];
    assert ChunkTerms(chunks) == [];
    assert SkillRelations(u, o, chunks) == [] by {
      assert o.relations + ChunkRelations(chunks) == [r];
      assert PositiveRelations(u, [r][..0]) == [];
      assert PositiveRelations(u, [r]) == [];
    }
    NoOverlapNoChange(u, {}, InsufficientNames(u, o.terms), o.terms);
    assert Objects(u, []) + Subjects(u, []) == {};
    NothingToRestore(u, o, chunks);
    LoneTermSurvives(u, [x], x);
  }

  lemma BlankName(name: string)
    requires name == "-"
    ensures Normalize(ASCII, name) == ""
  {
    assert Strip(ASCII, "-") == "-" && Fold(ASCII, "-") == "-";
    assert Tidy(ASCII, "-") == " " && Words(ASCII, " ") == [];
  }

  /** So the promise fails for some inputs when relations with a blank subject are meant too. */
  lemma BlankSubjectExample() returns (r: Relation, x: Term)
    ensures r.polarity.Positive? && r.kind.Requires? && r.obj == x.canonical && NegativeSkill(ASCII, x)
    ensures x in Sanitized(ASCII, Restored(ASCII, Ontology([x], []), [Chunk([], [r])], [])).terms
  {
    AsciiIsLawful();
    var subject, name := "-", "go";
    PlainName(name);
    ShortName(name);
    BlankName(subject);
    r, x := RejectedObject(subject, name);
    BlankSubjectDoesNotCount(ASCII, r, x);
  }

  lemma RejectedObject(subject: string, name: string) returns (r: Relation, x: Term)
    requires Normalize(ASCII, name) == name != "" && !IsInsufficient(name) && name !in STRUCTURAL_LABELS
    ensures r.polarity.Positive? && r.kind.Requires? && r.subject == subject && r.obj == x.canonical == name
    ensures NegativeSkill(ASCII, x) && CleanTerm(ASCII, x) && Backed(x)
  {
    x := Term(name, Skill, AntiSkill, Negative, AntiScope, Skills, ["s"], 1, 0, 1.0, 1.0, true);
    r := Relation(subject, Requires, name, Positive, ["t"], 1.0, 1.0);
  }

  /** Without candidate terms and positive relations there is nothing to restore. */
  lemma NothingToRestore(u: CharTable, o: Ontology, chunks: seq<Chunk>)
    requires SkillRelations(u, o, chunks) == [] && ChunkTerms(chunks) == []
    ensures Restored(u, o, chunks, []).terms == RemappedTerms(u, o, chunks)
  {
    assert ObjectNames(u, []) == [];
    assert Restorable(u, o, chunks, []) == map[];
    KeyLeTotal();
    assert Listing(KeyLe, {}) == [];
    assert RestoredTerms(u, o, chunks, []) == [];
  }
}
