/**
 Positive evidence against negative skills (`_iter_positive_skill_relations` and
 `_remap_negative_skill_overlaps` of job_ftch/application/ontology_compiler.py): a negative skill that a
 positive relation names becomes an "insufficient ..." anti-pattern.
 */
module OntologyRemap {
  import opened Ordering
  import opened TermNormalization
  import opened OntologyModel
  import opened Dedup
  import opened OntologySanitize

  // ----- positive relations -------------------------------------------------------------------

  function ChunkTerms(chunks: seq<Chunk>): seq<Term> {
    if chunks == [] then [] else chunks[0].terms + ChunkTerms(chunks[1..])
  }

  function ChunkRelations(chunks: seq<Chunk>): seq<Relation> {
    if chunks == [] then [] else chunks[0].relations + ChunkRelations(chunks[1..])
  }

  /** A positive requires/supports relation with a name on both sides. */
  predicate PositiveRelation(u: CharTable, r: Relation) {
    && r.polarity.Positive? && (r.kind.Requires? || r.kind.Supports?)
    && Normalize(u, r.subject) != "" && Normalize(u, r.obj) != ""
  }

  function NormalRelation(u: CharTable, r: Relation): Relation {
    r.(subject := Normalize(u, r.subject), obj := Normalize(u, r.obj))
  }

  /** The positive relations under normal names, the first of each key. */
  function PositiveRelations(u: CharTable, relations: seq<Relation>): seq<Relation> {
    if relations == [] then []
    else
      var before, r := PositiveRelations(u, relations[..|relations| - 1]), relations[|relations| - 1];
      if PositiveRelation(u, r) && KeyOf(NormalRelation(u, r)) !in KeysIn(before)
      then before + [NormalRelation(u, r)] else before
  }

  function KeysIn(relations: seq<Relation>): set<RelationKey> { set r | r in relations :: KeyOf(r) }

  /** `_iter_positive_skill_relations`. */
  method IterPositiveRelations(u: CharTable, relations: seq<Relation>) returns (ordered: seq<Relation>)
    ensures ordered == PositiveRelations(u, relations)
  {
    ordered := [];
    var seen: set<RelationKey> := {};
    var i := 0;
    while i < |relations|
      invariant 0 <= i <= |relations|
      invariant ordered == PositiveRelations(u, relations[..i]) && seen == KeysIn(ordered)
    {
      var relation := relations[i];
      assert relations[..i + 1][..i] == relations[..i];
      i := i + 1;
      if !relation.polarity.Positive? || !(relation.kind.Requires? || relation.kind.Supports?) {
        continue;
      }
      var subject, obj := Normalize(u, relation.subject), Normalize(u, relation.obj);
      if subject == "" || obj == "" {
        continue;
      }
      var key := RelationKey(subject, relation.kind, obj);
      if key in seen {
        continue;
      }
      seen := seen + {key};
      KeysInAppend(ordered, relation.(subject := subject, obj := obj));
      ordered := ordered + [relation.(subject := subject, obj := obj)];
    }
    assert relations[..|relations|] == relations;
  }

  lemma KeysInAppend(relations: seq<Relation>, r: Relation)
    ensures KeysIn(relations + [r]) == KeysIn(relations) + {KeyOf(r)}
  {
    assert forall x :: x in relations + [r] <==> x in relations || x == r;
  }

  function Objects(u: CharTable, relations: seq<Relation>): set<string> {
    set r | r in relations :: Normalize(u, r.obj)
  }

  function Subjects(u: CharTable, relations: seq<Relation>): set<string> {
    set r | r in relations :: Normalize(u, r.subject)
  }

  /** `name` is the object of some positive relation. */
  predicate NamedByPositive(u: CharTable, relations: seq<Relation>, name: string) {
    exists r :: r in relations && PositiveRelation(u, r) && Normalize(u, r.obj) == name
  }

  lemma {:induction false} PositiveRelationsFrom(u: CharTable, relations: seq<Relation>)
    requires Lawful(u)
    ensures forall x :: x in PositiveRelations(u, relations) ==>
              exists r :: r in relations && PositiveRelation(u, r) && x == NormalRelation(u, r)
    ensures forall r :: r in relations && PositiveRelation(u, r) ==>
              KeyOf(NormalRelation(u, r)) in KeysIn(PositiveRelations(u, relations))
  {
    if relations != [] {
      var before, last := relations[..|relations| - 1], relations[|relations| - 1];
      PositiveRelationsFrom(u, before);
      assert relations == before + [last];
      KeysInAppend(PositiveRelations(u, before), NormalRelation(u, last));
      assert forall r :: r in relations <==> r in before || r == last;
    }
  }

  /** Nothing is lost by keeping one relation per key: the objects are those of all positive relations. */
  lemma ObjectsArePositive(u: CharTable, relations: seq<Relation>, name: string)
    requires Lawful(u)
    ensures name in Objects(u, PositiveRelations(u, relations)) <==> NamedByPositive(u, relations, name)
    ensures name in Objects(u, PositiveRelations(u, relations)) ==> name != "" && Normalize(u, name) == name
  {
    var ordered := PositiveRelations(u, relations);
    PositiveRelationsFrom(u, relations);
    if name in Objects(u, ordered) {
      var x :| x in ordered && Normalize(u, x.obj) == name;
      var r :| r in relations && PositiveRelation(u, r) && x == NormalRelation(u, r);
      NormalizeIdempotent(u, r.obj);
    }
    if NamedByPositive(u, relations, name) {
      var r :| r in relations && PositiveRelation(u, r) && Normalize(u, r.obj) == name;
      var x :| x in ordered && KeyOf(x) == KeyOf(NormalRelation(u, r));
      NormalizeIdempotent(u, r.obj);
      assert Normalize(u, x.obj) == name;
    }
  }

  // ----- remapping negative skills --------------------------------------------------------------

  /** A negative skill that a positive relation names. */
  predicate Overlaps(u: CharTable, positives: set<string>, t: Term) {
    var name := Normalize(u, t.canonical);
    t.polarity.Negative? && t.entityType.Skill? && name in positives && !IsInsufficient(name)
  }

  function AsInsufficient(u: CharTable, t: Term): Term {
    t.(canonical := Insufficient(Normalize(u, t.canonical)), entityType := AntiPattern,
       semanticRole := AntiPatternRole, scope := AntiScope, accepted := t.evidence != [])
  }

  datatype Remapped = Remapped(terms: seq<Term>, insufficient: set<string>)

  function RemapStep(u: CharTable, positives: set<string>, s: Remapped, t: Term): Remapped {
    if Overlaps(u, positives, t) then
      var name := Normalize(u, AsInsufficient(u, t).canonical);
      if name in s.insufficient then s
      else Remapped(s.terms + [AsInsufficient(u, t)], s.insufficient + {name})
    else Remapped(s.terms + [t], s.insufficient)
  }

  predicate SaysInsufficient(t: Term) { t.entityType.AntiPattern? || IsInsufficient(t.canonical) }

  function InsufficientNames(u: CharTable, terms: seq<Term>): set<string> {
    set t | t in terms && SaysInsufficient(t) :: Normalize(u, t.canonical)
  }

  function RemapFold(u: CharTable, positives: set<string>, known: set<string>, terms: seq<Term>): Remapped {
    if terms == [] then Remapped([], known)
    else RemapStep(u, positives, RemapFold(u, positives, known, terms[..|terms| - 1]), terms[|terms| - 1])
  }

  function RemapTerms(u: CharTable, positives: set<string>, terms: seq<Term>): seq<Term> {
    RemapFold(u, positives, InsufficientNames(u, terms), terms).terms
  }

  lemma {:induction false} NoOverlapNoChange(u: CharTable, positives: set<string>, known: set<string>, terms: seq<Term>)
    requires forall t :: t in terms ==> !Overlaps(u, positives, t)
    ensures RemapFold(u, positives, known, terms) == Remapped(terms, known)
  {
    if terms != [] {
      NoOverlapNoChange(u, positives, known, terms[..|terms| - 1]);
      assert terms == terms[..|terms| - 1] + [terms[|terms| - 1]];
    }
  }

  /** `_remap_negative_skill_overlaps`. */
  method RemapNegativeSkills(u: CharTable, positives: set<string>, terms: seq<Term>) returns (out: seq<Term>)
    ensures out == RemapTerms(u, positives, terms)
  {
    if positives == {} {
      NoOverlapNoChange(u, positives, InsufficientNames(u, terms), terms);
      return terms;
    }
    var existing := InsufficientNames(u, terms);
    ghost var known := existing;
    var remapped: seq<Term> := [];
    var changed := false;
    var i := 0;
    while i < |terms|
      invariant 0 <= i <= |terms|
      invariant Remapped(remapped, existing) == RemapFold(u, positives, known, terms[..i])
      invariant !changed ==> forall t :: t in terms[..i] ==> !Overlaps(u, positives, t)
    {
      var term := terms[i];
      assert terms[..i + 1][..i] == terms[..i];
      assert forall t :: t in terms[..i + 1] <==> t in terms[..i] || t == term;
      i := i + 1;
      var canonical := Normalize(u, term.canonical);
      if term.polarity.Negative? && term.entityType.Skill? && canonical in positives && !IsInsufficient(canonical) {
        changed := true;
        var insufficient := Insufficient(canonical);
        if Normalize(u, insufficient) in existing {
          continue;
        }
        remapped := remapped + [term.(canonical := insufficient, entityType := AntiPattern,
                                      semanticRole := AntiPatternRole, scope := AntiScope,
                                      accepted := term.evidence != [])];
        existing := existing + {Normalize(u, insufficient)};
        continue;
      }
      remapped := remapped + [term];
    }
    assert terms[..|terms|] == terms;
    if !changed {
      NoOverlapNoChange(u, positives, known, terms);
      return terms;
    }
    out := remapped;
  }

  /** After remapping no negative skill is named by a positive relation, except "insufficient ..." ones. */
  lemma {:induction false} RemapClears(u: CharTable, positives: set<string>, known: set<string>, terms: seq<Term>)
    ensures forall x :: x in RemapFold(u, positives, known, terms).terms ==>
              !Overlaps(u, positives, x)
              && (x in terms || exists t :: t in terms && Overlaps(u, positives, t) && x == AsInsufficient(u, t))
    ensures forall t :: t in terms && !Overlaps(u, positives, t) ==> t in RemapFold(u, positives, known, terms).terms
  {
    if terms != [] {
      var before, last := terms[..|terms| - 1], terms[|terms| - 1];
      RemapClears(u, positives, known, before);
      assert terms == before + [last];
      assert forall t :: t in terms <==> t in before || t == last;
    }
  }

  lemma {:induction false} RemapNames(u: CharTable, positives: set<string>, known: set<string>, terms: seq<Term>)
    ensures known <= RemapFold(u, positives, known, terms).insufficient
    ensures forall n :: n in RemapFold(u, positives, known, terms).insufficient ==>
              n in known || exists x :: x in RemapFold(u, positives, known, terms).terms
                              && x.entityType.AntiPattern? && Normalize(u, x.canonical) == n
    ensures forall t :: t in terms && Overlaps(u, positives, t) ==>
              Normalize(u, Insufficient(Normalize(u, t.canonical)))
                in RemapFold(u, positives, known, terms).insufficient
  {
    if terms != [] {
      var before, last := terms[..|terms| - 1], terms[|terms| - 1];
      RemapNames(u, positives, known, before);
      var s, s' := RemapFold(u, positives, known, before), RemapFold(u, positives, known, terms);
      assert terms == before + [last];
      assert s.terms <= s'.terms && s.insufficient <= s'.insufficient;
      forall n | n in s'.insufficient && n !in known
        ensures exists x :: x in s'.terms && x.entityType.AntiPattern? && Normalize(u, x.canonical) == n
      {
        if n in s.insufficient {
          var x :| x in s.terms && x.entityType.AntiPattern? && Normalize(u, x.canonical) == n;
          assert x in s'.terms;
        } else {
          assert AsInsufficient(u, last) in s'.terms;
        }
      }
    }
  }

  /** The rejection is not forgotten: for every negative skill taken out there is a term that says
      "insufficient" about it. */
  lemma RemapRemembers(u: CharTable, positives: set<string>, terms: seq<Term>, t: Term)
    requires Lawful(u) && t in terms && Overlaps(u, positives, t) && Normalize(u, t.canonical) != ""
    ensures exists x :: x in RemapTerms(u, positives, terms) && SaysInsufficient(x)
              && Normalize(u, x.canonical) == Insufficient(Normalize(u, t.canonical))
  {
    var known := InsufficientNames(u, terms);
    var name := Insufficient(Normalize(u, t.canonical));
    RemapNames(u, positives, known, terms);
    RemapClears(u, positives, known, terms);
    InsufficientIsNormal(u, t.canonical);
    if name in known {
      var x :| x in terms && SaysInsufficient(x) && Normalize(u, x.canonical) == name;
      assert IsInsufficient(name) && !Overlaps(u, positives, x);
      assert x in RemapTerms(u, positives, terms);
    } else {
      var x :| x in RemapTerms(u, positives, terms) && x.entityType.AntiPattern? && Normalize(u, x.canonical) == name;
    }
  }
}
