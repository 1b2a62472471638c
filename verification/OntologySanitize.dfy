/**
 Deduplication and sanitising (`_dedupe_terms`, `_dedupe_relations` and `sanitize_compiled_ontology` of
 job_ftch/application/ontology_compiler.py): the methods are the code, the functions say what it
 computes, and the lemmas say what that is good for.
 */
module OntologySanitize {
  import opened Ordering
  import opened TermNormalization
  import opened OntologyModel
  import opened Dedup

  const STRUCTURAL_LABELS: set<string> := {
    "anti pattern", "anti role", "anti skill", "background skill", "context", "current role",
    "negative keyword", "past role", "positive keyword", "seniority", "supporting skill", "target role",
    "target skill"
  }

  lemma ShortName(name: string)
    requires |name| == 2
    ensures !IsInsufficient(name) && name !in STRUCTURAL_LABELS
  {
  }

  // ----- what the code computes ---------------------------------------------------------------

  /** The terms with a name, under their normal names. */
  function NormalTerms(u: CharTable, terms: seq<Term>): seq<Term> {
    if terms == [] then []
    else
      var before, t := NormalTerms(u, terms[..|terms| - 1]), terms[|terms| - 1];
      var name := Normalize(u, t.canonical);
      if name == "" then before else before + [t.(canonical := name)]
  }

  /** When a later term of the same type and name replaces an earlier one. */
  predicate BetterTerm(t: Term, existing: Term) {
    (t.accepted && !existing.accepted) || (t.accepted && t.evidence != [] && existing.evidence == [])
  }

  ghost function DedupedTerms(u: CharTable, terms: seq<Term>): seq<Term> {
    KeyLeTotal();
    Deduped(TermKey, BetterTerm, KeyLe, NormalTerms(u, terms))
  }

  function NormalRelations(u: CharTable, relations: seq<Relation>): seq<Relation> {
    if relations == [] then []
    else
      var before, r := NormalRelations(u, relations[..|relations| - 1]), relations[|relations| - 1];
      var subject, obj := Normalize(u, r.subject), Normalize(u, r.obj);
      if subject == "" || obj == "" then before else before + [r.(subject := subject, obj := obj)]
  }

  predicate BetterRelation(r: Relation, existing: Relation) { r.confidence > existing.confidence }

  ghost function DedupedRelations(u: CharTable, relations: seq<Relation>): seq<Relation> {
    RelationKeyLeTotal();
    Deduped(KeyOf, BetterRelation, RelationKeyLe, NormalRelations(u, relations))
  }

  /** Accepted with evidence. */
  predicate Backed(t: Term) { t.accepted && t.evidence != [] }

  /** Drops the structural labels and the acceptances without evidence. */
  function KeepTerms(terms: seq<Term>): seq<Term> {
    if terms == [] then []
    else
      var before, t := KeepTerms(terms[..|terms| - 1]), terms[|terms| - 1];
      if t.canonical in STRUCTURAL_LABELS then before else before + [t.(accepted := Backed(t))]
  }

  /** The loop of the code: besides, an accepted key that comes again with another polarity is not accepted. */
  function KeepChecked(terms: seq<Term>): (seq<Term>, map<Key, Polarity>) {
    if terms == [] then ([], map[])
    else
      var (before, polarity) := KeepChecked(terms[..|terms| - 1]);
      var t := terms[|terms| - 1];
      if t.canonical in STRUCTURAL_LABELS then (before, polarity)
      else
        var clash := TermKey(t) in polarity && polarity[TermKey(t)] != t.polarity;
        var accepted := Backed(t) && !clash;
        (before + [t.(accepted := accepted)], if accepted then polarity[TermKey(t) := t.polarity] else polarity)
  }

  ghost function SanitizedTerms(u: CharTable, terms: seq<Term>): seq<Term> {
    KeepTerms(DedupedTerms(u, terms))
  }

  ghost function Sanitized(u: CharTable, o: Ontology): Ontology {
    Ontology(SanitizedTerms(u, o.terms), DedupedRelations(u, o.relations))
  }

  // ----- the code -----------------------------------------------------------------------------

  /** `_dedupe_terms`. */
  method DedupeTerms(u: CharTable, terms: seq<Term>) returns (out: seq<Term>)
    ensures out == DedupedTerms(u, terms)
  {
    var byKey: map<Key, Term> := map[];
    var i := 0;
    while i < |terms|
      invariant 0 <= i <= |terms|
      invariant byKey == Best(TermKey, BetterTerm, NormalTerms(u, terms[..i]))
    {
      var term := terms[i];
      var canonical := Normalize(u, term.canonical);
      assert terms[..i + 1][..i] == terms[..i];
      i := i + 1;
      if canonical == "" {
        continue;
      }
      var key := Key(term.entityType, canonical);
      var normalized := term.(canonical := canonical);
      ghost var before := NormalTerms(u, terms[..i - 1]);
      assert (before + [normalized])[..|before|] == before;
      if key !in byKey
         || (normalized.accepted && !byKey[key].accepted)
         || (normalized.accepted && normalized.evidence != [] && byKey[key].evidence == []) {
        byKey := byKey[key := normalized];
      }
    }
    assert terms[..|terms|] == terms;
    KeyLeTotal();
    out := ReadOut(KeyLe, byKey);
  }

  /** `_dedupe_relations`. */
  method DedupeRelations(u: CharTable, relations: seq<Relation>) returns (out: seq<Relation>)
    ensures out == DedupedRelations(u, relations)
  {
    var byKey: map<RelationKey, Relation> := map[];
    var i := 0;
    while i < |relations|
      invariant 0 <= i <= |relations|
      invariant byKey == Best(KeyOf, BetterRelation, NormalRelations(u, relations[..i]))
    {
      var relation := relations[i];
      var subject, obj := Normalize(u, relation.subject), Normalize(u, relation.obj);
      assert relations[..i + 1][..i] == relations[..i];
      i := i + 1;
      if subject == "" || obj == "" {
        continue;
      }
      var key := RelationKey(subject, relation.kind, obj);
      var normalized := relation.(subject := subject, obj := obj);
      ghost var before := NormalRelations(u, relations[..i - 1]);
      assert (before + [normalized])[..|before|] == before;
      if key !in byKey || normalized.confidence > byKey[key].confidence {
        byKey := byKey[key := normalized];
      }
    }
    assert relations[..|relations|] == relations;
    RelationKeyLeTotal();
    out := ReadOut(RelationKeyLe, byKey);
  }

  /** `sanitize_compiled_ontology`. The check for a second polarity of an accepted key never acts: after
      deduplication no key comes twice. */
  method Sanitize(u: CharTable, o: Ontology) returns (out: Ontology)
    ensures out == Sanitized(u, o)
  {
    var terms := DedupeTerms(u, o.terms);
    var acceptedPolarity: map<Key, Polarity> := map[];
    var sanitized: seq<Term> := [];
    var i := 0;
    while i < |terms|
      invariant 0 <= i <= |terms|
      invariant (sanitized, acceptedPolarity) == KeepChecked(terms[..i])
    {
      var term := terms[i];
      assert terms[..i + 1][..i] == terms[..i];
      i := i + 1;
      if term.canonical in STRUCTURAL_LABELS {
        continue;
      }
      var accepted := term.accepted && term.evidence != [];
      var key := Key(term.entityType, term.canonical);
      if accepted && key in acceptedPolarity && acceptedPolarity[key] != term.polarity {
        accepted := false;
      }
      if accepted {
        acceptedPolarity := acceptedPolarity[key := term.polarity];
      }
      sanitized := sanitized + [term.(accepted := accepted)];
    }
    assert terms[..|terms|] == terms;
    KeyLeTotal();
    DedupedIsSorted(TermKey, BetterTerm, KeyLe, NormalTerms(u, o.terms));
    NoClash(terms);
    var relations := DedupeRelations(u, o.relations);
    out := Ontology(sanitized, relations);
  }

  /** Without a repeated key the polarity check never acts. */
  lemma {:induction false} NoClash(terms: seq<Term>)
    requires KeySorted(TermKey, KeyLe, terms)
    ensures KeepChecked(terms).0 == KeepTerms(terms)
    ensures forall k :: k in KeepChecked(terms).1 ==> exists j :: 0 <= j < |terms| && TermKey(terms[j]) == k
  {
    if terms != [] {
      var n := |terms| - 1;
      var before := terms[..n];
      NoClash(before);
      assert TermKey(terms[n]) !in KeepChecked(before).1;
      forall k | k in KeepChecked(terms).1
        ensures exists j :: 0 <= j < |terms| && TermKey(terms[j]) == k
      {
        if k in KeepChecked(before).1 {
          var j :| 0 <= j < n && TermKey(before[j]) == k;
          assert terms[j] == before[j];
        } else {
          assert TermKey(terms[n]) == k;
        }
      }
    }
  }

  // ----- names ----------------------------------------------------------------------------------

  lemma {:induction false} NormalTermsFrom(u: CharTable, terms: seq<Term>)
    ensures forall x :: x in NormalTerms(u, terms) <==>
              exists t :: t in terms && Normalize(u, t.canonical) != ""
                && x == t.(canonical := Normalize(u, t.canonical))
  {
    if terms != [] {
      var before, t := terms[..|terms| - 1], terms[|terms| - 1];
      NormalTermsFrom(u, before);
      assert terms == before + [t];
      assert forall s :: s in terms <==> s in before || s == t;
    }
  }

  lemma {:induction false} NormalTermsFixed(u: CharTable, terms: seq<Term>)
    requires forall t :: t in terms ==> Normalize(u, t.canonical) == t.canonical != ""
    ensures NormalTerms(u, terms) == terms
  {
    if terms != [] {
      var before, t := terms[..|terms| - 1], terms[|terms| - 1];
      NormalTermsFixed(u, before);
      assert terms == before + [t];
    }
  }

  lemma {:induction false} KeepTermsFrom(terms: seq<Term>)
    ensures forall x :: x in KeepTerms(terms) <==>
              exists t :: t in terms && t.canonical !in STRUCTURAL_LABELS && x == t.(accepted := Backed(t))
  {
    if terms != [] {
      var before, t := terms[..|terms| - 1], terms[|terms| - 1];
      KeepTermsFrom(before);
      assert terms == before + [t];
      assert forall s :: s in terms <==> s in before || s == t;
    }
  }

  lemma {:induction false} KeepTermsSorted(terms: seq<Term>)
    requires KeySorted(TermKey, KeyLe, terms)
    ensures KeySorted(TermKey, KeyLe, KeepTerms(terms))
  {
    if terms != [] {
      var n := |terms| - 1;
      var before, t := terms[..n], terms[n];
      KeepTermsSorted(before);
      KeepTermsFrom(before);
      var kept := KeepTerms(before);
      forall i | 0 <= i < |kept|
        ensures KeyLe(TermKey(kept[i]), TermKey(t)) && TermKey(kept[i]) != TermKey(t)
      {
        assert kept[i] in kept;
        var s :| s in before && kept[i] == s.(accepted := Backed(s));
        var j :| 0 <= j < n && before[j] == s;
        assert terms[j] == s;
      }
    }
  }

  lemma {:induction false} KeepTermsFixed(terms: seq<Term>)
    requires forall t :: t in terms ==> t.canonical !in STRUCTURAL_LABELS && (t.accepted ==> t.evidence != [])
    ensures KeepTerms(terms) == terms
  {
    if terms != [] {
      var before, t := terms[..|terms| - 1], terms[|terms| - 1];
      KeepTermsFixed(before);
      assert terms == before + [t];
      assert t.(accepted := Backed(t)) == t;
    }
  }

  // ----- sanitised ontologies --------------------------------------------------------------------

  /** A term as sanitising leaves it. */
  predicate CleanTerm(u: CharTable, t: Term) {
    && Normalize(u, t.canonical) == t.canonical != ""
    && t.canonical !in STRUCTURAL_LABELS
    && (t.accepted ==> t.evidence != [])
  }

  ghost predicate CleanTerms(u: CharTable, terms: seq<Term>) {
    KeySorted(TermKey, KeyLe, terms) && forall t :: t in terms ==> CleanTerm(u, t)
  }

  predicate CleanRelation(u: CharTable, r: Relation) {
    Normalize(u, r.subject) == r.subject != "" && Normalize(u, r.obj) == r.obj != ""
  }

  ghost predicate CleanRelations(u: CharTable, relations: seq<Relation>) {
    KeySorted(KeyOf, RelationKeyLe, relations) && forall r :: r in relations ==> CleanRelation(u, r)
  }

  ghost predicate Clean(u: CharTable, o: Ontology) {
    CleanTerms(u, o.terms) && CleanRelations(u, o.relations)
  }

  lemma SanitizedTermsAreClean(u: CharTable, terms: seq<Term>)
    requires Lawful(u)
    ensures CleanTerms(u, SanitizedTerms(u, terms))
  {
    KeyLeTotal();
    var deduped := DedupedTerms(u, terms);
    DedupedIsSorted(TermKey, BetterTerm, KeyLe, NormalTerms(u, terms));
    KeepTermsSorted(deduped);
    KeepTermsFrom(deduped);
    NormalTermsFrom(u, terms);
    forall x | x in SanitizedTerms(u, terms)
      ensures CleanTerm(u, x)
    {
      var d :| d in deduped && d.canonical !in STRUCTURAL_LABELS && x == d.(accepted := Backed(d));
      var t :| t in terms && Normalize(u, t.canonical) != "" && d == t.(canonical := Normalize(u, t.canonical));
      NormalizeIdempotent(u, t.canonical);
    }
  }

  lemma {:induction false} NormalRelationsFrom(u: CharTable, relations: seq<Relation>)
    ensures forall x :: x in NormalRelations(u, relations) <==>
              exists r :: r in relations && Normalize(u, r.subject) != "" && Normalize(u, r.obj) != ""
                && x == r.(subject := Normalize(u, r.subject), obj := Normalize(u, r.obj))
  {
    if relations != [] {
      var before, r := relations[..|relations| - 1], relations[|relations| - 1];
      NormalRelationsFrom(u, before);
      assert relations == before + [r];
      assert forall s :: s in relations <==> s in before || s == r;
    }
  }

  lemma {:induction false} NormalRelationsFixed(u: CharTable, relations: seq<Relation>)
    requires forall r :: r in relations ==> CleanRelation(u, r)
    ensures NormalRelations(u, relations) == relations
  {
    if relations != [] {
      var before, r := relations[..|relations| - 1], relations[|relations| - 1];
      NormalRelationsFixed(u, before);
      assert relations == before + [r];
      assert CleanRelation(u, r);
      assert r.(subject := r.subject, obj := r.obj) == r;
    }
  }

  lemma DedupedRelationsAreClean(u: CharTable, relations: seq<Relation>)
    requires Lawful(u)
    ensures CleanRelations(u, DedupedRelations(u, relations))
  {
    RelationKeyLeTotal();
    DedupedIsSorted(KeyOf, BetterRelation, RelationKeyLe, NormalRelations(u, relations));
    NormalRelationsFrom(u, relations);
    forall x | x in DedupedRelations(u, relations)
      ensures CleanRelation(u, x)
    {
      var r :| r in relations && Normalize(u, r.subject) != "" && Normalize(u, r.obj) != ""
        && x == r.(subject := Normalize(u, r.subject), obj := Normalize(u, r.obj));
      NormalizeIdempotent(u, r.subject);
      NormalizeIdempotent(u, r.obj);
    }
  }

  /** Sanitising leaves normal, unique, sorted names without structural labels, and every accepted term
      with evidence. */
  lemma SanitizedIsClean(u: CharTable, o: Ontology)
    requires Lawful(u)
    ensures Clean(u, Sanitized(u, o))
  {
    SanitizedTermsAreClean(u, o.terms);
    DedupedRelationsAreClean(u, o.relations);
  }

  /** A clean ontology is a fixed point. */
  lemma SanitizeFixesClean(u: CharTable, o: Ontology)
    requires Clean(u, o)
    ensures Sanitized(u, o) == o
  {
    KeyLeTotal();
    RelationKeyLeTotal();
    NormalTermsFixed(u, o.terms);
    SortedIsDeduped(TermKey, BetterTerm, KeyLe, o.terms);
    KeepTermsFixed(o.terms);
    NormalRelationsFixed(u, o.relations);
    SortedIsDeduped(KeyOf, BetterRelation, RelationKeyLe, o.relations);
  }

  /** Sanitising is idempotent. */
  lemma SanitizeIdempotent(u: CharTable, o: Ontology)
    requires Lawful(u)
    ensures Sanitized(u, Sanitized(u, o)) == Sanitized(u, o)
  {
    SanitizedIsClean(u, o);
    SanitizeFixesClean(u, Sanitized(u, o));
  }

  // ----- acceptance is exact ---------------------------------------------------------------------

  /** The replacement rule never loses a backed term and never invents one. */
  lemma {:induction false} BestAcceptance(xs: seq<Term>, k: Key)
    requires k in Best(TermKey, BetterTerm, xs)
    ensures Backed(Best(TermKey, BetterTerm, xs)[k]) <==> exists x :: x in xs && TermKey(x) == k && Backed(x)
  {
    var n := |xs| - 1;
    var before, x := xs[..n], xs[n];
    assert xs == before + [x];
    assert forall y :: y in xs <==> y in before || y == x;
    BestHolds(TermKey, BetterTerm, before);
    if k in Best(TermKey, BetterTerm, before) {
      BestAcceptance(before, k);
    }
  }

  predicate Named(u: CharTable, t: Term, k: Key) {
    t.entityType == k.entityType && Normalize(u, t.canonical) == k.name
  }

  /** What the dictionary of deduplication holds. */
  lemma BestOfNames(u: CharTable, terms: seq<Term>, k: Key)
    requires k.name != ""
    ensures var m := Best(TermKey, BetterTerm, NormalTerms(u, terms));
            && (k in m <==> exists t :: t in terms && Named(u, t, k))
            && (k in m ==>
                  TermKey(m[k]) == k && (Backed(m[k]) <==> exists t :: t in terms && Named(u, t, k) && Backed(t)))
  {
    var xs := NormalTerms(u, terms);
    var m := Best(TermKey, BetterTerm, xs);
    NormalTermsFrom(u, terms);
    BestHolds(TermKey, BetterTerm, xs);
    if k in m {
      BestAcceptance(xs, k);
      BackedThroughNames(u, terms, k);
      var t :| t in terms && Normalize(u, t.canonical) != "" && m[k] == t.(canonical := Normalize(u, t.canonical));
      assert Named(u, t, k);
    }
    if exists t :: t in terms && Named(u, t, k) {
      var t :| t in terms && Named(u, t, k);
      assert t.(canonical := k.name) in xs;
    }
  }

  /** A type and name survives sanitising exactly when some term has it and it is no structural label; it is
      accepted exactly when some term with it was accepted with evidence, wherever it stood in the list. */
  lemma AcceptanceIsExact(u: CharTable, terms: seq<Term>, k: Key)
    requires k.name != ""
    ensures (exists x :: x in SanitizedTerms(u, terms) && TermKey(x) == k)
            <==> k.name !in STRUCTURAL_LABELS && exists t :: t in terms && Named(u, t, k)
    ensures forall x :: x in SanitizedTerms(u, terms) && TermKey(x) == k ==>
              (x.accepted <==> exists t :: t in terms && Named(u, t, k) && Backed(t))
  {
    KeyLeTotal();
    var m := Best(TermKey, BetterTerm, NormalTerms(u, terms));
    BestHolds(TermKey, BetterTerm, NormalTerms(u, terms));
    ValuesAreSorted(TermKey, KeyLe, m);
    BestOfNames(u, terms, k);
    KeepTermsFrom(DedupedTerms(u, terms));
    if k.name !in STRUCTURAL_LABELS && k in m {
      assert m[k] in DedupedTerms(u, terms);
      assert m[k].(accepted := Backed(m[k])) in SanitizedTerms(u, terms);
    }
    forall x | x in SanitizedTerms(u, terms) && TermKey(x) == k
      ensures k.name !in STRUCTURAL_LABELS && k in m && x.accepted == Backed(m[k])
    {
      var d :| d in DedupedTerms(u, terms) && d.canonical !in STRUCTURAL_LABELS && x == d.(accepted := Backed(d));
      assert TermKey(d) == k && m[k] == d;
    }
  }

  lemma BackedThroughNames(u: CharTable, terms: seq<Term>, k: Key)
    requires k.name != ""
    ensures (exists x :: x in NormalTerms(u, terms) && TermKey(x) == k && Backed(x))
            <==> exists t :: t in terms && Named(u, t, k) && Backed(t)
  {
    NormalTermsFrom(u, terms);
    if exists t :: t in terms && Named(u, t, k) && Backed(t) {
      var t :| t in terms && Named(u, t, k) && Backed(t);
      var x := t.(canonical := k.name);
      assert x in NormalTerms(u, terms) && TermKey(x) == k && Backed(x);
    }
  }

  /** So the accepted type and name pairs do not depend on the order of the input. */
  lemma AcceptanceIgnoresOrder(u: CharTable, terms: seq<Term>, others: seq<Term>, k: Key)
    requires k.name != "" && multiset(terms) == multiset(others)
    ensures (exists x :: x in SanitizedTerms(u, terms) && TermKey(x) == k && x.accepted)
            <==> exists x :: x in SanitizedTerms(u, others) && TermKey(x) == k && x.accepted
  {
    assert forall t :: t in terms <==> t in multiset(terms);
    assert forall t :: t in others <==> t in multiset(others);
    AcceptanceIsExact(u, terms, k);
    AcceptanceIsExact(u, others, k);
  }

  /** Of the relations with one subject, predicate and object, a most confident one is kept. */
  lemma {:induction false} BestConfidence(xs: seq<Relation>, x: Relation)
    requires x in xs
    ensures KeyOf(x) in Best(KeyOf, BetterRelation, xs)
    ensures x.confidence <= Best(KeyOf, BetterRelation, xs)[KeyOf(x)].confidence
  {
    var n := |xs| - 1;
    var before, last := xs[..n], xs[n];
    assert xs == before + [last];
    BestHolds(KeyOf, BetterRelation, xs);
    if x in before {
      BestConfidence(before, x);
    }
  }

  lemma MostConfidentRelationKept(u: CharTable, relations: seq<Relation>, r: Relation)
    requires r in relations && Normalize(u, r.subject) != "" && Normalize(u, r.obj) != ""
    ensures exists x :: x in DedupedRelations(u, relations) && x.confidence >= r.confidence
              && KeyOf(x) == RelationKey(Normalize(u, r.subject), r.kind, Normalize(u, r.obj))
  {
    RelationKeyLeTotal();
    var xs := NormalRelations(u, relations);
    var m := Best(KeyOf, BetterRelation, xs);
    NormalRelationsFrom(u, relations);
    BestHolds(KeyOf, BetterRelation, xs);
    ValuesAreSorted(KeyOf, RelationKeyLe, m);
    var y := r.(subject := Normalize(u, r.subject), obj := Normalize(u, r.obj));
    assert y in xs;
    BestConfidence(xs, y);
    assert m[KeyOf(y)] in DedupedRelations(u, relations);
  }
}
