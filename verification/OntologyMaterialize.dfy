/**
 Materialising (`materialize_compiled_ontology` of job_ftch/application/ontology_compiler.py): the accepted
 terms of an ontology are sorted into role, skill and keyword lists.
 */
module OntologyMaterialize {
  import opened Ordering
  import opened TermNormalization
  import opened OntologyModel
  import opened Dedup
  import opened OntologySanitize
  import opened OntologyRemap
  import opened OntologyRestore
  import opened OntologyEvidence

  type Keyword = (string, int)

  datatype Materialized = Materialized(
    positiveRoles: seq<string>,
    negativeRoles: seq<string>,
    positiveSkills: seq<string>,
    negativeSkills: seq<string>,
    seniority: seq<string>,
    antiPatterns: seq<string>,
    positiveKeywords: seq<Keyword>,
    negativeKeywords: seq<Keyword>)

  // ----- where a term goes ----------------------------------------------------------------------

  predicate ListsTargetRole(t: Term) { t.accepted && t.entityType.Role? && t.semanticRole.TargetRole? }

  predicate ListsAntiRole(t: Term) { t.accepted && t.entityType.Role? && t.semanticRole.AntiRole? }

  predicate ListsSkill(t: Term) {
    t.accepted && t.entityType.Skill? && (t.semanticRole.TargetSkill? || t.semanticRole.SupportingSkill?)
  }

  predicate ListsAntiSkill(t: Term) { t.accepted && t.entityType.Skill? && t.semanticRole.AntiSkill? }

  predicate ListsAntiPattern(t: Term) { t.accepted && t.semanticRole.AntiPatternRole? }

  predicate ListsSeniority(t: Term) { t.accepted && t.semanticRole.SeniorityRole? }

  /** A target skill seen more than once, or in a prominent place. */
  predicate KeywordStrength(t: Term) {
    t.semanticRole.TargetSkill?
    && (t.support >= 2 || |t.evidence| >= 2
        || t.section.Title? || t.section.DesiredRoleSection? || t.section.CurrentRoleSection? || t.section.Summary?)
  }

  predicate ListsPositiveKeyword(t: Term) {
    ListsTargetRole(t) || (ListsSkill(t) && KeywordStrength(t)) || (t.accepted && t.semanticRole.PositiveKeyword?)
  }

  predicate ListsNegativeKeyword(t: Term) {
    ListsAntiRole(t) || ListsAntiSkill(t) || ListsAntiPattern(t) || (t.accepted && t.semanticRole.NegativeKeyword?)
  }

  /** Python's `round`: halves go to the even neighbour. */
  function Round(x: real): int {
    var below := x.Floor;
    var rest := x - below as real;
    if rest < 0.5 || (rest == 0.5 && below % 2 == 0) then below else below + 1
  }

  function KeywordWeight(t: Term): (w: int)
    ensures 1 <= w <= 5
  {
    var w := Round(t.weight * 5.0);
    if w < 1 then 1 else if w > 5 then 5 else w
  }

  /** The names of the terms that belong on a list, in order. */
  function Names(belongs: Term -> bool, terms: seq<Term>): seq<string> {
    if terms == [] then []
    else
      var before, t := Names(belongs, terms[..|terms| - 1]), terms[|terms| - 1];
      if belongs(t) then before + [t.canonical] else before
  }

  function Weighed(belongs: Term -> bool, terms: seq<Term>): seq<Keyword> {
    if terms == [] then []
    else
      var before, t := Weighed(belongs, terms[..|terms| - 1]), terms[|terms| - 1];
      if belongs(t) then before + [(t.canonical, KeywordWeight(t))] else before
  }

  /** `dict(pairs)`: the last weight of a name counts. */
  function Dict(pairs: seq<Keyword>): map<string, int> {
    if pairs == [] then map[] else Dict(pairs[..|pairs| - 1])[pairs[|pairs| - 1].0 := pairs[|pairs| - 1].1]
  }

  predicate KeywordLe(a: Keyword, b: Keyword) { a.1 > b.1 || (a.1 == b.1 && StringLe(a.0, b.0)) }

  lemma KeywordLeTotal()
    ensures TotalOrder(KeywordLe)
  {
    StringLeTotal();
  }

  /** `sorted(dict(pairs).items(), key=lambda item: (-item[1], item[0]))`. */
  ghost function ByWeight(pairs: seq<Keyword>): seq<Keyword> {
    KeywordLeTotal();
    Listing(KeywordLe, Dict(pairs).Items)
  }

  ghost function MaterializedTerms(terms: seq<Term>): Materialized {
    Materialized(
      FirstOnly(Names(ListsTargetRole, terms)), FirstOnly(Names(ListsAntiRole, terms)),
      FirstOnly(Names(ListsSkill, terms)), FirstOnly(Names(ListsAntiSkill, terms)),
      FirstOnly(Names(ListsSeniority, terms)), FirstOnly(Names(ListsAntiPattern, terms)),
      ByWeight(Weighed(ListsPositiveKeyword, terms)), ByWeight(Weighed(ListsNegativeKeyword, terms)))
  }

  // ----- the code -------------------------------------------------------------------------------

  method Materialize(terms: seq<Term>) returns (out: Materialized)
    ensures out == MaterializedTerms(terms)
  {
    var positiveRoles, negativeRoles: seq<string> := [], [];
    var positiveSkills, negativeSkills: seq<string> := [], [];
    var antiPatterns, seniority: seq<string> := [], [];
    var positiveKeywords, negativeKeywords: seq<Keyword> := [], [];
    var i := 0;
    while i < |terms|
      invariant 0 <= i <= |terms|
      invariant positiveRoles == Names(ListsTargetRole, terms[..i]) && negativeRoles == Names(ListsAntiRole, terms[..i])
      invariant positiveSkills == Names(ListsSkill, terms[..i]) && negativeSkills == Names(ListsAntiSkill, terms[..i])
      invariant antiPatterns == Names(ListsAntiPattern, terms[..i]) && seniority == Names(ListsSeniority, terms[..i])
      invariant positiveKeywords == Weighed(ListsPositiveKeyword, terms[..i])
      invariant negativeKeywords == Weighed(ListsNegativeKeyword, terms[..i])
    {
      var term := terms[i];
      assert terms[..i + 1][..i] == terms[..i];
      i := i + 1;
      if !term.accepted {
        continue;
      }
      var keywordWeight := KeywordWeight(term);
      if term.entityType.Role? && term.semanticRole.TargetRole? {
        positiveRoles := positiveRoles + [term.canonical];
        positiveKeywords := positiveKeywords + [(term.canonical, keywordWeight)];
      } else if term.entityType.Role? && term.semanticRole.AntiRole? {
        negativeRoles := negativeRoles + [term.canonical];
        negativeKeywords := negativeKeywords + [(term.canonical, keywordWeight)];
      } else if term.entityType.Skill? && (term.semanticRole.TargetSkill? || term.semanticRole.SupportingSkill?) {
        positiveSkills := positiveSkills + [term.canonical];
        if KeywordStrength(term) {
          positiveKeywords := positiveKeywords + [(term.canonical, keywordWeight)];
        }
      } else if term.entityType.Skill? && term.semanticRole.AntiSkill? {
        negativeSkills := negativeSkills + [term.canonical];
        negativeKeywords := negativeKeywords + [(term.canonical, keywordWeight)];
      } else if term.semanticRole.PositiveKeyword? {
        positiveKeywords := positiveKeywords + [(term.canonical, keywordWeight)];
      } else if term.semanticRole.NegativeKeyword? {
        negativeKeywords := negativeKeywords + [(term.canonical, keywordWeight)];
      } else if term.semanticRole.AntiPatternRole? {
        antiPatterns := antiPatterns + [term.canonical];
        negativeKeywords := negativeKeywords + [(term.canonical, keywordWeight)];
      } else if term.semanticRole.SeniorityRole? {
        seniority := seniority + [term.canonical];
      }
    }
    assert terms[..|terms|] == terms;
    KeywordLeTotal();
    var positive := SortSet(KeywordLe, Dict(positiveKeywords).Items);
    var negative := SortSet(KeywordLe, Dict(negativeKeywords).Items);
    out := Materialized(
      FirstOnly(positiveRoles), FirstOnly(negativeRoles), FirstOnly(positiveSkills), FirstOnly(negativeSkills),
      FirstOnly(seniority), FirstOnly(antiPatterns), positive, negative);
  }

  // ----- the lists ------------------------------------------------------------------------------

  lemma {:induction false} NamesFrom(belongs: Term -> bool, terms: seq<Term>)
    ensures forall n :: n in Names(belongs, terms) <==> exists t :: t in terms && belongs(t) && t.canonical == n
  {
    if terms != [] {
      var before, last := terms[..|terms| - 1], terms[|terms| - 1];
      NamesFrom(belongs, before);
      assert terms == before + [last];
      assert forall t :: t in terms <==> t in before || t == last;
    }
  }

  /** The last of the terms that list `n` has weight `w`. */
  ghost predicate LastWeight(belongs: Term -> bool, terms: seq<Term>, n: string, w: int) {
    exists i :: 0 <= i < |terms| && LastListing(belongs, terms, n, i) && w == KeywordWeight(terms[i])
  }

  ghost predicate LastListing(belongs: Term -> bool, terms: seq<Term>, n: string, i: nat)
    requires i < |terms|
  {
    && belongs(terms[i]) && terms[i].canonical == n
    && forall j :: i < j < |terms| && belongs(terms[j]) ==> terms[j].canonical != n
  }

  ghost predicate WeighedLast(belongs: Term -> bool, terms: seq<Term>, m: map<string, int>) {
    forall n :: n in m ==> LastWeight(belongs, terms, n, m[n])
  }

  lemma {:induction false} DictOfWeighed(belongs: Term -> bool, terms: seq<Term>)
    ensures forall n :: n in Dict(Weighed(belongs, terms)) <==> n in Names(belongs, terms)
    ensures WeighedLast(belongs, terms, Dict(Weighed(belongs, terms)))
  {
    if terms != [] {
      var k := |terms| - 1;
      var before, last := terms[..k], terms[k];
      DictOfWeighed(belongs, before);
      var m, m' := Dict(Weighed(belongs, before)), Dict(Weighed(belongs, terms));
      if belongs(last) {
        var pairs := Weighed(belongs, before);
        assert (pairs + [(last.canonical, KeywordWeight(last))])[..|pairs|] == pairs;
        assert m' == m[last.canonical := KeywordWeight(last)];
      }
      forall n | n in m'
        ensures LastWeight(belongs, terms, n, m'[n])
      {
        if belongs(last) && n == last.canonical {
          assert LastListing(belongs, terms, n, k);
        } else {
          assert n in m && m'[n] == m[n];
          assert LastWeight(belongs, before, n, m[n]);
          var i :| 0 <= i < k && LastListing(belongs, before, n, i) && m[n] == KeywordWeight(before[i]);
          assert terms[i] == before[i];
          assert forall j :: i < j < k ==> before[j] == terms[j];
          assert LastListing(belongs, terms, n, i);
        }
      }
    }
  }

  predicate NamesKeyword(keywords: seq<Keyword>, n: string) { exists k :: k in keywords && k.0 == n }

  /** A keyword list: one entry per name, heavier first, equal weights by name, weights from 1 to 5. */
  ghost predicate KeywordList(keywords: seq<Keyword>) {
    && (forall i, j :: 0 <= i < j < |keywords| ==>
          keywords[i].0 != keywords[j].0 && KeywordLe(keywords[i], keywords[j]))
    && (forall k :: k in keywords ==> 1 <= k.1 <= 5)
  }

  lemma ItemsByWeight(m: map<string, int>)
    ensures PreOrder(KeywordLe)
    ensures var keywords := Listing(KeywordLe, m.Items);
            && (forall k :: k in keywords <==> k.0 in m && m[k.0] == k.1)
            && (forall i, j :: 0 <= i < j < |keywords| ==>
                  keywords[i].0 != keywords[j].0 && KeywordLe(keywords[i], keywords[j]))
  {
    KeywordLeTotal();
    var keywords := Listing(KeywordLe, m.Items);
    ListingLists(KeywordLe, m.Items);
    forall k
      ensures k in keywords <==> k.0 in m && m[k.0] == k.1
    {
      assert k in keywords <==> k in Elements(keywords);
      assert k in m.Items <==> k.0 in m && m[k.0] == k.1;
    }
    forall i, j | 0 <= i < j < |keywords|
      ensures keywords[i].0 != keywords[j].0
    {
      assert keywords[i] in keywords && keywords[j] in keywords;
      assert keywords[i] != keywords[j];
    }
  }

  lemma KeywordsAreListed(belongs: Term -> bool, terms: seq<Term>)
    ensures var keywords := ByWeight(Weighed(belongs, terms));
            && KeywordList(keywords)
            && (forall n :: NamesKeyword(keywords, n) <==> exists t :: t in terms && belongs(t) && t.canonical == n)
            && (forall k :: k in keywords ==> LastWeight(belongs, terms, k.0, k.1))
  {
    var m := Dict(Weighed(belongs, terms));
    var keywords := ByWeight(Weighed(belongs, terms));
    ItemsByWeight(m);
    NamesFrom(belongs, terms);
    DictOfWeighed(belongs, terms);
    forall n
      ensures NamesKeyword(keywords, n) <==> n in Names(belongs, terms)
    {
      if n in m {
        assert (n, m[n]) in keywords;
      }
    }
    forall k | k in keywords
      ensures LastWeight(belongs, terms, k.0, k.1) && 1 <= k.1 <= 5
    {
      assert LastWeight(belongs, terms, k.0, m[k.0]);
    }
  }

  /** On clean terms the lists of one entity type are in strictly ascending order, so the removal of
      duplicates has nothing to do. */
  lemma {:induction false} NamesAscend(belongs: Term -> bool, e: EntityType, terms: seq<Term>)
    requires KeySorted(TermKey, KeyLe, terms) && forall t :: t in terms && belongs(t) ==> t.entityType == e
    ensures Sorted(StringLe, Names(belongs, terms)) && Distinct(Names(belongs, terms))
  {
    if terms != [] {
      var k := |terms| - 1;
      var before, last := terms[..k], terms[k];
      assert terms == before + [last];
      NamesAscend(belongs, e, before);
      NamesFrom(belongs, before);
      var ns := Names(belongs, before);
      forall i | belongs(last) && 0 <= i < |ns|
        ensures StringLe(ns[i], last.canonical) && ns[i] != last.canonical
      {
        assert ns[i] in ns;
        var t :| t in before && belongs(t) && t.canonical == ns[i];
        var j :| 0 <= j < k && before[j] == t;
        assert terms[j] == t && t.entityType == e == last.entityType;
        assert KeyLe(TermKey(terms[j]), TermKey(terms[k]));
      }
    }
  }

  lemma {:induction false} FirstOnlyOfDistinct<T(!new)>(xs: seq<T>)
    requires Distinct(xs)
    ensures FirstOnly(xs) == xs
  {
    if xs != [] {
      var before, x := xs[..|xs| - 1], xs[|xs| - 1];
      assert xs == before + [x];
      FirstOnlyOfDistinct(before);
    }
  }

  // ----- what the materialised lists promise -----------------------------------------------------

  /** A name is listed exactly when an accepted term of the right type and role has it. */
  lemma ListedExactly(terms: seq<Term>)
    ensures var m := MaterializedTerms(terms);
            && (forall n :: n in m.positiveRoles <==> exists t :: t in terms && ListsTargetRole(t) && t.canonical == n)
            && (forall n :: n in m.negativeRoles <==> exists t :: t in terms && ListsAntiRole(t) && t.canonical == n)
            && (forall n :: n in m.positiveSkills <==> exists t :: t in terms && ListsSkill(t) && t.canonical == n)
            && (forall n :: n in m.negativeSkills <==> exists t :: t in terms && ListsAntiSkill(t) && t.canonical == n)
            && (forall n :: n in m.seniority <==> exists t :: t in terms && ListsSeniority(t) && t.canonical == n)
            && (forall n :: n in m.antiPatterns <==> exists t :: t in terms && ListsAntiPattern(t) && t.canonical == n)
  {
    NamesFrom(ListsTargetRole, terms);
    NamesFrom(ListsAntiRole, terms);
    NamesFrom(ListsSkill, terms);
    NamesFrom(ListsAntiSkill, terms);
    NamesFrom(ListsSeniority, terms);
    NamesFrom(ListsAntiPattern, terms);
  }

  lemma OneTermPerKey(terms: seq<Term>, s: Term, t: Term)
    requires KeySorted(TermKey, KeyLe, terms) && s in terms && t in terms && TermKey(s) == TermKey(t)
    ensures s == t
  {
    var i :| 0 <= i < |terms| && terms[i] == s;
    var j :| 0 <= j < |terms| && terms[j] == t;
  }

  /** For clean terms no role and no skill is on both sides. */
  lemma SidesAreDisjoint(u: CharTable, terms: seq<Term>, n: string)
    requires CleanTerms(u, terms)
    ensures var m := MaterializedTerms(terms);
            !(n in m.positiveRoles && n in m.negativeRoles) && !(n in m.positiveSkills && n in m.negativeSkills)
  {
    var m := MaterializedTerms(terms);
    ListedExactly(terms);
    if n in m.positiveRoles && n in m.negativeRoles {
      var s :| s in terms && ListsTargetRole(s) && s.canonical == n;
      var t :| t in terms && ListsAntiRole(t) && t.canonical == n;
      OneTermPerKey(terms, s, t);
    }
    if n in m.positiveSkills && n in m.negativeSkills {
      var s :| s in terms && ListsSkill(s) && s.canonical == n;
      var t :| t in terms && ListsAntiSkill(t) && t.canonical == n;
      OneTermPerKey(terms, s, t);
    }
  }

  /** Both keyword lists are well formed, their names are those of the terms that list them, each with the
      weight of the last such term; every target role is a positive keyword. */
  lemma KeywordsAreExact(terms: seq<Term>)
    ensures var m := MaterializedTerms(terms);
            && KeywordList(m.positiveKeywords) && KeywordList(m.negativeKeywords)
            && (forall n :: NamesKeyword(m.positiveKeywords, n) <==>
                  exists t :: t in terms && ListsPositiveKeyword(t) && t.canonical == n)
            && (forall n :: NamesKeyword(m.negativeKeywords, n) <==>
                  exists t :: t in terms && ListsNegativeKeyword(t) && t.canonical == n)
            && (forall k :: k in m.positiveKeywords ==> LastWeight(ListsPositiveKeyword, terms, k.0, k.1))
            && (forall k :: k in m.negativeKeywords ==> LastWeight(ListsNegativeKeyword, terms, k.0, k.1))
            && (forall n :: n in m.positiveRoles ==> NamesKeyword(m.positiveKeywords, n))
  {
    KeywordsAreListed(ListsPositiveKeyword, terms);
    KeywordsAreListed(ListsNegativeKeyword, terms);
    NamesFrom(ListsTargetRole, terms);
    var m := MaterializedTerms(terms);
    forall n | n in m.positiveRoles
      ensures NamesKeyword(m.positiveKeywords, n)
    {
      var t :| t in terms && ListsTargetRole(t) && t.canonical == n;
      assert ListsPositiveKeyword(t);
    }
  }

  /** For clean terms the role and skill lists are in strictly ascending order. */
  lemma ListsAscend(u: CharTable, terms: seq<Term>)
    requires CleanTerms(u, terms)
    ensures var m := MaterializedTerms(terms);
            && m.positiveRoles == Names(ListsTargetRole, terms) && m.negativeRoles == Names(ListsAntiRole, terms)
            && m.positiveSkills == Names(ListsSkill, terms) && m.negativeSkills == Names(ListsAntiSkill, terms)
            && Sorted(StringLe, m.positiveRoles) && Sorted(StringLe, m.negativeRoles)
            && Sorted(StringLe, m.positiveSkills) && Sorted(StringLe, m.negativeSkills)
  {
    NamesAscend(ListsTargetRole, Role, terms);
    NamesAscend(ListsAntiRole, Role, terms);
    NamesAscend(ListsSkill, Skill, terms);
    NamesAscend(ListsAntiSkill, Skill, terms);
    FirstOnlyOfDistinct(Names(ListsTargetRole, terms));
    FirstOnlyOfDistinct(Names(ListsAntiRole, terms));
    FirstOnlyOfDistinct(Names(ListsSkill, terms));
    FirstOnlyOfDistinct(Names(ListsAntiSkill, terms));
  }

  /** The end of the pipeline: a negative skill that a positive relation of the ontology or of a candidate
      names is listed only as "insufficient ...", or when its own term is not negative. */
  lemma ListedNegativeSkills(u: CharTable, o: Ontology, chunks: seq<Chunk>, shots: seq<Shot>, n: string)
    requires Lawful(u)
    requires n in MaterializedTerms(Sanitized(u, Restored(u, o, chunks, shots)).terms).negativeSkills
    requires NamedByPositive(u, AllRelations(o, chunks), n)
    ensures IsInsufficient(n)
            || exists t :: t in Sanitized(u, Restored(u, o, chunks, shots)).terms && ListsAntiSkill(t)
                 && t.canonical == n && !t.polarity.Negative?
  {
    var terms := Sanitized(u, Restored(u, o, chunks, shots)).terms;
    ListedExactly(terms);
    var t :| t in terms && ListsAntiSkill(t) && t.canonical == n;
    SanitizedTermsAreClean(u, Restored(u, o, chunks, shots).terms);
    if t.polarity.Negative? && !IsInsufficient(n) {
      PositiveEvidenceWins(u, o, chunks, shots, t);
    }
  }
}
