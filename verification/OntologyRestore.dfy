/**
 Restoring a projection from the candidate chunks (`_restore_projection_from_candidates` of
 job_ftch/application/ontology_compiler.py): candidate terms and relation objects that the compile pass
 lost are brought back under strict conditions.
 */
module OntologyRestore {
  import opened Wrappers
  import opened Ordering
  import opened TermNormalization
  import opened OntologyModel
  import opened Dedup
  import opened OntologySanitize
  import opened OntologyRemap

  // ----- evidence -----------------------------------------------------------------------------

  type Kinds = map<string, ShotKind>

  /** The shots by id; ids are digests of the text, so one text labelled twice keeps its last label. */
  function ShotKinds(shots: seq<Shot>): Kinds {
    if shots == [] then map[]
    else ShotKinds(shots[..|shots| - 1])[shots[|shots| - 1].id := shots[|shots| - 1].kind]
  }

  predicate PositiveKind(k: ShotKind) { k.PositiveResume? || k.PositiveJob? }

  predicate HasPositive(kinds: Kinds, ids: seq<string>) {
    exists id :: id in ids && id in kinds && PositiveKind(kinds[id])
  }

  predicate HasNegative(kinds: Kinds, ids: seq<string>) {
    exists id :: id in ids && id in kinds && !PositiveKind(kinds[id])
  }

  predicate HasKind(kinds: Kinds, ids: seq<string>, kind: ShotKind) {
    exists id :: id in ids && id in kinds && kinds[id] == kind
  }

  function Max(a: nat, b: nat): nat { if a < b then b else a }

  // ----- what the candidates say about skills ---------------------------------------------------

  /** A candidate that counts as positive evidence for a skill. */
  predicate SkillEvidenceTerm(u: CharTable, kinds: Kinds, t: Term) {
    && Normalize(u, t.canonical) != "" && t.entityType.Skill? && t.polarity.Positive?
    && (t.semanticRole.TargetSkill? || t.semanticRole.SupportingSkill?)
    && HasPositive(kinds, t.evidence) && !HasNegative(kinds, t.evidence)
  }

  /** `positive_skill_evidence_by_canonical.get(name, ())`. */
  function SkillEvidence(u: CharTable, kinds: Kinds, terms: seq<Term>, name: string): seq<string> {
    if terms == [] then []
    else
      var before, t := SkillEvidence(u, kinds, terms[..|terms| - 1], name), terms[|terms| - 1];
      if SkillEvidenceTerm(u, kinds, t) && Normalize(u, t.canonical) == name
      then FirstOnly(before + t.evidence) else before
  }

  /** `positive_skill_support_by_canonical.get(name)`. */
  function SkillSupport(u: CharTable, kinds: Kinds, terms: seq<Term>, name: string): Option<nat> {
    if terms == [] then None
    else
      var before, t := SkillSupport(u, kinds, terms[..|terms| - 1], name), terms[|terms| - 1];
      if SkillEvidenceTerm(u, kinds, t) && Normalize(u, t.canonical) == name
      then Some(Max(if before.Some? then before.value else 0, Max(t.support, |t.evidence|))) else before
  }

  /** `positive_skill_terms_by_shot.get(shot, ())`. */
  function SkillsOfShot(u: CharTable, kinds: Kinds, terms: seq<Term>, shot: string): set<string> {
    set t | t in terms && SkillEvidenceTerm(u, kinds, t) && shot in t.evidence
            && shot in kinds && PositiveKind(kinds[shot]) :: Normalize(u, t.canonical)
  }

  function SourceWidth(u: CharTable, kinds: Kinds, terms: seq<Term>, ids: seq<string>): nat {
    if ids == [] then 0
    else Max(|SkillsOfShot(u, kinds, terms, ids[0])|, SourceWidth(u, kinds, terms, ids[1..]))
  }

  // ----- which candidates come back -------------------------------------------------------------

  function Tokens(u: CharTable, s: string): set<string> { set w | w in Words(u, Normalize(u, s)) }

  /** `_is_broader_term`. */
  predicate IsBroader(u: CharTable, candidate: string, accepted: seq<string>) {
    |Tokens(u, candidate)| < 2 || exists v :: v in accepted && Tokens(u, candidate) < Tokens(u, v)
  }

  predicate RoleEvidence(kinds: Kinds, t: Term) {
    || (HasKind(kinds, t.evidence, PositiveJob)
        && (t.section.Title? || t.section.Responsibilities? || t.section.Requirements?))
    || (HasKind(kinds, t.evidence, PositiveResume) && (t.section.DesiredRoleSection? || t.section.CurrentRoleSection?))
    || |t.evidence| >= 2 || t.support >= 2
  }

  predicate PositiveRole(u: CharTable, kinds: Kinds, t: Term, name: string, roles: seq<string>) {
    && t.entityType.Role? && t.semanticRole.TargetRole? && t.polarity.Positive?
    && HasPositive(kinds, t.evidence) && !HasNegative(kinds, t.evidence) && RoleEvidence(kinds, t)
    && !t.scope.PastScope? && !t.scope.BackgroundScope? && !t.section.PastRoleSection?
    && t.confidence >= 0.74 && t.weight >= 0.65
    && !IsBroader(u, name, roles)
  }

  predicate RepeatedOrBounded(u: CharTable, kinds: Kinds, terms: seq<Term>, t: Term, name: string) {
    var evidence, support := SkillEvidence(u, kinds, terms, name), SkillSupport(u, kinds, terms, name);
    || |evidence| >= 2 || (if support.Some? then support.value else t.support) >= 2
    || (&& SourceWidth(u, kinds, terms, evidence) <= 12
        && (t.section.Skills? || t.section.Requirements? || t.section.Responsibilities?)
        && t.confidence >= 0.78 && t.weight >= 0.78)
  }

  predicate ExplicitSkill(u: CharTable, kinds: Kinds, terms: seq<Term>, t: Term, name: string) {
    && t.entityType.Skill? && t.polarity.Positive?
    && HasPositive(kinds, t.evidence) && !HasNegative(kinds, t.evidence)
    && (t.semanticRole.TargetSkill? || t.semanticRole.SupportingSkill?)
    && !t.scope.PastScope? && !t.scope.BackgroundScope? && !t.section.PastRoleSection?
    && t.confidence >= 0.78 && t.weight >= 0.65
    && RepeatedOrBounded(u, kinds, terms, t, name)
  }

  predicate NegativeRole(r: SemanticRole) {
    r.NegativeKeyword? || r.AntiPatternRole? || r.AntiRole? || r.AntiSkill?
  }

  predicate NegativeProjection(kinds: Kinds, t: Term) {
    && t.polarity.Negative? && HasNegative(kinds, t.evidence)
    && (NegativeRole(t.semanticRole)
        || (&& !t.entityType.Seniority?
            && (t.section.Title? || t.section.Requirements? || t.section.Responsibilities? || t.section.Skills?
                || t.section.AntiReason? || t.section.Summary?)
            && t.confidence >= 0.75 && t.weight >= 0.7))
    && t.confidence >= 0.5 && t.evidence != []
  }

  // ----- how they come back ---------------------------------------------------------------------

  /** What stays fixed while the candidates are walked through. */
  datatype Context = Context(
    kinds: Kinds,
    terms: seq<Term>,          // all candidate terms
    existing: set<Key>,        // names the ontology has already
    positiveKeys: set<Key>)    // names that some positive candidate or relation has

  datatype Found = Found(byKey: map<Key, Term>, roles: seq<string>)

  function NegativeSemanticRole(t: Term): SemanticRole {
    if NegativeRole(t.semanticRole) then t.semanticRole
    else if t.entityType.Role? then AntiRole
    else if t.entityType.Skill? then AntiSkill
    else NegativeKeyword
  }

  function AsSkill(u: CharTable, c: Context, t: Term, name: string): Term {
    var evidence, support := SkillEvidence(u, c.kinds, c.terms, name), SkillSupport(u, c.kinds, c.terms, name);
    t.(canonical := name, accepted := true, scope := TargetScope, evidence := evidence,
       support := Max(Max(t.support, |t.evidence|),
                      Max(|evidence|, if support.Some? then support.value else t.support)))
  }

  function AsRole(t: Term, name: string): Term {
    t.(canonical := name, accepted := true, scope := TargetScope)
  }

  /** A rejected name that also has positive evidence is only "insufficient". */
  function AsNegative(c: Context, found: map<Key, Term>, t: Term, name: string): Term {
    var plain := t.(canonical := name, accepted := true, scope := AntiScope, support := Max(t.support, |t.evidence|),
                    semanticRole := NegativeSemanticRole(t));
    if Key(t.entityType, name) in c.positiveKeys || Key(t.entityType, name) in found
    then plain.(canonical := Insufficient(name), entityType := AntiPattern, semanticRole := AntiPatternRole)
    else plain
  }

  function Projected(u: CharTable, c: Context, s: Found, t: Term, name: string): Option<Term> {
    if PositiveRole(u, c.kinds, t, name, s.roles) then Some(AsRole(t, name))
    else if ExplicitSkill(u, c.kinds, c.terms, t, name) then Some(AsSkill(u, c, t, name))
    else if NegativeProjection(c.kinds, t) then Some(AsNegative(c, s.byKey, t, name))
    else None
  }

  predicate Stronger(t: Term, p: Term) {
    var a, b := t.confidence * t.weight, p.confidence * p.weight;
    t.support > p.support
    || (t.support == p.support && (|t.evidence| > |p.evidence| || (|t.evidence| == |p.evidence| && a > b)))
  }

  function Walk(u: CharTable, c: Context, s: Found, t: Term): Found {
    var name := Normalize(u, t.canonical);
    if name == "" || name in STRUCTURAL_LABELS then s
    else
      match Projected(u, c, s, t, name)
      case None => s
      case Some(x) =>
        var key := Key(x.entityType, Normalize(u, x.canonical));
        if key in c.existing then s
        else if key !in s.byKey || Stronger(x, s.byKey[key]) then
          Found(s.byKey[key := x],
                if PositiveRole(u, c.kinds, t, name, s.roles) then s.roles + [name] else s.roles)
        else s
  }

  function WalkAll(u: CharTable, c: Context, start: Found, terms: seq<Term>): Found {
    if terms == [] then start
    else Walk(u, c, WalkAll(u, c, start, terms[..|terms| - 1]), terms[|terms| - 1])
  }

  // ----- relation objects -----------------------------------------------------------------------

  /** `relation_terms_by_key[name]`, over relations under normal names. */
  function RelationEvidence(u: CharTable, relations: seq<Relation>, name: string): seq<string> {
    if relations == [] then []
    else
      var before, r := RelationEvidence(u, relations[..|relations| - 1], name), relations[|relations| - 1];
      if Normalize(u, r.obj) == name then FirstOnly(before + r.evidence) else before
  }

  function Highest(u: CharTable, relations: seq<Relation>, name: string, value: Relation -> real): real {
    if relations == [] then 0.0
    else
      var before, r := Highest(u, relations[..|relations| - 1], name, value), relations[|relations| - 1];
      if Normalize(u, r.obj) == name && value(r) > before then value(r) else before
  }

  /** The objects in the order the relations first name them. */
  function ObjectNames(u: CharTable, relations: seq<Relation>): seq<string> {
    FirstOnly(seq(|relations|, i requires 0 <= i < |relations| => Normalize(u, relations[i].obj)))
  }

  function FirstNamed(u: CharTable, terms: seq<Term>, name: string): Option<Term> {
    if terms == [] then None
    else if Normalize(u, terms[0].canonical) == name then Some(terms[0])
    else FirstNamed(u, terms[1..], name)
  }

  /** `part in text`. */
  predicate Contains(text: string, part: string) {
    part <= text || (text != "" && Contains(text[1..], part))
  }

  function FirstFour(shots: seq<Shot>): seq<string> {
    var n := if |shots| < 4 then |shots| else 4;
    seq(n, i requires 0 <= i < n => shots[i].id)
  }

  /** `_relation_evidence_ids`: the known shots, else positive ones that mention the name, else the first
      positive ones, else whatever the relations claim. */
  function BoundEvidence(u: CharTable, ids: seq<string>, name: string, shots: seq<Shot>): seq<string> {
    var kinds := ShotKinds(shots);
    var known := Filtered(ids, id => id in kinds);
    var mentioning := FirstFour(Filtered(shots, (s: Shot) => Contains(Fold(u, s.text), name) && PositiveKind(s.kind)));
    var fallback := FirstFour(Filtered(shots, (s: Shot) => PositiveKind(s.kind)));
    if known != [] then known
    else if mentioning != [] then mentioning
    else if fallback != [] then fallback
    else ids
  }

  /** The relations, candidates and shots an object is judged by. */
  datatype Sources = Sources(relations: seq<Relation>, named: seq<Term>, shots: seq<Shot>, roleTokens: set<set<string>>)

  predicate RoleLike(t: Term) {
    t.entityType.Role? || t.semanticRole.TargetRole? || t.semanticRole.AntiRole? || t.semanticRole.PastRole?
  }

  function Recovered(u: CharTable, src: Sources, name: string): Option<Term> {
    var kinds := ShotKinds(src.shots);
    var candidate := FirstNamed(u, src.named, name);
    var ids := RelationEvidence(u, src.relations, name);
    if candidate.Some? && RoleLike(candidate.value) then None
    else if (exists id :: id in ids && id in kinds) && !HasPositive(kinds, ids) then None
    else if Tokens(u, name) in src.roleTokens then None
    else
      var bound := BoundEvidence(u, ids, name, src.shots);
      if bound == [] then None
      else
        var confidence := Highest(u, src.relations, name, (r: Relation) => r.confidence);
        var weight := Highest(u, src.relations, name, (r: Relation) => r.weight);
        Some(Term(
          name, Skill, SupportingSkill, Positive, SupportingScope,
          if candidate.Some? && !candidate.value.section.UnknownSection? then candidate.value.section else Requirements,
          bound, Max(1, |bound|), 0,
          if confidence < 0.5 then 0.5 else confidence, if weight < 0.5 then 0.5 else weight, true))
  }

  function Recover(u: CharTable, src: Sources, existing: set<Key>, byKey: map<Key, Term>, name: string)
    : map<Key, Term>
  {
    var key := Key(Skill, name);
    var term := Recovered(u, src, name);
    if term.None? || key in existing || key in byKey then byKey else byKey[key := term.value]
  }

  function RecoverAll(u: CharTable, src: Sources, existing: set<Key>, byKey: map<Key, Term>, names: seq<string>)
    : map<Key, Term>
  {
    if names == [] then byKey
    else Recover(u, src, existing, RecoverAll(u, src, existing, byKey, names[..|names| - 1]), names[|names| - 1])
  }

  // ----- the whole pass -------------------------------------------------------------------------

  function SkillRelations(u: CharTable, o: Ontology, chunks: seq<Chunk>): seq<Relation> {
    PositiveRelations(u, o.relations + ChunkRelations(chunks))
  }

  function RemappedTerms(u: CharTable, o: Ontology, chunks: seq<Chunk>): seq<Term> {
    var relations := SkillRelations(u, o, chunks);
    RemapTerms(u, Objects(u, relations) + Subjects(u, relations), o.terms)
  }

  function NamesOf(u: CharTable, terms: seq<Term>): set<Key> {
    set t | t in terms :: Key(t.entityType, Normalize(u, t.canonical))
  }

  function PositiveKeys(u: CharTable, relations: seq<Relation>, candidates: seq<Term>): set<Key> {
    (set t | t in candidates && t.polarity.Positive? && Normalize(u, t.canonical) != "" ::
       Key(t.entityType, Normalize(u, t.canonical)))
    + (set name | name in Objects(u, relations) :: Key(Skill, name))
  }

  function AcceptedRoles(terms: seq<Term>): seq<string> {
    if terms == [] then []
    else
      var before, t := AcceptedRoles(terms[..|terms| - 1]), terms[|terms| - 1];
      if t.accepted && t.entityType.Role? && t.semanticRole.TargetRole? then before + [t.canonical] else before
  }

  function ContextOf(u: CharTable, o: Ontology, chunks: seq<Chunk>, shots: seq<Shot>): Context {
    Context(ShotKinds(shots), ChunkTerms(chunks), NamesOf(u, RemappedTerms(u, o, chunks)),
            PositiveKeys(u, SkillRelations(u, o, chunks), ChunkTerms(chunks)))
  }

  function FoundIn(u: CharTable, o: Ontology, chunks: seq<Chunk>, shots: seq<Shot>): Found {
    WalkAll(u, ContextOf(u, o, chunks, shots), Found(map[], AcceptedRoles(RemappedTerms(u, o, chunks))),
            ChunkTerms(chunks))
  }

  function SourcesOf(u: CharTable, o: Ontology, chunks: seq<Chunk>, shots: seq<Shot>): Sources {
    Sources(SkillRelations(u, o, chunks), RemappedTerms(u, o, chunks) + ChunkTerms(chunks), shots,
            set r | r in FoundIn(u, o, chunks, shots).roles :: Tokens(u, r))
  }

  /** All restored terms by key. */
  function Restorable(u: CharTable, o: Ontology, chunks: seq<Chunk>, shots: seq<Shot>): map<Key, Term> {
    RecoverAll(u, SourcesOf(u, o, chunks, shots), NamesOf(u, RemappedTerms(u, o, chunks)),
               FoundIn(u, o, chunks, shots).byKey, ObjectNames(u, SkillRelations(u, o, chunks)))
  }

  ghost function RestoredTerms(u: CharTable, o: Ontology, chunks: seq<Chunk>, shots: seq<Shot>): seq<Term> {
    KeyLeTotal();
    Values(KeyLe, Restorable(u, o, chunks, shots))
  }

  ghost function Restored(u: CharTable, o: Ontology, chunks: seq<Chunk>, shots: seq<Shot>): Ontology {
    Ontology(RemappedTerms(u, o, chunks) + RestoredTerms(u, o, chunks, shots), o.relations)
  }

  // ----- the code -------------------------------------------------------------------------------

  /** One candidate term. */
  method WalkOne(u: CharTable, c: Context, term: Term, byKey: map<Key, Term>, roles: seq<string>)
    returns (byKey': map<Key, Term>, roles': seq<string>)
    ensures Found(byKey', roles') == Walk(u, c, Found(byKey, roles), term)
  {
    byKey', roles' := byKey, roles;
    var canonical := Normalize(u, term.canonical);
    if canonical == "" || canonical in STRUCTURAL_LABELS {
      return;
    }
    var isRole := PositiveRole(u, c.kinds, term, canonical, roles);
    var isSkill := ExplicitSkill(u, c.kinds, c.terms, term, canonical);
    var isNegative := NegativeProjection(c.kinds, term);
    if !isRole && !isSkill && !isNegative {
      return;
    }
    var normalized := if isRole then AsRole(term, canonical)
                      else if isSkill then AsSkill(u, c, term, canonical)
                      else AsNegative(c, byKey, term, canonical);
    var key := Key(normalized.entityType, Normalize(u, normalized.canonical));
    if key in c.existing {
      return;
    }
    if key !in byKey || Stronger(normalized, byKey[key]) {
      byKey' := byKey[key := normalized];
      if isRole {
        roles' := roles + [canonical];
      }
    }
  }

  /** The loop over the candidate terms. */
  method WalkCandidates(u: CharTable, c: Context, accepted: seq<string>)
    returns (byKey: map<Key, Term>, roles: seq<string>)
    ensures Found(byKey, roles) == WalkAll(u, c, Found(map[], accepted), c.terms)
  {
    byKey, roles := map[], accepted;
    var i := 0;
    while i < |c.terms|
      invariant 0 <= i <= |c.terms|
      invariant Found(byKey, roles) == WalkAll(u, c, Found(map[], accepted), c.terms[..i])
    {
      byKey, roles := WalkOne(u, c, c.terms[i], byKey, roles);
      assert c.terms[..i + 1][..i] == c.terms[..i];
      i := i + 1;
    }
    assert c.terms[..|c.terms|] == c.terms;
  }

  /** One object of a positive relation. */
  method RecoverOne(u: CharTable, src: Sources, existing: set<Key>, byKey: map<Key, Term>, canonical: string)
    returns (byKey': map<Key, Term>)
    ensures byKey' == Recover(u, src, existing, byKey, canonical)
  {
    var recovered := Recovered(u, src, canonical);
    var key := Key(Skill, canonical);
    if recovered.None? || key in existing || key in byKey {
      return byKey;
    }
    byKey' := byKey[key := recovered.value];
  }

  lemma RecoverAllStep(u: CharTable, src: Sources, existing: set<Key>, found: map<Key, Term>, names: seq<string>,
                       i: nat)
    requires i < |names|
    ensures RecoverAll(u, src, existing, found, names[..i + 1])
         == Recover(u, src, existing, RecoverAll(u, src, existing, found, names[..i]), names[i])
  {
    assert names[..i + 1][..i] == names[..i];
  }

  /** The loop over the objects of the positive relations. */
  method RecoverObjects(u: CharTable, src: Sources, existing: set<Key>, found: map<Key, Term>)
    returns (byKey: map<Key, Term>)
    ensures byKey == RecoverAll(u, src, existing, found, ObjectNames(u, src.relations))
  {
    var names := ObjectNames(u, src.relations);
    byKey := found;
    var i := 0;
    while i < |names|
      invariant 0 <= i <= |names|
      invariant byKey == RecoverAll(u, src, existing, found, names[..i])
    {
      byKey := RecoverOne(u, src, existing, byKey, names[i]);
      RecoverAllStep(u, src, existing, found, names, i);
      i := i + 1;
    }
    assert names[..|names|] == names;
  }

  /** `_restore_projection_from_candidates`. The tables about skills are read as functions of the
      candidates; the loops that fill `by_key` are the code's. */
  method RestoreProjection(u: CharTable, o: Ontology, chunks: seq<Chunk>, shots: seq<Shot>) returns (out: Ontology)
    ensures out == Restored(u, o, chunks, shots)
  {
    var relations := IterPositiveRelations(u, o.relations + ChunkRelations(chunks));
    var terms := RemapNegativeSkills(u, Objects(u, relations) + Subjects(u, relations), o.terms);
    var candidates := ChunkTerms(chunks);
    var existing := NamesOf(u, terms);
    var c := Context(ShotKinds(shots), candidates, existing, PositiveKeys(u, relations, candidates));
    var byKey, roles := WalkCandidates(u, c, AcceptedRoles(terms));
    var src := Sources(relations, terms + candidates, shots, set r | r in roles :: Tokens(u, r));
    byKey := RecoverObjects(u, src, existing, byKey);
    KeyLeTotal();
    var restored := ReadOut(KeyLe, byKey);
    out := Ontology(terms + restored, o.relations);
  }
}
