/**
 The compiled ontology (job_ftch/domain/ontology_graph.py): terms, relations and labelled shots, and the
 order in which Python sorts their keys. Aliases, rationales, reject reasons, summaries and warnings are
 carried along unread by every pass and are left out.
 */
module OntologyModel {
  import opened Ordering

  datatype EntityType = Role | Skill | Keyword | AntiPattern | Seniority

  datatype SemanticRole =
    | TargetRole | AntiRole | CurrentRole | PastRole
    | TargetSkill | SupportingSkill | BackgroundSkill | AntiSkill
    | PositiveKeyword | NegativeKeyword | AntiPatternRole | SeniorityRole | ContextRole

  datatype Polarity = Positive | Negative | Neutral | Contextual

  datatype Scope =
    | TargetScope | SupportingScope | BackgroundScope | AntiScope | ContextualScope
    | CurrentScope | PastScope | DesiredScope | UnknownScope

  datatype Section =
    | Title | DesiredRoleSection | CurrentRoleSection | PastRoleSection | Responsibilities | Requirements
    | NiceToHave | Skills | Project | Summary | AntiReason | UnknownSection

  datatype Predicate =
    | Requires | Supports | Excludes | Aliases | ContrastsWith | Specializes | BroaderThan | CooccursWith

  datatype Term = Term(
    canonical: string,
    entityType: EntityType,
    semanticRole: SemanticRole,
    polarity: Polarity,
    scope: Scope,
    section: Section,
    evidence: seq<string>,
    support: nat,
    contrast: nat,
    confidence: real,
    weight: real,
    accepted: bool)

  datatype Relation = Relation(
    subject: string,
    kind: Predicate,
    obj: string,
    polarity: Polarity,
    evidence: seq<string>,
    confidence: real,
    weight: real)

  datatype Ontology = Ontology(terms: seq<Term>, relations: seq<Relation>)

  datatype Chunk = Chunk(terms: seq<Term>, relations: seq<Relation>)

  datatype ShotKind = PositiveResume | NegativeResume | PositiveJob | NegativeJob

  datatype Shot = Shot(id: string, kind: ShotKind, text: string)

  // ----- keys and their order -----------------------------------------------------------------

  datatype Key = Key(entityType: EntityType, name: string)

  datatype RelationKey = RelationKey(subject: string, kind: Predicate, obj: string)

  function TermKey(t: Term): Key { Key(t.entityType, t.canonical) }

  function KeyOf(r: Relation): RelationKey { RelationKey(r.subject, r.kind, r.obj) }

  /** The alphabetical position of the type's name: anti_pattern, keyword, role, seniority, skill. */
  function TypeRank(e: EntityType): nat {
    match e
    case AntiPattern => 0
    case Keyword => 1
    case Role => 2
    case Seniority => 3
    case Skill => 4
  }

  function PredicateRank(p: Predicate): nat {
    match p
    case Aliases => 0
    case BroaderThan => 1
    case ContrastsWith => 2
    case CooccursWith => 3
    case Excludes => 4
    case Requires => 5
    case Specializes => 6
    case Supports => 7
  }

  predicate KeyLe(a: Key, b: Key) {
    TypeRank(a.entityType) < TypeRank(b.entityType)
    || (a.entityType == b.entityType && StringLe(a.name, b.name))
  }

  predicate RelationKeyLe(a: RelationKey, b: RelationKey) {
    if a.subject != b.subject then StringLe(a.subject, b.subject)
    else if a.kind != b.kind then PredicateRank(a.kind) < PredicateRank(b.kind)
    else StringLe(a.obj, b.obj)
  }

  lemma KeyLeTotal()
    ensures TotalOrder(KeyLe)
  {
    StringLeTotal();
  }

  lemma RelationKeyLeTotal()
    ensures TotalOrder(RelationKeyLe)
  {
    StringLeTotal();
    forall a: RelationKey, b: RelationKey, c: RelationKey | RelationKeyLe(a, b) && RelationKeyLe(b, c)
      ensures RelationKeyLe(a, c)
    {
      assert StringLe(a.subject, b.subject) && StringLe(b.subject, c.subject);
      assert a.subject == c.subject ==> a.subject == b.subject;
    }
  }
}
