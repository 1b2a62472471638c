/**
 The graph of a compiled ontology (`build_ontology_graph_from_compiled` of
 job_ftch/application/ontology_graph_builder.py). A hash stands for what is hashed: ids are the tuples
 the digests are taken of.
 */
module OntologyGraph {
  import opened Wrappers
  import opened Ordering
  import opened TermNormalization
  import opened OntologyModel
  import opened Dedup
  import opened OntologySanitize

  datatype IdKind = ProfileId | TypeId(entityType: EntityType) | TermId

  datatype NodeId = NodeId(kind: IdKind, canonical: string)

  /** The predicate as it is hashed into an edge id. */
  datatype Verb = Asserts(entityType: EntityType) | Relates(kind: Predicate)

  datatype EdgeId = EdgeId(subject: NodeId, verb: Verb, obj: NodeId, polarity: Polarity)

  /** The predicate an edge carries; several compiled predicates share one. */
  datatype EdgePredicate =
    | AssertsType(entityType: EntityType) | RequiresSkill | SupportsRole | ExcludesSkill | AliasesOf

  datatype Node =
    | ProfileNode(canonical: string)
    | TermNode(canonical: string, term: Term)   // the attributes are read off the term
    | ClaimNode(canonical: string)

  datatype Edge = Edge(
    id: EdgeId, subject: NodeId, kind: EdgePredicate, obj: NodeId, polarity: Polarity,
    weight: real, confidence: real)

  datatype Evidence = Evidence(edge: EdgeId, shot: string, section: Section, confidence: real)

  /** A dictionary of nodes with its insertion order. */
  datatype Table = Table(order: seq<NodeId>, nodes: map<NodeId, Node>)

  datatype Graph = Graph(nodes: Table, edges: seq<Edge>, evidence: seq<Evidence>)

  function EdgePredicateOf(p: Predicate): EdgePredicate {
    match p
    case Requires => RequiresSkill
    case Supports => SupportsRole
    case Excludes => ExcludesSkill
    case Aliases => AliasesOf
    case ContrastsWith => ExcludesSkill
    case Specializes => SupportsRole
    case BroaderThan => SupportsRole
    case CooccursWith => SupportsRole
  }

  function Put(t: Table, id: NodeId, node: Node): Table {
    Table(if id in t.nodes then t.order else t.order + [id], t.nodes[id := node])
  }

  function PutNew(t: Table, id: NodeId, node: Node): Table { if id in t.nodes then t else Put(t, id, node) }

  // ----- what is built ----------------------------------------------------------------------------

  function NodeOf(u: CharTable, t: Term): NodeId { NodeId(TypeId(t.entityType), Normalize(u, t.canonical)) }

  function ClaimOf(u: CharTable, name: string): NodeId { NodeId(TermId, Normalize(u, name)) }

  function AssertionId(u: CharTable, profile: NodeId, t: Term): EdgeId {
    EdgeId(profile, Asserts(t.entityType), NodeOf(u, t), t.polarity)
  }

  function Assertion(u: CharTable, profile: NodeId, t: Term): Edge {
    Edge(AssertionId(u, profile, t), profile, AssertsType(t.entityType), NodeOf(u, t), t.polarity, t.weight,
         t.confidence)
  }

  function EvidenceOf(u: CharTable, profile: NodeId, t: Term, shots: seq<string>): seq<Evidence> {
    if shots == [] then []
    else EvidenceOf(u, profile, t, shots[..|shots| - 1])
         + [Evidence(AssertionId(u, profile, t), shots[|shots| - 1], t.section, t.confidence)]
  }

  function RelationEdge(u: CharTable, r: Relation): Edge {
    var subject, obj := ClaimOf(u, r.subject), ClaimOf(u, r.obj);
    Edge(EdgeId(subject, Relates(r.kind), obj, r.polarity), subject, EdgePredicateOf(r.kind), obj, r.polarity,
         r.weight, r.confidence)
  }

  function AddTerm(u: CharTable, profile: NodeId, g: Graph, t: Term): Graph {
    if Normalize(u, t.canonical) == "" then g
    else Graph(Put(g.nodes, NodeOf(u, t), TermNode(Normalize(u, t.canonical), t)),
               g.edges + [Assertion(u, profile, t)],
               g.evidence + EvidenceOf(u, profile, t, t.evidence))
  }

  function AddTerms(u: CharTable, profile: NodeId, g: Graph, terms: seq<Term>): Graph {
    if terms == [] then g
    else AddTerm(u, profile, AddTerms(u, profile, g, terms[..|terms| - 1]), terms[|terms| - 1])
  }

  function AddRelation(u: CharTable, g: Graph, r: Relation): Graph {
    var withSubject := PutNew(g.nodes, ClaimOf(u, r.subject), ClaimNode(Normalize(u, r.subject)));
    g.(nodes := PutNew(withSubject, ClaimOf(u, r.obj), ClaimNode(Normalize(u, r.obj))),
       edges := g.edges + [RelationEdge(u, r)])
  }

  function AddRelations(u: CharTable, g: Graph, relations: seq<Relation>): Graph {
    if relations == [] then g
    else AddRelation(u, AddRelations(u, g, relations[..|relations| - 1]), relations[|relations| - 1])
  }

  function ProfileOf(graphId: string): NodeId { NodeId(ProfileId, graphId) }

  function Start(graphId: string): Graph {
    Graph(Table([ProfileOf(graphId)], map[ProfileOf(graphId) := ProfileNode(graphId)]), [], [])
  }

  function Built(u: CharTable, graphId: string, o: Ontology): Graph {
    AddRelations(u, AddTerms(u, ProfileOf(graphId), Start(graphId), o.terms), o.relations)
  }

  // ----- the code ---------------------------------------------------------------------------------

  method BuildTerm(u: CharTable, profile: NodeId, g: Graph, term: Term) returns (out: Graph)
    ensures out == AddTerm(u, profile, g, term)
  {
    var canonical := Normalize(u, term.canonical);
    if canonical == "" {
      return g;
    }
    var nodeId := NodeId(TypeId(term.entityType), canonical);
    var nodes := Put(g.nodes, nodeId, TermNode(canonical, term));
    var edgeId := EdgeId(profile, Asserts(term.entityType), nodeId, term.polarity);
    var edge := Edge(edgeId, profile, AssertsType(term.entityType), nodeId, term.polarity, term.weight,
                     term.confidence);
    var evidence := g.evidence;
    var i := 0;
    while i < |term.evidence|
      invariant 0 <= i <= |term.evidence|
      invariant evidence == g.evidence + EvidenceOf(u, profile, term, term.evidence[..i])
    {
      evidence := evidence + [Evidence(edgeId, term.evidence[i], term.section, term.confidence)];
      assert term.evidence[..i + 1][..i] == term.evidence[..i];
      i := i + 1;
    }
    assert term.evidence[..|term.evidence|] == term.evidence;
    out := Graph(nodes, g.edges + [edge], evidence);
  }

  method BuildRelation(u: CharTable, g: Graph, relation: Relation) returns (out: Graph)
    ensures out == AddRelation(u, g, relation)
  {
    var subject, obj := ClaimOf(u, relation.subject), ClaimOf(u, relation.obj);
    var nodes := g.nodes;
    if subject !in nodes.nodes {
      nodes := Put(nodes, subject, ClaimNode(Normalize(u, relation.subject)));
    }
    if obj !in nodes.nodes {
      nodes := Put(nodes, obj, ClaimNode(Normalize(u, relation.obj)));
    }
    var edgeId := EdgeId(subject, Relates(relation.kind), obj, relation.polarity);
    var edge := Edge(edgeId, subject, EdgePredicateOf(relation.kind), obj, relation.polarity,
                     relation.weight, relation.confidence);
    out := g.(nodes := nodes, edges := g.edges + [edge]);
  }

  method BuildTerms(u: CharTable, profile: NodeId, start: Graph, terms: seq<Term>) returns (g: Graph)
    ensures g == AddTerms(u, profile, start, terms)
  {
    g := start;
    var i := 0;
    while i < |terms|
      invariant 0 <= i <= |terms|
      invariant g == AddTerms(u, profile, start, terms[..i])
    {
      g := BuildTerm(u, profile, g, terms[i]);
      assert terms[..i + 1][..i] == terms[..i];
      i := i + 1;
    }
    assert terms[..|terms|] == terms;
  }

  /** `build_ontology_graph_from_compiled`. */
  method Build(u: CharTable, graphId: string, o: Ontology) returns (g: Graph)
    ensures g == Built(u, graphId, o)
  {
    var profile := NodeId(ProfileId, graphId);
    var asserted := BuildTerms(u, profile, Graph(Table([profile], map[profile := ProfileNode(graphId)]), [], []),
                               o.terms);
    g := asserted;
    var i := 0;
    while i < |o.relations|
      invariant 0 <= i <= |o.relations|
      invariant g == AddRelations(u, asserted, o.relations[..i])
    {
      g := BuildRelation(u, g, o.relations[i]);
      assert o.relations[..i + 1][..i] == o.relations[..i];
      i := i + 1;
    }
    assert o.relations[..|o.relations|] == o.relations;
  }

  // ----- integrity --------------------------------------------------------------------------------

  /** The node table lists every id once, and a node's name is the name in its id. */
  ghost predicate GoodTable(t: Table) {
    && Distinct(t.order) && (forall id :: id in t.order <==> id in t.nodes)
    && forall id :: id in t.nodes ==> t.nodes[id].canonical == id.canonical && NodeKind(id, t.nodes[id])
  }

  /** Profile, term and claim nodes have ids of their own kind. */
  predicate NodeKind(id: NodeId, node: Node) {
    match node
    case ProfileNode(_) => id.kind.ProfileId?
    case TermNode(_, term) => id.kind == TypeId(term.entityType)
    case ClaimNode(_) => id.kind.TermId?
  }

  /** Edges join nodes of the graph, and evidence is for edges of the graph. */
  ghost predicate Whole(g: Graph) {
    && GoodTable(g.nodes)
    && (forall e :: e in g.edges ==> e.subject in g.nodes.nodes && e.obj in g.nodes.nodes
                                     && e.id.subject == e.subject && e.id.obj == e.obj && e.id.polarity == e.polarity)
    && (forall v :: v in g.evidence ==> exists e :: e in g.edges && e.id == v.edge)
  }

  lemma PutIsGood(t: Table, id: NodeId, node: Node)
    requires GoodTable(t) && node.canonical == id.canonical && NodeKind(id, node)
    ensures GoodTable(Put(t, id, node)) && GoodTable(PutNew(t, id, node))
  {
  }

  lemma {:induction false} EvidenceOfIsFor(u: CharTable, profile: NodeId, t: Term, shots: seq<string>)
    ensures var vs := EvidenceOf(u, profile, t, shots);
            |vs| == |shots| && forall i :: 0 <= i < |vs| ==>
              vs[i] == Evidence(AssertionId(u, profile, t), shots[i], t.section, t.confidence)
  {
    if shots != [] {
      EvidenceOfIsFor(u, profile, t, shots[..|shots| - 1]);
    }
  }

  lemma AddTermKeepsWhole(u: CharTable, profile: NodeId, g: Graph, t: Term)
    requires Whole(g) && profile in g.nodes.nodes
    ensures Whole(AddTerm(u, profile, g, t)) && profile in AddTerm(u, profile, g, t).nodes.nodes
  {
    var g' := AddTerm(u, profile, g, t);
    if Normalize(u, t.canonical) != "" {
      PutIsGood(g.nodes, NodeOf(u, t), TermNode(Normalize(u, t.canonical), t));
      var edge := Assertion(u, profile, t);
      assert edge in g'.edges;
      EvidenceOfIsFor(u, profile, t, t.evidence);
      forall v | v in g'.evidence
        ensures exists e :: e in g'.edges && e.id == v.edge
      {
        if v in g.evidence {
          var e :| e in g.edges && e.id == v.edge;
          assert e in g'.edges;
        }
      }
    }
  }

  lemma {:induction false} AddTermsKeepsWhole(u: CharTable, profile: NodeId, g: Graph, terms: seq<Term>)
    requires Whole(g) && profile in g.nodes.nodes
    ensures Whole(AddTerms(u, profile, g, terms)) && profile in AddTerms(u, profile, g, terms).nodes.nodes
  {
    if terms != [] {
      AddTermsKeepsWhole(u, profile, g, terms[..|terms| - 1]);
      AddTermKeepsWhole(u, profile, AddTerms(u, profile, g, terms[..|terms| - 1]), terms[|terms| - 1]);
    }
  }

  lemma AddRelationKeepsWhole(u: CharTable, g: Graph, r: Relation)
    requires Whole(g)
    ensures Whole(AddRelation(u, g, r))
  {
    var g' := AddRelation(u, g, r);
    var withSubject := PutNew(g.nodes, ClaimOf(u, r.subject), ClaimNode(Normalize(u, r.subject)));
    PutIsGood(g.nodes, ClaimOf(u, r.subject), ClaimNode(Normalize(u, r.subject)));
    PutIsGood(withSubject, ClaimOf(u, r.obj), ClaimNode(Normalize(u, r.obj)));
    forall v | v in g'.evidence
      ensures exists e :: e in g'.edges && e.id == v.edge
    {
      var e :| e in g.edges && e.id == v.edge;
      assert e in g'.edges;
    }
  }

  lemma {:induction false} AddRelationsKeepsWhole(u: CharTable, g: Graph, relations: seq<Relation>)
    requires Whole(g)
    ensures Whole(AddRelations(u, g, relations))
  {
    if relations != [] {
      AddRelationsKeepsWhole(u, g, relations[..|relations| - 1]);
      AddRelationKeepsWhole(u, AddRelations(u, g, relations[..|relations| - 1]), relations[|relations| - 1]);
    }
  }

  /** Of any ontology, sanitised or not, the graph is whole. */
  lemma GraphIsWhole(u: CharTable, graphId: string, o: Ontology)
    ensures Whole(Built(u, graphId, o))
  {
    AddTermsKeepsWhole(u, ProfileOf(graphId), Start(graphId), o.terms);
    AddRelationsKeepsWhole(u, AddTerms(u, ProfileOf(graphId), Start(graphId), o.terms), o.relations);
  }

  // ----- the edges, one by one --------------------------------------------------------------------

  function NamedTerms(u: CharTable, terms: seq<Term>): seq<Term> {
    if terms == [] then []
    else
      var before, t := NamedTerms(u, terms[..|terms| - 1]), terms[|terms| - 1];
      if Normalize(u, t.canonical) == "" then before else before + [t]
  }

  /** All evidence of the terms, edge by edge. */
  function AllEvidence(u: CharTable, profile: NodeId, terms: seq<Term>): seq<Evidence> {
    if terms == [] then []
    else AllEvidence(u, profile, terms[..|terms| - 1])
         + EvidenceOf(u, profile, terms[|terms| - 1], terms[|terms| - 1].evidence)
  }

  function Assertions(u: CharTable, profile: NodeId, terms: seq<Term>): (es: seq<Edge>)
    ensures |es| == |terms| && forall i :: 0 <= i < |es| ==> es[i] == Assertion(u, profile, terms[i])
  {
    if terms == [] then []
    else Assertions(u, profile, terms[..|terms| - 1]) + [Assertion(u, profile, terms[|terms| - 1])]
  }

  function RelationEdges(u: CharTable, relations: seq<Relation>): (es: seq<Edge>)
    ensures |es| == |relations| && forall i :: 0 <= i < |es| ==> es[i] == RelationEdge(u, relations[i])
  {
    if relations == [] then []
    else RelationEdges(u, relations[..|relations| - 1]) + [RelationEdge(u, relations[|relations| - 1])]
  }

  lemma Associate<T>(a: seq<T>, b: seq<T>, c: seq<T>)
    ensures (a + b) + c == a + (b + c)
  {
  }

  lemma {:induction false} AddTermsEdges(u: CharTable, profile: NodeId, g: Graph, terms: seq<Term>)
    ensures AddTerms(u, profile, g, terms).edges == g.edges + Assertions(u, profile, NamedTerms(u, terms))
    ensures AddTerms(u, profile, g, terms).evidence == g.evidence + AllEvidence(u, profile, NamedTerms(u, terms))
  {
    if terms != [] {
      AddTermsEdges(u, profile, g, terms[..|terms| - 1]);
      var before, t := NamedTerms(u, terms[..|terms| - 1]), terms[|terms| - 1];
      if Normalize(u, t.canonical) != "" {
        assert (before + [t])[..|before|] == before;
        Associate(g.edges, Assertions(u, profile, before), [Assertion(u, profile, t)]);
        Associate(g.evidence, AllEvidence(u, profile, before), EvidenceOf(u, profile, t, t.evidence));
      }
    }
  }

  lemma {:induction false} AddRelationsEdges(u: CharTable, g: Graph, relations: seq<Relation>)
    ensures AddRelations(u, g, relations).edges == g.edges + RelationEdges(u, relations)
    ensures AddRelations(u, g, relations).evidence == g.evidence
  {
    if relations != [] {
      var before, r := relations[..|relations| - 1], relations[|relations| - 1];
      AddRelationsEdges(u, g, before);
      Associate(g.edges, RelationEdges(u, before), [RelationEdge(u, r)]);
    }
  }

  /** One assertion per named term, then one edge per relation, in input order. */
  lemma EdgesAreExact(u: CharTable, graphId: string, o: Ontology)
    ensures Built(u, graphId, o).edges
         == Assertions(u, ProfileOf(graphId), NamedTerms(u, o.terms)) + RelationEdges(u, o.relations)
    ensures Built(u, graphId, o).evidence == AllEvidence(u, ProfileOf(graphId), NamedTerms(u, o.terms))
  {
    AddTermsEdges(u, ProfileOf(graphId), Start(graphId), o.terms);
    AddRelationsEdges(u, AddTerms(u, ProfileOf(graphId), Start(graphId), o.terms), o.relations);
    NothingBefore(Assertions(u, ProfileOf(graphId), NamedTerms(u, o.terms)));
    NothingBefore(AllEvidence(u, ProfileOf(graphId), NamedTerms(u, o.terms)));
  }

  lemma NothingBefore<T>(xs: seq<T>)
    ensures [] + xs == xs
  {
  }

  // ----- distinct edge ids ------------------------------------------------------------------------

  ghost predicate DistinctEdges(edges: seq<Edge>) {
    forall i, j :: 0 <= i < j < |edges| ==> edges[i].id != edges[j].id
  }

  predicate SameAssertion(u: CharTable, s: Term, t: Term) {
    s.entityType == t.entityType && Normalize(u, s.canonical) == Normalize(u, t.canonical) && s.polarity == t.polarity
  }

  predicate SameRelation(u: CharTable, r: Relation, q: Relation) {
    && Normalize(u, r.subject) == Normalize(u, q.subject) && r.kind == q.kind
    && Normalize(u, r.obj) == Normalize(u, q.obj) && r.polarity == q.polarity
  }

  ghost predicate DistinctAssertions(u: CharTable, terms: seq<Term>) {
    forall i, j :: 0 <= i < j < |terms| ==> !SameAssertion(u, terms[i], terms[j])
  }

  ghost predicate DistinctRelations(u: CharTable, relations: seq<Relation>) {
    forall i, j :: 0 <= i < j < |relations| ==> !SameRelation(u, relations[i], relations[j])
  }

  lemma DistinctParts(a: seq<Edge>, b: seq<Edge>)
    requires forall e, f :: e in a && f in b ==> e.id != f.id
    ensures DistinctEdges(a + b) <==> DistinctEdges(a) && DistinctEdges(b)
  {
    var edges := a + b;
    if DistinctEdges(edges) {
      forall i, j | 0 <= i < j < |b|
        ensures b[i].id != b[j].id
      {
        assert edges[|a| + i] == b[i] && edges[|a| + j] == b[j];
      }
      forall i, j | 0 <= i < j < |a|
        ensures a[i].id != a[j].id
      {
        assert edges[i] == a[i] && edges[j] == a[j];
      }
    }
  }

  lemma AssertionIdsDistinct(u: CharTable, profile: NodeId, terms: seq<Term>)
    ensures DistinctEdges(Assertions(u, profile, terms)) <==> DistinctAssertions(u, terms)
  {
    var edges := Assertions(u, profile, terms);
    forall i, j | 0 <= i < j < |terms|
      ensures edges[i].id == edges[j].id <==> SameAssertion(u, terms[i], terms[j])
    {
    }
  }

  lemma RelationIdsDistinct(u: CharTable, relations: seq<Relation>)
    ensures DistinctEdges(RelationEdges(u, relations)) <==> DistinctRelations(u, relations)
  {
    var edges := RelationEdges(u, relations);
    forall i, j | 0 <= i < j < |relations|
      ensures edges[i].id == edges[j].id <==> SameRelation(u, relations[i], relations[j])
    {
    }
  }

  /** Edge ids are pairwise distinct exactly when no two named terms share type, name and polarity and no two
      relations share subject, predicate, object and polarity: an assertion never meets a relation. */
  lemma EdgeIdsDistinct(u: CharTable, graphId: string, o: Ontology)
    ensures DistinctEdges(Built(u, graphId, o).edges)
            <==> DistinctAssertions(u, NamedTerms(u, o.terms)) && DistinctRelations(u, o.relations)
  {
    EdgesAreExact(u, graphId, o);
    var named, profile := NamedTerms(u, o.terms), ProfileOf(graphId);
    assert forall e :: e in Assertions(u, profile, named) ==> e.id.verb.Asserts?;
    assert forall e :: e in RelationEdges(u, o.relations) ==> e.id.verb.Relates?;
    DistinctParts(Assertions(u, profile, named), RelationEdges(u, o.relations));
    AssertionIdsDistinct(u, profile, named);
    RelationIdsDistinct(u, o.relations);
  }

  lemma {:induction false} NamedTermsOfClean(u: CharTable, terms: seq<Term>)
    requires forall t :: t in terms ==> Normalize(u, t.canonical) != ""
    ensures NamedTerms(u, terms) == terms
  {
    if terms != [] {
      NamedTermsOfClean(u, terms[..|terms| - 1]);
      assert terms == terms[..|terms| - 1] + [terms[|terms| - 1]];
    }
  }

  lemma CleanTermsDistinct(u: CharTable, terms: seq<Term>)
    requires CleanTerms(u, terms)
    ensures DistinctAssertions(u, terms)
  {
    forall i, j | 0 <= i < j < |terms|
      ensures !SameAssertion(u, terms[i], terms[j])
    {
      assert terms[i] in terms && terms[j] in terms;
    }
  }

  lemma CleanRelationsDistinct(u: CharTable, relations: seq<Relation>)
    requires CleanRelations(u, relations)
    ensures DistinctRelations(u, relations)
  {
    forall i, j | 0 <= i < j < |relations|
      ensures !SameRelation(u, relations[i], relations[j])
    {
      assert relations[i] in relations && relations[j] in relations;
    }
  }

  /** Of a sanitised ontology all edge ids are distinct, one edge for each term and each relation. */
  lemma CleanEdgesDistinct(u: CharTable, graphId: string, o: Ontology)
    requires Clean(u, o)
    ensures DistinctEdges(Built(u, graphId, o).edges)
    ensures |Built(u, graphId, o).edges| == |o.terms| + |o.relations|
  {
    NamedTermsOfClean(u, o.terms);
    EdgesAreExact(u, graphId, o);
    EdgeIdsDistinct(u, graphId, o);
    CleanTermsDistinct(u, o.terms);
    CleanRelationsDistinct(u, o.relations);
  }

  // ----- what the nodes and the evidence say -------------------------------------------------------

  /** Relations never touch the nodes of the terms: both ends of every relation edge are claims, and an
      assertion goes from the profile to the node of a term. */
  lemma RelationsJoinClaims(u: CharTable, graphId: string, o: Ontology, e: Edge)
    requires e in Built(u, graphId, o).edges
    ensures var nodes := Built(u, graphId, o).nodes.nodes;
            && e.subject in nodes && e.obj in nodes
            && (e.id.verb.Relates? ==> nodes[e.subject].ClaimNode? && nodes[e.obj].ClaimNode?)
            && (e.id.verb.Asserts? ==> nodes[e.subject].ProfileNode? && nodes[e.obj].TermNode?)
  {
    GraphIsWhole(u, graphId, o);
    EdgeEnds(u, graphId, o, e);
    var nodes := Built(u, graphId, o).nodes.nodes;
    assert NodeKind(e.subject, nodes[e.subject]) && NodeKind(e.obj, nodes[e.obj]);
  }

  lemma EdgeEnds(u: CharTable, graphId: string, o: Ontology, e: Edge)
    requires e in Built(u, graphId, o).edges
    ensures e.id.verb.Relates? ==> e.subject.kind.TermId? && e.obj.kind.TermId?
    ensures e.id.verb.Asserts? ==> e.subject.kind.ProfileId? && e.obj.kind.TypeId?
  {
    EdgesAreExact(u, graphId, o);
    if e in Assertions(u, ProfileOf(graphId), NamedTerms(u, o.terms)) {
      assert e.id.verb.Asserts?;
    } else {
      assert e in RelationEdges(u, o.relations);
    }
  }

  /** The node of a term carries just that term. */
  predicate HasNode(u: CharTable, g: Graph, t: Term) {
    NodeOf(u, t) in g.nodes.nodes && g.nodes.nodes[NodeOf(u, t)] == TermNode(t.canonical, t)
  }

  lemma AddTermNodes(u: CharTable, profile: NodeId, g: Graph, t: Term, s: Term)
    requires CleanTerm(u, t)
    ensures HasNode(u, AddTerm(u, profile, g, t), t)
    ensures NodeOf(u, s) != NodeOf(u, t) && HasNode(u, g, s) ==> HasNode(u, AddTerm(u, profile, g, t), s)
  {
  }

  lemma {:induction false} AddTermsNodes(u: CharTable, profile: NodeId, g: Graph, terms: seq<Term>, t: Term)
    requires CleanTerms(u, terms) && t in terms
    ensures HasNode(u, AddTerms(u, profile, g, terms), t)
  {
    var k := |terms| - 1;
    var before, last := terms[..k], terms[k];
    assert terms == before + [last];
    assert CleanTerm(u, last);
    AddTermNodes(u, profile, AddTerms(u, profile, g, before), last, t);
    if t in before {
      AddTermsNodes(u, profile, g, before, t);
      var i :| 0 <= i < k && before[i] == t;
      assert TermKey(terms[i]) != TermKey(terms[k]) && CleanTerm(u, t);
    }
  }

  lemma {:induction false} AddRelationsKeepsNodes(u: CharTable, g: Graph, relations: seq<Relation>, id: NodeId)
    requires id in g.nodes.nodes
    ensures id in AddRelations(u, g, relations).nodes.nodes
    ensures AddRelations(u, g, relations).nodes.nodes[id] == g.nodes.nodes[id]
  {
    if relations != [] {
      AddRelationsKeepsNodes(u, g, relations[..|relations| - 1], id);
    }
  }

  /** Every term of a sanitised ontology has a node of its own; none overwrites another. */
  lemma EveryTermHasItsNode(u: CharTable, graphId: string, o: Ontology, t: Term)
    requires Clean(u, o) && t in o.terms
    ensures HasNode(u, Built(u, graphId, o), t)
  {
    AddTermsNodes(u, ProfileOf(graphId), Start(graphId), o.terms, t);
    AddRelationsKeepsNodes(u, AddTerms(u, ProfileOf(graphId), Start(graphId), o.terms), o.relations, NodeOf(u, t));
  }

  /** Evidence ids are digests of edge id and shot. */
  ghost predicate DistinctEvidence(vs: seq<Evidence>) {
    forall i, j :: 0 <= i < j < |vs| ==> vs[i].edge != vs[j].edge || vs[i].shot != vs[j].shot
  }

  lemma {:induction false} EvidenceFrom(u: CharTable, profile: NodeId, terms: seq<Term>)
    ensures forall v :: v in AllEvidence(u, profile, terms) <==>
              exists t, shot :: t in terms && shot in t.evidence
                && v == Evidence(AssertionId(u, profile, t), shot, t.section, t.confidence)
  {
    if terms != [] {
      var before, last := terms[..|terms| - 1], terms[|terms| - 1];
      assert terms == before + [last];
      EvidenceFrom(u, profile, before);
      EvidenceOfIsFor(u, profile, last, last.evidence);
      var vs, id := EvidenceOf(u, profile, last, last.evidence), AssertionId(u, profile, last);
      forall v
        ensures v in vs <==>
                  exists shot :: shot in last.evidence && v == Evidence(id, shot, last.section, last.confidence)
      {
        if shot :| shot in last.evidence && v == Evidence(id, shot, last.section, last.confidence) {
          var i :| 0 <= i < |last.evidence| && last.evidence[i] == shot;
          assert vs[i] == v;
        }
      }
    }
  }

  /** The evidence of the graph is that of the named terms, no more and no less. */
  lemma EvidenceIsExact(u: CharTable, graphId: string, o: Ontology, v: Evidence)
    ensures v in Built(u, graphId, o).evidence <==>
              exists t, shot :: t in NamedTerms(u, o.terms) && shot in t.evidence
                && v == Evidence(AssertionId(u, ProfileOf(graphId), t), shot, t.section, t.confidence)
  {
    EdgesAreExact(u, graphId, o);
    EvidenceFrom(u, ProfileOf(graphId), NamedTerms(u, o.terms));
  }

  lemma DistinctEvidenceParts(a: seq<Evidence>, b: seq<Evidence>)
    requires forall v, w :: v in a && w in b ==> v.edge != w.edge
    ensures DistinctEvidence(a + b) <==> DistinctEvidence(a) && DistinctEvidence(b)
  {
    var vs := a + b;
    if DistinctEvidence(vs) {
      forall i, j | 0 <= i < j < |b|
        ensures b[i].edge != b[j].edge || b[i].shot != b[j].shot
      {
        assert vs[|a| + i] == b[i] && vs[|a| + j] == b[j];
      }
      forall i, j | 0 <= i < j < |a|
        ensures a[i].edge != a[j].edge || a[i].shot != a[j].shot
      {
        assert vs[i] == a[i] && vs[j] == a[j];
      }
    }
  }

  lemma EvidenceOfIsDistinct(u: CharTable, profile: NodeId, t: Term)
    ensures DistinctEvidence(EvidenceOf(u, profile, t, t.evidence)) <==> Distinct(t.evidence)
  {
    EvidenceOfIsFor(u, profile, t, t.evidence);
  }

  /** Evidence for different assertions has different edges. */
  lemma EvidenceEdgesDiffer(u: CharTable, profile: NodeId, terms: seq<Term>, t: Term)
    requires forall s :: s in terms ==> !SameAssertion(u, s, t)
    ensures forall v, w ::
              v in AllEvidence(u, profile, terms) && w in EvidenceOf(u, profile, t, t.evidence) ==> v.edge != w.edge
  {
    EvidenceFrom(u, profile, terms);
    EvidenceOfIsFor(u, profile, t, t.evidence);
    forall v, w | v in AllEvidence(u, profile, terms) && w in EvidenceOf(u, profile, t, t.evidence)
      ensures v.edge != w.edge
    {
      var s :| s in terms && v.edge == AssertionId(u, profile, s);
      assert !SameAssertion(u, s, t) && w.edge == AssertionId(u, profile, t);
    }
  }

  lemma {:induction false} AllEvidenceDistinct(u: CharTable, profile: NodeId, terms: seq<Term>)
    requires DistinctAssertions(u, terms)
    ensures DistinctEvidence(AllEvidence(u, profile, terms)) <==> forall t :: t in terms ==> Distinct(t.evidence)
  {
    if terms != [] {
      var k := |terms| - 1;
      var before, last := terms[..k], terms[k];
      assert terms == before + [last];
      assert forall t :: t in terms <==> t in before || t == last;
      AllEvidenceDistinct(u, profile, before);
      forall s | s in before
        ensures !SameAssertion(u, s, last)
      {
        var i :| 0 <= i < k && before[i] == s;
        assert !SameAssertion(u, terms[i], terms[k]);
      }
      EvidenceEdgesDiffer(u, profile, before, last);
      EvidenceOfIsDistinct(u, profile, last);
      DistinctEvidenceParts(AllEvidence(u, profile, before), EvidenceOf(u, profile, last, last.evidence));
    }
  }

  /** Sanitising does not make evidence ids distinct: that takes terms that list no shot twice. */
  lemma EvidenceIdsDistinct(u: CharTable, graphId: string, o: Ontology)
    requires Clean(u, o)
    ensures DistinctEvidence(Built(u, graphId, o).evidence) <==> forall t :: t in o.terms ==> Distinct(t.evidence)
  {
    NamedTermsOfClean(u, o.terms);
    EdgesAreExact(u, graphId, o);
    CleanTermsDistinct(u, o.terms);
    AllEvidenceDistinct(u, ProfileOf(graphId), o.terms);
  }

  /** A sanitised ontology whose one term lists a shot twice has that evidence twice. */
  lemma RepeatedShot(graphId: string) returns (o: Ontology)
    ensures Clean(ASCII, o) && !DistinctEvidence(Built(ASCII, graphId, o).evidence)
  {
    var name, shots := "go", ["s", "s"];
    PlainName(name);
    o := TermRepeatingShots(name, shots);
    assert shots[0] == shots[1] && !Distinct(shots);
    EvidenceIdsDistinct(ASCII, graphId, o);
    assert o.terms[0] in o.terms;
  }

  lemma TermRepeatingShots(name: string, shots: seq<string>) returns (o: Ontology)
    requires Normalize(ASCII, name) == name && |name| == 2 && shots != []
    ensures Clean(ASCII, o) && |o.terms| == 1 && o.terms[0].evidence == shots
  {
    ShortName(name);
    var x := Term(name, Skill, TargetSkill, Positive, CurrentScope, Skills, shots, 1, 0, 1.0, 1.0, true);
    LoneTermIsClean(ASCII, x);
    o := Ontology([x], []);
  }

  lemma LoneTermIsClean(u: CharTable, x: Term)
    requires CleanTerm(u, x)
    ensures Clean(u, Ontology([x], []))
  {
  }
}
