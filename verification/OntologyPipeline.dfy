/**
 The deterministic end of the ontology compiler (`compile_ontology_from_shots` of
 job_ftch/application/ontology_compiler.py): sanitise, restore from the candidates, sanitise again,
 materialise; and the graph that is stored.
 */
module OntologyPipeline {
  import opened TermNormalization
  import opened OntologyModel
  import opened OntologySanitize
  import opened OntologyRemap
  import opened OntologyRestore
  import opened OntologyEvidence
  import opened OntologyMaterialize
  import opened OntologyGraph

  /** What everything after the compiler may rely on. */
  ghost predicate Consistent(u: CharTable, o: Ontology, chunks: seq<Chunk>, m: Materialized) {
    && Clean(u, o)
    && (forall x :: x in o.terms && NegativeSkill(u, x) ==> !NamedByPositive(u, AllRelations(o, chunks), x.canonical))
    && (forall n :: n in m.positiveRoles ==> n !in m.negativeRoles && NamesKeyword(m.positiveKeywords, n))
    && (forall n :: n in m.positiveSkills ==> n !in m.negativeSkills)
    && KeywordList(m.positiveKeywords) && KeywordList(m.negativeKeywords)
  }

  /** The relations of a sanitised ontology come through restoring and sanitising unchanged. */
  lemma RelationsStay(u: CharTable, o: Ontology, chunks: seq<Chunk>, shots: seq<Shot>)
    requires Clean(u, o)
    ensures Sanitized(u, Restored(u, o, chunks, shots)).relations == o.relations
  {
    SanitizeFixesClean(u, Ontology([], o.relations));
  }

  lemma EndIsConsistent(u: CharTable, o: Ontology, chunks: seq<Chunk>, shots: seq<Shot>)
    requires Lawful(u) && Clean(u, o)
    ensures var end := Sanitized(u, Restored(u, o, chunks, shots));
            Consistent(u, end, chunks, MaterializedTerms(end.terms))
  {
    var end := Sanitized(u, Restored(u, o, chunks, shots));
    SanitizedIsClean(u, Restored(u, o, chunks, shots));
    RelationsStay(u, o, chunks, shots);
    forall x | x in end.terms && NegativeSkill(u, x)
      ensures !NamedByPositive(u, AllRelations(end, chunks), x.canonical)
    {
      PositiveEvidenceWins(u, o, chunks, shots, x);
    }
    forall n
      ensures var m := MaterializedTerms(end.terms);
              !(n in m.positiveRoles && n in m.negativeRoles) && !(n in m.positiveSkills && n in m.negativeSkills)
    {
      SidesAreDisjoint(u, end.terms, n);
    }
    KeywordsAreExact(end.terms);
  }

  /** From the compiled ontology and the candidates to the stored results. */
  method Compile(u: CharTable, compiled: Ontology, chunks: seq<Chunk>, shots: seq<Shot>, graphId: string)
    returns (o: Ontology, m: Materialized, g: Graph)
    requires Lawful(u)
    ensures o == Sanitized(u, Restored(u, Sanitized(u, compiled), chunks, shots)) && m == MaterializedTerms(o.terms)
    ensures Consistent(u, o, chunks, m)
    ensures g == Built(u, graphId, o) && Whole(g) && DistinctEdges(g.edges)
  {
    var first := Sanitize(u, compiled);
    SanitizedIsClean(u, compiled);
    var restored := RestoreProjection(u, first, chunks, shots);
    o := Sanitize(u, restored);
    m := Materialize(o.terms);
    g := Build(u, graphId, o);
    EndIsConsistent(u, first, chunks, shots);
    GraphIsWhole(u, graphId, o);
    CleanEdgesDistinct(u, graphId, o);
  }
}
