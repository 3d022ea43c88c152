/** The benchmark's fixed configuration and the vocabulary IRIs it writes. */
module Vocabulary {

  const BASE: string := "https://example.org/ldes/"
  /** The collection resource `COLL`, subject of every member marker. */
  const COLL: string := BASE + "collection"
  /** Prefix of every generated member IRI (`MEM_BASE` followed by a five-digit index). */
  const MEM_BASE: string := BASE + "member/"
  const TREE: string := "https://w3id.org/tree/"
  const EX: string := "https://example.org/vocab/"
  const W3: string := "http://www.w3.org/"
  /** rdflib's `RDF` and `XSD` namespaces. */
  const RDF_NS: string := W3 + "1999/02/22-rdf-syntax-ns#"
  const XSD_NS: string := W3 + "2001/XMLSchema#"
  const RDF_TYPE: string := RDF_NS + "type"
  const XSD_INTEGER: string := XSD_NS + "integer"

  /** Every member marker line starts with exactly this text: `<COLL> <tree:member> <`. */
  const MarkerPrefix: string := "<" + COLL + "> <" + TREE + "member> <"

  const NUM_MEMBERS: nat := 10_000
  const TRIPLES_PER_MEMBER_MIN: nat := 6
  const TRIPLES_PER_MEMBER_MAX: nat := 30
  const BATCH_SIZE: nat := 100
}
