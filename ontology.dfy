/** The abstract ontology the searcher works on, standing in for the OWL API:
    a graph is the signature of one ontology document (its class and object
    property IRIs) together with its annotation assertions, and a loaded
    ontology is a root graph plus the graphs the manager reports as its imports. */
module Ontology {

  datatype Option<T> = None | Some(value: T)

  datatype Result<T, E> = Success(value: T) | Failure(error: E)

  /** rdfs:label, rdfs:comment and the IAO "definition" annotation property. */
  const RdfsLabel: string := "http://www.w3.org/2000/01/rdf-schema#label"
  const RdfsComment: string := "http://www.w3.org/2000/01/rdf-schema#comment"
  const IaoDefinition: string := "http://purl.obolibrary.org/obo/IAO_0000115"

  /** The match type and match context of a record found through the URI channel. */
  const UriMatchType: string := "URI"
  const NoContext: string := "NA"

  datatype EntityKind = Class | ObjectProperty

  /** An annotation value: a literal with its language tag ("" when it has
      none), or anything that is not a literal (an IRI, an anonymous individual). */
  datatype Value = Literal(text: string, lang: string) | NonLiteral(id: string)

  /** An annotation assertion `subject property value` stated in one graph. */
  datatype Assertion = Assertion(subject: string, property: string, value: Value)

  datatype Graph = Graph(classes: seq<string>, objectProperties: seq<string>, assertions: seq<Assertion>)

  /** getClassesInSignature / getObjectPropertiesInSignature, in iteration order. */
  function Signature(g: Graph, kind: EntityKind): seq<string> {
    match kind
    case Class => g.classes
    case ObjectProperty => g.objectProperties
  }

  /** The values of the annotations on `subject` with `property` asserted in
      `assertions`, in order (EntitySearcher.getAnnotations for one graph). */
  function ValuesIn(assertions: seq<Assertion>, subject: string, property: string): seq<Value>
    decreases |assertions|
  {
    if assertions == [] then []
    else
      var a := assertions[|assertions| - 1];
      ValuesIn(assertions[..|assertions| - 1], subject, property)
        + (if a.subject == subject && a.property == property then [a.value] else [])
  }

  /** The values found are exactly those of the matching assertions. */
  lemma {:induction false} ValuesInExactly(assertions: seq<Assertion>, subject: string, property: string, v: Value)
    ensures v in ValuesIn(assertions, subject, property) <==> Assertion(subject, property, v) in assertions
    decreases |assertions|
  {
    if assertions != [] {
      var init := assertions[..|assertions| - 1];
      assert assertions == init + [assertions[|assertions| - 1]];
      ValuesInExactly(init, subject, property, v);
    }
  }

  function Annotations(g: Graph, subject: string, property: string): seq<Value> {
    ValuesIn(g.assertions, subject, property)
  }

  /** The ontologies a scan visits: the root first, then its imports. */
  function Closure(root: Graph, imports: seq<Graph>): seq<Graph> {
    [root] + imports
  }

  /** One search hit (ClassSearchResult or ObjectPropertySearchResult): the
      entity's IRI, its display name, the kind of match and the text matched,
      and the root ontology it was found under. */
  datatype SearchResult = SearchResult(
    kind: EntityKind,
    iri: string,
    name: string,
    matchType: string,
    matchContext: string,
    ontology: Graph)
}
