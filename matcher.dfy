/** The channel matchers: searchClasses / searchObjectProperties, each with a
    textual overload (an annotation property) and a URI overload. The class
    and object-property versions differ only in the signature they enumerate,
    so each overload is one method parameterised by the entity kind. */
module Matcher {
  import opened Text
  import opened Ontology
  import opened Labels

  /** The record a textual match emits: the original literal as context, the property as match type. */
  function TextRecord(kind: EntityKind, iri: string, g: Graph, property: string, text: string, root: Graph): SearchResult {
    SearchResult(kind, iri, LabelOf(g, iri), property, text, root)
  }

  /** The record a URI match emits. */
  function UriRecord(kind: EntityKind, iri: string, g: Graph, root: Graph): SearchResult {
    SearchResult(kind, iri, LabelOf(g, iri), UriMatchType, NoContext, root)
  }

  /** A value matches when it is a literal whose lower-cased text contains the (lower-cased) query. */
  predicate LiteralMatches(v: Value, query: string) {
    v.Literal? && Contains(Lower(v.text), query)
  }

  // ---- Specification of the textual channel, one level per loop of the source ----

  /** Records produced by the annotation values `values` of entity `iri` in graph `g`. */
  function ValueMatches(kind: EntityKind, g: Graph, iri: string, values: seq<Value>, query: string, property: string, root: Graph): seq<SearchResult>
    decreases |values|
  {
    if values == [] then []
    else
      var v := values[|values| - 1];
      ValueMatches(kind, g, iri, values[..|values| - 1], query, property, root)
        + (if LiteralMatches(v, query) then [TextRecord(kind, iri, g, property, v.text, root)] else [])
  }

  /** Records produced by the entities `iris` of graph `g`. */
  function EntityMatches(kind: EntityKind, g: Graph, iris: seq<string>, query: string, property: string, root: Graph): seq<SearchResult>
    decreases |iris|
  {
    if iris == [] then []
    else
      var iri := iris[|iris| - 1];
      EntityMatches(kind, g, iris[..|iris| - 1], query, property, root)
        + ValueMatches(kind, g, iri, Annotations(g, iri, property), query, property, root)
  }

  /** Records produced by scanning the graphs `graphs` in order. */
  function TextMatches(kind: EntityKind, graphs: seq<Graph>, query: string, property: string, root: Graph): seq<SearchResult>
    decreases |graphs|
  {
    if graphs == [] then []
    else
      var g := graphs[|graphs| - 1];
      TextMatches(kind, graphs[..|graphs| - 1], query, property, root)
        + EntityMatches(kind, g, Signature(g, kind), query, property, root)
  }

  // ---- Specification of the URI channel ----

  function UriEntityMatches(kind: EntityKind, g: Graph, iris: seq<string>, query: string, root: Graph): seq<SearchResult>
    decreases |iris|
  {
    if iris == [] then []
    else
      var iri := iris[|iris| - 1];
      UriEntityMatches(kind, g, iris[..|iris| - 1], query, root)
        + (if Lower(iri) == query then [UriRecord(kind, iri, g, root)] else [])
  }

  function UriMatches(kind: EntityKind, graphs: seq<Graph>, query: string, root: Graph): seq<SearchResult>
    decreases |graphs|
  {
    if graphs == [] then []
    else
      var g := graphs[|graphs| - 1];
      UriMatches(kind, graphs[..|graphs| - 1], query, root) + UriEntityMatches(kind, g, Signature(g, kind), query, root)
  }

  /** One more entity of the signature: its records come after those of the entities before it. */
  lemma EntityMatchesStep(kind: EntityKind, g: Graph, iris: seq<string>, i: nat, query: string, property: string, root: Graph)
    requires i < |iris|
    ensures EntityMatches(kind, g, iris[..i + 1], query, property, root)
         == EntityMatches(kind, g, iris[..i], query, property, root)
            + ValueMatches(kind, g, iris[i], Annotations(g, iris[i], property), query, property, root)
  {
    assert iris[..i + 1][..i] == iris[..i];
  }

  /** One more graph of the closure: its records come after those of the graphs before it. */
  lemma TextMatchesStep(kind: EntityKind, graphs: seq<Graph>, i: nat, query: string, property: string, root: Graph)
    requires i < |graphs|
    ensures TextMatches(kind, graphs[..i + 1], query, property, root)
         == TextMatches(kind, graphs[..i], query, property, root)
            + EntityMatches(kind, graphs[i], Signature(graphs[i], kind), query, property, root)
  {
    assert graphs[..i + 1][..i] == graphs[..i];
  }

  lemma UriEntityMatchesStep(kind: EntityKind, g: Graph, iris: seq<string>, i: nat, query: string, root: Graph)
    requires i < |iris|
    ensures UriEntityMatches(kind, g, iris[..i + 1], query, root)
         == UriEntityMatches(kind, g, iris[..i], query, root)
            + (if Lower(iris[i]) == query then [UriRecord(kind, iris[i], g, root)] else [])
  {
    assert iris[..i + 1][..i] == iris[..i];
  }

  lemma UriMatchesStep(kind: EntityKind, graphs: seq<Graph>, i: nat, query: string, root: Graph)
    requires i < |graphs|
    ensures UriMatches(kind, graphs[..i + 1], query, root)
         == UriMatches(kind, graphs[..i], query, root) + UriEntityMatches(kind, graphs[i], Signature(graphs[i], kind), query, root)
  {
    assert graphs[..i + 1][..i] == graphs[..i];
  }

  // ---- The scans ----

  /** The innermost loop of searchClasses(query, property) /
      searchObjectProperties(query, property): every annotation on entity
      `iri` in graph `ont` with the property yields a record when it is a
      literal whose lower-cased text contains `query`. */
  method SearchAnnotations(kind: EntityKind, ont: Graph, iri: string, query: string, property: string, root: Graph)
    returns (found: seq<SearchResult>)
    ensures found == ValueMatches(kind, ont, iri, Annotations(ont, iri, property), query, property, root)
  {
    var annotations := Annotations(ont, iri, property);
    found := [];
    var ai := 0;
    while ai < |annotations|
      invariant 0 <= ai <= |annotations|
      invariant found == ValueMatches(kind, ont, iri, annotations[..ai], query, property, root)
    {
      assert annotations[..ai + 1][..ai] == annotations[..ai];
      var val := annotations[ai];
      if val.Literal? {
        if Contains(Lower(val.text), query) {
          var labelName := GetLabel(iri, ont);
          found := found + [SearchResult(kind, iri, labelName, property, val.text, root)];
        }
      }
      ai := ai + 1;
    }
    assert annotations[..ai] == annotations;
  }

  /** searchClasses(query, property) / searchObjectProperties(query, property):
      for every graph of the closure (the root first, then its imports) and
      every entity of the kind in that graph's signature, the records its
      annotations with the property yield. `query` arrives already
      lower-cased; it is not lower-cased again. */
  method SearchText(kind: EntityKind, root: Graph, imports: seq<Graph>, query: string, property: string)
    returns (resultList: seq<SearchResult>)
    ensures resultList == TextMatches(kind, Closure(root, imports), query, property, root)
  {
    var ontologies := Closure(root, imports);
    resultList := [];
    var gi := 0;
    while gi < |ontologies|
      invariant 0 <= gi <= |ontologies|
      invariant resultList == TextMatches(kind, ontologies[..gi], query, property, root)
    {
      var ont := ontologies[gi];
      var entities := Signature(ont, kind);
      var graphList := [];
      var ei := 0;
      while ei < |entities|
        invariant 0 <= ei <= |entities|
        invariant graphList == EntityMatches(kind, ont, entities[..ei], query, property, root)
      {
        var iri := entities[ei];
        var found := SearchAnnotations(kind, ont, iri, query, property, root);
        EntityMatchesStep(kind, ont, entities, ei, query, property, root);
        graphList := graphList + found;
        ei := ei + 1;
      }
      assert entities[..ei] == entities;
      TextMatchesStep(kind, ontologies, gi, query, property, root);
      resultList := resultList + graphList;
      gi := gi + 1;
    }
    assert ontologies[..gi] == ontologies;
  }

  /** searchClasses(query) / searchObjectProperties(query): emit a record for
      every entity of the kind, in every graph of the closure, whose
      lower-cased IRI equals `query` exactly. */
  method SearchUri(kind: EntityKind, root: Graph, imports: seq<Graph>, query: string)
    returns (resultList: seq<SearchResult>)
    ensures resultList == UriMatches(kind, Closure(root, imports), query, root)
  {
    var ontologies := Closure(root, imports);
    resultList := [];
    var gi := 0;
    while gi < |ontologies|
      invariant 0 <= gi <= |ontologies|
      invariant resultList == UriMatches(kind, ontologies[..gi], query, root)
    {
      var ont := ontologies[gi];
      var entities := Signature(ont, kind);
      var graphList := [];
      var ei := 0;
      while ei < |entities|
        invariant 0 <= ei <= |entities|
        invariant graphList == UriEntityMatches(kind, ont, entities[..ei], query, root)
      {
        var iri := entities[ei];
        UriEntityMatchesStep(kind, ont, entities, ei, query, root);
        var uri := Lower(iri);
        if uri == query {
          var labelName := GetLabel(iri, ont);
          graphList := graphList + [SearchResult(kind, iri, labelName, UriMatchType, NoContext, root)];
        }
        ei := ei + 1;
      }
      assert entities[..ei] == entities;
      UriMatchesStep(kind, ontologies, gi, query, root);
      resultList := resultList + graphList;
      gi := gi + 1;
    }
    assert ontologies[..gi] == ontologies;
  }

  // ---- What the scans produce ----

  /** A textual-channel record is exactly one matching literal annotation of
      the entity, carrying the original literal as its context. */
  lemma {:induction false} ValueMatchesIff(kind: EntityKind, g: Graph, iri: string, values: seq<Value>, query: string, property: string, root: Graph, r: SearchResult)
    ensures r in ValueMatches(kind, g, iri, values, query, property, root)
        <==> exists v :: v in values && LiteralMatches(v, query) && r == TextRecord(kind, iri, g, property, v.text, root)
    decreases |values|
  {
    if values != [] {
      var init := values[..|values| - 1];
      assert values == init + [values[|values| - 1]];
      ValueMatchesIff(kind, g, iri, init, query, property, root, r);
    }
  }

  lemma {:induction false} EntityMatchesIff(kind: EntityKind, g: Graph, iris: seq<string>, query: string, property: string, root: Graph, r: SearchResult)
    ensures r in EntityMatches(kind, g, iris, query, property, root)
        <==> exists iri, v :: iri in iris && v in Annotations(g, iri, property) && LiteralMatches(v, query)
                              && r == TextRecord(kind, iri, g, property, v.text, root)
    decreases |iris|
  {
    if iris != [] {
      var init := iris[..|iris| - 1];
      var last := iris[|iris| - 1];
      assert iris == init + [last];
      EntityMatchesIff(kind, g, init, query, property, root, r);
      ValueMatchesIff(kind, g, last, Annotations(g, last, property), query, property, root, r);
    }
  }

  /** The textual channel emits a record for an entity of the kind in a graph
      of the scan exactly when one of its annotations with the property in
      that graph is a literal whose lower-cased text contains the query;
      non-literal annotation values never yield a record. */
  lemma {:induction false} TextMatchesIff(kind: EntityKind, graphs: seq<Graph>, query: string, property: string, root: Graph, r: SearchResult)
    ensures r in TextMatches(kind, graphs, query, property, root)
        <==> exists g, iri, v :: g in graphs && iri in Signature(g, kind) && v in Annotations(g, iri, property)
                                 && LiteralMatches(v, query) && r == TextRecord(kind, iri, g, property, v.text, root)
    decreases |graphs|
  {
    if graphs != [] {
      var init := graphs[..|graphs| - 1];
      var last := graphs[|graphs| - 1];
      assert graphs == init + [last];
      TextMatchesIff(kind, init, query, property, root, r);
      EntityMatchesIff(kind, last, Signature(last, kind), query, property, root, r);
    }
  }

  /** Every textual-channel record has the scanned kind, the property as its
      match type, the original literal as its context and the root as its ontology. */
  lemma TextRecordsShape(kind: EntityKind, graphs: seq<Graph>, query: string, property: string, root: Graph)
    ensures forall r :: r in TextMatches(kind, graphs, query, property, root) ==>
      r.kind == kind && r.matchType == property && r.ontology == root && Contains(Lower(r.matchContext), query)
  {
    forall r | r in TextMatches(kind, graphs, query, property, root)
      ensures r.kind == kind && r.matchType == property && r.ontology == root && Contains(Lower(r.matchContext), query)
    {
      TextMatchesIff(kind, graphs, query, property, root, r);
    }
  }

  lemma {:induction false} UriEntityMatchesIff(kind: EntityKind, g: Graph, iris: seq<string>, query: string, root: Graph, r: SearchResult)
    ensures r in UriEntityMatches(kind, g, iris, query, root)
        <==> exists iri :: iri in iris && Lower(iri) == query && r == UriRecord(kind, iri, g, root)
    decreases |iris|
  {
    if iris != [] {
      var init := iris[..|iris| - 1];
      assert iris == init + [iris[|iris| - 1]];
      UriEntityMatchesIff(kind, g, init, query, root, r);
    }
  }

  /** The URI channel emits a record for an entity of the kind in a graph of
      the scan exactly when its lower-cased IRI equals the query. */
  lemma {:induction false} UriMatchesIff(kind: EntityKind, graphs: seq<Graph>, query: string, root: Graph, r: SearchResult)
    ensures r in UriMatches(kind, graphs, query, root)
        <==> exists g, iri :: g in graphs && iri in Signature(g, kind) && Lower(iri) == query && r == UriRecord(kind, iri, g, root)
    decreases |graphs|
  {
    if graphs != [] {
      var init := graphs[..|graphs| - 1];
      var last := graphs[|graphs| - 1];
      assert graphs == init + [last];
      UriMatchesIff(kind, init, query, root, r);
      UriEntityMatchesIff(kind, last, Signature(last, kind), query, root, r);
    }
  }

  /** Every URI-channel record has the scanned kind, match type "URI",
      context "NA", and an IRI that equals the query once lower-cased. */
  lemma UriRecordsShape(kind: EntityKind, graphs: seq<Graph>, query: string, root: Graph)
    ensures forall r :: r in UriMatches(kind, graphs, query, root) ==>
      r.kind == kind && r.matchType == UriMatchType && r.matchContext == NoContext && r.ontology == root && Lower(r.iri) == query
  {
    forall r | r in UriMatches(kind, graphs, query, root)
      ensures r.kind == kind && r.matchType == UriMatchType && r.matchContext == NoContext && r.ontology == root && Lower(r.iri) == query
    {
      UriMatchesIff(kind, graphs, query, root, r);
    }
  }

  /** URI matching is exact while textual matching is by substring: a query
      that occurs in an entity's lower-cased IRI without being all of it
      yields no URI record for that entity, yet any literal annotation of
      the entity containing the query still yields a textual record. */
  lemma SubstringQuery(kind: EntityKind, root: Graph, imports: seq<Graph>, query: string, property: string, g: Graph, iri: string, v: Value)
    requires g in Closure(root, imports) && iri in Signature(g, kind)
    requires Contains(Lower(iri), query) && Lower(iri) != query
    requires Assertion(iri, property, v) in g.assertions && LiteralMatches(v, query)
    ensures forall r :: r in UriMatches(kind, Closure(root, imports), query, root) ==> r.iri != iri
    ensures TextRecord(kind, iri, g, property, v.text, root) in TextMatches(kind, Closure(root, imports), query, property, root)
  {
    var graphs := Closure(root, imports);
    UriRecordsShape(kind, graphs, query, root);
    ValuesInExactly(g.assertions, iri, property, v);
    var rec := TextRecord(kind, iri, g, property, v.text, root);
    TextMatchesIff(kind, graphs, query, property, root, rec);
    assert g in graphs && iri in Signature(g, kind) && v in Annotations(g, iri, property) && LiteralMatches(v, query);
  }

  // ---- Scan order: graph by graph, nothing merged across graphs ----

  /** Scanning two runs of graphs one after the other gives the records of
      the first run followed by those of the second. */
  lemma {:induction false} TextMatchesAppend(kind: EntityKind, gs: seq<Graph>, hs: seq<Graph>, query: string, property: string, root: Graph)
    ensures TextMatches(kind, gs + hs, query, property, root)
         == TextMatches(kind, gs, query, property, root) + TextMatches(kind, hs, query, property, root)
    decreases |hs|
  {
    if hs == [] {
      assert gs + hs == gs;
    } else {
      var init := hs[..|hs| - 1];
      assert (gs + hs)[..|gs + hs| - 1] == gs + init;
      TextMatchesAppend(kind, gs, init, query, property, root);
    }
  }

  /** The root graph's records come first, then those of the imports; an
      entity matching in several graphs contributes a record from each. */
  lemma TextRootFirst(kind: EntityKind, root: Graph, imports: seq<Graph>, query: string, property: string)
    ensures TextMatches(kind, Closure(root, imports), query, property, root)
         == EntityMatches(kind, root, Signature(root, kind), query, property, root)
            + TextMatches(kind, imports, query, property, root)
  {
    TextMatchesAppend(kind, [root], imports, query, property, root);
    assert [root][..0] == [];
    assert TextMatches(kind, [root], query, property, root) == EntityMatches(kind, root, Signature(root, kind), query, property, root);
  }

  lemma {:induction false} UriMatchesAppend(kind: EntityKind, gs: seq<Graph>, hs: seq<Graph>, query: string, root: Graph)
    ensures UriMatches(kind, gs + hs, query, root) == UriMatches(kind, gs, query, root) + UriMatches(kind, hs, query, root)
    decreases |hs|
  {
    if hs == [] {
      assert gs + hs == gs;
    } else {
      var init := hs[..|hs| - 1];
      assert (gs + hs)[..|gs + hs| - 1] == gs + init;
      UriMatchesAppend(kind, gs, init, query, root);
    }
  }

  lemma UriRootFirst(kind: EntityKind, root: Graph, imports: seq<Graph>, query: string)
    ensures UriMatches(kind, Closure(root, imports), query, root)
         == UriEntityMatches(kind, root, Signature(root, kind), query, root) + UriMatches(kind, imports, query, root)
  {
    UriMatchesAppend(kind, [root], imports, query, root);
    assert [root][..0] == [];
    assert UriMatches(kind, [root], query, root) == UriEntityMatches(kind, root, Signature(root, kind), query, root);
  }
}
