/** The label resolver (getLabel): the display name of an entity within one graph. */
module Labels {
  import opened Text
  import opened Ontology

  /** The local name used for a label in another language: the IRI text after
      its first '#', and the whole IRI when there is no '#'. */
  function Fragment(iri: string): (r: string)
    ensures '#' !in iri ==> r == iri
    ensures '#' in iri ==> exists k :: 0 <= k < |iri| && iri[k] == '#' && '#' !in iri[..k] && r == iri[k + 1..]
  {
    iri[IndexOf(iri, '#') + 1..]
  }

  /** A label tagged "en" or carrying no language tag is used as it is. */
  predicate UsableAsIs(lang: string) {
    lang == "en" || lang == ""
  }

  /** What one literal label annotation makes the label. */
  function Candidate(v: Value, iri: string): string
    requires v.Literal?
  {
    if UsableAsIs(v.lang) then v.text else Fragment(iri)
  }

  /** The label once the annotation values `values` have been visited in
      order: every literal overwrites it, everything else leaves it alone. */
  function LabelAfter(values: seq<Value>, iri: string): string
    decreases |values|
  {
    if values == [] then ""
    else
      var v := values[|values| - 1];
      if v.Literal? then Candidate(v, iri) else LabelAfter(values[..|values| - 1], iri)
  }

  /** The label of entity `iri` as resolved within graph `g`. */
  function LabelOf(g: Graph, iri: string): string {
    LabelAfter(Annotations(g, iri, RdfsLabel), iri)
  }

  /** getLabel: scans every rdfs:label annotation of the entity in the graph
      and keeps the value the last literal one sets. */
  method GetLabel(iri: string, g: Graph) returns (name: string)
    ensures name == LabelOf(g, iri)
  {
    name := "";
    var annotations := Annotations(g, iri, RdfsLabel);
    var i := 0;
    while i < |annotations|
      invariant 0 <= i <= |annotations|
      invariant name == LabelAfter(annotations[..i], iri)
    {
      assert annotations[..i + 1][..i] == annotations[..i];
      var v := annotations[i];
      if v.Literal? {
        if UsableAsIs(v.lang) {
          name := v.text;
        } else {
          name := Fragment(iri);
        }
      }
      i := i + 1;
    }
    assert annotations[..i] == annotations;
  }

  /** With no literal label annotation at all the label is the empty string. */
  lemma {:induction false} NoLiteralNoLabel(values: seq<Value>, iri: string)
    requires forall v :: v in values ==> !v.Literal?
    ensures LabelAfter(values, iri) == ""
    decreases |values|
  {
    if values != [] {
      NoLiteralNoLabel(values[..|values| - 1], iri);
    }
  }

  /** Last write wins: the label is decided by the last literal annotation,
      whatever the literals before it say. */
  lemma {:induction false} LastLiteralWins(values: seq<Value>, iri: string, k: nat)
    requires k < |values| && values[k].Literal?
    requires forall j :: k < j < |values| ==> !values[j].Literal?
    ensures LabelAfter(values, iri) == Candidate(values[k], iri)
    decreases |values|
  {
    if k < |values| - 1 {
      LastLiteralWins(values[..|values| - 1], iri, k);
    }
  }

  /** The label is empty, the text of one of the literal annotations, or the IRI's local name. */
  lemma {:induction false} LabelComesFromAnnotations(values: seq<Value>, iri: string)
    ensures var r := LabelAfter(values, iri);
      r == "" || r == Fragment(iri) || exists v :: v in values && v.Literal? && UsableAsIs(v.lang) && r == v.text
    decreases |values|
  {
    if values != [] {
      var v := values[|values| - 1];
      if !v.Literal? {
        LabelComesFromAnnotations(values[..|values| - 1], iri);
      }
    }
  }
}
