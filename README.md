# Additional-ontology searcher (MIREOT plugin), modelled in Dafny

This project models the search core of the MIREOT Protégé plugin, the class
`AdditionalOntologySearcher`. The searcher loads an additional ontology from
a URL or a file. It finds classes and object properties whose label, comment
or IAO definition contains the query, or whose IRI equals it. It then
deduplicates the hits by IRI, ignoring case. It also skips a search that
would repeat the last one.

The OWL API is replaced by an abstract ontology (`ontology.dfy`):
- a graph is the class IRIs and object-property IRIs of one document plus its
  annotation assertions;
- a loaded ontology is a root graph plus the graphs its manager reports as
  imports;
- the loader is a function parameter `Source -> LoadAttempt`, so every
  property holds whatever it loads and whenever it fails.

Modules, one per file:
- `Text` (`text.dfy`): the `java.lang.String` operations used (lower-casing,
  `equalsIgnoreCase`, `contains`, `indexOf`).
- `Ontology` (`ontology.dfy`): graphs, annotation values, vocabulary
  constants and the `SearchResult` record.
- `Labels` (`labels.dfy`): `getLabel`.
- `Matcher` (`matcher.dfy`): the four scan methods. Each pair of overloads is
  one method taking the entity kind.
- `Deduplication` (`dedup.dfy`): `removeDuplicates`.
- `Searcher` (`searcher.dfy`): the class with its fields, setters,
  `loadOntology`, `searchByClass`, `searchByObjectProperty`, `search`,
  `isSameOntology` and the guard of `buildResultTable`.

The loops of the four scans, of `getLabel` and of `removeDuplicates` are
Dafny methods with loop invariants, proved equal to specification functions.
The loops that copy the imports into the list of ontologies to scan (lines
419-421, 461-463, 509-511, 558-560) are the concatenation `Closure(root,
imports)`. The state-changing methods of the class are proved equal to pure
step functions over a snapshot of the fields (`Fields`). The properties are
lemmas and contracts about those functions.

Behaviour of the code that the model keeps as written:
- When both a URL and a file are set, the URL is loaded (line 215).
- The previous URL and file are overwritten before the load is attempted
  (lines 189, 194, 202, 205). A failed load is therefore not retried by the
  next search with the same source (`Searcher.FailedLoadIsNotRetried`). After
  a URL has been loaded, clearing the URL makes the next search reuse the URL's
  ontology without loading the file (`Searcher.ClearedUrlKeepsUrlOntology`).
- `search` clears the results before loading (line 261), so a failed search
  leaves no results.
- For a label in another language, the name is the IRI text after the first
  `#` (lines 614-615).
- An entity with no literal label gets the name `""` (line 602).
- The URI channel matches only when the lower-cased IRI equals the query
  exactly (lines 569-570).

## Model

All source paths are under `src/main/java/edu/uams/dbmi/protege/plugin/mireot/search/`.

| member | source | states |
|---|---|---|
| Ontology.ValuesInExactly | src/main/java/edu/uams/dbmi/protege/plugin/mireot/search/AdditionalOntologySearcher.java:522 | The annotation values looked up for an entity and a property are exactly those of the graph's assertions on that entity with that property. |
| Labels.Fragment | src/main/java/edu/uams/dbmi/protege/plugin/mireot/search/AdditionalOntologySearcher.java:613-615 | The fallback name is the IRI text after its first `#`, and the whole IRI when it has no `#`. |
| Labels.GetLabel | src/main/java/edu/uams/dbmi/protege/plugin/mireot/search/AdditionalOntologySearcher.java:598-620 | The loop over the rdfs:label annotations returns `LabelOf`: the value set by the last literal visited. |
| Labels.NoLiteralNoLabel | src/main/java/edu/uams/dbmi/protege/plugin/mireot/search/AdditionalOntologySearcher.java:602-619 | With no literal label annotation, the label is `""`. |
| Labels.LastLiteralWins | src/main/java/edu/uams/dbmi/protege/plugin/mireot/search/AdditionalOntologySearcher.java:607-618 | The label is decided by the last literal alone: its text when tagged "en" or untagged, otherwise the fallback name. Earlier literals do not matter. |
| Labels.LabelComesFromAnnotations | src/main/java/edu/uams/dbmi/protege/plugin/mireot/search/AdditionalOntologySearcher.java:602-619 | The label is `""`, the fallback name, or the text of some "en" or untagged literal label. |
| Matcher.SearchAnnotations | src/main/java/edu/uams/dbmi/protege/plugin/mireot/search/AdditionalOntologySearcher.java:522-541 | The innermost loop over one entity's annotations emits exactly `ValueMatches`: one record per literal whose lower-cased text contains the query. |
| Matcher.SearchText | src/main/java/edu/uams/dbmi/protege/plugin/mireot/search/AdditionalOntologySearcher.java:499-546 | `searchClasses(query, property)` (and `searchObjectProperties(query, property)`, lines 410-450) returns `TextMatches` over the root and then its imports. |
| Matcher.SearchUri | src/main/java/edu/uams/dbmi/protege/plugin/mireot/search/AdditionalOntologySearcher.java:548-588 | `searchClasses(query)` (and `searchObjectProperties(query)`, lines 452-489) returns `UriMatches` over the root and then its imports. |
| Matcher.ValueMatchesIff | src/main/java/edu/uams/dbmi/protege/plugin/mireot/search/AdditionalOntologySearcher.java:525-539 | A record is emitted for an entity iff some literal value contains the query and the record carries that literal's text. Non-literal values never produce one. |
| Matcher.EntityMatchesIff | src/main/java/edu/uams/dbmi/protege/plugin/mireot/search/AdditionalOntologySearcher.java:518-542 | Within one graph, a record is emitted iff some entity of the scanned list has a matching literal annotation with the property. |
| Matcher.TextMatchesIff | src/main/java/edu/uams/dbmi/protege/plugin/mireot/search/AdditionalOntologySearcher.java:516-543 | A textual channel emits record r iff some scanned graph, some entity of its signature and some matching literal value produce r. |
| Matcher.TextRecordsShape | src/main/java/edu/uams/dbmi/protege/plugin/mireot/search/AdditionalOntologySearcher.java:528-536 | Every textual record has the scanned kind, the property as its match type and the root ontology. Its match context, lower-cased, contains the query. |
| Matcher.UriEntityMatchesIff | src/main/java/edu/uams/dbmi/protege/plugin/mireot/search/AdditionalOntologySearcher.java:567-584 | Within one graph, a URI record is emitted iff some entity's lower-cased IRI equals the query. |
| Matcher.UriMatchesIff | src/main/java/edu/uams/dbmi/protege/plugin/mireot/search/AdditionalOntologySearcher.java:565-585 | The URI channel emits record r iff some scanned graph has an entity whose lower-cased IRI equals the query and which produces r. |
| Matcher.UriRecordsShape | src/main/java/edu/uams/dbmi/protege/plugin/mireot/search/AdditionalOntologySearcher.java:569-580 | Every URI record has match type "URI", match context "NA", the root ontology and a lower-cased IRI equal to the query. |
| Matcher.SubstringQuery | src/main/java/edu/uams/dbmi/protege/plugin/mireot/search/AdditionalOntologySearcher.java:569-570 | A query that is a proper substring of an entity's lower-cased IRI yields no URI record for that entity. A matching label of that entity is still found by the textual channel. |
| Matcher.TextMatchesAppend | src/main/java/edu/uams/dbmi/protege/plugin/mireot/search/AdditionalOntologySearcher.java:516-543 | Scanning two lists of graphs in turn yields the first list's records followed by the second's. Nothing is merged across graphs. |
| Matcher.TextRootFirst | src/main/java/edu/uams/dbmi/protege/plugin/mireot/search/AdditionalOntologySearcher.java:503-511 | A textual channel yields the root graph's records first, then the imports' records. |
| Matcher.UriMatchesAppend | src/main/java/edu/uams/dbmi/protege/plugin/mireot/search/AdditionalOntologySearcher.java:565-585 | The URI channel over two lists of graphs yields the first list's records followed by the second's. |
| Matcher.UriRootFirst | src/main/java/edu/uams/dbmi/protege/plugin/mireot/search/AdditionalOntologySearcher.java:552-560 | The URI channel yields the root graph's records first, then the imports' records. |
| Deduplication.RemoveDuplicates | src/main/java/edu/uams/dbmi/protege/plugin/mireot/search/AdditionalOntologySearcher.java:281-301 | The nested pairwise elimination returns `Dedup`: a record is kept iff no earlier record has its IRI, ignoring case. |
| Deduplication.DedupKeys | src/main/java/edu/uams/dbmi/protege/plugin/mireot/search/AdditionalOntologySearcher.java:284-299 | Every distinct IRI of the input (ignoring case) is still represented in the output. |
| Deduplication.DedupDistinct | src/main/java/edu/uams/dbmi/protege/plugin/mireot/search/AdditionalOntologySearcher.java:284-299 | No two output records share an IRI, ignoring case. |
| Deduplication.DedupSubsequence | src/main/java/edu/uams/dbmi/protege/plugin/mireot/search/AdditionalOntologySearcher.java:293 | The output is a subsequence of the input. The survivors keep their relative order. |
| Deduplication.DedupKeepsFirst | src/main/java/edu/uams/dbmi/protege/plugin/mireot/search/AdditionalOntologySearcher.java:284-299 | The earliest record of every IRI survives, and every survivor is the earliest record of its IRI. |
| Deduplication.DedupOfDistinct | src/main/java/edu/uams/dbmi/protege/plugin/mireot/search/AdditionalOntologySearcher.java:291-293 | A list whose IRIs are already distinct comes back unchanged. |
| Deduplication.DedupIdempotent | src/main/java/edu/uams/dbmi/protege/plugin/mireot/search/AdditionalOntologySearcher.java:281-301 | Applying the deduplication twice gives the same list as applying it once. |
| Deduplication.DedupAppend | src/main/java/edu/uams/dbmi/protege/plugin/mireot/search/AdditionalOntologySearcher.java:267-276 | Deduplicating class records followed by property records gives the deduplicated class records, then those property records whose IRI is new. |
| Deduplication.DedupBySeenSet | src/main/java/edu/uams/dbmi/protege/plugin/mireot/search/AdditionalOntologySearcher.java:284-299 | The quadratic elimination equals a single left-to-right pass with a set of the IRIs seen so far. |
| Searcher.PlanLoad | src/main/java/edu/uams/dbmi/protege/plugin/mireot/search/AdditionalOntologySearcher.java:182-222 | Reuse iff the URL is set and equal to the recorded one, or else the file is. Fail iff neither URL nor file is set. Otherwise load the URL in preference to the file. |
| Searcher.IsSameOntology | src/main/java/edu/uams/dbmi/protege/plugin/mireot/search/AdditionalOntologySearcher.java:622-630 | `isSameOntology` holds exactly when the load policy would reuse the current ontology. |
| Searcher.LoadStep | src/main/java/edu/uams/dbmi/protege/plugin/mireot/search/AdditionalOntologySearcher.java:179-244 | Only the recorded identities, the ontology and the manager change. There is no load iff `isSameOntology`. It fails with `NoSourceSpecified` iff no source is set. Otherwise it loads the URL in preference to the file: a successful load is a reload that installs the loaded ontology and manager, a failed load reports that source and its cause and keeps ontology and manager. The current URL is always recorded as the previous one, and the current file too unless the ontology is reused, even when the load fails. |
| Searcher.FailedLoadIsNotRetried | src/main/java/edu/uams/dbmi/protege/plugin/mireot/search/AdditionalOntologySearcher.java:182-237 | After a failed load, the next load of the same source is a reuse of the ontology and manager in place before the failure, whatever the loader would now yield. |
| Searcher.ClearedUrlKeepsUrlOntology | src/main/java/edu/uams/dbmi/protege/plugin/mireot/search/AdditionalOntologySearcher.java:182-222 | With a URL and a file set, the URL's ontology is loaded and both identities are recorded; clearing the URL then makes the next load a reuse that keeps the URL's ontology. |
| Searcher.SearchStep | src/main/java/edu/uams/dbmi/protege/plugin/mireot/search/AdditionalOntologySearcher.java:259-279 | `search` keeps the query, options and sources. It records the current URL, and the current file unless the ontology is reused; afterwards `isSameOntology` holds iff a source is set. It fails exactly when the load fails, or when an entity kind is enabled and the query or the loaded ontology is missing. A failure leaves no results. A completed search leaves at most one record per IRI, ignoring case. |
| Searcher.SearchLoaded | src/main/java/edu/uams/dbmi/protege/plugin/mireot/search/AdditionalOntologySearcher.java:264-276 | After loading, only the results change. It fails exactly on a load error, or on an enabled entity kind without query or loaded ontology; a failure leaves the results as they were. A completion replaces them by the deduplication of the earlier results followed by the class and then object-property records, which has no case-insensitive duplicate IRIs. |
| Searcher.ClassChannelOrder | src/main/java/edu/uams/dbmi/protege/plugin/mireot/search/AdditionalOntologySearcher.java:371-396 | `searchByClass` yields only classes, in channel order label, comment, definition, URI. |
| Searcher.PropertyChannelOrder | src/main/java/edu/uams/dbmi/protege/plugin/mireot/search/AdditionalOntologySearcher.java:320-341 | `searchByObjectProperty` yields only object properties, in channel order label, definition, comment, URI. |
| Searcher.ClassesBeforeProperties | src/main/java/edu/uams/dbmi/protege/plugin/mireot/search/AdditionalOntologySearcher.java:267-273 | In the collected records, no class record follows an object-property record. |
| Searcher.SearchKeepsEveryIri | src/main/java/edu/uams/dbmi/protege/plugin/mireot/search/AdditionalOntologySearcher.java:267-276 | A completed search's results are the deduplicated collected records. They keep every collected IRI and are a subsequence of the collected records. |
| Searcher.BuildStep | src/main/java/edu/uams/dbmi/protege/plugin/mireot/search/AdditionalOntologySearcher.java:632-670 | It raises a null reference iff no option changed and there is no query. Nothing is done iff no option changed, the query equals the last one ignoring case and `isSameOntology` holds. Otherwise `oldQuery := query` and `optionsChanged := false`, and the fields afterwards are those the search leaves; "Error" is shown iff the search failed, "No results" iff it completed with none, and otherwise the rows are the deduplicated results. With a query set, an immediate second call does nothing iff a source is set. |
| Searcher.AdditionalOntologySearcher.constructor | src/main/java/edu/uams/dbmi/protege/plugin/mireot/search/AdditionalOntologySearcher.java:36-77 | A new searcher has no query, source, ontology or results. It searches classes by label and URI, and no option counts as changed. |
| Searcher.AdditionalOntologySearcher.WithQuery | src/main/java/edu/uams/dbmi/protege/plugin/mireot/search/AdditionalOntologySearcher.java:71-74 | As the default constructor, with the given query and URL set; either may be absent (null). |
| Searcher.AdditionalOntologySearcher.SetQuery | src/main/java/edu/uams/dbmi/protege/plugin/mireot/search/AdditionalOntologySearcher.java:85-87 | Sets the query, possibly to absent (null), and nothing else; `optionsChanged` is untouched. |
| Searcher.AdditionalOntologySearcher.SetUrl | src/main/java/edu/uams/dbmi/protege/plugin/mireot/search/AdditionalOntologySearcher.java:144-146 | Sets the URL and nothing else; `optionsChanged` is untouched. |
| Searcher.AdditionalOntologySearcher.SetFile | src/main/java/edu/uams/dbmi/protege/plugin/mireot/search/AdditionalOntologySearcher.java:167-169 | Sets the file and nothing else; `optionsChanged` is untouched. |
| Searcher.AdditionalOntologySearcher.SetSearchByLabelFlag | src/main/java/edu/uams/dbmi/protege/plugin/mireot/search/AdditionalOntologySearcher.java:94-97 | Sets the label option and `optionsChanged`, nothing else. |
| Searcher.AdditionalOntologySearcher.SetSearchByCommentFlag | src/main/java/edu/uams/dbmi/protege/plugin/mireot/search/AdditionalOntologySearcher.java:103-106 | Sets the comment option and `optionsChanged`, nothing else. |
| Searcher.AdditionalOntologySearcher.SetSearchByDefinitionFlag | src/main/java/edu/uams/dbmi/protege/plugin/mireot/search/AdditionalOntologySearcher.java:112-115 | Sets the definition option and `optionsChanged`, nothing else. |
| Searcher.AdditionalOntologySearcher.SetSearchByURIFlag | src/main/java/edu/uams/dbmi/protege/plugin/mireot/search/AdditionalOntologySearcher.java:121-124 | Sets the URI option and `optionsChanged`, nothing else. |
| Searcher.AdditionalOntologySearcher.SetSearchClassesFlag | src/main/java/edu/uams/dbmi/protege/plugin/mireot/search/AdditionalOntologySearcher.java:130-133 | Sets the classes option and `optionsChanged`, nothing else. |
| Searcher.AdditionalOntologySearcher.SetSearchObjectPropertiesFlag | src/main/java/edu/uams/dbmi/protege/plugin/mireot/search/AdditionalOntologySearcher.java:139-142 | Sets the object-properties option and `optionsChanged`, nothing else. |
| Searcher.AdditionalOntologySearcher.LoadOntology | src/main/java/edu/uams/dbmi/protege/plugin/mireot/search/AdditionalOntologySearcher.java:179-244 | The field updates and the outcome are exactly `LoadStep` of the fields before the call. |
| Searcher.AdditionalOntologySearcher.SearchByClass | src/main/java/edu/uams/dbmi/protege/plugin/mireot/search/AdditionalOntologySearcher.java:353-401 | Fails with a null reference when no query or no loaded ontology is present. Otherwise returns `ClassRecords` for the current options and the lower-cased query. |
| Searcher.AdditionalOntologySearcher.SearchByObjectProperty | src/main/java/edu/uams/dbmi/protege/plugin/mireot/search/AdditionalOntologySearcher.java:309-344 | Fails with a null reference when no query or no loaded ontology is present. Otherwise returns `PropertyRecords` for the current options and the lower-cased query. |
| Searcher.AdditionalOntologySearcher.Search | src/main/java/edu/uams/dbmi/protege/plugin/mireot/search/AdditionalOntologySearcher.java:259-279 | The field updates and the outcome are exactly `SearchStep` of the fields before the call. |
| Searcher.AdditionalOntologySearcher.BuildResultTable | src/main/java/edu/uams/dbmi/protege/plugin/mireot/search/AdditionalOntologySearcher.java:632-670 | The field updates and the status are exactly `BuildStep` of the fields before the call. |

## Left out

- The Swing user interface (the message dialogs, the table model and its rows, the tooltip renderer, column packing) is left out. `BuildResultTable` returns the status or rows it would show instead.
- The background thread and the `synchronized` blocks are left out: the search runs in line, as one sequential step.
- Console logging and stack traces are left out.
- The OWL API is replaced by the abstract graph:
  - the loader is a parameter;
  - `getImports` is the list of graphs the loaded manager reports;
  - `EntitySearcher.getAnnotations` is a filter of the graph's assertions;
  - `getClassesInSignature`, `getObjectPropertiesInSignature` and the import set are iterated in the order of their sequences.
- The data factory is created and installed together with the manager, so it is not a separate field. A missing factory is the missing manager.
- The match type of a textual record is the annotation property's IRI. The OWL API's printed form of the property is not modelled.
- An entity's IRI string is used for both `getIRI().toString()` and `toStringID()`.
- Language tags are taken as given: `""` means no tag, and "en" is compared exactly. The loader's normalisation of tags is not modelled.
- Text.Lower: case mapping covers the ASCII letters only; `String.toLowerCase` and `equalsIgnoreCase` over the rest of Unicode are not modelled.
- `SearchResult.equals` is not modelled. Records are told apart by their position in the list, which is how `processed.contains` and `result1.equals(result2)` behave under identity equality.
- Deduplication.RemoveDuplicates: the removal of records from the list in place is modelled as clearing a presence flag per position, followed by a pass that keeps the present records in order.
- Matcher.SearchText: the innermost loop over an entity's annotations is the separate method `SearchAnnotations`.
- A `NullPointerException` is modelled as the error outcome `NullReference`. The other exceptions are the error outcomes `NoSourceSpecified` and `LoadFailed`.
- The getters (`searchByLabelFlag` and the other flag getters, `getAdditionalManager`, `getAdditionalFactory`, `getAdditonalOntology`, `getResults`) are plain field reads. The model reads the fields directly.
