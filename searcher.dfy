/** The searcher itself (AdditionalOntologySearcher): its options and source
    settings, the load-or-reuse policy, the search that runs the enabled
    channels and deduplicates, and the guard that skips a repeated search.

    Each state-changing operation of the class is specified by a pure step
    function over a snapshot of the fields (`Fields`); the properties of the
    policy are stated and proved about those step functions. */
module Searcher {
  import opened Text
  import opened Ontology
  import opened Matcher
  import opened Deduplication

  /** Where the ontology comes from: a URL (loaded through its IRI) or a file. */
  datatype Source = Url(url: string) | File(path: string)

  /** What the ontology loader yields for a source: the loaded root ontology
      with the imports its new manager reports, or the reason loading failed. */
  datatype LoadAttempt = Loaded(root: Graph, imports: seq<Graph>) | LoadFailure(cause: string)

  /** The ontology manager, as far as the searcher uses it: it reports the imports. */
  datatype Manager = Manager(imports: seq<Graph>)

  /** The exceptions a search can end with. NullReference stands for the
      NullPointerException thrown when the query or the loaded ontology is missing. */
  datatype SearchError = NoSourceSpecified | LoadFailed(source: Source, cause: string) | NullReference

  datatype LoadResult = Reused | Reloaded(source: Source) | LoadError(error: SearchError)

  datatype SearchOutcome = Completed | Failed(error: SearchError)

  /** What buildResultTable ends with: nothing done, an exception raised to
      its caller, or the status or rows it shows. */
  datatype TableStatus = Unchanged | Raised(error: SearchError) | SearchFailed(error: SearchError) | NoResults | Rows(rows: seq<SearchResult>)

  /** The six search options. */
  datatype Options = Options(byLabel: bool, byComment: bool, byDefinition: bool, byUri: bool, classes: bool, objectProperties: bool)

  /** A snapshot of the searcher's fields. */
  datatype Fields = Fields(
    query: Option<string>,
    oldQuery: Option<string>,
    ontUrl: Option<string>,
    oldOntUrl: Option<string>,
    ontFile: Option<string>,
    oldOntFile: Option<string>,
    man: Option<Manager>,
    ontology: Option<Graph>,
    options: Options,
    optionsChanged: bool,
    results: seq<SearchResult>)

  // ---- The channels, in the order the search runs them ----

  /** searchByClass: label, comment, definition, then URI. */
  function ClassRecords(o: Options, query: string, root: Graph, imports: seq<Graph>): seq<SearchResult> {
    var graphs := Closure(root, imports);
    (if o.byLabel then TextMatches(Class, graphs, query, RdfsLabel, root) else [])
    + (if o.byComment then TextMatches(Class, graphs, query, RdfsComment, root) else [])
    + (if o.byDefinition then TextMatches(Class, graphs, query, IaoDefinition, root) else [])
    + (if o.byUri then UriMatches(Class, graphs, query, root) else [])
  }

  /** searchByObjectProperty: label, definition, comment, then URI. */
  function PropertyRecords(o: Options, query: string, root: Graph, imports: seq<Graph>): seq<SearchResult> {
    var graphs := Closure(root, imports);
    (if o.byLabel then TextMatches(ObjectProperty, graphs, query, RdfsLabel, root) else [])
    + (if o.byDefinition then TextMatches(ObjectProperty, graphs, query, IaoDefinition, root) else [])
    + (if o.byComment then TextMatches(ObjectProperty, graphs, query, RdfsComment, root) else [])
    + (if o.byUri then UriMatches(ObjectProperty, graphs, query, root) else [])
  }

  /** The records a search collects before deduplication: classes, then object properties. */
  function SearchRecords(o: Options, query: string, root: Graph, imports: seq<Graph>): seq<SearchResult> {
    (if o.classes then ClassRecords(o, query, root, imports) else [])
    + (if o.objectProperties then PropertyRecords(o, query, root, imports) else [])
  }

  // ---- The load-or-reuse policy (loadOntology) ----

  datatype LoadPlan = ReuseUrl | ReuseFile | Fetch(source: Source) | NoSource

  /** What loadOntology decides from the current and previously recorded
      identities: reuse when the URL, or else the file, is set and equal to
      the one recorded; fail when neither is set; otherwise load, the URL in
      preference to the file. */
  function PlanLoad(url: Option<string>, oldUrl: Option<string>, file: Option<string>, oldFile: Option<string>): (p: LoadPlan)
    ensures p == ReuseUrl <==> url.Some? && url == oldUrl
    ensures p == ReuseFile <==> !(url.Some? && url == oldUrl) && file.Some? && file == oldFile
    ensures p == NoSource <==> url.None? && file.None?
    ensures p.Fetch? && url.Some? ==> p.source == Url(url.value)
    ensures p.Fetch? && url.None? ==> file.Some? && p.source == File(file.value)
  {
    if url.Some? && oldUrl.Some? && url.value == oldUrl.value then ReuseUrl
    else if file.Some? && oldFile.Some? && file.value == oldFile.value then ReuseFile
    else if url.None? && file.None? then NoSource
    else if url.Some? then Fetch(Url(url.value))
    else Fetch(File(file.value))
  }

  /** isSameOntology: the URL, or else the file, is set and equal to the one recorded. */
  predicate IsSameOntology(s: Fields)
    ensures IsSameOntology(s) <==> PlanLoad(s.ontUrl, s.oldOntUrl, s.ontFile, s.oldOntFile) in {ReuseUrl, ReuseFile}
  {
    (s.ontUrl.Some? && s.oldOntUrl.Some? && s.ontUrl.value == s.oldOntUrl.value)
    || (s.ontFile.Some? && s.oldOntFile.Some? && s.ontFile.value == s.oldOntFile.value)
  }

  predicate SourceSet(s: Fields) {
    s.ontUrl.Some? || s.ontFile.Some?
  }

  /** The source loadOntology fetches when it does not reuse: the URL if set, else the file. */
  function FetchedSource(s: Fields): Source
    requires SourceSet(s)
  {
    if s.ontUrl.Some? then Url(s.ontUrl.value) else File(s.ontFile.value)
  }

  /** loadOntology on the snapshot `s`, with `loader` standing for the OWL API loader. */
  function LoadStep(s: Fields, loader: Source -> LoadAttempt): (out: (Fields, LoadResult))
    // only the recorded identities and the loaded ontology and manager can change
    ensures out.0.(oldOntUrl := s.oldOntUrl, oldOntFile := s.oldOntFile, ontology := s.ontology, man := s.man) == s
    // nothing is loaded exactly when the identities are unchanged
    ensures out.1 == Reused <==> IsSameOntology(s)
    ensures out.1 == Reused ==> out.0.ontology == s.ontology && out.0.man == s.man
    // neither a URL nor a file: the call fails
    ensures out.1 == LoadError(NoSourceSpecified) <==> !SourceSet(s)
    // the URL is loaded in preference to the file
    ensures out.1.Reloaded? ==> out.1.source == (if s.ontUrl.Some? then Url(s.ontUrl.value) else File(s.ontFile.value))
    // otherwise the fetched source is loaded: its success is a reload, its failure reports it
    ensures SourceSet(s) && !IsSameOntology(s) && loader(FetchedSource(s)).Loaded? ==>
      out.1 == Reloaded(FetchedSource(s))
    ensures SourceSet(s) && !IsSameOntology(s) && loader(FetchedSource(s)).LoadFailure? ==>
      out.1 == LoadError(LoadFailed(FetchedSource(s), loader(FetchedSource(s)).cause))
    // ontology and manager are replaced only by a successful load, and then by what was loaded
    ensures out.1.LoadError? ==> out.0.ontology == s.ontology && out.0.man == s.man
    ensures out.1.Reloaded? ==>
      loader(out.1.source).Loaded?
      && out.0.ontology == Some(loader(out.1.source).root) && out.0.man == Some(Manager(loader(out.1.source).imports))
    // the identities are recorded even when the load fails: the URL always,
    // the file unless the URL already decided on reuse
    ensures out.0.oldOntUrl == s.ontUrl
    ensures out.0.oldOntFile == (if out.1 == Reused then s.oldOntFile else s.ontFile)
    ensures SourceSet(s) ==> IsSameOntology(out.0)
    ensures !SourceSet(s) ==> !IsSameOntology(out.0)
  {
    match PlanLoad(s.ontUrl, s.oldOntUrl, s.ontFile, s.oldOntFile)
    case ReuseUrl => (s, Reused)
    case ReuseFile => (s.(oldOntUrl := s.ontUrl), Reused)
    case NoSource => (s.(oldOntUrl := s.ontUrl, oldOntFile := s.ontFile), LoadError(NoSourceSpecified))
    case Fetch(source) =>
      var recorded := s.(oldOntUrl := s.ontUrl, oldOntFile := s.ontFile);
      match loader(source)
      case LoadFailure(cause) => (recorded, LoadError(LoadFailed(source, cause)))
      case Loaded(root, imports) => (recorded.(ontology := Some(root), man := Some(Manager(imports))), Reloaded(source))
  }

  /** A load that fails still records the identities, so the next load of the
      same source, whatever it would yield, reuses the ontology and manager
      that were in place before the failure (none, the first time). */
  lemma FailedLoadIsNotRetried(s: Fields, loader: Source -> LoadAttempt, retry: Source -> LoadAttempt)
    requires SourceSet(s) && LoadStep(s, loader).1.LoadError?
    ensures var t := LoadStep(s, loader).0;
      LoadStep(t, retry) == (t, Reused) && t.ontology == s.ontology && t.man == s.man
  {
  }

  /** With both a URL and a file set, the URL is loaded and both are recorded;
      clearing the URL afterwards makes the next load a reuse, so the file is
      never loaded and the URL's ontology stays in place. */
  lemma ClearedUrlKeepsUrlOntology(s: Fields, loader: Source -> LoadAttempt, retry: Source -> LoadAttempt)
    requires s.ontUrl.Some? && s.ontFile.Some? && LoadStep(s, loader).1.Reloaded?
    ensures var t := LoadStep(s, loader).0;
      t.ontology == Some(loader(Url(s.ontUrl.value)).root)
      && LoadStep(t.(ontUrl := None), retry).1 == Reused
      && LoadStep(t.(ontUrl := None), retry).0.ontology == t.ontology
  {
  }

  // ---- search ----

  /** search on the snapshot `s`: clear the results, load, run the enabled
      entity kinds, deduplicate. */
  function SearchStep(s: Fields, loader: Source -> LoadAttempt): (out: (Fields, SearchOutcome))
    // the search changes neither the settings nor the memo state
    ensures out.0.query == s.query && out.0.oldQuery == s.oldQuery && out.0.options == s.options
    ensures out.0.optionsChanged == s.optionsChanged && out.0.ontUrl == s.ontUrl && out.0.ontFile == s.ontFile
    // the identities recorded by the load
    ensures out.0.oldOntUrl == s.ontUrl
    ensures out.0.oldOntFile == (if IsSameOntology(s) then s.oldOntFile else s.ontFile)
    // after any search, the identities are recorded exactly when a source is set
    ensures IsSameOntology(out.0) <==> SourceSet(s)
    // the results are cleared before loading, so a failed search leaves none
    ensures out.1.Failed? ==> out.0.results == []
    // a completed search leaves at most one record per IRI, ignoring case
    ensures out.1 == Completed ==> DistinctKeys(out.0.results)
    // it fails exactly when the load fails, or when an entity kind is enabled and
    // the query or the loaded ontology is missing
    ensures var (loaded, result) := LoadStep(s.(results := []), loader);
      out.1.Failed? <==>
        result.LoadError?
        || ((s.options.classes || s.options.objectProperties)
            && (s.query.None? || loaded.man.None? || loaded.ontology.None?))
  {
    var (loaded, result) := LoadStep(s.(results := []), loader);
    SearchLoaded(loaded, result)
  }

  /** What search does once loadOntology has returned `result` and left the
      fields `loaded`: append the records of the enabled entity kinds to the
      results and deduplicate them. */
  function SearchLoaded(loaded: Fields, result: LoadResult): (out: (Fields, SearchOutcome))
    // only the results change
    ensures out.0 == loaded.(results := out.0.results)
    // a failure leaves the results as they were
    ensures out.1.Failed? ==> out.0.results == loaded.results
    // a completion leaves at most one record per IRI, ignoring case
    ensures out.1 == Completed ==> DistinctKeys(out.0.results)
    // it fails exactly on a load error, or on an enabled entity kind without query or ontology
    ensures out.1.Failed? <==>
      result.LoadError?
      || ((loaded.options.classes || loaded.options.objectProperties)
          && (loaded.query.None? || loaded.man.None? || loaded.ontology.None?))
    // a completion appends the records of the enabled kinds and deduplicates
    ensures out.1 == Completed ==>
      out.0.results == Dedup(loaded.results
        + (if loaded.options.classes || loaded.options.objectProperties
           then SearchRecords(loaded.options, Lower(loaded.query.value), loaded.ontology.value, loaded.man.value.imports)
           else []))
  {
    if result.LoadError? then (loaded, Failed(result.error))
    else if !loaded.options.classes && !loaded.options.objectProperties then
      DedupDistinct(loaded.results);
      assert loaded.results + [] == loaded.results;
      (loaded.(results := Dedup(loaded.results)), Completed)
    else if loaded.query.None? || loaded.man.None? || loaded.ontology.None? then (loaded, Failed(NullReference))
    else
      var found := loaded.results
        + SearchRecords(loaded.options, Lower(loaded.query.value), loaded.ontology.value, loaded.man.value.imports);
      DedupDistinct(found);
      (loaded.(results := Dedup(found)), Completed)
  }

  // ---- The order in which records are appended ----

  /** The position of a textual channel (by its annotation property) or of the
      URI channel in searchByClass's order. */
  function ClassChannelRank(matchType: string): nat {
    if matchType == RdfsLabel then 0
    else if matchType == RdfsComment then 1
    else if matchType == IaoDefinition then 2
    else 3
  }

  /** The same for searchByObjectProperty, where definition comes before comment. */
  function PropertyChannelRank(matchType: string): nat {
    if matchType == RdfsLabel then 0
    else if matchType == IaoDefinition then 1
    else if matchType == RdfsComment then 2
    else 3
  }

  predicate RankSorted(s: seq<SearchResult>, rank: string -> nat) {
    forall i, j :: 0 <= i < j < |s| ==> rank(s[i].matchType) <= rank(s[j].matchType)
  }

  lemma AppendRanked(a: seq<SearchResult>, b: seq<SearchResult>, rank: string -> nat, k: nat)
    requires RankSorted(a, rank) && forall x :: x in a ==> rank(x.matchType) <= k
    requires forall y :: y in b ==> rank(y.matchType) == k
    ensures RankSorted(a + b, rank) && forall x :: x in a + b ==> rank(x.matchType) <= k
  {
  }

  /** Every record a textual channel yields carries the channel's property as its match type. */
  lemma TextChannelRank(kind: EntityKind, graphs: seq<Graph>, query: string, property: string, root: Graph, on: bool,
                        rank: string -> nat)
    ensures forall y :: y in (if on then TextMatches(kind, graphs, query, property, root) else []) ==>
      y.kind == kind && rank(y.matchType) == rank(property)
  {
    TextRecordsShape(kind, graphs, query, property, root);
  }

  lemma UriChannelRank(kind: EntityKind, graphs: seq<Graph>, query: string, root: Graph, on: bool, rank: string -> nat)
    ensures forall y :: y in (if on then UriMatches(kind, graphs, query, root) else []) ==>
      y.kind == kind && rank(y.matchType) == rank(UriMatchType)
  {
    UriRecordsShape(kind, graphs, query, root);
  }

  /** searchByClass yields only classes, label matches first, then comment,
      definition and URI matches. */
  lemma ClassChannelOrder(o: Options, query: string, root: Graph, imports: seq<Graph>)
    ensures RankSorted(ClassRecords(o, query, root, imports), ClassChannelRank)
    ensures forall r :: r in ClassRecords(o, query, root, imports) ==> r.kind == Class
  {
    var graphs := Closure(root, imports);
    var rank := ClassChannelRank;
    var a := if o.byLabel then TextMatches(Class, graphs, query, RdfsLabel, root) else [];
    var b := if o.byComment then TextMatches(Class, graphs, query, RdfsComment, root) else [];
    var c := if o.byDefinition then TextMatches(Class, graphs, query, IaoDefinition, root) else [];
    var d := if o.byUri then UriMatches(Class, graphs, query, root) else [];
    TextChannelRank(Class, graphs, query, RdfsLabel, root, o.byLabel, rank);
    TextChannelRank(Class, graphs, query, RdfsComment, root, o.byComment, rank);
    TextChannelRank(Class, graphs, query, IaoDefinition, root, o.byDefinition, rank);
    UriChannelRank(Class, graphs, query, root, o.byUri, rank);
    AppendRanked([], a, rank, 0);
    assert [] + a == a;
    AppendRanked(a, b, rank, 1);
    AppendRanked(a + b, c, rank, 2);
    AppendRanked(a + b + c, d, rank, 3);
    assert ClassRecords(o, query, root, imports) == a + b + c + d;
  }

  /** searchByObjectProperty yields only object properties, label matches
      first, then definition, comment and URI matches. */
  lemma PropertyChannelOrder(o: Options, query: string, root: Graph, imports: seq<Graph>)
    ensures RankSorted(PropertyRecords(o, query, root, imports), PropertyChannelRank)
    ensures forall r :: r in PropertyRecords(o, query, root, imports) ==> r.kind == ObjectProperty
  {
    var graphs := Closure(root, imports);
    var rank := PropertyChannelRank;
    var a := if o.byLabel then TextMatches(ObjectProperty, graphs, query, RdfsLabel, root) else [];
    var b := if o.byDefinition then TextMatches(ObjectProperty, graphs, query, IaoDefinition, root) else [];
    var c := if o.byComment then TextMatches(ObjectProperty, graphs, query, RdfsComment, root) else [];
    var d := if o.byUri then UriMatches(ObjectProperty, graphs, query, root) else [];
    TextChannelRank(ObjectProperty, graphs, query, RdfsLabel, root, o.byLabel, rank);
    TextChannelRank(ObjectProperty, graphs, query, IaoDefinition, root, o.byDefinition, rank);
    TextChannelRank(ObjectProperty, graphs, query, RdfsComment, root, o.byComment, rank);
    UriChannelRank(ObjectProperty, graphs, query, root, o.byUri, rank);
    AppendRanked([], a, rank, 0);
    assert [] + a == a;
    AppendRanked(a, b, rank, 1);
    AppendRanked(a + b, c, rank, 2);
    AppendRanked(a + b + c, d, rank, 3);
    assert PropertyRecords(o, query, root, imports) == a + b + c + d;
  }

  /** All class records come before all object-property records. */
  lemma ClassesBeforeProperties(o: Options, query: string, root: Graph, imports: seq<Graph>)
    ensures var s := SearchRecords(o, query, root, imports);
      forall i, j :: 0 <= i < j < |s| && s[i].kind == ObjectProperty ==> s[j].kind == ObjectProperty
  {
    ClassChannelOrder(o, query, root, imports);
    PropertyChannelOrder(o, query, root, imports);
    var c := if o.classes then ClassRecords(o, query, root, imports) else [];
    var p := if o.objectProperties then PropertyRecords(o, query, root, imports) else [];
    var s := c + p;
    forall i, j | 0 <= i < j < |s| && s[i].kind == ObjectProperty ensures s[j].kind == ObjectProperty {
      assert s[j] in p;
    }
  }

  /** A completed search over some entity kind keeps, of the records collected,
      exactly one per IRI (ignoring case): the earliest, in the collected order. */
  lemma SearchKeepsEveryIri(s: Fields, loader: Source -> LoadAttempt)
    requires SearchStep(s, loader).1 == Completed
    requires s.options.classes || s.options.objectProperties
    ensures var t := SearchStep(s, loader).0;
      t.query.Some? && t.man.Some? && t.ontology.Some?
      && var found := SearchRecords(t.options, Lower(t.query.value), t.ontology.value, t.man.value.imports);
      t.results == Dedup(found) && Keys(t.results) == Keys(found) && IsSubsequence(t.results, found)
  {
    var (loaded, result) := LoadStep(s.(results := []), loader);
    var found := SearchRecords(loaded.options, Lower(loaded.query.value), loaded.ontology.value, loaded.man.value.imports);
    assert loaded.results + found == found;
    DedupKeys(found);
    DedupSubsequence(found);
  }

  // ---- buildResultTable's guard ----

  /** The guard: no option changed since the last run, the same query ignoring case, the same ontology. */
  predicate MemoHit(s: Fields) {
    !s.optionsChanged && s.query.Some? && s.oldQuery.Some? && EqualsIgnoreCase(s.query.value, s.oldQuery.value)
    && IsSameOntology(s)
  }

  /** buildResultTable on the snapshot `s`, the search run in line. */
  function BuildStep(s: Fields, loader: Source -> LoadAttempt): (out: (Fields, TableStatus))
    // nothing is done exactly when the guard holds
    ensures out.1 == Unchanged <==> MemoHit(s)
    ensures out.1 == Unchanged || out.1.Raised? ==> out.0 == s
    // otherwise the query is remembered and the options are marked seen
    ensures out.1 != Unchanged && !out.1.Raised? ==> out.0.oldQuery == s.query && !out.0.optionsChanged
    // with a query set, an immediately repeated call does nothing exactly when a source is set,
    // whether or not the load succeeded
    ensures out.0.query.Some? ==> (MemoHit(out.0) <==> SourceSet(out.0))
    // the exception of the guard: no option changed and no query
    ensures out.1.Raised? <==> !s.optionsChanged && s.query.None?
    // otherwise the fields and the outcome are those of the search, run after the bookkeeping
    ensures !MemoHit(s) && !out.1.Raised? ==>
      var (searched, outcome) := SearchStep(s.(oldQuery := s.query, optionsChanged := false), loader);
      out.0 == searched && (out.1.SearchFailed? <==> outcome.Failed?)
    // "No results" is shown exactly when the search left none
    ensures out.1 == NoResults ==> out.0.results == []
    ensures out.1 == Unchanged || out.1.Raised? || out.1.SearchFailed? || (out.1 == NoResults <==> out.0.results == [])
    // the rows shown are the deduplicated results
    ensures out.1.Rows? ==> out.1.rows == out.0.results && out.1.rows != [] && DistinctKeys(out.1.rows)
  {
    if !s.optionsChanged && s.query.None? then (s, Raised(NullReference))
    else if MemoHit(s) then (s, Unchanged)
    else
      var (searched, outcome) := SearchStep(s.(oldQuery := s.query, optionsChanged := false), loader);
      (searched,
       if outcome.Failed? then SearchFailed(outcome.error)
       else if searched.results == [] then NoResults
       else Rows(searched.results))
  }

  // ---- The searcher ----

  class AdditionalOntologySearcher {
    var query: Option<string>
    var oldQuery: Option<string>
    var ontUrl: Option<string>
    var oldOntUrl: Option<string>
    var man: Option<Manager>
    var ontology: Option<Graph>
    var searchByLabel: bool
    var searchByComment: bool
    var searchByDefinition: bool
    var searchByURI: bool
    var searchClasses: bool
    var searchObjectProperties: bool
    var optionsChanged: bool
    var results: seq<SearchResult>
    var ontFile: Option<string>
    var oldOntFile: Option<string>

    function CurrentOptions(): Options
      reads this
    {
      Options(searchByLabel, searchByComment, searchByDefinition, searchByURI, searchClasses, searchObjectProperties)
    }

    function State(): Fields
      reads this
    {
      Fields(query, oldQuery, ontUrl, oldOntUrl, ontFile, oldOntFile, man, ontology, CurrentOptions(), optionsChanged, results)
    }

    /** The default options: label and URI matching on classes. */
    constructor ()
      ensures State() == Fields(None, None, None, None, None, None, None, None,
                                Options(true, false, false, true, true, false), false, [])
    {
      query, oldQuery := None, None;
      ontUrl, oldOntUrl, ontFile, oldOntFile := None, None, None, None;
      man, ontology := None, None;
      searchByLabel, searchByComment, searchByDefinition, searchByURI := true, false, false, true;
      searchClasses, searchObjectProperties := true, false;
      optionsChanged := false;
      results := [];
    }

    constructor WithQuery(query: Option<string>, url: Option<string>)
      ensures State() == Fields(query, None, url, None, None, None, None, None,
                                Options(true, false, false, true, true, false), false, [])
    {
      this.query, oldQuery := query, None;
      ontUrl, oldOntUrl, ontFile, oldOntFile := url, None, None, None;
      man, ontology := None, None;
      searchByLabel, searchByComment, searchByDefinition, searchByURI := true, false, false, true;
      searchClasses, searchObjectProperties := true, false;
      optionsChanged := false;
      results := [];
    }

    // ---- Setters: the option setters mark the options changed, the others do not ----

    method SetQuery(query: Option<string>)
      modifies this
      ensures State() == old(State()).(query := query)
    {
      this.query := query;
    }

    method SetUrl(url: Option<string>)
      modifies this
      ensures State() == old(State()).(ontUrl := url)
    {
      ontUrl := url;
    }

    method SetFile(file: Option<string>)
      modifies this
      ensures State() == old(State()).(ontFile := file)
    {
      ontFile := file;
    }

    method SetSearchByLabelFlag(flag: bool)
      modifies this
      ensures State() == old(State()).(options := old(State()).options.(byLabel := flag), optionsChanged := true)
    {
      searchByLabel := flag;
      optionsChanged := true;
    }

    method SetSearchByCommentFlag(flag: bool)
      modifies this
      ensures State() == old(State()).(options := old(State()).options.(byComment := flag), optionsChanged := true)
    {
      searchByComment := flag;
      optionsChanged := true;
    }

    method SetSearchByDefinitionFlag(flag: bool)
      modifies this
      ensures State() == old(State()).(options := old(State()).options.(byDefinition := flag), optionsChanged := true)
    {
      searchByDefinition := flag;
      optionsChanged := true;
    }

    method SetSearchByURIFlag(flag: bool)
      modifies this
      ensures State() == old(State()).(options := old(State()).options.(byUri := flag), optionsChanged := true)
    {
      searchByURI := flag;
      optionsChanged := true;
    }

    method SetSearchClassesFlag(flag: bool)
      modifies this
      ensures State() == old(State()).(options := old(State()).options.(classes := flag), optionsChanged := true)
    {
      searchClasses := flag;
      optionsChanged := true;
    }

    method SetSearchObjectPropertiesFlag(flag: bool)
      modifies this
      ensures State() == old(State()).(options := old(State()).options.(objectProperties := flag), optionsChanged := true)
    {
      searchObjectProperties := flag;
      optionsChanged := true;
    }

    // ---- Loading ----

    /** loadOntology: records the current identities as it decides, then asks
        `loader` for the URL, or else the file, and installs what it loads. */
    method LoadOntology(loader: Source -> LoadAttempt) returns (r: LoadResult)
      modifies this
      ensures (State(), r) == LoadStep(old(State()), loader)
    {
      if ontUrl.Some? && oldOntUrl.Some? {
        if ontUrl.value == oldOntUrl.value {
          return Reused;
        } else {
          oldOntUrl := ontUrl;
        }
      } else {
        oldOntUrl := ontUrl;
      }
      if ontFile.Some? && oldOntFile.Some? {
        if ontFile.value == oldOntFile.value {
          return Reused;
        } else {
          oldOntFile := ontFile;
        }
      } else {
        oldOntFile := ontFile;
      }
      var source: Source;
      if ontUrl.None? && ontFile.None? {
        return LoadError(NoSourceSpecified);
      } else if ontUrl.Some? {
        source := Url(ontUrl.value);
      } else {
        source := File(ontFile.value);
      }
      var attempt := loader(source);
      if attempt.LoadFailure? {
        return LoadError(LoadFailed(source, attempt.cause));
      }
      ontology := Some(attempt.root);
      man := Some(Manager(attempt.imports));
      return Reloaded(source);
    }

    // ---- Searching ----

    /** searchByClass: the enabled channels over classes, in the order label,
        comment, definition, URI, with the query lower-cased once. */
    method SearchByClass() returns (r: Result<seq<SearchResult>, SearchError>)
      ensures query.None? || man.None? || ontology.None? ==> r == Failure(NullReference)
      ensures query.Some? && man.Some? && ontology.Some? ==>
        r == Success(ClassRecords(CurrentOptions(), Lower(query.value), ontology.value, man.value.imports))
    {
      if query.None? || man.None? || ontology.None? {
        return Failure(NullReference);
      }
      var lowercaseQuery := Lower(query.value);
      var root, imports := ontology.value, man.value.imports;
      var labelHits := [];
      if searchByLabel {
        labelHits := SearchText(Class, root, imports, lowercaseQuery, RdfsLabel);
      }
      var commentHits := [];
      if searchByComment {
        commentHits := SearchText(Class, root, imports, lowercaseQuery, RdfsComment);
      }
      var definitionHits := [];
      if searchByDefinition {
        definitionHits := SearchText(Class, root, imports, lowercaseQuery, IaoDefinition);
      }
      var uriHits := [];
      if searchByURI {
        uriHits := SearchUri(Class, root, imports, lowercaseQuery);
      }
      return Success(labelHits + commentHits + definitionHits + uriHits);
    }

    /** searchByObjectProperty: the enabled channels over object properties,
        in the order label, definition, comment, URI. */
    method SearchByObjectProperty() returns (r: Result<seq<SearchResult>, SearchError>)
      ensures query.None? || man.None? || ontology.None? ==> r == Failure(NullReference)
      ensures query.Some? && man.Some? && ontology.Some? ==>
        r == Success(PropertyRecords(CurrentOptions(), Lower(query.value), ontology.value, man.value.imports))
    {
      if query.None? || man.None? || ontology.None? {
        return Failure(NullReference);
      }
      var lowerCaseQuery := Lower(query.value);
      var root, imports := ontology.value, man.value.imports;
      var labelHits := [];
      if searchByLabel {
        labelHits := SearchText(ObjectProperty, root, imports, lowerCaseQuery, RdfsLabel);
      }
      var definitionHits := [];
      if searchByDefinition {
        definitionHits := SearchText(ObjectProperty, root, imports, lowerCaseQuery, IaoDefinition);
      }
      var commentHits := [];
      if searchByComment {
        commentHits := SearchText(ObjectProperty, root, imports, lowerCaseQuery, RdfsComment);
      }
      var uriHits := [];
      if searchByURI {
        uriHits := SearchUri(ObjectProperty, root, imports, lowerCaseQuery);
      }
      return Success(labelHits + definitionHits + commentHits + uriHits);
    }

    /** search: clear the results, load, append the class and then the
        object-property records, and replace the results by their deduplication. */
    method Search(loader: Source -> LoadAttempt) returns (outcome: SearchOutcome)
      modifies this
      ensures (State(), outcome) == SearchStep(old(State()), loader)
    {
      results := [];
      ghost var cleared := State();
      var loaded := LoadOntology(loader);
      ghost var afterLoad := State();
      assert (afterLoad, loaded) == LoadStep(old(State()).(results := []), loader) by {
        assert cleared == old(State()).(results := []);
      }
      if loaded.LoadError? {
        return Failed(loaded.error);
      }
      if searchClasses {
        var found := SearchByClass();
        if found.Failure? {
          return Failed(found.error);
        }
        results := results + found.value;
      }
      if searchObjectProperties {
        var found := SearchByObjectProperty();
        if found.Failure? {
          return Failed(found.error);
        }
        results := results + found.value;
      }
      if searchClasses || searchObjectProperties {
        assert results == afterLoad.results + SearchRecords(CurrentOptions(), Lower(query.value), ontology.value, man.value.imports);
      }
      results := RemoveDuplicates(results);
      return Completed;
    }

    /** buildResultTable, without the table: skip when the guard holds;
        otherwise remember the query, mark the options seen and search. */
    method BuildResultTable(loader: Source -> LoadAttempt) returns (status: TableStatus)
      modifies this
      ensures (State(), status) == BuildStep(old(State()), loader)
    {
      if !optionsChanged && query.None? {
        return Raised(NullReference);
      }
      if !optionsChanged && oldQuery.Some? && EqualsIgnoreCase(query.value, oldQuery.value) && IsSameOntology(State()) {
        return Unchanged;
      }
      oldQuery := query;
      optionsChanged := false;
      var outcome := Search(loader);
      if outcome.Failed? {
        return SearchFailed(outcome.error);
      }
      if results == [] {
        return NoResults;
      }
      return Rows(results);
    }
  }
}
