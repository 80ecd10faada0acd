/**
 The backend case browser of the HU7 test page: it lists every case the
 GraphQL backend returns, searches them by id, patient name and status, and
 either hands a selected case to its parent or opens the detail view itself.
 */
module BackendBrowser {
  import opened Common
  import opened Text
  import opened Seqs
  import opened GraphQLClient

  datatype BrowserCase = BrowserCase(
    id: string,
    pacienteNombre: string,
    pacienteEmail: string,
    estado: string,
    fechaSubida: string,
    urlRadiografia: string)

  /** The data of the `GetAllCases` query; `getCases` may be missing. */
  datatype AllCasesData = AllCasesData(getCases: Option<seq<BrowserCase>>)

  datatype BrowserState = BrowserState(
    cases: seq<BrowserCase>,
    loading: bool,
    error: Option<string>,
    selectedCaseId: Option<string>,
    searchTerm: string)

  const Initial: BrowserState := BrowserState([], false, None, None, "")

  const ConnectError: string := "Error connecting to backend"

  /** The start of `fetchRealCases`: loading, the previous error cleared. */
  function BeginFetch(s: BrowserState): (r: BrowserState)
    ensures r.loading && r.error.None?
    ensures r.cases == s.cases && r.selectedCaseId == s.selectedCaseId && r.searchTerm == s.searchTerm
  {
    s.(loading := true, error := None)
  }

  /**
   The end of `fetchRealCases`. A non-empty list replaces the cases and
   anything else that returned empties them; reading `getCases` of missing
   data throws a TypeError, which, like any thrown error, is shown while the
   previous cases stay.
   */
  function CompleteFetch(s: BrowserState, o: QueryOutcome<AllCasesData>): (r: BrowserState)
    requires s.error.None?
    ensures !r.loading
    ensures r.selectedCaseId == s.selectedCaseId && r.searchTerm == s.searchTerm
    ensures o.Threw? ==> r.cases == s.cases && r.error == Some(MessageOr(o.error, ConnectError))
    ensures o.Returned? && o.data.None? ==>
      r.cases == s.cases && r.error == Some(ReadOfUndefined("getCases").message)
    ensures o.Returned? && o.data.Some? ==>
      && r.error.None?
      && var got := o.data.value.getCases;
         r.cases == if got.Some? && |got.value| > 0 then got.value else []
  {
    match o
    case Threw(e) => s.(loading := false, error := Some(MessageOr(e, ConnectError)))
    case Returned(None) => s.(loading := false, error := Some(ReadOfUndefined("getCases").message))
    case Returned(Some(data)) =>
      var cs := match data.getCases
        case Some(list) => if |list| > 0 then list else []
        case None => [];
      s.(cases := cs, loading := false)
  }

  /** A successful answer always installs exactly what the backend listed. */
  lemma ReturnedListIsShown(s: BrowserState, cs: seq<BrowserCase>)
    requires s.error.None?
    ensures CompleteFetch(s, Returned(Some(AllCasesData(Some(cs))))).cases == cs
    ensures CompleteFetch(s, Returned(Some(AllCasesData(None)))).cases == []
  {
  }

  /** A case matches when its id, patient name or status includes the term, ignoring case. */
  predicate MatchesSearch(c: BrowserCase, term: string)
  {
    || Contains(Lower(c.id), Lower(term))
    || Contains(Lower(c.pacienteNombre), Lower(term))
    || Contains(Lower(c.estado), Lower(term))
  }

  /** `filteredCases` */
  function FilterCases(cases: seq<BrowserCase>, term: string): (r: seq<BrowserCase>)
    ensures forall c :: c in r <==> c in cases && MatchesSearch(c, term)
    ensures IsSubsequence(r, cases)
  {
    var p := (c: BrowserCase) => MatchesSearch(c, term);
    forall c ensures c in Filter(p, cases) <==> c in cases && p(c) {
      FilterMembership(p, cases, c);
    }
    FilterIsSubsequence(p, cases);
    Filter(p, cases)
  }

  /** An empty search shows every case; searching the result again changes nothing. */
  lemma SearchProperties(cases: seq<BrowserCase>, term: string)
    ensures FilterCases(cases, "") == cases
    ensures FilterCases(FilterCases(cases, term), term) == FilterCases(cases, term)
    ensures FilterCases(cases, Lower(term)) == FilterCases(cases, term)
  {
    var p := (c: BrowserCase) => MatchesSearch(c, "");
    forall c | c in cases ensures p(c) {
      ContainsEmpty(Lower(c.id));
    }
    FilterKeepsAll(p, cases);
    FilterIdempotent((c: BrowserCase) => MatchesSearch(c, term), cases);
    LowerIdempotent(term);
    FilterExtensional((c: BrowserCase) => MatchesSearch(c, Lower(term)),
                      (c: BrowserCase) => MatchesSearch(c, term), cases);
  }

  /** "No cases match your search" shows when a non-empty term filters everything out. */
  predicate ShowsNoMatch(s: BrowserState)
  {
    |s.cases| > 0 && FilterCases(s.cases, s.searchTerm) == [] && s.searchTerm != ""
  }

  /** An empty search box never reports that nothing matches. */
  lemma EmptySearchNeverReportsNoMatch(s: BrowserState)
    requires s.searchTerm == ""
    ensures !ShowsNoMatch(s)
  {
  }

  /** `getStatusColor`: Spanish and English status names, any case. */
  function GetStatusColor(status: string): (v: string)
    ensures v == "default" <==> Lower(status) in {"validado", "validated"}
    ensures v == "secondary" <==> Lower(status) in {"procesado", "processed"}
    ensures v == "outline" <==> Lower(status) !in {"validado", "validated", "procesado", "processed"}
  {
    var l := Lower(status);
    if l == "validado" || l == "validated" then "default"
    else if l == "procesado" || l == "processed" then "secondary"
    else "outline"
  }

  /** The colour ignores case. */
  lemma StatusColorCaseInsensitive(status: string)
    ensures GetStatusColor(status) == GetStatusColor(Lower(status))
  {
    LowerIdempotent(status);
  }

  /**
   `handleCaseSelect`: with a parent handler the id is passed up and the
   browser's own state is untouched; otherwise the browser remembers it.
   */
  function HandleCaseSelect(s: BrowserState, caseId: string, hasHandler: bool): (r: (BrowserState, Option<string>))
    ensures hasHandler ==> r.0 == s && r.1 == Some(caseId)
    ensures !hasHandler ==> r.0 == s.(selectedCaseId := Some(caseId)) && r.1.None?
  {
    if hasHandler then (s, Some(caseId)) else (s.(selectedCaseId := Some(caseId)), None)
  }

  /** The detail view replaces the list when an id is selected and no parent handles selection. */
  predicate ShowsDetail(s: BrowserState, hasHandler: bool)
  {
    Truthy(s.selectedCaseId) && !hasHandler
  }

  /** Selecting a non-empty id opens the detail view exactly when there is no parent handler. */
  lemma SelectOpensDetail(s: BrowserState, caseId: string, hasHandler: bool)
    requires caseId != "" && s.selectedCaseId.None?
    ensures ShowsDetail(HandleCaseSelect(s, caseId, hasHandler).0, hasHandler) <==> !hasHandler
  {
  }

  /** The "No Cases Found" help shows once loading ended with no cases and no (non-empty) error. */
  predicate ShowsNoCasesHelp(s: BrowserState)
  {
    !s.loading && s.cases == [] && !Truthy(s.error)
  }

  /**
   After the backend answered with data, the help shows exactly when it
   listed no cases; after a failure with a message it never shows.
   */
  lemma NoCasesHelpAfterFetch(s: BrowserState, o: QueryOutcome<AllCasesData>)
    requires s.error.None?
    ensures o.Returned? && o.data.Some? ==>
      (ShowsNoCasesHelp(CompleteFetch(s, o)) <==>
        var got := o.data.value.getCases; got.None? || got.value == [])
    ensures o.Threw? && MessageOr(o.error, ConnectError) != "" ==> !ShowsNoCasesHelp(CompleteFetch(s, o))
  {
  }
}
