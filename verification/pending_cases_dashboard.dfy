/**
 The doctor's pending-cases dashboard: it loads the cases over REST,
 substitutes three built-in cases when the backend cannot be reached, and
 splits what it shows into urgent and available cases.
 */
module PendingCasesDashboard {
  import opened Common
  import opened Text
  import opened Seqs
  import opened CasesService
  import P = PrediagnosticService

  datatype DashboardState = DashboardState(
    cases: seq<Case>,
    loading: bool,
    error: Option<string>,
    isUsingMockData: bool)

  const Initial: DashboardState := DashboardState([], true, None, false)

  const BackendUnavailable: string := "Backend no disponible - usando datos de prueba"

  /** The three cases shown when the backend is unavailable. */
  const MockCases: seq<Case> := [
    Case("case-001", "P001", "2025-01-15T10:30:00Z", "procesado", Some("Juan Pérez"), Some("Neumonía"),
         Some(0.85), Some(P.Urgent), Some("https://via.placeholder.com/400x300/1f2937/ffffff?text=Caso+P001")),
    Case("case-002", "P002", "2025-01-14T14:20:00Z", "procesado", Some("María García"), Some("Normal"),
         Some(0.25), Some(P.Routine), Some("https://via.placeholder.com/400x300/065f46/ffffff?text=Caso+P002")),
    Case("case-003", "P003", "2025-01-13T09:15:00Z", "procesado", Some("Carlos López"), Some("Neumonía"),
         Some(0.72), Some(P.Urgent), Some("https://via.placeholder.com/400x300/991b1b/ffffff?text=Caso+P003"))
  ]

  /** The start of `fetchCases`: loading, and the previous error cleared. */
  function BeginFetch(s: DashboardState): (r: DashboardState)
    ensures r.loading && r.error.None?
    ensures r.cases == s.cases && r.isUsingMockData == s.isUsingMockData
  {
    s.(loading := true, error := None)
  }

  /**
   The end of `fetchCases`, given what `getCases` produced: the backend's
   list replaces the cases, or any failure installs the mock cases with a
   warning. Loading always ends.
   */
  function CompleteFetch(s: DashboardState, fetched: Result<seq<Case>, string>): (r: DashboardState)
    requires s.error.None?
    ensures !r.loading
    ensures r.isUsingMockData <==> fetched.Err?
    ensures r.error.Some? <==> fetched.Err?
    ensures fetched.Ok? ==> r.cases == fetched.value
    ensures fetched.Err? ==> r.cases == MockCases && r.error == Some(BackendUnavailable)
  {
    match fetched
    case Ok(cs) => s.(cases := cs, isUsingMockData := false, loading := false)
    case Err(_) => s.(cases := MockCases, isUsingMockData := true, error := Some(BackendUnavailable), loading := false)
  }

  /** A whole fetch: what it leaves behind does not depend on the state before it. */
  function FetchCases(s: DashboardState, fetched: Result<seq<Case>, string>): (r: DashboardState)
    ensures r == CompleteFetch(Initial.(loading := false), fetched)
  {
    CompleteFetch(BeginFetch(s), fetched)
  }

  predicate IsUrgent(c: Case)
  {
    GetUrgencyLevel(c) == P.Urgent
  }

  /** The cases of the "Casos Urgentes" column. */
  function UrgentCases(cases: seq<Case>): (r: seq<Case>)
    ensures forall c :: c in r <==> c in cases && IsUrgent(c)
  {
    forall c ensures c in Filter(IsUrgent, cases) <==> c in cases && IsUrgent(c) {
      FilterMembership(IsUrgent, cases, c);
    }
    Filter(IsUrgent, cases)
  }

  /** The cases of the "Casos Disponibles" column: every case that is not urgent. */
  function AvailableCases(cases: seq<Case>): (r: seq<Case>)
    ensures forall c :: c in r ==> c in cases && !IsUrgent(c)
  {
    Reject(IsUrgent, cases)
  }

  /**
   The two columns split the list: every case appears in exactly one of
   them, as often as in the input, and each column keeps the list's order.
   */
  lemma ColumnsPartitionCases(cases: seq<Case>)
    ensures multiset(UrgentCases(cases)) + multiset(AvailableCases(cases)) == multiset(cases)
    ensures |UrgentCases(cases)| + |AvailableCases(cases)| == |cases|
    ensures forall c :: c in cases ==> (c in UrgentCases(cases) <==> c !in AvailableCases(cases))
    ensures IsSubsequence(UrgentCases(cases), cases) && IsSubsequence(AvailableCases(cases), cases)
  {
    FilterRejectPartition(IsUrgent, cases);
    FilterIsSubsequence(IsUrgent, cases);
    RejectIsSubsequence(IsUrgent, cases);
    forall c | c in cases
      ensures c in UrgentCases(cases) <==> c !in AvailableCases(cases)
    {
      var m := multiset(cases);
      assert m[c] > 0;
      if !IsUrgent(c) {
        assert c !in UrgentCases(cases);
        assert multiset(UrgentCases(cases))[c] == 0;
        assert multiset(AvailableCases(cases))[c] > 0;
      }
    }
  }

  /** With the mock cases the dashboard shows two urgent cases and one available. */
  lemma MockColumns()
    ensures UrgentCases(MockCases) == [MockCases[0], MockCases[2]]
    ensures AvailableCases(MockCases) == [MockCases[1]]
  {
    var s := MockCases;
    assert s[1..][1..][1..] == [];
    assert s[1..][1..] == [s[2]];
    assert s[1..] == [s[1], s[2]];
  }

  const GreenBadge: string := "bg-green-100 text-green-800"
  const YellowBadge: string := "bg-yellow-100 text-yellow-800"
  const RedBadge: string := "bg-red-100 text-red-800"
  const GrayBadge: string := "bg-gray-100 text-gray-800"

  lemma StatusBadgesDistinct()
    ensures GreenBadge != YellowBadge && GreenBadge != RedBadge && GreenBadge != GrayBadge
    ensures YellowBadge != RedBadge && YellowBadge != GrayBadge && RedBadge != GrayBadge
  {
    assert |GreenBadge| == 27 && |YellowBadge| == 29 && |RedBadge| == 23 && |GrayBadge| == 25;
  }

  /** `getBadgeColor`: a switch on the lower-cased status. */
  function GetBadgeColor(status: string): (c: string)
    ensures c == GreenBadge <==> Lower(status) == "procesado"
    ensures c == YellowBadge <==> Lower(status) == "pendiente"
    ensures c == RedBadge <==> Lower(status) == "error"
    ensures c == GrayBadge <==> Lower(status) !in {"procesado", "pendiente", "error"}
  {
    StatusBadgesDistinct();
    var l := Lower(status);
    if l == "procesado" then GreenBadge
    else if l == "pendiente" then YellowBadge
    else if l == "error" then RedBadge
    else GrayBadge
  }

  /** The badge ignores the case of the status. */
  lemma BadgeColorCaseInsensitive(status: string)
    ensures GetBadgeColor(status) == GetBadgeColor(Lower(status))
  {
    LowerIdempotent(status);
  }
}
