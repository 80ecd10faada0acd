/**
 `CasesService`: the REST read of pending cases from
 `/businesslogic/cases`, its debug probe, and the urgency rule the
 pending-cases dashboard sorts by.
 */
module CasesService {
  import opened Common
  import opened Text
  import PrediagnosticService

  const BaseUrl: string := "http://localhost:8080"
  const CasesPath: string := "/businesslogic/cases"
  const FetchFailed: string := "No se pudieron obtener los casos. Verifica tu conexión."
  const UnknownError: string := "Unknown error"

  type Urgency = PrediagnosticService.Urgency

  /** A pending case; the optional fields may be absent from the backend's JSON. */
  datatype Case = Case(
    id: string,
    patientId: string,
    caseDate: string,
    currentStatus: string,
    patientName: Option<string>,
    aiDiagnosis: Option<string>,
    aiConfidence: Option<real>,
    urgency: Option<Urgency>,
    imageUrl: Option<string>)

  /**
   `getUrgencyLevel`: an explicit urgency wins; otherwise a confidence
   strictly above 0.7 is urgent, and no confidence at all is routine.
   */
  function GetUrgencyLevel(c: Case): (u: Urgency)
    ensures c.urgency.Some? ==> u == c.urgency.value
    ensures c.urgency.None? ==>
      (u == PrediagnosticService.Urgent <==> c.aiConfidence.Some? && c.aiConfidence.value > 0.7)
  {
    match c.urgency
    case Some(u) => u
    case None =>
      if c.aiConfidence.Some? && c.aiConfidence.value != 0.0 && c.aiConfidence.value > 0.7
      then PrediagnosticService.Urgent
      else PrediagnosticService.Routine
  }

  /**
   For a case without an explicit urgency, this rule and the prediagnostic
   service's rule on the same probability agree.
   */
  lemma UrgencyRulesAgree(c: Case)
    requires c.urgency.None? && c.aiConfidence.Some?
    ensures GetUrgencyLevel(c) == PrediagnosticService.GetUrgencyLevel(c.aiConfidence.value)
  {
  }

  /**
   `getCases`: the parsed body is returned unchanged; a rejected fetch, a
   non-ok status and an unparseable body all become one generic message.
   */
  function GetCases<J>(o: HttpOutcome<J>): (r: Result<J, string>)
    ensures r.Ok? <==> o.HttpReply? && o.ok && o.body.Parsed?
    ensures r.Ok? ==> r.value == o.body.value
    ensures r.Err? ==> r.error == FetchFailed
  {
    match o
    case FetchThrew(_) => Err(FetchFailed)
    case HttpReply(ok, _, _, body) =>
      if !ok then Err(FetchFailed)
      else match body
        case Unparseable(_) => Err(FetchFailed)
        case Parsed(data) => Ok(data)
  }

  /** What `debugConnection` reports; timings are left out. */
  datatype DebugResult<+J> = DebugOk(data: J) | DebugFailed(error: string)

  /**
   `debugConnection` never throws. A non-ok status is reported with its
   code and body; an ok response is a success once its body parses.
   */
  function DebugConnection<J>(o: HttpOutcome<J>): (r: DebugResult<J>)
    ensures r.DebugOk? <==> o.HttpReply? && o.ok && o.body.Parsed?
    ensures r.DebugOk? ==> r.data == o.body.value
    ensures o.HttpReply? && !o.ok ==> r == DebugFailed("HTTP " + NatToString(o.status) + ": " + o.text)
    ensures o.FetchThrew? ==> r == DebugFailed(MessageOr(o.error, UnknownError))
    ensures o.HttpReply? && o.ok && o.body.Unparseable? ==> r == DebugFailed(o.body.message)
  {
    match o
    case FetchThrew(e) => DebugFailed(MessageOr(e, UnknownError))
    case HttpReply(ok, status, text, body) =>
      if ok then
        match body
        case Parsed(data) => DebugOk(data)
        case Unparseable(m) => DebugFailed(m)
      else DebugFailed("HTTP " + NatToString(status) + ": " + text)
  }

  /** Whenever the probe succeeds, `getCases` on the same response yields the same data. */
  lemma DebugAgreesWithGetCases<J>(o: HttpOutcome<J>)
    ensures DebugConnection(o).DebugOk? <==> GetCases(o).Ok?
    ensures GetCases(o).Ok? ==> DebugConnection(o).data == GetCases(o).value
  {
  }
}
