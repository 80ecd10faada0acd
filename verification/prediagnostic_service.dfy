/**
 `PreDiagnosticService`: reads one model prediagnostic over GraphQL and
 classifies it for display (urgency from the pneumonia probability, badge
 colour from the label).
 */
module PrediagnosticService {
  import opened Common
  import opened Text
  import opened GraphQLClient

  /** The model's output for one radiograph. */
  datatype ModelResults = ModelResults(probNeumonia: real, etiqueta: string)

  /** A prediagnostic as the backend returns it. */
  datatype PreDiagnostic = PreDiagnostic(
    prediagnosticId: string,
    pacienteId: string,
    estado: string,
    urlrad: string,
    fechaSubida: string,
    resultadosModelo: ModelResults)

  /** The data of the `getPreDiagnostic` query; the member itself may be null. */
  datatype GetPreDiagnosticData = GetPreDiagnosticData(getPreDiagnostic: Option<PreDiagnostic>)

  datatype Urgency = Routine | Urgent

  const UrgencyThreshold: real := 0.7
  const FetchFailed: string := "No se pudo obtener el prediagnóstico. Verifica tu conexión."
  const UnknownError: string := "Error desconocido"

  const RedBadge: string := "bg-red-100 text-red-800"
  const GreenBadge: string := "bg-green-100 text-green-800"
  const YellowBadge: string := "bg-yellow-100 text-yellow-800"

  /** `getUrgencyLevel`: strictly above the threshold is urgent. */
  function GetUrgencyLevel(probNeumonia: real): (u: Urgency)
    ensures u == Urgent <==> probNeumonia > UrgencyThreshold
  {
    if probNeumonia > UrgencyThreshold then Urgent else Routine
  }

  /** The threshold itself is routine, and urgency never decreases as the probability grows. */
  lemma UrgencyMonotone(p: real, q: real)
    requires p <= q
    ensures GetUrgencyLevel(p) == Urgent ==> GetUrgencyLevel(q) == Urgent
    ensures GetUrgencyLevel(UrgencyThreshold) == Routine
  {
  }

  /** `getBadgeColor`: case-insensitive on the label. */
  function GetBadgeColor(etiqueta: string): (c: string)
    ensures c == RedBadge <==> Lower(etiqueta) == "neumonía" || Lower(etiqueta) == "neumonia"
    ensures c == GreenBadge <==> Lower(etiqueta) == "normal"
    ensures c in {RedBadge, GreenBadge, YellowBadge}
  {
    BadgesDistinct();
    var l := Lower(etiqueta);
    if l == "neumonía" || l == "neumonia" then RedBadge
    else if l == "normal" then GreenBadge
    else YellowBadge
  }

  lemma BadgesDistinct()
    ensures RedBadge != GreenBadge && RedBadge != YellowBadge && GreenBadge != YellowBadge
  {
    assert |RedBadge| == 23 && |GreenBadge| == 27 && |YellowBadge| == 29;
  }

  /** The badge depends only on the lower-cased label. */
  lemma BadgeColorCaseInsensitive(etiqueta: string)
    ensures GetBadgeColor(etiqueta) == GetBadgeColor(Lower(etiqueta))
  {
    LowerIdempotent(etiqueta);
  }

  /**
   `getPreDiagnostic`: missing data and every thrown error become one
   generic message; otherwise the `getPreDiagnostic` member is returned as
   is, null included.
   */
  function GetPreDiagnostic(outcome: QueryOutcome<GetPreDiagnosticData>): (r: Result<Option<PreDiagnostic>, string>)
    ensures r.Err? <==> outcome.Threw? || outcome.data.None?
    ensures r.Err? ==> r.error == FetchFailed
    ensures r.Ok? ==> r.value == outcome.data.value.getPreDiagnostic
  {
    match outcome
    case Threw(_) => Err(FetchFailed)
    case Returned(None) => Err(FetchFailed)
    case Returned(Some(data)) => Ok(data.getPreDiagnostic)
  }

  /** `getPreDiagnosticById` delegates to `getPreDiagnostic` without change. */
  function GetPreDiagnosticById(outcome: QueryOutcome<GetPreDiagnosticData>): (r: Result<Option<PreDiagnostic>, string>)
    ensures r == GetPreDiagnostic(outcome)
  {
    GetPreDiagnostic(outcome)
  }

  /** What `debugConnection` reports; timings are left out. */
  datatype DebugResult = DebugOk(data: Option<GetPreDiagnosticData>) | DebugFailed(error: string)

  /**
   `debugConnection` never throws: success exactly when the query did not
   throw, carrying the data even when it is missing.
   */
  function DebugConnection(outcome: QueryOutcome<GetPreDiagnosticData>): (r: DebugResult)
    ensures r.DebugOk? <==> outcome.Returned?
    ensures r.DebugOk? ==> r.data == outcome.data
    ensures r.DebugFailed? ==> r.error == MessageOr(outcome.error, UnknownError)
  {
    match outcome
    case Returned(data) => DebugOk(data)
    case Threw(e) => DebugFailed(MessageOr(e, UnknownError))
  }

  /**
   The probe succeeds whenever `getPreDiagnostic` does, carrying the same
   prediagnostic. It is more lenient only in one case: a query that resolved
   without data, which the probe reports as a success.
   */
  lemma DebugCoversGetPreDiagnostic(outcome: QueryOutcome<GetPreDiagnosticData>)
    ensures GetPreDiagnostic(outcome).Ok? ==>
      && DebugConnection(outcome).DebugOk?
      && DebugConnection(outcome).data.Some?
      && DebugConnection(outcome).data.value.getPreDiagnostic == GetPreDiagnostic(outcome).value
    ensures DebugConnection(outcome).DebugFailed? ==> GetPreDiagnostic(outcome).Err?
    ensures (DebugConnection(outcome).DebugOk? && GetPreDiagnostic(outcome).Err?) <==> outcome == Returned(None)
  {
  }
}
