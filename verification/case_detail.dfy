/**
 The radiograph detail view of the HU7 test page. It either queries the
 backend for one case, falling back to a built-in sample when the query
 throws, or shows the built-in sample directly, relabelled with the
 requested case id.
 */
module CaseDetailView {
  import opened Common
  import opened GraphQLClient

  datatype ModelResult = ModelResult(probNeumonia: real, etiqueta: string, fechaProcesamiento: string)

  datatype PreDiag = PreDiag(
    prediagnosticId: string,
    pacienteId: string,
    urlrad: string,
    estado: string,
    resultadosModelo: ModelResult,
    fechaSubida: string)

  datatype Diagnostic = Diagnostic(
    id: string,
    prediagnosticoId: string,
    aprobacion: string,
    comentarios: string,
    fechaRevision: string,
    doctorNombre: string)

  datatype CaseDetail = CaseDetail(
    id: string,
    radiografiaId: string,
    urlImagen: string,
    estado: string,
    fechaSubida: string,
    preDiagnostic: PreDiag,
    diagnostic: Option<Diagnostic>)

  /** The data of the `GetCaseDetail` query; `caseDetail` may be null. */
  datatype CaseDetailData = CaseDetailData(caseDetail: Option<CaseDetail>)

  /** The built-in sample case. */
  const MockCaseDetail: CaseDetail := CaseDetail(
    "1", "rad_001", "/chest-x-ray-sample.jpg", "Validado", "2024-01-15T00:00:00Z",
    PreDiag("pred_001", "P001", "/chest-x-ray-sample.jpg", "Procesado",
            ModelResult(0.85, "Neumonía", "2024-01-16T00:00:00Z"), "2024-01-15T00:00:00Z"),
    Some(Diagnostic("diag_001", "pred_001", "Aprobado",
                    "La imagen muestra una opacidad en el lóbulo inferior izquierdo, consistente con el pre-diagnóstico de neumonía. Se recomienda tratamiento antibiótico y seguimiento en 2 semanas.",
                    "2024-01-17T00:00:00Z", "Dr. Carlos Vega")))

  /** The sample relabelled for `caseId`; every other field is the sample's. */
  function MockFor(caseId: string): (d: CaseDetailData)
    ensures d.caseDetail.Some?
    ensures d.caseDetail.value.id == caseId
    ensures d.caseDetail.value.radiografiaId == "rad_" + caseId
    ensures d.caseDetail.value == MockCaseDetail.(id := caseId, radiografiaId := "rad_" + caseId)
  {
    CaseDetailData(Some(MockCaseDetail.(id := caseId, radiografiaId := "rad_" + caseId)))
  }

  datatype DetailState = DetailState(data: Option<CaseDetailData>, loading: bool, error: Option<string>)

  const Initial: DetailState := DetailState(None, true, None)

  /**
   `fetchCaseDetail`, given how the query would end. In real mode the
   query's result is stored as received, and a thrown error falls back to
   the sample. In sample mode nothing can throw, so the error branch of the
   `catch` is never taken.
   */
  function FetchCaseDetail(caseId: string, useRealBackend: bool, o: QueryOutcome<CaseDetailData>): (s: DetailState)
    ensures !s.loading && s.error.None?
    ensures useRealBackend && o.Returned? ==> s.data == o.data
    ensures !(useRealBackend && o.Returned?) ==> s.data == Some(MockFor(caseId))
  {
    if useRealBackend then
      match o
      case Returned(d) => DetailState(d, false, None)
      case Threw(_) => DetailState(Some(MockFor(caseId)), false, None)
    else DetailState(Some(MockFor(caseId)), false, None)
  }

  /** What the component renders. */
  datatype View = Loading | ErrorView(message: string) | NotFound | Detail(detail: CaseDetail)

  function ViewOf(s: DetailState): (v: View)
    ensures v.Loading? <==> s.loading
    ensures v.ErrorView? <==> !s.loading && Truthy(s.error)
    ensures v.Detail? ==> s.data.Some? && s.data.value.caseDetail == Some(v.detail)
    ensures !s.loading && !Truthy(s.error) ==>
      (v.Detail? <==> s.data.Some? && s.data.value.caseDetail.Some?)
    ensures v.ErrorView? ==> v.message == s.error.value
  {
    if s.loading then Loading
    else if Truthy(s.error) then ErrorView(s.error.value)
    else match s.data
      case Some(CaseDetailData(Some(d))) => Detail(d)
      case _ => NotFound
  }

  /**
   After a fetch the error view never appears, and "not found" appears only
   when the real backend answered without a case.
   */
  lemma FetchNeverShowsError(caseId: string, useRealBackend: bool, o: QueryOutcome<CaseDetailData>)
    ensures var v := ViewOf(FetchCaseDetail(caseId, useRealBackend, o));
      && !v.ErrorView? && !v.Loading?
      && (v.NotFound? <==> useRealBackend && o.Returned? && (o.data.None? || o.data.value.caseDetail.None?))
  {
  }

  /** Whenever the sample is shown, it carries the requested id. */
  lemma SampleCarriesRequestedId(caseId: string, useRealBackend: bool, o: QueryOutcome<CaseDetailData>)
    requires !(useRealBackend && o.Returned?)
    ensures ViewOf(FetchCaseDetail(caseId, useRealBackend, o)).Detail?
    ensures ViewOf(FetchCaseDetail(caseId, useRealBackend, o)).detail.id == caseId
  {
  }

  /** The "Fecha de Diagnóstico" cell: the review date, or "Pendiente" without a diagnosis. */
  function ReviewDateCell(d: CaseDetail): (cell: string)
    ensures d.diagnostic.Some? ==> cell == d.diagnostic.value.fechaRevision
    ensures d.diagnostic.None? ==> cell == "Pendiente"
  {
    match d.diagnostic
    case Some(diag) => diag.fechaRevision
    case None => "Pendiente"
  }

  /** `Math.round(p * 100)`: halves round up. */
  function Percent(p: real): (n: int)
    ensures n as real <= p * 100.0 + 0.5 < n as real + 1.0
  {
    (p * 100.0 + 0.5).Floor
  }

  /** The sample's probability shows as 85%. */
  lemma SamplePercent()
    ensures Percent(MockCaseDetail.preDiagnostic.resultadosModelo.probNeumonia) == 85
  {
  }
}
