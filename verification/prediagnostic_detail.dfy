/**
 The prediagnostic detail page: it loads one prediagnostic (falling back to
 built-in mock entries), colours the pneumonia probability, and hosts the
 doctor's diagnostic form with its own inline validation, the approve/reject
 checkbox pair and the submit step.
 */
module PrediagnosticDetail {
  import opened Common
  import opened Text
  import opened Seqs
  import DS = DiagnosticService
  import opened PrediagnosticService

  // ------------------------------------------------------------ the form

  datatype Approval = Si | No

  /** The string the payload carries for each choice. */
  function Word(a: Approval): string
  {
    match a
    case Si => "Si"
    case No => "No"
  }

  /** The form's state: the chosen approval, the comment as typed, the error list, the busy flag. */
  datatype FormState = FormState(approval: Option<Approval>, comment: string, errors: seq<string>, isSubmitting: bool)

  const InitialForm: FormState := FormState(None, "", [], false)

  const CommentRequired: string := "El " + "comentario" + " médico " + "es obligatorio"
  const ApprovalNeedle: string := "seleccionar si aprueba"
  const CommentNeedle: string := "comentario"
  const PendingCasesPath: string := "/doctor/casos-pendientes"

  lemma FormMessagesDistinct()
    ensures CommentRequired != DS.MinLengthError && CommentRequired != DS.MaxLengthError
    ensures CommentRequired != DS.ApprovalError
  {
    assert |CommentRequired| == 35;
    DS.MessagesDistinct();
  }

  /** Number of comment-related messages in a list. */
  function CommentErrorCount(errs: seq<string>): nat
  {
    |Filter((e: string) => e in {CommentRequired, DS.MinLengthError, DS.MaxLengthError}, errs)|
  }

  /**
   The inline validation of `handleSubmitDiagnostic`. The three comment
   checks form an else-if chain: empty after trimming, then too short after
   trimming, then too long before trimming. Lengths are in UTF-16 code units.
   */
  function SubmitErrors(approval: Option<Approval>, comment: string): (errs: seq<string>)
    ensures DS.ApprovalError in errs <==> approval.None?
    ensures CommentRequired in errs <==> Trim(comment) == []
    ensures DS.MinLengthError in errs <==> Trim(comment) != [] && Utf16Length(Trim(comment)) < DS.MinCommentLength
    ensures DS.MaxLengthError in errs <==>
      Utf16Length(Trim(comment)) >= DS.MinCommentLength && Utf16Length(comment) > DS.MaxCommentLength
    ensures forall e :: e in errs ==> e in [DS.ApprovalError, CommentRequired, DS.MinLengthError, DS.MaxLengthError]
    ensures |errs| == (if approval.None? then 1 else 0)
      + (if Trim(comment) == [] || Utf16Length(Trim(comment)) < DS.MinCommentLength
            || Utf16Length(comment) > DS.MaxCommentLength then 1 else 0)
    ensures forall i, j :: 0 <= i < j < |errs| ==> errs[i] != errs[j]
    ensures CommentErrorCount(errs) <= 1
    ensures errs != [] && approval.None? ==> errs[0] == DS.ApprovalError
    ensures |errs| <= 2
  {
    FormMessagesDistinct();
    DS.MessagesDistinct();
    var t := Trim(comment);
    var first := if approval.None? then [DS.ApprovalError] else [];
    var second :=
      if t == [] then [CommentRequired]
      else if Utf16Length(t) < DS.MinCommentLength then [DS.MinLengthError]
      else if Utf16Length(comment) > DS.MaxCommentLength then [DS.MaxLengthError]
      else [];
    CommentCountOfChain(first, second);
    first + second
  }

  /** An optional approval message followed by at most one message has at most one comment message. */
  lemma CommentCountOfChain(first: seq<string>, second: seq<string>)
    requires first == [] || first == [DS.ApprovalError]
    requires |second| <= 1
    ensures CommentErrorCount(first + second) <= 1
  {
    var p := (e: string) => e in {CommentRequired, DS.MinLengthError, DS.MaxLengthError};
    FilterAppend(p, first, second);
    DS.MessagesDistinct();
    FormMessagesDistinct();
    assert Filter(p, first) == [];
  }

  /** The outcome of pressing "Enviar Diagnóstico". */
  datatype SubmitStep =
    | Blocked(form: FormState)
    | Sending(form: FormState, payload: DS.Payload)

  /**
   `handleSubmitDiagnostic` up to the network call: any validation error
   stops it before the busy flag is set and before a payload exists;
   otherwise the payload carries the chosen word and the trimmed comment.
   */
  function BeginSubmit(s: FormState): (step: SubmitStep)
    ensures step.Blocked? <==> SubmitErrors(s.approval, s.comment) != []
    ensures step.Blocked? ==> step.form == s.(errors := SubmitErrors(s.approval, s.comment))
    ensures step.Sending? ==>
      && s.approval.Some?
      && step.form == s.(errors := [], isSubmitting := true)
      && step.payload == DS.Payload(Some(Word(s.approval.value)), Some(Trim(s.comment)))
  {
    var errs := SubmitErrors(s.approval, s.comment);
    if errs != [] then Blocked(s.(errors := errs))
    else Sending(s.(errors := [], isSubmitting := true),
                 DS.Payload(Some(Word(s.approval.value)), Some(Trim(s.comment))))
  }

  /**
   The end of a submission: the busy flag drops, and a successful answer
   schedules navigation to the pending-cases list.
   */
  function FinishSubmit(s: FormState, result: DS.DiagnosticResponse): (r: (FormState, Option<string>))
    ensures !r.0.isSubmitting
    ensures r.0 == s.(isSubmitting := false)
    ensures r.1.Some? <==> result.success
    ensures r.1.Some? ==> r.1.value == PendingCasesPath
  {
    (s.(isSubmitting := false), if result.success then Some(PendingCasesPath) else None)
  }

  /** Whatever the form lets through also passes the service's own validation. */
  lemma SentPayloadIsValid(s: FormState)
    requires BeginSubmit(s).Sending?
    ensures DS.ValidateDiagnostic(BeginSubmit(s).payload).isValid
  {
    var t := Trim(s.comment);
    assert SubmitErrors(s.approval, s.comment) == [];
    assert Utf16Length(t) >= DS.MinCommentLength && Utf16Length(s.comment) <= DS.MaxCommentLength;
    assert Trim(t) == t by { TrimIdempotent(s.comment); }
    TrimUtf16Shorter(s.comment);
    var p := BeginSubmit(s).payload;
    assert p.comentario == Some(t) && DS.ApprovalAccepted(p.aprobacion);
    assert !DS.CommentTooShort(p.comentario);
    assert !DS.CommentTooLong(p.comentario);
  }

  /**
   On the raw comment, the form and the service accept exactly the same
   inputs, although the form reports an empty comment with its own message.
   */
  lemma FormAgreesWithService(approval: Option<Approval>, comment: string)
    ensures SubmitErrors(approval, comment) == [] <==>
      DS.ValidateDiagnostic(DS.Payload(if approval.Some? then Some(Word(approval.value)) else None,
                                       Some(comment))).isValid
  {
  }

  /** `errors.filter(e => !e.includes(needle))` */
  function WithoutMatching(errors: seq<string>, needle: string): (r: seq<string>)
    ensures forall e :: e in r <==> e in errors && !Contains(e, needle)
    ensures IsSubsequence(r, errors)
  {
    var p := (e: string) => !Contains(e, needle);
    forall e ensures e in Filter(p, errors) <==> e in errors && p(e) {
      FilterMembership(p, errors, e);
    }
    FilterIsSubsequence(p, errors);
    Filter(p, errors)
  }

  /**
   `onCheckedChange` of the checkbox for `box`. Checking selects that box and
   clears the approval error; unchecking the selected box clears the choice;
   unchecking the other box changes nothing.
   */
  function OnCheckedChange(s: FormState, box: Approval, checked: bool): (r: FormState)
    ensures checked ==> r.approval == Some(box)
    ensures checked ==> r.errors == WithoutMatching(s.errors, ApprovalNeedle)
    ensures !checked && s.approval == Some(box) ==> r == s.(approval := None)
    ensures !checked && s.approval != Some(box) ==> r == s
    ensures r.comment == s.comment && r.isSubmitting == s.isSubmitting
  {
    if checked then s.(approval := Some(box), errors := WithoutMatching(s.errors, ApprovalNeedle))
    else if s.approval == Some(box) then s.(approval := None)
    else s
  }

  /** The approval message contains the checkboxes' filter needle. */
  lemma ApprovalErrorHasNeedle()
    ensures Contains(DS.ApprovalError, ApprovalNeedle)
  {
    var tail := " o rechaza el " + "resultado del modelo";
    assert DS.ApprovalError == "Debe " + ApprovalNeedle + tail;
    ContainsInMiddle("Debe ", ApprovalNeedle, tail);
  }

  /** No comment message contains the checkboxes' filter needle. */
  lemma CommentErrorsLackApprovalNeedle(e: string)
    requires IsCommentError(e)
    ensures !Contains(e, ApprovalNeedle)
  {
    if Contains(e, ApprovalNeedle) {
      if e == DS.MaxLengthError {
        ContainsKeepsChars(e, ApprovalNeedle, 'b');
      } else {
        ContainsKeepsChars(e, ApprovalNeedle, 'p');
      }
    }
  }

  /**
   The approval message does not contain the comment box's filter needle:
   its only 'm' is in its last word, too late for "comentario" to fit.
   */
  lemma ApprovalErrorLacksCommentNeedle()
    ensures !Contains(DS.ApprovalError, CommentNeedle)
  {
    var head := "Debe " + "seleccionar si aprueba" + " o rechaza el " + "resultado del ";
    assert DS.ApprovalError == head + "modelo";
    assert DS.ApprovalError[..54] == head[..54];
    if Contains(DS.ApprovalError, CommentNeedle) {
      ContainsNeedsCharBefore(DS.ApprovalError, CommentNeedle, 2);
    }
  }

  /** Every comment message contains the comment box's filter needle. */
  lemma CommentErrorsHaveNeedle(e: string)
    requires IsCommentError(e)
    ensures Contains(e, CommentNeedle)
  {
    if e == CommentRequired {
      var tail := " médico " + "es obligatorio";
      assert e == "El " + CommentNeedle + tail;
      ContainsInMiddle("El ", CommentNeedle, tail);
    } else if e == DS.MinLengthError {
      var tail := " médico " + "debe tener al menos " + "10 caracteres";
      assert e == "El " + CommentNeedle + tail;
      ContainsInMiddle("El ", CommentNeedle, tail);
    } else {
      var tail := " médico " + "no puede exceder " + "1000 caracteres";
      assert e == "El " + CommentNeedle + tail;
      ContainsInMiddle("El ", CommentNeedle, tail);
    }
  }

  /** The messages about the comment. */
  predicate IsCommentError(e: string)
  {
    e == CommentRequired || e == DS.MinLengthError || e == DS.MaxLengthError
  }

  /**
   Checking either box removes the approval message and keeps every comment
   message: the filter's needle matches the first and none of the others.
   */
  lemma CheckingClearsOnlyApprovalError(s: FormState, box: Approval)
    ensures DS.ApprovalError !in OnCheckedChange(s, box, true).errors
    ensures forall e :: e in s.errors && IsCommentError(e) ==> e in OnCheckedChange(s, box, true).errors
  {
    ApprovalErrorHasNeedle();
    forall e | e in s.errors && IsCommentError(e)
      ensures e in OnCheckedChange(s, box, true).errors
    {
      CommentErrorsLackApprovalNeedle(e);
    }
  }

  /**
   Typing in the comment box removes every comment message and keeps the
   approval message.
   */
  lemma TypingClearsCommentErrors(s: FormState, value: string)
    ensures forall e :: IsCommentError(e) ==> e !in OnCommentChange(s, value).errors
    ensures DS.ApprovalError in s.errors ==> DS.ApprovalError in OnCommentChange(s, value).errors
  {
    forall e | IsCommentError(e)
      ensures e !in OnCommentChange(s, value).errors
    {
      CommentErrorsHaveNeedle(e);
    }
    ApprovalErrorLacksCommentNeedle();
  }

  /** `onChange` of the comment box: stores the text and drops comment errors only. */
  function OnCommentChange(s: FormState, value: string): (r: FormState)
    ensures r.comment == value
    ensures r.approval == s.approval && r.isSubmitting == s.isSubmitting
    ensures r.errors == WithoutMatching(s.errors, CommentNeedle)
  {
    s.(comment := value, errors := WithoutMatching(s.errors, CommentNeedle))
  }

  // ------------------------------------------------------------ probability display

  datatype Band = High | Medium | Low

  /** The three display bands: at least 0.8, at least 0.5, below. */
  function BandOf(p: real): (b: Band)
    ensures b == High <==> p >= 0.8
    ensures b == Medium <==> 0.5 <= p < 0.8
    ensures b == Low <==> p < 0.5
  {
    if p >= 0.8 then High else if p >= 0.5 then Medium else Low
  }

  /** `getProbabilityColor` */
  function ProbabilityColor(p: real): (c: string)
    ensures c == "text-red-600" <==> p >= 0.8
    ensures c == "text-yellow-600" <==> 0.5 <= p < 0.8
    ensures c == "text-green-600" <==> p < 0.5
  {
    match BandOf(p)
    case High => "text-red-600"
    case Medium => "text-yellow-600"
    case Low => "text-green-600"
  }

  /** `getProbabilityBadgeVariant` */
  function ProbabilityBadgeVariant(p: real): (v: string)
    ensures v == "destructive" <==> p >= 0.8
    ensures v == "outline" <==> 0.5 <= p < 0.8
    ensures v == "secondary" <==> p < 0.5
  {
    match BandOf(p)
    case High => "destructive"
    case Medium => "outline"
    case Low => "secondary"
  }

  /** The colour of the probability bar, with the same thresholds inline. */
  function ProbabilityBarColor(p: real): (c: string)
    ensures c == "bg-red-500" <==> p >= 0.8
    ensures c == "bg-yellow-500" <==> 0.5 <= p < 0.8
    ensures c == "bg-green-500" <==> p < 0.5
  {
    if p >= 0.8 then "bg-red-500" else if p >= 0.5 then "bg-yellow-500" else "bg-green-500"
  }

  /** The text colour, the bar and the badge always show the same band. */
  lemma DisplaysAgree(p: real)
    ensures ProbabilityColor(p) == "text-red-600" <==> ProbabilityBadgeVariant(p) == "destructive"
    ensures ProbabilityColor(p) == "text-red-600" <==> ProbabilityBarColor(p) == "bg-red-500"
    ensures ProbabilityColor(p) == "text-yellow-600" <==> ProbabilityBadgeVariant(p) == "outline"
    ensures ProbabilityColor(p) == "text-yellow-600" <==> ProbabilityBarColor(p) == "bg-yellow-500"
    ensures ProbabilityColor(p) == "text-green-600" <==> ProbabilityBadgeVariant(p) == "secondary"
    ensures ProbabilityColor(p) == "text-green-600" <==> ProbabilityBarColor(p) == "bg-green-500"
  {
  }

  // ------------------------------------------------------------ loading

  datatype Radiograph = Radiograph(url: string, fechaCaptura: string, observaciones: string)
  datatype Patient = Patient(nombre: string, edad: nat, genero: string)

  /** What the page renders: a prediagnostic plus radiograph and patient panels. */
  datatype DetailData = DetailData(pre: PreDiagnostic, radiografia: Radiograph, paciente: Patient)

  datatype DetailView = DetailView(data: Option<DetailData>, loading: bool, isUsingMockData: bool)

  const InitialView: DetailView := DetailView(None, true, false)

  const MockId1: string := "da939374-aab5-40ab-9b78-0ec37b86d616"
  const MockId2: string := "mock-2"
  const PlaceholderPrefix: string := "https://via.placeholder.com/400x300/1f2937/ffffff?text=Radiografia+Real+"

  /** The mock entry of a pneumonia case. */
  const MockEntry1: DetailData := DetailData(
    PreDiagnostic(MockId1, "P001", "procesado",
                  "https://via.placeholder.com/400x300/1f2937/ffffff?text=Radiografia+Mock+P001",
                  "2024-01-15T10:30:00Z", ModelResults(0.85, "Neumonía")),
    Radiograph("https://via.placeholder.com/400x300/1f2937/ffffff?text=Radiografia+Torax+P001",
               "2024-01-15T09:00:00Z", "Radiografía de tórax PA y lateral"),
    Patient("Juan Pérez", 45, "Masculino"))

  /** The mock entry of a normal case. */
  const MockEntry2: DetailData := DetailData(
    PreDiagnostic(MockId2, "P002", "procesado",
                  "https://via.placeholder.com/400x300/065f46/ffffff?text=Radiografia+Mock+P002",
                  "2024-01-14T14:20:00Z", ModelResults(0.25, "Normal")),
    Radiograph("https://via.placeholder.com/400x300/065f46/ffffff?text=Radiografia+Normal+P002",
               "2024-01-14T11:30:00Z", "Radiografía de control - Sin anomalías"),
    Patient("María García", 32, "Femenino"))

  /** The two built-in mock entries, keyed by prediagnostic id. */
  function MockDetail(id: string): (d: Option<DetailData>)
    ensures d.Some? <==> id == MockId1 || id == MockId2
    ensures d.Some? ==> d.value.pre.prediagnosticId == id
  {
    if id == MockId1 then Some(MockEntry1)
    else if id == MockId2 then Some(MockEntry2)
    else None
  }

  /** The panels added around a prediagnostic that came from the backend. */
  function Enrich(pre: PreDiagnostic): (d: DetailData)
    ensures d.pre == pre
    ensures d.radiografia.url == (if pre.urlrad != "" then pre.urlrad else PlaceholderPrefix + pre.pacienteId)
    ensures d.radiografia.fechaCaptura == pre.fechaSubida
    ensures d.radiografia.observaciones == "Estado: " + pre.estado
    ensures d.paciente == Patient("Paciente " + pre.pacienteId, 45, "No especificado")
  {
    DetailData(pre,
               Radiograph(if pre.urlrad != "" then pre.urlrad else PlaceholderPrefix + pre.pacienteId,
                          pre.fechaSubida, "Estado: " + pre.estado),
               Patient("Paciente " + pre.pacienteId, 45, "No especificado"))
  }

  /** The backend answered with an actual prediagnostic. */
  predicate BackendDelivered(debug: DebugResult)
  {
    debug.DebugOk? && debug.data.Some? && debug.data.value.getPreDiagnostic.Some?
  }

  /**
   `fetchData`, given the debug probe's answer. Missing data or a missing
   `getPreDiagnostic` makes the enrichment throw, which lands in the same
   fallback as a failed probe.
   */
  function FetchDetail(id: string, debug: DebugResult): (v: DetailView)
    ensures !v.loading
    ensures v.isUsingMockData <==> !BackendDelivered(debug)
    ensures BackendDelivered(debug) ==> v.data == Some(Enrich(debug.data.value.getPreDiagnostic.value))
    ensures !BackendDelivered(debug) ==> v.data == MockDetail(id)
    ensures v.data.None? ==> v.isUsingMockData && id != MockId1 && id != MockId2
  {
    if BackendDelivered(debug) then DetailView(Some(Enrich(debug.data.value.getPreDiagnostic.value)), false, false)
    else DetailView(MockDetail(id), false, true)
  }

  /** The page is in its loading state while a fetch runs; the data on screen stays. */
  function BeginFetch(v: DetailView): (r: DetailView)
    ensures r.loading && r.data == v.data && r.isUsingMockData == v.isUsingMockData
  {
    v.(loading := true)
  }
}
