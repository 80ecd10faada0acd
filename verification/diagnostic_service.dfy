/**
 `DiagnosticService`: the doctor's approval/rejection of a model
 prediagnostic. It validates the payload, sends the `createDiagnostic`
 mutation, and turns whatever happens into a `{success, message}` answer.
 Several failure messages are deliberately reported as a simulated success
 so that the form works without a backend.
 */
module DiagnosticService {
  import opened Common
  import opened Text
  import opened GraphQLClient

  /** The payload as received; either field may be missing at run time. */
  datatype Payload = Payload(aprobacion: Option<string>, comentario: Option<string>)

  /** The `input` object of the mutation's variables. */
  datatype DiagnosticInput = DiagnosticInput(aprobacion: Option<string>, comentario: Option<string>)

  /** The variables of the `createDiagnostic` mutation: `{ id_prediagnostico, input }`. */
  datatype MutationVariables = MutationVariables(idPrediagnostico: string, input: DiagnosticInput)

  /** The `createDiagnostic` member of the mutation's data; each field may be missing. */
  datatype MutationResult = MutationResult(success: Option<bool>, message: Option<string>)
  datatype CreateDiagnosticData = CreateDiagnosticData(createDiagnostic: Option<MutationResult>)

  datatype DiagnosticResponse = DiagnosticResponse(success: bool, message: string, diagnosticId: Option<string>)

  datatype Validation = Validation(isValid: bool, errors: seq<string>)

  const MinCommentLength: nat := 10
  const MaxCommentLength: nat := 1000

  // The messages are written in short pieces so that the verifier can see
  // which characters each one contains; the values are the literal strings.
  const ApprovalError: string := "Debe " + "seleccionar si aprueba" + " o rechaza el " + "resultado del modelo"
  const MinLengthError: string := "El " + "comentario" + " médico " + "debe tener al menos " + "10 caracteres"
  const MaxLengthError: string := "El " + "comentario" + " médico " + "no puede exceder " + "1000 caracteres"

  const SentMessage: string := "Diagnóstico enviado correctamente"
  const DevModeMessage: string := "Diagnóstico enviado correctamente (modo desarrollo - backend no disponible)"
  const SendErrorPrefix: string := "Error al enviar diagnóstico: "
  const UnknownError: string := "Error desconocido"
  const InvalidDataError: string := "Datos de diagnóstico inválidos"

  /** The approval is one of the two accepted words. */
  predicate ApprovalAccepted(a: Option<string>)
  {
    a == Some("Si") || a == Some("No")
  }

  /**
   The comment is missing, empty, or shorter than the minimum once trimmed.
   Lengths are `.length`, in UTF-16 code units.
   */
  predicate CommentTooShort(c: Option<string>)
  {
    !Truthy(c) || Utf16Length(Trim(c.value)) < MinCommentLength
  }

  /** The comment, untrimmed, is longer than the maximum (in UTF-16 code units). */
  predicate CommentTooLong(c: Option<string>)
  {
    Truthy(c) && Utf16Length(c.value) > MaxCommentLength
  }

  /** Position of each message in the fixed reporting order. */
  function Rank(e: string): nat
  {
    if e == ApprovalError then 0 else if e == MinLengthError then 1 else 2
  }

  lemma MessagesDistinct()
    ensures ApprovalError != MinLengthError && ApprovalError != MaxLengthError
    ensures MinLengthError != MaxLengthError
  {
    assert |ApprovalError| == 61 && |MinLengthError| == 54 && |MaxLengthError| == 53;
  }

  /** `validateDiagnostic` */
  function ValidateDiagnostic(d: Payload): (v: Validation)
    ensures v.isValid <==> v.errors == []
    ensures ApprovalError in v.errors <==> !ApprovalAccepted(d.aprobacion)
    ensures MinLengthError in v.errors <==> CommentTooShort(d.comentario)
    ensures MaxLengthError in v.errors <==> CommentTooLong(d.comentario)
    ensures forall e :: e in v.errors ==> e in [ApprovalError, MinLengthError, MaxLengthError]
    ensures forall i, j :: 0 <= i < j < |v.errors| ==> Rank(v.errors[i]) < Rank(v.errors[j])
    ensures |v.errors| <= 3
  {
    var errors := Collect(!ApprovalAccepted(d.aprobacion), CommentTooShort(d.comentario), CommentTooLong(d.comentario));
    CollectInOrder(!ApprovalAccepted(d.aprobacion), CommentTooShort(d.comentario), CommentTooLong(d.comentario));
    Validation(|errors| == 0, errors)
  }

  /** The messages of the failed checks, in checking order. */
  function Collect(badApproval: bool, tooShort: bool, tooLong: bool): seq<string>
  {
    (if badApproval then [ApprovalError] else [])
    + (if tooShort then [MinLengthError] else [])
    + (if tooLong then [MaxLengthError] else [])
  }

  /** Each message is present exactly when its check failed, and they come in rank order. */
  lemma CollectInOrder(badApproval: bool, tooShort: bool, tooLong: bool)
    ensures var es := Collect(badApproval, tooShort, tooLong);
      && (ApprovalError in es <==> badApproval)
      && (MinLengthError in es <==> tooShort)
      && (MaxLengthError in es <==> tooLong)
      && (forall e :: e in es ==> e in [ApprovalError, MinLengthError, MaxLengthError])
      && (forall i, j :: 0 <= i < j < |es| ==> Rank(es[i]) < Rank(es[j]))
      && |es| <= 3
  {
    MessagesDistinct();
  }

  /**
   Because the minimum is checked on the trimmed comment and the maximum on
   the raw one, a long comment made mostly of padding fails both checks.
   */
  lemma PaddedCommentFailsBoth(a: Option<string>, c: string)
    requires Utf16Length(c) > MaxCommentLength && Utf16Length(Trim(c)) < MinCommentLength
    ensures MinLengthError in ValidateDiagnostic(Payload(a, Some(c))).errors
    ensures MaxLengthError in ValidateDiagnostic(Payload(a, Some(c))).errors
  {
  }

  /** Such a comment exists: 1001 spaces. */
  lemma PaddedCommentExists()
    ensures exists c: string :: Utf16Length(c) > MaxCommentLength && Utf16Length(Trim(c)) < MinCommentLength
  {
    var c := seq(1001, _ => ' ');
    assert AllWhitespace(c);
    TrimEmptyIff(c);
    assert Utf16Length(c) >= |c|;
  }

  /**
   Characters outside the Basic Multilingual Plane count twice: five emoji
   already meet the ten-unit minimum, and 501 of them exceed the maximum.
   */
  lemma SurrogatePairsCountTwice()
    ensures var c := seq(5, _ => '\U{1F600}'); |c| < MinCommentLength && !CommentTooShort(Some(c))
    ensures var c := seq(501, _ => '\U{1F600}'); |c| <= MaxCommentLength && CommentTooLong(Some(c))
  {
    var c := seq(5, _ => '\U{1F600}');
    TrimWithoutWhitespace(c);
    assert Utf16Length(c) == 10;
    var d := seq(501, _ => '\U{1F600}');
    assert Utf16Length(d) == 1002;
  }

  /** The payload a set of mutation variables carries under `input`. */
  function PayloadOf(v: MutationVariables): Payload
  {
    Payload(v.input.aprobacion, v.input.comentario)
  }

  /**
   The variables sent with the mutation: the id at the top level and the
   payload's two fields, unchanged, under `input`.
   */
  function Variables(prediagnosticId: string, d: Payload): (v: MutationVariables)
    ensures v.idPrediagnostico == prediagnosticId
    ensures PayloadOf(v) == d
  {
    MutationVariables(prediagnosticId, DiagnosticInput(d.aprobacion, d.comentario))
  }

  /** Every variables object is the one built from its own id and payload. */
  lemma VariablesRoundTrip(v: MutationVariables)
    ensures Variables(v.idPrediagnostico, PayloadOf(v)) == v
  {
  }

  /** Different submissions send different variables. */
  lemma VariablesInjective(id1: string, d1: Payload, id2: string, d2: Payload)
    requires Variables(id1, d1) == Variables(id2, d2)
    ensures id1 == id2 && d1 == d2
  {
    assert PayloadOf(Variables(id1, d1)) == d1;
  }

  /**
   The request `createDiagnostic` sends, given the mutation document and the
   browser's cookie string: a POST to the GraphQL endpoint whose variables
   carry the id and the payload as received.
   */
  function SubmissionRequest(mutation: string, prediagnosticId: string, d: Payload, cookie: Option<string>): (r: Request<MutationVariables>)
    ensures r.url == GraphQLUrl && r.verb == "POST" && r.body.query == mutation
    ensures r.body.variables.Some?
    ensures r.body.variables.value.idPrediagnostico == prediagnosticId
    ensures PayloadOf(r.body.variables.value) == d
    ensures r.headers == Headers(TokenFromCookie(cookie))
  {
    BuildRequest(mutation, Some(Variables(prediagnosticId, d)), cookie)
  }

  /** The error messages that are answered with a simulated success. */
  predicate DevModeError(msg: string)
  {
    || Contains(msg, "fetch")
    || Contains(msg, "GRAPHQL_VALIDATION_FAILED")
    || Contains(msg, "Cannot query field")
    || Contains(msg, "422")
  }

  /** The `catch` branch of `createDiagnostic`. */
  function FromError(e: Thrown, now: string): (r: DiagnosticResponse)
    ensures r.success <==> DevModeError(MessageOr(e, UnknownError))
    ensures r.success ==> r.message == DevModeMessage && r.diagnosticId == Some("mock-diagnostic-" + now)
    ensures !r.success ==> r.message == SendErrorPrefix + MessageOr(e, UnknownError) && r.diagnosticId.None?
  {
    var msg := MessageOr(e, UnknownError);
    if DevModeError(msg) then DiagnosticResponse(true, DevModeMessage, Some("mock-diagnostic-" + now))
    else DiagnosticResponse(false, SendErrorPrefix + msg, None)
  }

  /**
   `createDiagnostic`, given how the mutation call ended and the time stamp
   `Date.now()` renders to. Reading a member of missing `data` throws inside
   the `try`, so it is answered like any other error.
   */
  function CreateDiagnostic(outcome: QueryOutcome<CreateDiagnosticData>, now: string): (r: DiagnosticResponse)
    ensures outcome.Returned? && outcome.data.Some? ==>
      && r.success
      && r.diagnosticId == Some("diagnostic-" + now)
      && (var res := outcome.data.value.createDiagnostic;
          r.message == if res.Some? then OrElse(res.value.message, SentMessage) else SentMessage)
    ensures outcome.Threw? ==> r == FromError(outcome.error, now)
    ensures outcome.Returned? && outcome.data.None? ==> r == FromError(ReadOfUndefined("createDiagnostic"), now)
  {
    match outcome
    case Threw(e) => FromError(e, now)
    case Returned(None) => FromError(ReadOfUndefined("createDiagnostic"), now)
    case Returned(Some(data)) =>
      var message := match data.createDiagnostic
        case Some(res) => OrElse(res.message, SentMessage)
        case None => SentMessage;
      DiagnosticResponse(true, message, Some("diagnostic-" + now))
  }

  /**
   On the path where the mutation returned data, `success` is true whatever
   the server said: `res?.success || true` cannot be false.
   */
  lemma ServerSuccessIgnored(res: MutationResult, now: string)
    ensures CreateDiagnostic(Returned(Some(CreateDiagnosticData(Some(res)))), now).success
  {
  }

  /** A failure is reported with the error's message behind a fixed prefix. */
  lemma FailureMessage(outcome: QueryOutcome<CreateDiagnosticData>, now: string)
    requires !CreateDiagnostic(outcome, now).success
    ensures outcome.Threw? || outcome.data.None?
    ensures StartsWith(CreateDiagnostic(outcome, now).message, SendErrorPrefix)
  {
    var m := CreateDiagnostic(outcome, now).message;
    assert m[..|SendErrorPrefix|] == SendErrorPrefix;
  }

  /** A browser network failure ("Failed to fetch") is answered with a simulated success. */
  lemma NetworkFailureSimulated(now: string)
    ensures CreateDiagnostic(Threw(ErrorObject(TypeError, "Failed to fetch")), now).success
  {
    ContainsSelf("fetch");
    ContainsInSuffix("Failed to ", "fetch", "fetch");
    assert "Failed to " + "fetch" == "Failed to fetch";
  }

  /**
   A 422 response from the server (an invalid mutation) is answered with a
   simulated success: the status code lands in the thrown message.
   */
  lemma UnprocessableSimulated(text: string, body: Parsed<GraphQLReply<CreateDiagnosticData>>, now: string)
    ensures DevModeError(HttpError(422, text).message)
    ensures CreateDiagnostic(Classify(HttpReply(false, 422, text, body)), now).success
  {
    var msg := HttpError(422, text).message;
    assert NatToString(422) == "422" by {
      assert NatToString(42) == "42" by { assert NatToString(4) == "4"; }
    }
    assert msg[|HttpErrorPrefix|..|HttpErrorPrefix| + 3] == "422";
    ContainsAt(msg, "422", |HttpErrorPrefix|);
  }

  /** What `debugDiagnostic` reports. */
  datatype DebugResult =
    | Rejected(error: string, validationErrors: seq<string>)
    | Submitted(success: bool, data: DiagnosticResponse, validation: Validation)

  /**
   `debugDiagnostic`: an invalid payload is reported without submitting;
   otherwise the outcome of `createDiagnostic` is passed through. The
   timing fields are left out, and the `catch` branch is unreachable since
   `createDiagnostic` never throws.
   */
  function DebugDiagnostic(d: Payload, outcome: QueryOutcome<CreateDiagnosticData>, now: string): (r: DebugResult)
    ensures r.Rejected? <==> !ValidateDiagnostic(d).isValid
    ensures r.Rejected? ==> r.error == InvalidDataError && r.validationErrors == ValidateDiagnostic(d).errors
                            && r.validationErrors != []
    ensures r.Submitted? ==> r.data == CreateDiagnostic(outcome, now) && r.success == r.data.success
                             && r.validation.isValid
  {
    var validation := ValidateDiagnostic(d);
    if !validation.isValid then Rejected(InvalidDataError, validation.errors)
    else
      var result := CreateDiagnostic(outcome, now);
      Submitted(result.success, result, validation)
  }
}
