/**
 The patient's dashboard: it reads the session token from the cookie string
 with a regular expression, asks the GraphQL endpoint for the patient's
 cases, maps them to history records with a normalised status, and counts
 validated and pending records.
 */
module PatientDashboard {
  import opened Common
  import opened Text
  import opened Seqs
  import opened GraphQLClient

  // ------------------------------------------------------------ the token

  /** `document.cookie.match(/auth-token=([^;]+)/)` matches at position `i`. */
  predicate TokenMatchAt(cookie: string, i: int)
  {
    && OccursAt(cookie, TokenPrefix, i)
    && i + |TokenPrefix| < |cookie|
    && cookie[i + |TokenPrefix|] != ';'
  }

  /** `i` is the leftmost position where the pattern matches. */
  predicate FirstTokenMatch(cookie: string, i: int)
  {
    TokenMatchAt(cookie, i) && forall j :: 0 <= j < i ==> !TokenMatchAt(cookie, j)
  }

  /** The leftmost match at or after position `i`. */
  function MatchFrom(cookie: string, i: nat): (k: Option<nat>)
    ensures k.Some? ==> i <= k.value && TokenMatchAt(cookie, k.value)
    ensures k.Some? ==> forall j :: i <= j < k.value ==> !TokenMatchAt(cookie, j)
    ensures k.None? ==> forall j :: i <= j ==> !TokenMatchAt(cookie, j)
    decreases |cookie| - i
  {
    if i + |TokenPrefix| >= |cookie| then None
    else if TokenMatchAt(cookie, i) then Some(i)
    else MatchFrom(cookie, i + 1)
  }

  /**
   The captured group: the run of non-`;` characters after the leftmost
   `auth-token=` that is followed by at least one such character. The group
   is never empty, so a match always yields a truthy token.
   */
  function RegexToken(cookie: string): (t: Option<string>)
    ensures t.Some? <==> exists i :: TokenMatchAt(cookie, i)
    ensures t.Some? ==> t.value != [] && ';' !in t.value
    ensures t.Some? ==> exists i :: FirstTokenMatch(cookie, i)
                                 && t.value == TakeUntil(cookie[i + |TokenPrefix|..], ';')
  {
    match MatchFrom(cookie, 0)
    case None => None
    case Some(k) =>
      assert FirstTokenMatch(cookie, k);
      var rest := cookie[k + |TokenPrefix|..];
      assert rest[0] != ';';
      Some(TakeUntil(rest, ';'))
  }

  /**
   For a cookie holding just `auth-token=v`, this reader and the one the
   GraphQL client uses agree on `v`.
   */
  lemma TokenReadersAgree(v: string)
    requires v != [] && ';' !in v && '=' !in v
    ensures RegexToken(TokenPrefix + v) == Some(v)
    ensures TokenFromCookie(Some(TokenPrefix + v)) == Some(v)
  {
    var c := TokenPrefix + v;
    assert c[..|TokenPrefix|] == TokenPrefix;
    assert c[|TokenPrefix|..] == v;
    assert TokenMatchAt(c, 0);
    assert FirstTokenMatch(c, 0);
    var t := RegexToken(c).value;
    var i :| FirstTokenMatch(c, i) && t == TakeUntil(c[i + |TokenPrefix|..], ';');
    assert i == 0;
    assert ';' !in TokenPrefix;
    SplitWithoutLead(c, CookieSeparator);
    TakeUntilAbsent(v, ';');
    TakeUntilAbsent(v, '=');
  }

  /**
   The two readers differ on a cookie whose name merely ends in
   `auth-token`: the pattern is not anchored to the start of a cookie row.
   */
  lemma TokenReadersDiffer()
    ensures RegexToken("my-auth-token=abc") == Some("abc")
    ensures TokenFromCookie(Some("my-auth-token=abc")) == None
  {
    var c := "my-auth-token=abc";
    SuffixCookieMatch(c);
    assert c[14..] == "abc";
    TakeUntilAbsent("abc", ';');
    SuffixCookieNoRow(c);
  }

  /** The GraphQL client finds no `auth-token=` row in `my-auth-token=abc`. */
  lemma SuffixCookieNoRow(c: string)
    requires c == "my-auth-token=abc"
    ensures TokenFromCookie(Some(c)) == None
  {
    assert ';' !in c;
    SplitWithoutLead(c, CookieSeparator);
    assert !StartsWith(c, TokenPrefix) by {
      assert c[..|TokenPrefix|][0] == 'm' && TokenPrefix[0] == 'a';
    }
    assert !HasTokenRow([c]);
  }

  /** The pattern first matches `my-auth-token=abc` at position 3. */
  lemma SuffixCookieMatch(c: string)
    requires c == "my-auth-token=abc"
    ensures MatchFrom(c, 0) == Some(3)
  {
    assert c[3..14] == TokenPrefix;
    assert TokenMatchAt(c, 3);
    assert MatchFrom(c, 3) == Some(3);
    assert !TokenMatchAt(c, 2) by { assert c[2] != TokenPrefix[0]; }
    assert MatchFrom(c, 2) == Some(3);
    assert !TokenMatchAt(c, 1) by { assert c[1] != TokenPrefix[0]; }
    assert MatchFrom(c, 1) == Some(3);
    assert !TokenMatchAt(c, 0) by { assert c[0] != TokenPrefix[0]; }
  }

  /** Without `c` in `s`, `TakeUntil` keeps all of `s`. */
  lemma TakeUntilAbsent(s: string, c: char)
    requires c !in s
    ensures TakeUntil(s, c) == s
  {
  }

  // ------------------------------------------------------------ the records

  datatype Resultados = Resultados(probNeumonia: real, etiqueta: string, fechaProcesamiento: string)

  /** One case of the `getCases` query, with the fields the page reads. */
  datatype PatientCase = PatientCase(id: string, fechaSubida: string, estado: string, resultados: Option<Resultados>)

  /** The query's data; `getCases` may be missing. */
  datatype CasesData = CasesData(getCases: Option<seq<PatientCase>>)

  /** A history record as the page stores it. */
  datatype PatientRecord = PatientRecord(
    radiografiaId: string,
    fechaSubida: string,
    estado: string,
    resultadoPreliminar: Option<string>)

  const Validated: string := "validado"
  const Processed: string := "procesado"
  const Uploaded: string := "subido"

  lemma StatusesDistinct()
    ensures Validated != Processed && Validated != Uploaded && Processed != Uploaded
  {
    assert |Validated| == 8 && |Processed| == 9 && |Uploaded| == 6;
  }

  /**
   The status mapping: anything whose lower-cased text includes "valid" is
   validated, else anything including "proces" is processed, and everything
   else counts as uploaded.
   */
  function NormalizeStatus(estado: string): (r: string)
    ensures r == Validated <==> Contains(Lower(estado), "valid")
    ensures r == Processed <==> !Contains(Lower(estado), "valid") && Contains(Lower(estado), "proces")
    ensures r == Uploaded <==> !Contains(Lower(estado), "valid") && !Contains(Lower(estado), "proces")
  {
    StatusesDistinct();
    var l := Lower(estado);
    if Contains(l, "valid") then Validated
    else if Contains(l, "proces") then Processed
    else Uploaded
  }

  /** Normalising a normalised status changes nothing. */
  lemma NormalizeStatusIdempotent(estado: string)
    ensures NormalizeStatus(NormalizeStatus(estado)) == NormalizeStatus(estado)
  {
    var r := NormalizeStatus(estado);
    if r == Validated {
      NormalizeValidated();
    } else if r == Processed {
      NormalizeProcessed();
    } else {
      NormalizeUploaded();
    }
  }

  lemma NormalizeValidated()
    ensures NormalizeStatus(Validated) == Validated
  {
    assert Lower(Validated) == Validated;
    assert StartsWith(Validated, "valid");
  }

  lemma NormalizeProcessed()
    ensures NormalizeStatus(Processed) == Processed
  {
    assert Lower(Processed) == Processed;
    assert StartsWith(Processed, "proces");
    assert 'v' !in Processed;
    if Contains(Processed, "valid") { ContainsNeedsHead(Processed, "valid"); }
  }

  lemma NormalizeUploaded()
    ensures NormalizeStatus(Uploaded) == Uploaded
  {
    assert Lower(Uploaded) == Uploaded;
    assert 'v' !in Uploaded && 'p' !in Uploaded;
    if Contains(Uploaded, "valid") { ContainsNeedsHead(Uploaded, "valid"); }
    if Contains(Uploaded, "proces") { ContainsNeedsHead(Uploaded, "proces"); }
  }

  /** One case as a history record; an empty label becomes null. */
  function MapCase(c: PatientCase): (r: PatientRecord)
    ensures r.radiografiaId == c.id && r.fechaSubida == c.fechaSubida
    ensures r.estado in {Validated, Processed, Uploaded}
    ensures r.estado == NormalizeStatus(c.estado)
    ensures r.resultadoPreliminar.Some? <==> c.resultados.Some? && c.resultados.value.etiqueta != ""
    ensures r.resultadoPreliminar.Some? ==> r.resultadoPreliminar.value == c.resultados.value.etiqueta
  {
    PatientRecord(c.id, c.fechaSubida, NormalizeStatus(c.estado),
                  match c.resultados
                  case Some(res) => OrNull(Some(res.etiqueta))
                  case None => None)
  }

  /** `cases.map(...)`: one record per case, in order. */
  function MapCases(cs: seq<PatientCase>): (r: seq<PatientRecord>)
    ensures |r| == |cs|
    ensures forall i :: 0 <= i < |r| ==> r[i] == MapCase(cs[i])
    ensures forall i :: 0 <= i < |r| ==> r[i].radiografiaId == cs[i].id && r[i].estado in {Validated, Processed, Uploaded}
  {
    seq(|cs|, i requires 0 <= i < |cs| => MapCase(cs[i]))
  }

  const NotAuthenticated: string := "No autenticado. Inicia sesión nuevamente."
  const RetrieveFailed: string := "No se pudieron recuperar los casos."
  const UnknownError: string := "Error desconocido"
  const NoRadiographsMarker: string := "sin radiografias"

  /** How one response is read. */
  datatype Reading = Loaded(records: seq<PatientRecord>) | NoRadiographs | Failed(message: string)

  /** The message of the first GraphQL error, `errors[0]?.message || "Error desconocido"`. */
  function FirstErrorMessage(es: seq<GraphQLError>): (m: string)
    ensures m != ""
    ensures es != [] && Truthy(es[0].message) ==> m == es[0].message.value
    ensures es == [] || !Truthy(es[0].message) ==> m == UnknownError
  {
    if es == [] then UnknownError else OrElse(es[0].message, UnknownError)
  }

  /**
   The body of the `try`: the status code is not looked at; a reply with
   `errors` is a failure unless its message says the patient has no
   radiographs; otherwise a missing `data` or `getCases` reads as an empty
   list. A rejected fetch and an unparseable body land in the `catch`.
   */
  function ReadReply(o: HttpOutcome<GraphQLReply<CasesData>>): (r: Reading)
    ensures o.FetchThrew? ==> r == Failed(MessageOrElse(o.error, RetrieveFailed))
    ensures o.HttpReply? && o.body.Unparseable? ==>
      r == Failed(MessageOrElse(ErrorObject(SyntaxError, o.body.message), RetrieveFailed))
    ensures o.HttpReply? && o.body.Parsed? && o.body.value.errors.Some? ==>
      var m := FirstErrorMessage(o.body.value.errors.value);
      r == if Contains(m, NoRadiographsMarker) then NoRadiographs else Failed(m)
    ensures r.Loaded? <==> o.HttpReply? && o.body.Parsed? && o.body.value.errors.None?
    ensures r.Loaded? ==>
      var data := o.body.value.data;
      r.records == MapCases(if data.Some? && data.value.getCases.Some? then data.value.getCases.value else [])
    ensures r.Failed? ==> r.message != ""
  {
    match o
    case FetchThrew(e) => Failed(MessageOrElse(e, RetrieveFailed))
    case HttpReply(_, _, _, body) =>
      match body
      case Unparseable(m) => Failed(MessageOrElse(ErrorObject(SyntaxError, m), RetrieveFailed))
      case Parsed(reply) =>
        if reply.errors.Some? then
          var m := FirstErrorMessage(reply.errors.value);
          if Contains(m, NoRadiographsMarker) then NoRadiographs else Failed(m)
        else
          var cases := match reply.data
            case Some(CasesData(Some(cs))) => cs
            case _ => [];
          Loaded(MapCases(cases))
  }

  datatype PatientState = PatientState(records: seq<PatientRecord>, loading: bool, error: Option<string>)

  const Initial: PatientState := PatientState([], true, None)

  /**
   `fetchCases`, given the cookie string and how the request would end. A
   failure keeps the previous records on screen; only success and the
   no-radiographs answer replace them.
   */
  function FetchCases(s: PatientState, cookie: string, o: HttpOutcome<GraphQLReply<CasesData>>): (r: PatientState)
    ensures !r.loading
    ensures RegexToken(cookie).None? ==> r == s.(loading := false, error := Some(NotAuthenticated))
    ensures RegexToken(cookie).Some? ==>
      match ReadReply(o)
      case Loaded(rs) => r.records == rs && r.error.None?
      case NoRadiographs => r.records == [] && r.error.None?
      case Failed(m) => r.records == s.records && r.error == Some(m)
    ensures r.error.Some? <==> RegexToken(cookie).None? || ReadReply(o).Failed?
    ensures r.error.Some? ==> r.records == s.records && r.error.value != ""
  {
    match RegexToken(cookie)
    case None => s.(loading := false, error := Some(NotAuthenticated))
    case Some(_) =>
      match ReadReply(o)
      case Loaded(rs) => s.(records := rs, loading := false, error := None)
      case NoRadiographs => s.(records := [], loading := false, error := None)
      case Failed(m) => s.(loading := false, error := Some(m))
  }

  /** `handleUploadSuccess`: the new record goes first. */
  function HandleUploadSuccess(s: PatientState, rec: PatientRecord): (r: PatientState)
    ensures |r.records| == |s.records| + 1
    ensures r.records[0] == rec && r.records[1..] == s.records
    ensures r.loading == s.loading && r.error == s.error
  {
    s.(records := [rec] + s.records)
  }

  // ------------------------------------------------------------ the overview

  predicate IsValidated(r: PatientRecord)
  {
    r.estado == Validated
  }

  /** The "Validadas" card. */
  function ValidatedCount(records: seq<PatientRecord>): nat
  {
    |Filter(IsValidated, records)|
  }

  /** The "Pendientes" card: every record not validated. */
  function PendingCount(records: seq<PatientRecord>): nat
  {
    |Reject(IsValidated, records)|
  }

  /** The two cards always add up to the number of records. */
  lemma CountsAddUp(records: seq<PatientRecord>)
    ensures ValidatedCount(records) + PendingCount(records) == |records|
  {
    FilterRejectPartition(IsValidated, records);
  }

  /** An upload moves exactly one of the two cards, by one. */
  lemma UploadCounts(s: PatientState, rec: PatientRecord)
    ensures var r := HandleUploadSuccess(s, rec);
      && ValidatedCount(r.records) == ValidatedCount(s.records) + (if IsValidated(rec) then 1 else 0)
      && PendingCount(r.records) == PendingCount(s.records) + (if IsValidated(rec) then 0 else 1)
  {
    var rs := [rec] + s.records;
    assert rs[1..] == s.records;
  }

  /** The "recent" list: the first three records. */
  function RecentRecords(records: seq<PatientRecord>): (r: seq<PatientRecord>)
    ensures |r| == if |records| < 3 then |records| else 3
    ensures r == records[..|r|]
  {
    Take(records, 3)
  }

  /** The badge of a record in the recent list. */
  function StatusVariant(estado: string): (v: string)
    ensures v == "default" <==> estado == Validated
    ensures v == "secondary" <==> estado == Processed
    ensures v == "outline" <==> estado != Validated && estado != Processed
  {
    if estado == Validated then "default" else if estado == Processed then "secondary" else "outline"
  }

  /** The "no records yet" hint shows only once loading ended without a (non-empty) error. */
  predicate ShowsEmptyHint(s: PatientState)
  {
    s.records == [] && !s.loading && !Truthy(s.error)
  }

  /** After a successful fetch of nothing, the hint is shown; after a failure, it is not. */
  lemma EmptyHintAfterFetch(s: PatientState, cookie: string, o: HttpOutcome<GraphQLReply<CasesData>>)
    ensures var r := FetchCases(s, cookie, o);
      ShowsEmptyHint(r) <==> RegexToken(cookie).Some? && (ReadReply(o).NoRadiographs? || ReadReply(o) == Loaded([]))
  {
  }
}
