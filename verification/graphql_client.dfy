/**
 The single GraphQL entry point of the front-end: it builds a POST request
 with the query and its variables, attaches the session token read from the
 browser cookie string, and turns the response into either the `data`
 member or a thrown error.
 */
module GraphQLClient {
  import opened Common
  import opened Text

  const GraphQLUrl: string := "http://localhost:8080/query"
  const TokenPrefix: string := "auth-token="
  const CookieSeparator: string := "; "

  datatype RequestBody<+V> = RequestBody(query: string, variables: Option<V>)
  datatype Header = Header(name: string, value: string)
  datatype Request<+V> = Request(url: string, verb: string, headers: seq<Header>, body: RequestBody<V>)

  /** One entry of a GraphQL `errors` array; its `message` may be absent. */
  datatype GraphQLError = GraphQLError(message: Option<string>)

  /** A parsed GraphQL response: optional `errors` and optional `data`. */
  datatype GraphQLReply<+D> = GraphQLReply(errors: Option<seq<GraphQLError>>, data: Option<D>)

  /** What `GraphQLClient.query` does: resolves with `data` (possibly undefined) or throws. */
  datatype QueryOutcome<+D> = Returned(data: Option<D>) | Threw(error: Thrown)

  /** Index of the first row that starts with `prefix` (`Array.prototype.find`). */
  function FindRow(rows: seq<string>, prefix: string): (k: Option<nat>)
    ensures k.Some? ==> k.value < |rows| && StartsWith(rows[k.value], prefix)
    ensures k.Some? ==> forall j :: 0 <= j < k.value ==> !StartsWith(rows[j], prefix)
    ensures k.None? ==> forall j :: 0 <= j < |rows| ==> !StartsWith(rows[j], prefix)
  {
    if rows == [] then None
    else if StartsWith(rows[0], prefix) then Some(0)
    else match FindRow(rows[1..], prefix)
      case None => None
      case Some(k) => Some(k + 1)
  }

  /** The second `=`-separated piece of a row known to start with `auth-token=`. */
  function TokenOfRow(row: string): (t: string)
    requires StartsWith(row, TokenPrefix)
    ensures t == TakeUntil(row[|TokenPrefix|..], '=')
    ensures '=' !in t
  {
    var rest := row[|TokenPrefix|..];
    assert row == "auth-token" + ['='] + rest;
    SplitAfterPiece("auth-token", '=', rest);
    FirstPiece(rest, '=');
    Split(row, "=")[1]
  }

  /** Some cookie row starts with `auth-token=`. */
  predicate HasTokenRow(rows: seq<string>)
  {
    exists j :: 0 <= j < |rows| && StartsWith(rows[j], TokenPrefix)
  }

  /** Row `k` is the first cookie row that starts with `auth-token=`. */
  predicate FirstTokenRow(rows: seq<string>, k: int)
  {
    && 0 <= k < |rows|
    && StartsWith(rows[k], TokenPrefix)
    && forall j :: 0 <= j < k ==> !StartsWith(rows[j], TokenPrefix)
  }

  /**
   The token sent as a bearer credential. `cookie` is `document.cookie`, or
   None when the code runs where `document` is undefined.
   */
  function TokenFromCookie(cookie: Option<string>): (t: Option<string>)
    ensures cookie.None? ==> t.None?
    ensures cookie.Some? ==> (t.Some? <==> HasTokenRow(Split(cookie.value, CookieSeparator)))
    ensures t.Some? ==>
      && cookie.Some?
      && exists k :: FirstTokenRow(Split(cookie.value, CookieSeparator), k)
                  && t.value == TakeUntil(Split(cookie.value, CookieSeparator)[k][|TokenPrefix|..], '=')
  {
    match cookie
    case None => None
    case Some(c) =>
      var rows := Split(c, CookieSeparator);
      match FindRow(rows, TokenPrefix)
      case None => None
      case Some(k) =>
        assert FirstTokenRow(rows, k);
        var t := TokenOfRow(rows[k]);
        assert t == TakeUntil(rows[k][|TokenPrefix|..], '=');
        assert HasTokenRow(rows);
        Some(t)
  }

  /** The headers of every query: JSON in and out, plus the bearer token when there is one. */
  function Headers(token: Option<string>): (hs: seq<Header>)
    ensures |hs| >= 2
    ensures hs[0] == Header("Content-Type", "application/json")
    ensures hs[1] == Header("Accept", "application/json")
    ensures |hs| == if Truthy(token) then 3 else 2
    ensures (exists i :: 0 <= i < |hs| && hs[i].name == "Authorization") <==> Truthy(token)
    ensures Truthy(token) ==> Header("Authorization", "Bearer " + token.value) in hs
  {
    var base := [Header("Content-Type", "application/json"), Header("Accept", "application/json")];
    assert base[0].name != "Authorization" && base[1].name != "Authorization" by {
      assert base[0].name[0] != 'A';
      assert base[1].name[1] != "Authorization"[1];
    }
    if Truthy(token) then
      var hs := base + [Header("Authorization", "Bearer " + token.value)];
      assert hs[2].name == "Authorization";
      hs
    else base
  }

  /** The request `query` sends for a query document, its variables and the cookie string. */
  function BuildRequest<V>(query: string, variables: Option<V>, cookie: Option<string>): (r: Request<V>)
    ensures r.url == GraphQLUrl && r.verb == "POST"
    ensures r.body.query == query && r.body.variables == variables
    ensures r.headers == Headers(TokenFromCookie(cookie))
  {
    Request(GraphQLUrl, "POST", Headers(TokenFromCookie(cookie)), RequestBody(query, variables))
  }

  /** How a missing `message` renders inside a template literal. */
  function RenderMessage(m: Option<string>): string
  {
    match m
    case Some(s) => s
    case None => "undefined"
  }

  const HttpErrorPrefix: string := "HTTP error! status: "
  const GraphQLErrorPrefix: string := "GraphQL error: "

  /**
   The error `query` throws for a non-ok response: a plain `Error` whose
   message names the status in decimal, then the response text after " - ".
   */
  function HttpError(status: nat, text: string): (e: Thrown)
    ensures e == ErrorObject(PlainError, HttpErrorPrefix + NatToString(status) + " - " + text)
    ensures e.ErrorObject? && StartsWith(e.message, HttpErrorPrefix)
    ensures StartsWith(e.message[|HttpErrorPrefix|..], NatToString(status))
    ensures DigitsValue(NatToString(status)) == status
  {
    NatToStringRoundTrip(status);
    PrefixedStartsWith(HttpErrorPrefix, NatToString(status), " - " + text);
    ErrorObject(PlainError, HttpErrorPrefix + NatToString(status) + " - " + text)
  }

  /** `a + b + c` starts with `a`, and after `a` with `b`. */
  lemma PrefixedStartsWith(a: string, b: string, c: string)
    ensures StartsWith(a + b + c, a)
    ensures StartsWith((a + b + c)[|a|..], b)
  {
    assert (a + b + c)[..|a|] == a;
    assert (a + b + c)[|a|..] == b + c;
    assert (b + c)[..|b|] == b;
  }

  /** The error `query` throws for a reply carrying a GraphQL `errors` member. */
  function GraphQLFailure(es: seq<GraphQLError>): (e: Thrown)
    ensures e.ErrorObject?
    ensures es != [] ==> e.kind == PlainError
    ensures es != [] ==> e.message == GraphQLErrorPrefix + RenderMessage(es[0].message)
    ensures es == [] ==> e == ReadOfUndefined("message")
  {
    if es == [] then ReadOfUndefined("message")
    else ErrorObject(PlainError, GraphQLErrorPrefix + RenderMessage(es[0].message))
  }

  /**
   The response handling of `query`: a rejected fetch is rethrown as is, a
   non-ok status and a present `errors` member throw, and otherwise the
   `data` member is returned exactly as received.
   */
  function Classify<D>(o: HttpOutcome<GraphQLReply<D>>): (r: QueryOutcome<D>)
    ensures r.Returned? <==> o.HttpReply? && o.ok && o.body.Parsed? && o.body.value.errors.None?
    ensures r.Returned? ==> r.data == o.body.value.data
    ensures o.FetchThrew? ==> r == Threw(o.error)
    ensures o.HttpReply? && !o.ok ==> r == Threw(HttpError(o.status, o.text))
    ensures o.HttpReply? && o.ok && o.body.Unparseable? ==>
      r == Threw(ErrorObject(SyntaxError, o.body.message))
    ensures o.HttpReply? && o.ok && o.body.Parsed? && o.body.value.errors.Some? ==>
      r == Threw(GraphQLFailure(o.body.value.errors.value))
  {
    match o
    case FetchThrew(e) => Threw(e)
    case HttpReply(ok, status, text, body) =>
      if !ok then Threw(HttpError(status, text))
      else match body
        case Unparseable(m) => Threw(ErrorObject(SyntaxError, m))
        case Parsed(reply) =>
          if reply.errors.Some? then Threw(GraphQLFailure(reply.errors.value))
          else Returned(reply.data)
  }

  /** Any reply that carries `errors` fails, even when it also carries `data`. */
  lemma ErrorsOverrideData<D>(es: seq<GraphQLError>, d: D, text: string)
    ensures Classify(HttpReply(true, 200, text, Parsed(GraphQLReply(Some(es), Some(d))))).Threw?
  {
  }

  /** A token whose value contains `=` is cut at the first `=`. */
  lemma TokenTruncatedAtEquals(a: string, b: string)
    requires '=' !in a
    ensures TokenOfRow(TokenPrefix + a + "=" + b) == a
  {
    var row := TokenPrefix + a + "=" + b;
    assert row[|TokenPrefix|..] == a + "=" + b;
    assert row[..|TokenPrefix|] == TokenPrefix;
    TakeUntilPrefix(a, '=', b);
  }

  lemma {:induction false} TakeUntilPrefix(a: string, c: char, b: string)
    requires c !in a
    ensures TakeUntil(a + [c] + b, c) == a
  {
    if a != [] {
      assert (a + [c] + b)[1..] == a[1..] + [c] + b;
      TakeUntilPrefix(a[1..], c, b);
    }
  }
}
