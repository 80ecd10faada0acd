/**
 The route middleware: a request for a page is either passed on or
 redirected, depending on whether the path is public, whether an
 `auth-token` cookie is present and what the `user-role` cookie says.
 */
module Middleware {
  import opened Common
  import opened Text

  /** The paths anyone may visit; matched by whole-string equality. */
  const PublicPaths: seq<string> := ["/", "/login", "/register"]

  const LoginPath: string := "/login"
  const PatientHome: string := "/patient/dashboard"
  const DoctorHome: string := "/doctor/dashboard"

  /** What the middleware answers. */
  datatype Decision = Redirect(target: string) | Next

  /** The two cookies the middleware reads; `None` when the cookie is absent. */
  datatype Cookies = Cookies(authToken: Option<string>, userRole: Option<string>)

  predicate IsPublic(path: string)
  {
    path in PublicPaths
  }

  /** The token is usable when the cookie is present and non-empty. */
  predicate HasToken(c: Cookies)
  {
    Truthy(c.authToken)
  }

  /** `middleware` */
  function Decide(path: string, c: Cookies): (d: Decision)
    ensures IsPublic(path) && HasToken(c) && c.userRole == Some("paciente") ==> d == Redirect(PatientHome)
    ensures IsPublic(path) && HasToken(c) && c.userRole == Some("doctor") ==> d == Redirect(DoctorHome)
    ensures IsPublic(path) && HasToken(c) && c.userRole !in {Some("paciente"), Some("doctor")} ==> d == Next
    ensures !IsPublic(path) && !HasToken(c) ==> d == Redirect(LoginPath)
    ensures IsPublic(path) && !HasToken(c) ==> d == Next
    ensures !IsPublic(path) && HasToken(c) ==> d == Next
  {
    var token := OrElse(c.authToken, "");
    if IsPublic(path) && token != "" && c.userRole == Some("paciente") then Redirect(PatientHome)
    else if IsPublic(path) && token != "" && c.userRole == Some("doctor") then Redirect(DoctorHome)
    else if !IsPublic(path) && token == "" then Redirect(LoginPath)
    else Next
  }

  /** The only places the middleware ever sends a browser. */
  lemma RedirectTargets(path: string, c: Cookies)
    ensures Decide(path, c).Redirect? ==> Decide(path, c).target in {PatientHome, DoctorHome, LoginPath}
    ensures Decide(path, c).Redirect? <==>
      (IsPublic(path) && HasToken(c) && c.userRole in {Some("paciente"), Some("doctor")})
      || (!IsPublic(path) && !HasToken(c))
  {
  }

  /**
   No redirect loop: following a redirect with the same cookies reaches a
   page the middleware lets through.
   */
  lemma NoRedirectLoop(path: string, c: Cookies)
    requires Decide(path, c).Redirect?
    ensures Decide(Decide(path, c).target, c) == Next
  {
    assert !IsPublic(PatientHome) by { assert |PatientHome| == 18; }
    assert !IsPublic(DoctorHome) by { assert |DoctorHome| == 17; }
    assert IsPublic(LoginPath);
  }

  /** Excluded path prefixes of the matcher; the `.` in "favicon.ico" is a regular-expression wildcard. */
  predicate ExcludedByMatcher(rest: string)
  {
    || StartsWith(rest, "api")
    || StartsWith(rest, "_next/static")
    || StartsWith(rest, "_next/image")
    || (|rest| >= 11 && rest[..7] == "favicon" && rest[8..11] == "ico")
  }

  /** `config.matcher`: every path beginning with "/" except the excluded prefixes. */
  predicate MatcherApplies(path: string)
  {
    |path| >= 1 && path[0] == '/' && !ExcludedByMatcher(path[1..])
  }

  /** Only paths whose second character starts an excluded prefix can be skipped. */
  lemma ExcludedNeedsHead(rest: string)
    requires rest == [] || rest[0] !in "a_f"
    ensures !ExcludedByMatcher(rest)
  {
    if rest != [] {
      assert rest[0] != "api"[0] && rest[0] != "_next/static"[0] && rest[0] != "favicon"[0];
    }
  }

  /** A request as a whole: paths outside the matcher are never looked at. */
  function Handle(path: string, c: Cookies): (d: Decision)
    ensures !MatcherApplies(path) ==> d == Next
    ensures MatcherApplies(path) ==> d == Decide(path, c)
  {
    if MatcherApplies(path) then Decide(path, c) else Next
  }

  /**
   The matcher covers every page the middleware redirects to, and every
   public page, so redirects and the absence of loops carry over to whole
   requests.
   */
  lemma MatcherCoversTargets()
    ensures MatcherApplies(PatientHome) && MatcherApplies(DoctorHome) && MatcherApplies(LoginPath)
    ensures forall p :: p in PublicPaths ==> MatcherApplies(p)
  {
    MatcherAppliesByHead(PatientHome);
    MatcherAppliesByHead(DoctorHome);
    MatcherAppliesByHead(LoginPath);
    MatcherAppliesByHead("/register");
    MatcherAppliesByHead("/");
  }

  lemma MatcherAppliesByHead(path: string)
    requires |path| >= 1 && path[0] == '/'
    requires |path| == 1 || path[1] !in "a_f"
    ensures MatcherApplies(path)
  {
    ExcludedNeedsHead(path[1..]);
  }

  /** The exclusions are plain prefix tests: "/apiary" is skipped although it is no API route. */
  lemma MatcherSkipsPrefixes()
    ensures !MatcherApplies("/apiary") && !MatcherApplies("/favicon-ico")
  {
    assert "/apiary"[1..][..3] == "api";
    assert "/favicon-ico"[1..][..7] == "favicon";
    assert "/favicon-ico"[1..][8..11] == "ico";
  }

  /** With a usable token every protected page is reached, whatever the role cookie says. */
  lemma TokenOpensProtectedPaths(path: string, token: string, role: Option<string>)
    requires !IsPublic(path) && token != ""
    ensures Decide(path, Cookies(Some(token), role)) == Next
  {
  }
}
