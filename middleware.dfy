/** The page guard of middleware.ts. The token verifier is a parameter:
    it yields the role a valid token carries, or `None` when verification
    throws. The framework calls the guard only for paths its `matcher`
    lists; the rest of the request pipeline is not part of this model. */
module Middleware {
  import opened Common
  import opened Text

  const OwnerPaths: seq<string> := ["/dashboard", "/api/documents", "/api/events"]
  const ReaderPaths: seq<string> := ["/reader"]

  datatype Decision = Next | Redirect(target: string, nextParam: Option<string>)

  /** `/login?next=<path>` */
  function LoginRedirect(pathname: string): Decision { Redirect("/login", Some(pathname)) }

  /** `decodeSession`: no token, or an empty one, or one the verifier
      rejects, is no session. */
  function DecodeSession(token: Option<string>, verify: string -> Option<string>): (role: Option<string>)
    ensures token.None? || token == Some("") ==> role.None?
    ensures token.Some? && token.value != "" ==> role == verify(token.value)
  {
    if token.None? || token.value == "" then None else verify(token.value)
  }

  /** `prefixes.some((p) => pathname.startsWith(p))` */
  predicate AnyPrefix(pathname: string, prefixes: seq<string>) {
    exists i :: 0 <= i < |prefixes| && StartsWith(pathname, prefixes[i])
  }

  predicate RequiresOwner(pathname: string) { AnyPrefix(pathname, OwnerPaths) }

  predicate RequiresReader(pathname: string) { AnyPrefix(pathname, ReaderPaths) }

  predicate IsStaff(role: Option<string>) { role == Some("owner") || role == Some("admin") }

  /** `middleware(request)` on a path and the decoded role. */
  function Guard(pathname: string, role: Option<string>): (d: Decision)
    ensures RequiresOwner(pathname) && !IsStaff(role) ==> d == LoginRedirect(pathname)
    ensures !(RequiresOwner(pathname) && !IsStaff(role)) && RequiresReader(pathname) && role != Some("reader") ==>
      d == LoginRedirect(pathname)
    ensures d.Redirect? && d.target == "/login" ==>
      d == LoginRedirect(pathname) && ((RequiresOwner(pathname) && !IsStaff(role)) || (RequiresReader(pathname) && role != Some("reader")))
    ensures d.Redirect? && d.target != "/login" ==>
      role.Some? && (pathname == "/login" || pathname == "/signup") && d.nextParam.None?
      && (d.target == "/reader" <==> role == Some("reader"))
    ensures d == Next <==>
      !(RequiresOwner(pathname) && !IsStaff(role)) && !(RequiresReader(pathname) && role != Some("reader"))
      && !(role.Some? && (pathname == "/login" || pathname == "/signup"))
  {
    if RequiresOwner(pathname) && !IsStaff(role) then LoginRedirect(pathname)
    else if RequiresReader(pathname) && role != Some("reader") then LoginRedirect(pathname)
    else if role.Some? && (pathname == "/login" || pathname == "/signup") then
      Redirect(if role == Some("reader") then "/reader" else "/dashboard", None)
    else Next
  }

  /** The token a request carries names the caller's role. */
  predicate TokenHasRole(token: Option<string>, verify: string -> Option<string>, role: string) {
    token.Some? && token.value != "" && verify(token.value) == Some(role)
  }

  /** `middleware(request)` on the cookie's token: an owner page lets in
      exactly an owner or an admin, a reader page exactly a reader, and
      everyone else is sent to log in; a signed-in visitor on the login or
      signup page is sent home. */
  function MiddlewareDecision(pathname: string, token: Option<string>, verify: string -> Option<string>): (d: Decision)
    ensures RequiresOwner(pathname) ==>
      (d == Next <==> TokenHasRole(token, verify, "owner") || TokenHasRole(token, verify, "admin"))
    ensures RequiresReader(pathname) ==> (d == Next <==> TokenHasRole(token, verify, "reader"))
    ensures (RequiresOwner(pathname) || RequiresReader(pathname)) && d != Next ==> d == LoginRedirect(pathname)
    ensures (pathname == "/login" || pathname == "/signup") && TokenHasRole(token, verify, "reader") ==>
      d == Redirect("/reader", None)
    ensures (pathname == "/login" || pathname == "/signup") && DecodeSession(token, verify).Some?
            && !TokenHasRole(token, verify, "reader") ==>
      d == Redirect("/dashboard", None)
  {
    RolesAreExclusive(pathname);
    AuthPagesUnguarded();
    Guard(pathname, DecodeSession(token, verify))
  }

  /** The login and signup pages need no role. */
  lemma AuthPagesUnguarded()
    ensures !RequiresOwner("/login") && !RequiresReader("/login")
    ensures !RequiresOwner("/signup") && !RequiresReader("/signup")
  {
    forall i | 0 <= i < |OwnerPaths|
      ensures !StartsWith("/login", OwnerPaths[i]) && !StartsWith("/signup", OwnerPaths[i])
    {
      assert OwnerPaths[i][1] != 'l' && OwnerPaths[i][1] != 's';
      assert "/login"[1] == 'l' && "/signup"[1] == 's';
    }
    assert ReaderPaths[0][1] == 'r';
    assert "/login"[1] == 'l' && "/signup"[1] == 's';
  }

  /** Without a session every owner or reader page sends the visitor to the
      login page, carrying the page they asked for. */
  lemma AnonymousIsSentToLogin(pathname: string)
    requires RequiresOwner(pathname) || RequiresReader(pathname)
    ensures Guard(pathname, None) == LoginRedirect(pathname)
  {
  }

  /** No path needs both roles, so the order of the two checks only shows in
      which check answers; a reader on an owner page and an owner on a
      reader page are both turned away. */
  lemma RolesAreExclusive(pathname: string)
    ensures !(RequiresOwner(pathname) && RequiresReader(pathname))
  {
    if RequiresReader(pathname) {
      assert StartsWith(pathname, ReaderPaths[0]);
      assert pathname[1] == 'r';
      forall i | 0 <= i < |OwnerPaths|
        ensures !StartsWith(pathname, OwnerPaths[i])
      {
        assert OwnerPaths[i][1] != 'r';
      }
    }
  }

  /** `config.matcher` as written: `/dashboard/:path*`, `/reader/:path*`,
      `/login`, `/signup`. A `:path*` pattern matches its base and anything
      below it. */
  predicate UnderBase(pathname: string, base: string) {
    pathname == base || StartsWith(pathname, base + "/")
  }

  predicate MatchedAsWritten(pathname: string) {
    UnderBase(pathname, "/dashboard") || UnderBase(pathname, "/reader") || pathname == "/login" || pathname == "/signup"
  }

  /** What a request meets: the guard when the matcher selects the path,
      and no check otherwise. */
  function EffectiveAsWritten(pathname: string, role: Option<string>): Decision {
    if MatchedAsWritten(pathname) then Guard(pathname, role) else Next
  }

  /** The guard lists `/api/documents` and `/api/events` as owner paths,
      but the matcher never routes them to it: an anonymous request to the
      document listing passes. */
  lemma ApiOwnerPathsUnguarded()
    ensures RequiresOwner("/api/documents") && Guard("/api/documents", None) == LoginRedirect("/api/documents")
    ensures EffectiveAsWritten("/api/documents", None) == Next
    ensures EffectiveAsWritten("/api/events", None) == Next
  {
    assert StartsWith("/api/documents", OwnerPaths[1]);
    assert "/api/documents"[1] != "/dashboard"[1];
    assert "/api/documents"[1] != "/reader"[1];
    assert "/api/events"[1] != "/dashboard"[1];
    assert "/api/events"[1] != "/reader"[1];
  }

  /** The matcher with the two API prefixes added. */
  predicate MatchedCorrected(pathname: string) {
    MatchedAsWritten(pathname) || UnderBase(pathname, "/api/documents") || UnderBase(pathname, "/api/events")
  }

  function EffectiveCorrected(pathname: string, role: Option<string>): Decision {
    if MatchedCorrected(pathname) then Guard(pathname, role) else Next
  }

  lemma UnderBaseStartsWith(pathname: string, base: string)
    requires UnderBase(pathname, base)
    ensures StartsWith(pathname, base)
  {
    if pathname != base {
      assert (base + "/")[..|base|] == base;
      assert pathname[..|base|] == pathname[..|base| + 1][..|base|];
    }
  }

  /** With the corrected matcher every path at or below an owner prefix
      needs an owner or admin session, and every path at or below `/reader`
      a reader session. */
  lemma CorrectedGuardsEveryPrefix(pathname: string, role: Option<string>)
    ensures (exists i :: 0 <= i < |OwnerPaths| && UnderBase(pathname, OwnerPaths[i])) && !IsStaff(role) ==>
      EffectiveCorrected(pathname, role) == LoginRedirect(pathname)
    ensures UnderBase(pathname, "/reader") && role != Some("reader") ==>
      EffectiveCorrected(pathname, role) == LoginRedirect(pathname)
  {
    if i :| 0 <= i < |OwnerPaths| && UnderBase(pathname, OwnerPaths[i]) {
      UnderBaseStartsWith(pathname, OwnerPaths[i]);
      assert RequiresOwner(pathname);
    }
    if UnderBase(pathname, "/reader") {
      UnderBaseStartsWith(pathname, "/reader");
      assert StartsWith(pathname, ReaderPaths[0]);
      RolesAreExclusive(pathname);
    }
  }
}
