/** The owner/reader login cookie of src/lib/auth/session.ts. Signing and
    verifying the JSON web token are a parameter `verify`: it yields the
    session a token carries, or `None` when verification throws. A response
    either has a cookie API (`response.cookies`), which gets a structured
    cookie, or only headers, which get a `Set-Cookie` line written by hand. */
module AuthSession {
  import opened Common
  import opened Text

  datatype Role = Owner | Admin | Reader

  datatype AppSession = AppSession(id: string, email: string, role: Role)

  const SessionCookieName: string := "secure-session"

  /** Seven days, in seconds. */
  const SessionMaxAge: nat := 60 * 60 * 24 * 7

  /** The `Secure` attribute is used in production only. */
  function ShouldUseSecure(nodeEnv: string): (secure: bool)
    ensures secure <==> nodeEnv == "production"
  {
    if nodeEnv != "production" then false else true
  }

  /** `getSessionFromCookies`: no cookie, or an empty one, is no session;
      otherwise the session is what `verifySession` (the `verify`
      parameter) makes of the token. */
  function GetSessionFromCookies(cookie: Option<string>, verify: string -> Option<AppSession>): (s: Option<AppSession>)
    ensures cookie.None? || cookie == Some("") ==> s.None?
    ensures cookie.Some? && cookie.value != "" ==> s == verify(cookie.value)
  {
    if cookie.None? || cookie.value == "" then None else verify(cookie.value)
  }

  /** The attributes of one cookie write. */
  datatype CookieWrite = CookieWrite(name: string, value: string, httpOnly: bool, sameSiteLax: bool, secure: bool, path: string, maxAge: nat)

  datatype CookieEffect = CookieSet(cookie: CookieWrite) | HeaderAppend(header: string, line: string)

  const AttrsHead: string := "; Path=/; HttpOnly; "
  const SecureAttr: string := "Secure; "
  const AttrsTail: string := "SameSite=Lax; Max-Age="

  /** The hand-written `Set-Cookie` line of the header fallback. */
  function CookieLine(value: string, secure: bool, maxAge: nat): string {
    SessionCookieName + "=" + value + AttrsHead + (if secure then SecureAttr else "") + AttrsTail + NatText(maxAge)
  }

  /** One write of the session cookie, through whichever API the response
      offers. */
  function WriteCookie(hasCookieApi: bool, value: string, nodeEnv: string, maxAge: nat): (e: CookieEffect)
    ensures hasCookieApi <==> e.CookieSet?
    ensures e.CookieSet? ==> e.cookie == CookieWrite(SessionCookieName, value, true, true, ShouldUseSecure(nodeEnv), "/", maxAge)
    ensures e.HeaderAppend? ==> e.header == "Set-Cookie"
  {
    var secure := ShouldUseSecure(nodeEnv);
    if hasCookieApi then CookieSet(CookieWrite(SessionCookieName, value, true, true, secure, "/", maxAge))
    else HeaderAppend("Set-Cookie", CookieLine(value, secure, maxAge))
  }

  /** `setSessionCookie`: the signed token for seven days. Through either
      API the same cookie is written (a signed token never holds `;`, so the
      header line can be read back). */
  function SetSessionCookie(hasCookieApi: bool, token: string, nodeEnv: string): (e: CookieEffect)
    ensures hasCookieApi <==> e.CookieSet?
    ensures e.HeaderAppend? ==> e.header == "Set-Cookie"
    ensures ';' !in token ==>
      Written(e) == Some(CookieWrite(SessionCookieName, token, true, true, nodeEnv == "production", "/", 604800))
  {
    var e := WriteCookie(hasCookieApi, token, nodeEnv, SessionMaxAge);
    if ';' in token then e
    else
      CookieLineRoundTrip(token, ShouldUseSecure(nodeEnv), SessionMaxAge);
      e
  }

  /** `clearSessionCookie`: through either API, an empty value that expires
      at once. */
  function ClearSessionCookie(hasCookieApi: bool, nodeEnv: string): (e: CookieEffect)
    ensures hasCookieApi <==> e.CookieSet?
    ensures e.HeaderAppend? ==> e.header == "Set-Cookie"
    ensures Written(e) == Some(CookieWrite(SessionCookieName, "", true, true, nodeEnv == "production", "/", 0))
  {
    CookieLineRoundTrip("", ShouldUseSecure(nodeEnv), 0);
    WriteCookie(hasCookieApi, "", nodeEnv, 0)
  }

  /** The attributes after the value: the `Secure` flag and the age. */
  function ParseAttrs(attrs: string): Option<(bool, nat)> {
    if !StartsWith(attrs, AttrsHead) then None
    else
      var r := attrs[|AttrsHead|..];
      var secure := StartsWith(r, SecureAttr);
      var r2 := if secure then r[|SecureAttr|..] else r;
      if StartsWith(r2, AttrsTail) && r2[|AttrsTail|..] != [] && AllDigits(r2[|AttrsTail|..]) then
        Some((secure, DigitsValue(r2[|AttrsTail|..])))
      else None
  }

  /** Reads a `Set-Cookie` line of the fallback's shape back into its
      attributes. */
  function ParseCookieLine(line: string): Option<CookieWrite> {
    var prefix := SessionCookieName + "=";
    if !StartsWith(line, prefix) then None
    else
      var rest := line[|prefix|..];
      var i := FirstIndex(rest, ';');
      match ParseAttrs(rest[i..])
      case None => None
      case Some((secure, maxAge)) => Some(CookieWrite(SessionCookieName, rest[..i], true, true, secure, "/", maxAge))
  }

  /** What a cookie effect writes, read back from the header line in the
      fallback case. */
  function Written(e: CookieEffect): Option<CookieWrite> {
    match e
    case CookieSet(c) => Some(c)
    case HeaderAppend(_, line) => ParseCookieLine(line)
  }

  lemma SplitConcat(a: string, b: string)
    ensures StartsWith(a + b, a)
    ensures (a + b)[|a|..] == b
  {
    assert (a + b)[..|a|] == a;
  }

  lemma ParseAttrsRoundTrip(secure: bool, maxAge: nat)
    ensures ParseAttrs(AttrsHead + ((if secure then SecureAttr else "") + (AttrsTail + NatText(maxAge)))) == Some((secure, maxAge))
  {
    var digits := NatText(maxAge);
    var r2 := AttrsTail + digits;
    var r := (if secure then SecureAttr else "") + r2;
    SplitConcat(AttrsHead, r);
    SplitConcat(AttrsTail, digits);
    NatTextRoundTrip(maxAge);
    if secure {
      SplitConcat(SecureAttr, r2);
    } else {
      assert r == r2;
      assert r[1] == 'a' && SecureAttr[1] == 'e';
    }
  }

  /** The fallback line carries exactly the attributes of the structured
      write: value, `Secure` flag and age can be read back from it. */
  lemma CookieLineRoundTrip(value: string, secure: bool, maxAge: nat)
    requires ';' !in value
    ensures ParseCookieLine(CookieLine(value, secure, maxAge))
            == Some(CookieWrite(SessionCookieName, value, true, true, secure, "/", maxAge))
  {
    var prefix := SessionCookieName + "=";
    var tail := AttrsHead + ((if secure then SecureAttr else "") + (AttrsTail + NatText(maxAge)));
    assert CookieLine(value, secure, maxAge) == prefix + (value + tail);
    SplitConcat(prefix, value + tail);
    assert AttrsHead[0] == ';';
    FirstIndexAfter(value, tail, ';');
    SplitConcat(value, tail);
    assert (value + tail)[..|value|] == value;
    ParseAttrsRoundTrip(secure, maxAge);
  }
}
