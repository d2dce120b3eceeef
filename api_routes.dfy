/** The `POST`/`GET` handlers under src/app/api: identity capture, code
    verification, presence, violations, logs, revocation and documents.
    Each handler is a check on its inputs, stated as functions, and a
    method that applies the check to a `SessionStore`. A request body is
    `Some(json)` once parsed and `None` when parsing throws; the cookie is
    the `viewer-session` value, if any. */
module ApiRoutes {
  import opened Common
  import opened Text
  import opened Json
  import opened SecurityTypes
  import opened DocumentService
  import EventBus

  datatype Cookie = Cookie(name: string, value: string, path: string, maxAge: int, httpOnly: bool, sameSite: Option<string>)

  /** A JSON reply, or an exception the handler does not catch (the
      framework answers it with its own error page). */
  datatype Response = Reply(status: nat, body: map<string, Json>, cookies: seq<Cookie>) | Unhandled

  function Error(status: nat, message: string): Response {
    Reply(status, map["error" := JStr(message)], [])
  }

  const OkBody: map<string, Json> := map["ok" := JBool(true)]

  const ViewerCookie: string := "viewer-session"
  const InternalError: string := "Internal server error"

  /** `if (!token)`: a missing cookie and an empty one are both rejected. */
  predicate HasToken(token: Option<string>) { token.Some? && token.value != "" }

  /** `String(x ?? "")` */
  function StringOr(o: Option<Json>, d: string): (s: string)
    ensures !Present(o) ==> s == d
    ensures Present(o) && o.value.JStr? ==> s == o.value.s
  {
    ToStr(OrElse(o, JStr(d)))
  }

  /** `Number(x)` of a value that may be `undefined` (which gives NaN). */
  function NumberOf(o: Option<Json>): Num {
    if o.Some? then ToNumber(o.value) else NaN
  }

  // ---------------------------------------------------------------------
  // POST /api/viewer/identity

  function BodyName(body: Json): string { Trim(StringOr(Get(body, "name"), "")) }

  function BodyPhone(body: Json): string { Trim(StringOr(Get(body, "phone"), "")) }

  /** A photo counts only as a string starting with `data:`. */
  function BodyPhoto(body: Json): (p: Option<string>)
    ensures p.Some? <==> AsString(Get(body, "photo")).Some? && StartsWith(AsString(Get(body, "photo")).value, "data:")
    ensures p.Some? ==> p.value != "" && Get(body, "photo") == Some(JStr(p.value))
  {
    var p := AsString(Get(body, "photo"));
    if p.Some? && StartsWith(p.value, "data:") then p else None
  }

  predicate MissingFields(req: ViewerIdentityRequirement, name: string, phone: string) {
    req.required && (name == "" || phone == "")
  }

  predicate Enforced(req: ViewerIdentityRequirement) { req.enforceMatch == Some(true) }

  predicate NameMismatch(req: ViewerIdentityRequirement, name: string) {
    Enforced(req) && req.expectedName.Some? && req.expectedName.value != ""
    && ToLower(name) != ToLower(Trim(req.expectedName.value))
  }

  predicate PhoneMismatch(req: ViewerIdentityRequirement, phone: string) {
    Enforced(req) && req.expectedPhone.Some? && req.expectedPhone.value != ""
    && DigitsOnly(phone) != DigitsOnly(req.expectedPhone.value)
  }

  datatype IdentityVerdict = IdentityRejected(status: nat, message: string) | IdentityAccepted(name: string, phone: string, photo: string)

  const NamePhoneRequired: string := "Name and phone are required."
  const NameMismatchMessage: string := "Provided name does not match the expected viewer."
  const PhoneMismatchMessage: string := "Provided phone does not match the expected viewer."
  const PhotoRequired: string := "Photo capture required."

  /** The body checks of the identity route, in their order: required
      fields, name match, phone match, photo. */
  function IdentityCheck(body: Json, req: ViewerIdentityRequirement): (v: IdentityVerdict)
    ensures var name := BodyName(body); var phone := BodyPhone(body);
      && (v.IdentityAccepted? <==>
            !MissingFields(req, name, phone) && !NameMismatch(req, name) && !PhoneMismatch(req, phone)
            && BodyPhoto(body).Some?)
      && (v.IdentityAccepted? ==> v == IdentityAccepted(name, phone, BodyPhoto(body).value))
      && (MissingFields(req, name, phone) ==> v == IdentityRejected(400, NamePhoneRequired))
      && (!MissingFields(req, name, phone) && NameMismatch(req, name) ==> v == IdentityRejected(403, NameMismatchMessage))
      && ((!MissingFields(req, name, phone) && !NameMismatch(req, name) && PhoneMismatch(req, phone))
            ==> v == IdentityRejected(403, PhoneMismatchMessage))
      && ((!MissingFields(req, name, phone) && !NameMismatch(req, name) && !PhoneMismatch(req, phone)
             && BodyPhoto(body).None?) ==> v == IdentityRejected(400, PhotoRequired))
  {
    var name := BodyName(body);
    var phone := BodyPhone(body);
    var photo := BodyPhoto(body);
    if MissingFields(req, name, phone) then IdentityRejected(400, NamePhoneRequired)
    else if NameMismatch(req, name) then IdentityRejected(403, NameMismatchMessage)
    else if PhoneMismatch(req, phone) then IdentityRejected(403, PhoneMismatchMessage)
    else if photo.None? then IdentityRejected(400, PhotoRequired)
    else IdentityAccepted(name, phone, photo.value)
  }

  /** Without a photo no identity is ever accepted, whatever the document
      requires; the answer is 400 unless a name or phone match fails first. */
  lemma PhotoAlwaysRequired(body: Json, req: ViewerIdentityRequirement)
    requires BodyPhoto(body).None?
    ensures IdentityCheck(body, req).IdentityRejected?
    ensures !NameMismatch(req, BodyName(body)) && !PhoneMismatch(req, BodyPhone(body)) ==> IdentityCheck(body, req).status == 400
  {
  }

  /** A document without `required` or `enforceMatch` accepts any body that
      carries a photo, even with an empty name and phone. */
  lemma LaxDocumentNeedsOnlyPhoto(body: Json, req: ViewerIdentityRequirement)
    requires !req.required && !Enforced(req) && BodyPhoto(body).Some?
    ensures IdentityCheck(body, req).IdentityAccepted?
  {
  }

  /** The name match ignores case (ASCII) and surrounding white space of
      the expected name; the phone match ignores every non-digit. */
  lemma MatchIgnoresCaseAndPunctuation(req: ViewerIdentityRequirement, name: string, name2: string, phone: string, phone2: string)
    requires ToLower(name) == ToLower(name2) && DigitsOnly(phone) == DigitsOnly(phone2)
    ensures NameMismatch(req, name) == NameMismatch(req, name2)
    ensures PhoneMismatch(req, phone) == PhoneMismatch(req, phone2)
  {
  }

  /** The identity route. Its guards run in the order cookie (401), session
      record (404), document (404), then the body checks; only an accepted
      body touches the store. A body that is not JSON, or is `null`, throws
      inside the handler's `try` and gives 500. */
  method IdentityRoute(store: SessionStore, token: Option<string>, docs: map<string, StoredDocument>,
                       body: Option<Json>, now: int, nowIso: string) returns (resp: Response)
    modifies store
    ensures !HasToken(token) ==> resp == Error(401, "Missing session") && unchanged(store)
    ensures HasToken(token) && token.value !in old(store.sessions) ==> resp == Error(404, "Session not found") && unchanged(store)
    ensures HasToken(token) && token.value in old(store.sessions) && old(store.sessions)[token.value].documentId !in docs ==>
      resp == Error(404, "Document not found") && unchanged(store)
    ensures HasToken(token) && token.value in old(store.sessions) && old(store.sessions)[token.value].documentId in docs ==>
      var req := docs[old(store.sessions)[token.value].documentId].identityRequirement;
      if body.None? || body.value == JNull then resp == Error(500, InternalError) && unchanged(store)
      else match IdentityCheck(body.value, req)
        case IdentityRejected(status, message) => resp == Error(status, message) && unchanged(store)
        case IdentityAccepted(name, phone, photo) =>
          && resp == Reply(200, OkBody, [])
          && store.sessions == old(store.sessions)[token.value := AttachIdentity(old(store.sessions)[token.value], name, phone, photo, now)]
          && store.emitted == old(store.emitted)
             + [IdentityEvent(AttachIdentity(old(store.sessions)[token.value], name, phone, photo, now), name, phone, photo, nowIso)]
  {
    if !HasToken(token) {
      return Error(401, "Missing session");
    }
    if token.value !in store.sessions {
      return Error(404, "Session not found");
    }
    var record := store.sessions[token.value];
    if record.documentId !in docs {
      return Error(404, "Document not found");
    }
    if body.None? || body.value == JNull {
      return Error(500, InternalError);
    }
    var verdict := IdentityCheck(body.value, docs[record.documentId].identityRequirement);
    match verdict {
      case IdentityRejected(status, message) =>
        return Error(status, message);
      case IdentityAccepted(name, phone, photo) =>
        var _ := store.AttachViewerIdentity(token.value, name, phone, photo, now, nowIso);
        return Reply(200, OkBody, []);
    }
  }

  // ---------------------------------------------------------------------
  // POST /api/otp/verify

  /** `String(body.code ?? "").trim()` */
  function OtpCode(body: Json): string { Trim(StringOr(Get(body, "code"), "")) }

  /** The session cookie set on a verified code: one hour, HTTP only,
      same-site strict. */
  function SessionCookie(token: string): (c: Cookie)
    ensures c.name == ViewerCookie && c.value == token && c.maxAge == 3600 && c.httpOnly
  {
    Cookie(ViewerCookie, token, "/", 60 * 60, true, Some("strict"))
  }

  function OtpSuccessBody(d: StoredDocument): map<string, Json> {
    map["ok" := JBool(true), "documentId" := JStr(d.documentId), "requireIdentity" := JBool(d.identityRequirement.required)]
  }

  /** The code-verification route: an empty code is 400, an unknown one
      404; otherwise a session is created under `token` for the matching
      document, with the user agent or "unknown-device" as the device, and
      the response carries the document id, whether identity is required
      and the session cookie. */
  method OtpVerifyRoute(store: SessionStore, body: Option<Json>, listing: seq<StoredDocument>, userAgent: Option<string>,
                        viewerSuffix: string, token: string, sessionId: string, tamperHash: string,
                        startedAt: int, later: int, nowIso: string) returns (resp: Response)
    modifies store
    ensures body.None? || body.value == JNull ==> resp == Error(500, InternalError) && unchanged(store)
    ensures body.Some? && body.value != JNull && OtpCode(body.value) == "" ==> resp == Error(400, "Access code required") && unchanged(store)
    ensures body.Some? && body.value != JNull && OtpCode(body.value) != "" && FindDocumentByOtp(listing, OtpCode(body.value)).None? ==>
      resp == Error(404, "Invalid or expired code") && unchanged(store)
    ensures body.Some? && body.value != JNull && OtpCode(body.value) != "" && FindDocumentByOtp(listing, OtpCode(body.value)).Some? ==>
      var d := FindDocumentByOtp(listing, OtpCode(body.value)).value;
      var session := SessionRecords.CreateSession(AsSecureDocument(d), "viewer-" + viewerSuffix, startedAt, later, sessionId, tamperHash);
      && resp == Reply(200, OtpSuccessBody(d), [SessionCookie(token)])
      && store.sessions == old(store.sessions)[token := NewViewerRecord(d, OtpCode(body.value), userAgent.GetOr("unknown-device"), token, session, nowIso)]
      && store.emitted == old(store.emitted) + [OtpVerifiedEvent(d.documentId, "viewer-" + viewerSuffix, nowIso)]
  {
    if body.None? || body.value == JNull {
      return Error(500, InternalError);
    }
    var code := OtpCode(body.value);
    if code == "" {
      return Error(400, "Access code required");
    }
    var found := FindDocumentByOtp(listing, code);
    if found.None? {
      return Error(404, "Invalid or expired code");
    }
    var agent := userAgent.GetOr("unknown-device");
    var _ := store.CreateViewerSession(found.value, code, agent, viewerSuffix, token, sessionId, tamperHash, startedAt, later, nowIso);
    return Reply(200, OtpSuccessBody(found.value), [SessionCookie(token)]);
  }

  // ---------------------------------------------------------------------
  // POST /api/presence

  /** The location normalisation: a truthy `location` becomes numbers (NaN
      where not numeric), an accuracy only when truthy, and a capture time
      defaulting to now. */
  function NormaliseLocation(body: Json, nowIso: string): (l: Option<Location>)
    ensures l.Some? <==> TruthyOpt(Get(body, "location"))
    ensures l.Some? ==> var loc := Get(body, "location").value;
      && l.value.Normalised?
      && l.value.lat == NumberOf(Get(loc, "lat")) && l.value.lon == NumberOf(Get(loc, "lon"))
      && (l.value.accuracy.Some? <==> TruthyOpt(Get(loc, "accuracy")))
      && l.value.capturedAt == OrElse(Get(loc, "capturedAt"), JStr(nowIso))
  {
    var raw := Get(body, "location");
    if !TruthyOpt(raw) then None
    else
      var loc := raw.value;
      var acc := Get(loc, "accuracy");
      Some(Normalised(NumberOf(Get(loc, "lat")), NumberOf(Get(loc, "lon")),
                      if TruthyOpt(acc) then Some(ToNumber(acc.value)) else None,
                      OrElse(Get(loc, "capturedAt"), JStr(nowIso))))
  }

  function PresencePayloadOf(body: Json, nowIso: string): (p: PresencePayload)
    ensures p.location == NormaliseLocation(body, nowIso)
    ensures p.photo == AsString(Get(body, "photo")) && p.frameHash == AsString(Get(body, "frameHash"))
    ensures !Present(Get(body, "reason")) ==> p.reason == JStr("presence")
  {
    PresencePayload(NormaliseLocation(body, nowIso), AsString(Get(body, "photo")), AsString(Get(body, "frameHash")),
                    OrElse(Get(body, "reason"), JStr("presence")))
  }

  /** The presence route: the document id is checked before the cookie. */
  method PresenceRoute(store: SessionStore, body: Option<Json>, token: Option<string>, nowIso: string) returns (resp: Response)
    modifies store
    ensures body.None? || body.value == JNull ==> resp == Unhandled && unchanged(store)
    ensures body.Some? && body.value != JNull && StringOr(Get(body.value, "documentId"), "") == "" ==>
      resp == Error(400, "documentId required") && unchanged(store)
    ensures body.Some? && body.value != JNull && StringOr(Get(body.value, "documentId"), "") != "" && !HasToken(token) ==>
      resp == Error(401, "Missing session") && unchanged(store)
    ensures body.Some? && body.value != JNull && StringOr(Get(body.value, "documentId"), "") != "" && HasToken(token) ==>
      var p := PresencePayloadOf(body.value, nowIso);
      && resp == Reply(200, OkBody, [])
      && (token.value !in old(store.sessions) ==> store.sessions == old(store.sessions))
      && (token.value in old(store.sessions) ==>
            store.sessions == old(store.sessions)[token.value := RecordPresence(old(store.sessions)[token.value], p.location)])
      && store.emitted == old(store.emitted) + [PresenceEvent(StringOr(Get(body.value, "documentId"), ""), p, nowIso)]
  {
    if body.None? || body.value == JNull {
      return Unhandled;
    }
    var documentId := StringOr(Get(body.value, "documentId"), "");
    if documentId == "" {
      return Error(400, "documentId required");
    }
    if !HasToken(token) {
      return Error(401, "Missing session");
    }
    store.RecordPresenceEvent(token.value, documentId, PresencePayloadOf(body.value, nowIso), nowIso);
    return Reply(200, OkBody, []);
  }

  // ---------------------------------------------------------------------
  // POST /api/violations and POST /api/logs

  /** `payload.data ?? payload` */
  function Envelope(payload: Json): (data: Json)
    ensures Present(Get(payload, "data")) ==> data == Get(payload, "data").value
    ensures !Present(Get(payload, "data")) ==> data == payload
  {
    OrElse(Get(payload, "data"), payload)
  }

  /** `data.evidence?.photo` when it is a string. */
  function EvidencePhoto(data: Json): Option<string> { AsString(GetOpt(Get(data, "evidence"), "photo")) }

  /** `data.evidence?.location ?? null` */
  function EvidenceLocation(data: Json): (l: Option<Json>)
    ensures l.Some? ==> l.value != JNull
  {
    var l := GetOpt(Get(data, "evidence"), "location");
    if Present(l) then l else None
  }

  /** A violation is recorded exactly when there is a cookie and the data
      carries a truthy `violation`. */
  predicate RecordsViolation(token: Option<string>, data: Json) {
    HasToken(token) && TruthyOpt(Get(data, "violation"))
  }

  function EchoBody(status: string, nowIso: string, data: Json): map<string, Json> {
    map["status" := JStr(status), "receivedAt" := JStr(nowIso), "payload" := data]
  }

  /** The violations route: record when possible, and in every case emit a
      `VIOLATION` event carrying the data and echo it back. */
  method ViolationsRoute(store: SessionStore, payload: Option<Json>, token: Option<string>, nowIso: string) returns (resp: Response)
    modifies store
    ensures payload.None? || payload.value == JNull ==> resp == Unhandled && unchanged(store)
    ensures payload.Some? && payload.value != JNull ==>
      var data := Envelope(payload.value);
      && resp == Reply(200, EchoBody("VIOLATION_RECORDED", nowIso, data), [])
      && store.emitted == old(store.emitted) + [EventBus.SystemEvent(EventBus.VIOLATION, data, nowIso)]
      && (RecordsViolation(token, data) && token.value in old(store.sessions) ==>
            store.sessions == old(store.sessions)[token.value :=
              RecordViolation(old(store.sessions)[token.value], Get(data, "violation").value, EvidencePhoto(data), EvidenceLocation(data))])
      && (!RecordsViolation(token, data) || token.value !in old(store.sessions) ==> store.sessions == old(store.sessions))
  {
    if payload.None? || payload.value == JNull {
      return Unhandled;
    }
    var data := Envelope(payload.value);
    if RecordsViolation(token, data) {
      store.RecordSessionViolation(token.value, Get(data, "violation").value, EvidencePhoto(data), EvidenceLocation(data));
    }
    store.Emit(EventBus.SystemEvent(EventBus.VIOLATION, data, nowIso));
    return Reply(200, EchoBody("VIOLATION_RECORDED", nowIso, data), []);
  }

  /** The logs route's body: empty or unparsable text is `{}`. */
  function LogsPayload(text: string, parsed: Option<Json>): (p: Json)
    ensures text == "" || parsed.None? ==> p == JObj(map[])
    ensures text != "" && parsed.Some? ==> p == parsed.value
  {
    if text == "" || parsed.None? then JObj(map[]) else parsed.value
  }

  /** `String(data.event ?? "UNKNOWN")` */
  function LogEvent(data: Json): string { StringOr(Get(data, "event"), "UNKNOWN") }

  /** The logs route: append when there is a cookie, emit
      `SESSION_HEARTBEAT` in every case. `parsed` is `JSON.parse(text)`;
      the body `null` parses and then throws on `.data`. */
  method LogsRoute(store: SessionStore, text: string, parsed: Option<Json>, token: Option<string>, id: string, nowIso: string)
    returns (resp: Response)
    modifies store
    ensures LogsPayload(text, parsed) == JNull ==> resp == Unhandled && unchanged(store)
    ensures LogsPayload(text, parsed) != JNull ==>
      var data := Envelope(LogsPayload(text, parsed));
      && resp == Reply(200, EchoBody("LOGGED", nowIso, data), [])
      && store.emitted == old(store.emitted) + [EventBus.SystemEvent(EventBus.SESSION_HEARTBEAT, data, nowIso)]
      && (HasToken(token) && token.value in old(store.sessions) ==>
            store.sessions == old(store.sessions)[token.value :=
              AppendLog(old(store.sessions)[token.value], LogEntry(id, LogEvent(data), nowIso, Get(data, "context")))])
      && (!HasToken(token) || token.value !in old(store.sessions) ==> store.sessions == old(store.sessions))
  {
    var payload := LogsPayload(text, parsed);
    if payload == JNull {
      return Unhandled;
    }
    var data := Envelope(payload);
    if HasToken(token) {
      store.AppendSessionLogEntry(token.value, LogEvent(data), Get(data, "context"), id, nowIso);
    }
    store.Emit(EventBus.SystemEvent(EventBus.SESSION_HEARTBEAT, data, nowIso));
    return Reply(200, EchoBody("LOGGED", nowIso, data), []);
  }

  // ---------------------------------------------------------------------
  // POST /api/session/revoke

  /** `payload?.reason`, where an unparsable body is `{}`. */
  function RevokeReason(body: Option<Json>): (r: Option<Json>)
    ensures body.None? ==> r.None?
    ensures body.Some? ==> r == Get(body.value, "reason")
  {
    if body.None? then None else Get(body.value, "reason")
  }

  /** The cookie that ends the reader's session. */
  const ClearedCookie: Cookie := Cookie(ViewerCookie, "", "/", 0, false, None)

  method RevokeRoute(store: SessionStore, token: Option<string>, body: Option<Json>, nowIso: string) returns (resp: Response)
    modifies store
    ensures !HasToken(token) ==> resp == Error(401, "Missing session") && unchanged(store)
    ensures HasToken(token) ==> resp == Reply(200, OkBody, [ClearedCookie])
    ensures HasToken(token) && token.value !in old(store.sessions) ==>
      store.sessions == old(store.sessions) && store.emitted == old(store.emitted)
    ensures HasToken(token) && token.value in old(store.sessions) ==>
      && store.sessions == old(store.sessions)[token.value := MarkInactive(old(store.sessions)[token.value], RevokeReason(body))]
      && store.emitted == old(store.emitted) + [RevokedEvent(old(store.sessions)[token.value].documentId, RevokeReason(body), nowIso)]
  {
    if !HasToken(token) {
      return Error(401, "Missing session");
    }
    store.MarkSessionInactive(token.value, RevokeReason(body), nowIso);
    return Reply(200, OkBody, [ClearedCookie]);
  }

  // ---------------------------------------------------------------------
  // GET and POST /api/documents

  /** A `FormData` entry: text, or an uploaded file. */
  datatype FormValue = FormText(text: string) | FormFile(name: string, fileType: string, size: nat)

  /** `String(v)` for a form entry (`null` when absent). */
  function FormString(v: Option<FormValue>): string {
    match v
    case None => "null"
    case Some(FormText(t)) => t
    case Some(FormFile(_, _, _)) => "[object File]"
  }

  /** `String(v ?? "")`: an absent entry reads as the empty string. */
  function FormStringOrEmpty(v: Option<FormValue>): (t: string)
    ensures v.None? ==> t == ""
    ensures v.Some? ==> t == FormString(v)
  {
    if v.None? then "" else FormString(v)
  }

  predicate FormTruthy(v: Option<FormValue>) {
    v.Some? && (v.value.FormText? ==> v.value.text != "")
  }

  /** The form fields of the create request; `*Parsed` are the results of
      `JSON.parse(String(field))`, `None` when it throws. */
  datatype CreateForm = CreateForm(
    title: Option<FormValue>,
    description: Option<FormValue>,
    otp: Option<FormValue>,
    permissionsParsed: Option<DocumentPermissions>,
    policiesParsed: Option<DocumentSecurityPolicy>,
    identityRaw: Option<FormValue>,
    identityParsed: Option<ViewerIdentityRequirement>,
    richText: Option<FormValue>,
    file: Option<FormValue>)

  datatype CreateVerdict = CreateRejected(status: nat, message: string) | CreateAccepted(input: CreateDocumentInput)

  /** The upload taken from the form: only a non-empty file, its type
      defaulting to `application/octet-stream`. */
  function UploadOf(file: Option<FormValue>, uploadsDir: string): (u: Option<StoredFile>)
    ensures u.Some? <==> file.Some? && file.value.FormFile? && file.value.size > 0
    ensures u.Some? ==> (u.value.name == file.value.name
      && u.value.fileType == (if file.value.fileType == "" then "application/octet-stream" else file.value.fileType))
  {
    match file
    case Some(FormFile(name, t, size)) =>
      if size > 0 then Some(StoredFile(name, if t == "" then "application/octet-stream" else t, uploadsDir + "/" + name))
      else None
    case _ => None
  }

  const OwnerRoot: string := "owner-root"

  /** The create form check: title and code first, then the three JSON
      fields; the identity rule is `{ required: false }` when the field is
      absent or empty, and the owner is always `owner-root`. */
  function CreateCheck(form: CreateForm, uploadsDir: string): (v: CreateVerdict)
    ensures FormStringOrEmpty(form.title) == "" || FormStringOrEmpty(form.otp) == "" ==> v == CreateRejected(400, "Title and OTP are required.")
    ensures FormStringOrEmpty(form.title) != "" && FormStringOrEmpty(form.otp) != "" ==>
      (v.CreateRejected? <==> form.permissionsParsed.None? || form.policiesParsed.None?
                              || (FormTruthy(form.identityRaw) && form.identityParsed.None?))
    ensures v.CreateRejected? && FormStringOrEmpty(form.title) != "" && FormStringOrEmpty(form.otp) != "" ==>
      v == CreateRejected(400, "Invalid security payload.")
    ensures v.CreateAccepted? ==> (v.input.ownerId == OwnerRoot && v.input.title == FormStringOrEmpty(form.title)
      && v.input.otp == FormStringOrEmpty(form.otp) && v.input.file == UploadOf(form.file, uploadsDir)
      && (!FormTruthy(form.identityRaw) ==> v.input.identityRequirement == Some(FallbackIdentityRequirement)))
    ensures form.title.None? || form.otp.None? ==> v == CreateRejected(400, "Title and OTP are required.")
    ensures v.CreateAccepted? ==> v.input.description == FormStringOrEmpty(form.description)
    ensures v.CreateAccepted? ==> (v.input.richText.Some? <==> FormTruthy(form.richText))
  {
    var title := FormStringOrEmpty(form.title);
    var otp := FormStringOrEmpty(form.otp);
    if title == "" || otp == "" then CreateRejected(400, "Title and OTP are required.")
    else if form.permissionsParsed.None? || form.policiesParsed.None? then CreateRejected(400, "Invalid security payload.")
    else
      var identity := if FormTruthy(form.identityRaw) then form.identityParsed else Some(FallbackIdentityRequirement);
      if identity.None? then CreateRejected(400, "Invalid security payload.")
      else
        CreateAccepted(CreateDocumentInput(
          title, FormStringOrEmpty(form.description), otp, OwnerRoot,
          form.permissionsParsed.value, form.policiesParsed.value, identity,
          if FormTruthy(form.richText) then Some(FormString(form.richText)) else None,
          UploadOf(form.file, uploadsDir)))
  }

  datatype DocumentsResponse = DocumentsRejected(status: nat, message: string) | DocumentCreated(document: PublicDocument)

  /** `POST /api/documents`: the new record is reported without its blob
      and path, and `DOCUMENT_CREATED` is emitted. */
  method CreateDocumentRoute(store: SessionStore, form: CreateForm, id: string, uploadsRoot: string, nowIso: string)
    returns (resp: DocumentsResponse, record: Option<StoredDocument>)
    modifies store
    ensures CreateCheck(form, uploadsRoot + "/" + id).CreateRejected? ==>
      resp == DocumentsRejected(CreateCheck(form, uploadsRoot + "/" + id).status, CreateCheck(form, uploadsRoot + "/" + id).message)
      && record.None? && unchanged(store)
    ensures CreateCheck(form, uploadsRoot + "/" + id).CreateAccepted? ==>
      var d := CreateDocumentRecord(CreateCheck(form, uploadsRoot + "/" + id).input, id, uploadsRoot + "/" + id, nowIso);
      && record == Some(d) && resp == DocumentCreated(Sanitise(d))
      && store.sessions == old(store.sessions) && store.emitted == old(store.emitted) + [DocumentCreatedEvent(d, nowIso)]
  {
    var uploadsDir := uploadsRoot + "/" + id;
    var verdict := CreateCheck(form, uploadsDir);
    if verdict.CreateRejected? {
      return DocumentsRejected(verdict.status, verdict.message), None;
    }
    var d := CreateDocumentRecord(verdict.input, id, uploadsDir, nowIso);
    store.Emit(DocumentCreatedEvent(d, nowIso));
    return DocumentCreated(Sanitise(d)), Some(d);
  }

  /** `GET /api/documents`: the listing, sanitised element by element. */
  function ListDocumentsRoute(listing: seq<StoredDocument>): (r: seq<PublicDocument>)
    ensures |r| == |listing|
    ensures forall i :: 0 <= i < |r| ==> r[i] == Sanitise(listing[i])
  {
    if listing == [] then [] else [Sanitise(listing[0])] + ListDocumentsRoute(listing[1..])
  }
}
