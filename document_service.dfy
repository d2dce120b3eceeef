/** The server-side records of src/lib/services/documentService.ts. The
    JSON files under the documents and sessions directories become a
    listing (`seq<StoredDocument>`) and a `map` from token to record held
    by `SessionStore`; `mutateSession` is read, transform, write back.
    Every mutator body is a function on `StoredSession`; the store's
    methods apply them and record what they hand to `emitSystemEvent`.
    Ids (`nanoid`) and clock readings are parameters. */
module DocumentService {
  import opened Common
  import opened Text
  import opened Json
  import opened SecurityTypes
  import SessionRecords
  import EventBus

  /** `ReaderLocation` as the server stores it: normalised by the presence
      route, or whatever truthy value a violation report carried. */
  datatype Location =
    | Normalised(lat: Num, lon: Num, accuracy: Option<Num>, capturedAt: Json)
    | Raw(value: Json)

  datatype LogEntry = LogEntry(id: string, event: string, createdAt: string, context: Option<Json>)

  /** `ReaderViolationEntry`; the route does not check the reported
      violation's shape, so its fields are whatever the report held. */
  datatype ViolationEntry = ViolationEntry(
    id: Option<Json>, code: Option<Json>, message: Option<Json>, occurredAt: Option<Json>, photo: Option<string>)

  datatype SessionHistory = SessionHistory(
    logs: seq<LogEntry>, violations: seq<ViolationEntry>, lastLocation: Option<Location>)

  datatype StoredSession = StoredSession(
    token: string,
    session: SessionStatus,
    documentId: string,
    otp: string,
    viewer: ViewerProfile,
    revokedReason: Option<Json>,
    history: Option<SessionHistory>)

  datatype StoredFile = StoredFile(name: string, fileType: string, path: string)

  datatype StoredDocument = StoredDocument(
    documentId: string,
    ownerId: string,
    title: string,
    description: string,
    otp: string,
    encryptedBlob: string,
    permissions: DocumentPermissions,
    policies: DocumentSecurityPolicy,
    identityRequirement: ViewerIdentityRequirement,
    richText: Option<string>,
    filePath: Option<string>,
    fileName: Option<string>,
    fileType: Option<string>,
    fileUrl: Option<string>,
    createdAt: string)

  const LogCap: nat := 40
  const ViolationCap: nat := 25
  const SnapshotEntries: nat := 8

  // ---------------------------------------------------------------------
  // Documents

  /** `d.otp.toLowerCase() === otp.toLowerCase()` */
  predicate OtpMatches(d: StoredDocument, otp: string) {
    ToLower(d.otp) == ToLower(otp)
  }

  /** `findDocumentByOtp`: a listed document whose code equals the given
      one ignoring case, if there is one. */
  function FindDocumentByOtp(docs: seq<StoredDocument>, otp: string): (r: Option<StoredDocument>)
    ensures r.None? <==> forall i :: 0 <= i < |docs| ==> !OtpMatches(docs[i], otp)
    ensures r.Some? ==> r.value in docs && OtpMatches(r.value, otp)
  {
    if docs == [] then None
    else if OtpMatches(docs[0], otp) then Some(docs[0])
    else
      assert forall i :: 1 <= i < |docs| ==> docs[i] == docs[1..][i - 1];
      FindDocumentByOtp(docs[1..], otp)
  }

  /** The document found is the first listed one that matches. */
  lemma {:induction false} FindDocumentByOtpFirst(docs: seq<StoredDocument>, otp: string)
    requires FindDocumentByOtp(docs, otp).Some?
    ensures exists i :: (0 <= i < |docs| && docs[i] == FindDocumentByOtp(docs, otp).value
      && forall j :: 0 <= j < i ==> !OtpMatches(docs[j], otp))
    decreases |docs|
  {
    var r := FindDocumentByOtp(docs, otp).value;
    if OtpMatches(docs[0], otp) {
      assert docs[0] == r;
    } else {
      FindDocumentByOtpFirst(docs[1..], otp);
      var i :| 0 <= i < |docs[1..]| && docs[1..][i] == r && forall j :: 0 <= j < i ==> !OtpMatches(docs[1..][j], otp);
      assert docs[i + 1] == r;
      forall j | 0 <= j < i + 1
        ensures !OtpMatches(docs[j], otp)
      {
        if j > 0 {
          assert docs[j] == docs[1..][j - 1];
        }
      }
    }
  }

  /** The stored code matches whatever case the reader types it in. */
  lemma OtpMatchIgnoresCase(docs: seq<StoredDocument>, a: string, b: string)
    requires ToLower(a) == ToLower(b)
    ensures FindDocumentByOtp(docs, a) == FindDocumentByOtp(docs, b)
    decreases |docs|
  {
    if docs != [] {
      OtpMatchIgnoresCase(docs[1..], a, b);
    }
  }

  /** The identity rule stored when the owner gives none. */
  const FallbackIdentityRequirement: ViewerIdentityRequirement := ViewerIdentityRequirement(false, None, None, None)

  /** What the documents route hands to `createDocument`. */
  datatype CreateDocumentInput = CreateDocumentInput(
    title: string,
    description: string,
    otp: string,
    ownerId: string,
    permissions: DocumentPermissions,
    policies: DocumentSecurityPolicy,
    identityRequirement: Option<ViewerIdentityRequirement>,
    richText: Option<string>,
    file: Option<StoredFile>)

  /** `createDocument`'s record: the upload's path is its directory joined
      with its name, the blob is that path or empty, the file url exists
      exactly when a file was uploaded. */
  function CreateDocumentRecord(input: CreateDocumentInput, id: string, uploadsDir: string, nowIso: string): (d: StoredDocument)
    ensures d.documentId == id && d.ownerId == input.ownerId && d.title == input.title && d.otp == input.otp
    ensures d.fileUrl.Some? <==> input.file.Some?
    ensures d.fileUrl.Some? ==> d.fileUrl.value == "/api/documents/" + id + "/file"
    ensures d.encryptedBlob == d.filePath.GetOr("")
    ensures d.identityRequirement == input.identityRequirement.GetOr(FallbackIdentityRequirement)
    ensures input.file.None? ==> d.filePath.None? && d.fileName.None? && d.fileType.None?
  {
    var filePath := if input.file.Some? then Some(uploadsDir + "/" + input.file.value.name) else None;
    StoredDocument(
      id, input.ownerId, input.title, input.description, input.otp,
      filePath.GetOr(""), input.permissions, input.policies,
      input.identityRequirement.GetOr(FallbackIdentityRequirement),
      input.richText, filePath,
      if input.file.Some? then Some(input.file.value.name) else None,
      if input.file.Some? then Some(input.file.value.fileType) else None,
      if filePath.Some? then Some("/api/documents/" + id + "/file") else None,
      nowIso)
  }

  /** The document event `createDocument` emits. */
  function DocumentCreatedEvent(d: StoredDocument, nowIso: string): EventBus.SystemEvent {
    EventBus.SystemEvent(EventBus.DOCUMENT_CREATED,
      JObj(map["documentId" := JStr(d.documentId), "title" := JStr(d.title)]), nowIso)
  }

  /** A document as the API sends it: every stored field except the blob
      and the file path. */
  datatype PublicDocument = PublicDocument(
    documentId: string,
    ownerId: string,
    title: string,
    description: string,
    otp: string,
    permissions: DocumentPermissions,
    policies: DocumentSecurityPolicy,
    identityRequirement: ViewerIdentityRequirement,
    richText: Option<string>,
    fileName: Option<string>,
    fileType: Option<string>,
    fileUrl: Option<string>,
    createdAt: string)

  /** `const { encryptedBlob, filePath, ...rest } = doc`. */
  function Sanitise(d: StoredDocument): PublicDocument {
    PublicDocument(d.documentId, d.ownerId, d.title, d.description, d.otp, d.permissions, d.policies,
                   d.identityRequirement, d.richText, d.fileName, d.fileType, d.fileUrl, d.createdAt)
  }

  /** Two documents look the same through the API exactly when they differ
      at most in the blob and the file path: those two, and only those,
      are withheld. */
  lemma SanitiseDropsExactlySecrets(a: StoredDocument, b: StoredDocument)
    ensures Sanitise(a) == Sanitise(b) <==> a.(encryptedBlob := b.encryptedBlob, filePath := b.filePath) == b
  {
  }

  // ---------------------------------------------------------------------
  // Session mutators

  /** `ensureHistory`: an absent history becomes empty logs and
      violations; a present one is kept. */
  function EnsureHistory(h: Option<SessionHistory>): (r: SessionHistory)
    ensures h.Some? ==> r == h.value
    ensures h.None? ==> r.logs == [] && r.violations == [] && r.lastLocation.None?
  {
    h.GetOr(SessionHistory([], [], None))
  }

  /** The mutator of `markSessionInactive`. */
  function MarkInactive(rec: StoredSession, reason: Option<Json>): (r: StoredSession)
    ensures !r.session.active && r.revokedReason == reason
    ensures r.session.(active := rec.session.active) == rec.session
    ensures r.(session := rec.session, revokedReason := rec.revokedReason) == rec
  {
    rec.(session := rec.session.(active := false), revokedReason := reason)
  }

  /** Revoking twice is revoking once, with the later reason. */
  lemma MarkInactiveTwice(rec: StoredSession, first: Option<Json>, second: Option<Json>)
    ensures MarkInactive(MarkInactive(rec, first), second) == MarkInactive(rec, second)
  {
  }

  /** Replace the history with `h`, leaving the rest of the record alone. */
  function WithHistory(rec: StoredSession, h: SessionHistory): StoredSession {
    rec.(history := Some(h))
  }

  /** The mutator of `appendSessionLogEntry`: newest first, 40 at most. */
  function AppendLog(rec: StoredSession, entry: LogEntry): (r: StoredSession)
    ensures r.history.Some?
    ensures var before := EnsureHistory(rec.history); var h := r.history.value;
      && h.logs == PushCapped(entry, before.logs, LogCap)
      && h.violations == before.violations && h.lastLocation == before.lastLocation
    ensures r.(history := rec.history) == rec
  {
    var h := EnsureHistory(rec.history);
    WithHistory(rec, h.(logs := PushCapped(entry, h.logs, LogCap)))
  }

  /** The mutator of `attachViewerIdentity`. */
  function AttachIdentity(rec: StoredSession, name: string, phone: string, photo: string, now: int): (r: StoredSession)
    ensures r.session.identityVerified
    ensures r.session.viewerIdentity == Some(ViewerIdentity(Some(name), Some(phone), Some(now), Some(photo)))
    ensures r.session.(identityVerified := rec.session.identityVerified, viewerIdentity := rec.session.viewerIdentity) == rec.session
    ensures r.(session := rec.session) == rec
  {
    rec.(session := rec.session.(identityVerified := true,
                                 viewerIdentity := Some(ViewerIdentity(Some(name), Some(phone), Some(now), Some(photo)))))
  }

  /** The mutator of `recordPresenceEvent`: the history is created either
      way; the location is replaced only when one is given. */
  function RecordPresence(rec: StoredSession, location: Option<Location>): (r: StoredSession)
    ensures r.history.Some?
    ensures var before := EnsureHistory(rec.history); var h := r.history.value;
      && h.logs == before.logs && h.violations == before.violations
      && h.lastLocation == (if location.Some? then location else before.lastLocation)
    ensures r.(history := rec.history) == rec
  {
    var h := EnsureHistory(rec.history);
    WithHistory(rec, if location.Some? then h.(lastLocation := location) else h)
  }

  /** `{ id, code, message: description, occurredAt: createdAt, photo }`
      built from the reported violation. */
  function ViolationEntryOf(violation: Json, photo: Option<string>): ViolationEntry {
    ViolationEntry(Get(violation, "id"), Get(violation, "code"), Get(violation, "description"),
                   Get(violation, "createdAt"), photo)
  }

  /** The mutator of `recordSessionViolation`: newest first, 25 at most, and
      the location replaced only by a truthy one. */
  function RecordViolation(rec: StoredSession, violation: Json, photo: Option<string>, location: Option<Json>): (r: StoredSession)
    ensures r.history.Some?
    ensures var before := EnsureHistory(rec.history); var h := r.history.value;
      && h.violations == PushCapped(ViolationEntryOf(violation, photo), before.violations, ViolationCap)
      && h.logs == before.logs
      && h.lastLocation == (if TruthyOpt(location) then Some(Raw(location.value)) else before.lastLocation)
    ensures r.(history := rec.history) == rec
  {
    var h := EnsureHistory(rec.history);
    var h1 := h.(violations := PushCapped(ViolationEntryOf(violation, photo), h.violations, ViolationCap));
    WithHistory(rec, if TruthyOpt(location) then h1.(lastLocation := Some(Raw(location.value))) else h1)
  }

  /** `[x, ...Take(ys, cap)].slice(0, cap)` is `[x, ...ys].slice(0, cap)`:
      capping after every insertion loses nothing that a single cap at the
      end would keep. */
  lemma PushCappedOfTake<T>(x: T, ys: seq<T>, cap: nat)
    requires cap > 0
    ensures PushCapped(x, Take(ys, cap), cap) == Take([x] + ys, cap)
  {
    var a := PushCapped(x, Take(ys, cap), cap);
    var b := Take([x] + ys, cap);
    assert |a| == |b|;
    forall i | 0 <= i < |a|
      ensures a[i] == b[i]
    {
      if i > 0 {
        assert a[i] == Take(ys, cap)[i - 1] == ys[i - 1];
      }
    }
  }

  function Reversed<T>(xs: seq<T>): (r: seq<T>)
    ensures |r| == |xs|
    ensures forall i :: 0 <= i < |xs| ==> r[i] == xs[|xs| - 1 - i]
  {
    if xs == [] then [] else Reversed(xs[1..]) + [xs[0]]
  }

  /** Append the log entries one call after another. */
  function AppendLogs(rec: StoredSession, entries: seq<LogEntry>): StoredSession
    decreases |entries|
  {
    if entries == [] then rec else AppendLogs(AppendLog(rec, entries[0]), entries[1..])
  }

  /** After any run of appends the log is the newest 40 entries, newest
      first, of the appended entries followed by the old log; so at most 40
      are ever kept. */
  lemma {:induction false} AppendLogsKeepsNewest(rec: StoredSession, entries: seq<LogEntry>)
    requires |EnsureHistory(rec.history).logs| <= LogCap
    ensures var h := EnsureHistory(AppendLogs(rec, entries).history);
      && h.logs == Take(Reversed(entries) + EnsureHistory(rec.history).logs, LogCap)
      && |h.logs| <= LogCap
    decreases |entries|
  {
    var old_logs := EnsureHistory(rec.history).logs;
    if entries == [] {
      assert Take(old_logs, LogCap) == old_logs;
    } else {
      var next := AppendLog(rec, entries[0]);
      var mid := PushCapped(entries[0], old_logs, LogCap);
      assert EnsureHistory(next.history).logs == mid;
      AppendLogsKeepsNewest(next, entries[1..]);
      var rest := Reversed(entries[1..]);
      assert Reversed(entries) == rest + [entries[0]];
      assert Take(old_logs, LogCap) == old_logs;
      assert mid == Take([entries[0]] + old_logs, LogCap);
      TakeOfPrefix(rest, [entries[0]] + old_logs, LogCap);
      assert rest + ([entries[0]] + old_logs) == Reversed(entries) + old_logs;
    }
  }

  /** Taking `cap` after capping the tail is taking `cap` of the whole. */
  lemma TakeOfPrefix<T>(front: seq<T>, ys: seq<T>, cap: nat)
    ensures Take(front + Take(ys, cap), cap) == Take(front + ys, cap)
  {
    var a := Take(front + Take(ys, cap), cap);
    var b := Take(front + ys, cap);
    assert |a| == |b|;
    forall i | 0 <= i < |a|
      ensures a[i] == b[i]
    {
      if i >= |front| {
        assert a[i] == Take(ys, cap)[i - |front|];
      }
    }
  }

  // ---------------------------------------------------------------------
  // Events

  function OptStr(s: Option<string>): Option<Json> {
    if s.Some? then Some(JStr(s.value)) else None
  }

  /** An object literal whose `undefined` members are dropped when it is
      serialised. */
  function WithOpt(fields: map<string, Json>, key: string, value: Option<Json>): (r: map<string, Json>)
    ensures value.Some? ==> r == fields[key := value.value]
    ensures value.None? ==> r == fields - {key}
  {
    if value.Some? then fields[key := value.value] else fields - {key}
  }

  function RevokedEvent(documentId: string, reason: Option<Json>, nowIso: string): EventBus.SystemEvent {
    EventBus.SystemEvent(EventBus.SESSION_REVOKED_EVENT,
      JObj(WithOpt(map["documentId" := JStr(documentId)], "reason", reason)), nowIso)
  }

  function IdentityEvent(rec: StoredSession, name: string, phone: string, photo: string, nowIso: string): EventBus.SystemEvent {
    EventBus.SystemEvent(EventBus.VIEWER_IDENTITY_CAPTURED,
      JObj(map["documentId" := JStr(rec.documentId), "viewerId" := JStr(rec.session.viewerId),
               "name" := JStr(name), "phone" := JStr(phone), "photo" := JStr(photo)]), nowIso)
  }

  /** A number as `JSON.stringify` writes it. */
  function NumJson(n: Num): Json {
    match n
    case Finite(r) => JNum(r)
    case NaN => JNull
  }

  function LocationJson(l: Location): Json {
    match l
    case Normalised(lat, lon, accuracy, capturedAt) =>
      JObj(WithOpt(map["lat" := NumJson(lat), "lon" := NumJson(lon), "capturedAt" := capturedAt],
                   "accuracy", if accuracy.Some? then Some(NumJson(accuracy.value)) else None))
    case Raw(value) => value
  }

  /** What the presence route passes to `recordPresenceEvent`. */
  datatype PresencePayload = PresencePayload(
    location: Option<Location>, photo: Option<string>, frameHash: Option<string>, reason: Json)

  function PresencePayloadFields(p: PresencePayload): map<string, Json> {
    map["location" := if p.location.Some? then LocationJson(p.location.value) else JNull,
        "photo" := if p.photo.Some? then JStr(p.photo.value) else JNull,
        "frameHash" := if p.frameHash.Some? then JStr(p.frameHash.value) else JNull,
        "reason" := p.reason]
  }

  /** `{ documentId: docId, ...payload }`: a payload key of the same name
      would win, and the payload has none. */
  function PresenceEvent(docId: string, p: PresencePayload, nowIso: string): (e: EventBus.SystemEvent)
    ensures e.kind == EventBus.PRESENCE_CAPTURED
    ensures e.payload.JObj? && e.payload.fields.Keys == {"documentId", "location", "photo", "frameHash", "reason"}
    ensures e.payload.fields["documentId"] == JStr(docId)
  {
    EventBus.SystemEvent(EventBus.PRESENCE_CAPTURED, JObj(map["documentId" := JStr(docId)] + PresencePayloadFields(p)), nowIso)
  }

  function OtpVerifiedEvent(documentId: string, viewerId: string, nowIso: string): EventBus.SystemEvent {
    EventBus.SystemEvent(EventBus.OTP_VERIFIED,
      JObj(map["documentId" := JStr(documentId), "viewerId" := JStr(viewerId)]), nowIso)
  }

  /** The `SecureDocument` view of a stored document that `createSession`
      reads. */
  function AsSecureDocument(d: StoredDocument): SecureDocument {
    SecureDocument(d.documentId, d.ownerId, d.title, CONFIDENTIAL, d.permissions, [], [],
                   d.fileUrl, d.fileName, d.fileType, Some(d.policies), Some(d.identityRequirement), None, None)
  }

  /** The record `createViewerSession` writes for a new reader. */
  function NewViewerRecord(d: StoredDocument, otp: string, agent: string, token: string, session: SessionStatus,
                           nowIso: string): StoredSession {
    var viewer := ViewerProfile(session.viewerId, "Confidential Viewer", "unknown@secured",
                                ViewerDeviceFingerprint(agent, agent, agent, "0.0.0.0", nowIso));
    StoredSession(token, session, d.documentId, otp, viewer, None, None)
  }

  // ---------------------------------------------------------------------
  // Reader snapshots

  datatype ReaderSnapshot = ReaderSnapshot(
    documentId: string,
    documentTitle: string,
    viewerId: string,
    name: Option<string>,
    phone: Option<string>,
    photo: Option<string>,
    verifiedAt: Option<int>,
    lastLocation: Option<Location>,
    logs: Option<seq<LogEntry>>,
    violations: Option<seq<ViolationEntry>>)

  /** `new Map(documents.map(d => [d.documentId, d])).get(id)`: a later
      document with the same id replaces an earlier one. */
  function DocLookup(docs: seq<StoredDocument>, id: string): (r: Option<StoredDocument>)
    ensures r.None? <==> forall i :: 0 <= i < |docs| ==> docs[i].documentId != id
    ensures r.Some? ==> exists i :: (0 <= i < |docs| && docs[i] == r.value && docs[i].documentId == id
      && forall j :: i < j < |docs| ==> docs[j].documentId != id)
  {
    if docs == [] then None
    else
      var last := docs[|docs| - 1];
      var init := docs[..|docs| - 1];
      if last.documentId == id then Some(last)
      else
        var r := DocLookup(init, id);
        assert forall i :: 0 <= i < |init| ==> init[i] == docs[i];
        r
  }

  /** The projection of one verified session. */
  function SnapshotOf(s: StoredSession, docs: seq<StoredDocument>): (r: ReaderSnapshot)
    ensures r.documentId == s.documentId && r.viewerId == s.session.viewerId
    ensures (forall i :: 0 <= i < |docs| ==> docs[i].documentId != s.documentId) ==> r.documentTitle == "Unknown"
    ensures (exists i :: 0 <= i < |docs| && docs[i].documentId == s.documentId) ==>
      exists i :: (0 <= i < |docs| && docs[i].documentId == s.documentId && r.documentTitle == docs[i].title
        && forall j :: i < j < |docs| ==> docs[j].documentId != s.documentId)
    ensures s.session.viewerIdentity.None? ==> r.name.None? && r.phone.None? && r.photo.None? && r.verifiedAt.None?
    ensures s.session.viewerIdentity.Some? ==>
      var id := s.session.viewerIdentity.value;
      r.name == id.name && r.phone == id.phone && r.photo == id.photo && r.verifiedAt == id.verifiedAt
    ensures r.logs.Some? <==> s.history.Some?
    ensures r.violations.Some? <==> s.history.Some?
    ensures r.lastLocation == (if s.history.Some? then s.history.value.lastLocation else None)
    ensures s.history.Some? ==>
      && r.logs.value <= s.history.value.logs
      && |r.logs.value| == Min(SnapshotEntries, |s.history.value.logs|)
    ensures s.history.Some? ==>
      && r.violations.value <= s.history.value.violations
      && |r.violations.value| == Min(SnapshotEntries, |s.history.value.violations|)
  {
    var doc := DocLookup(docs, s.documentId);
    var id := s.session.viewerIdentity;
    ReaderSnapshot(
      s.documentId,
      if doc.Some? then doc.value.title else "Unknown",
      s.session.viewerId,
      if id.Some? then id.value.name else None,
      if id.Some? then id.value.phone else None,
      if id.Some? then id.value.photo else None,
      if id.Some? then id.value.verifiedAt else None,
      if s.history.Some? then s.history.value.lastLocation else None,
      if s.history.Some? then Some(Take(s.history.value.logs, SnapshotEntries)) else None,
      if s.history.Some? then Some(Take(s.history.value.violations, SnapshotEntries)) else None)
  }

  /** `filter(identityVerified).map(SnapshotOf)` */
  function VerifiedSnapshots(ss: seq<StoredSession>, docs: seq<StoredDocument>): (r: seq<ReaderSnapshot>)
    ensures |r| <= |ss|
  {
    if ss == [] then []
    else
      var rest := VerifiedSnapshots(ss[1..], docs);
      if ss[0].session.identityVerified then [SnapshotOf(ss[0], docs)] + rest else rest
  }

  /** Only verified sessions appear. */
  lemma {:induction false} VerifiedSnapshotsSound(ss: seq<StoredSession>, docs: seq<StoredDocument>)
    ensures forall r :: r in VerifiedSnapshots(ss, docs) ==>
      exists j :: 0 <= j < |ss| && ss[j].session.identityVerified && r == SnapshotOf(ss[j], docs)
    decreases |ss|
  {
    if ss != [] {
      VerifiedSnapshotsSound(ss[1..], docs);
      forall r | r in VerifiedSnapshots(ss[1..], docs)
        ensures exists j :: 0 <= j < |ss| && ss[j].session.identityVerified && r == SnapshotOf(ss[j], docs)
      {
        var j :| 0 <= j < |ss[1..]| && ss[1..][j].session.identityVerified && r == SnapshotOf(ss[1..][j], docs);
        assert ss[j + 1] == ss[1..][j];
      }
    }
  }

  /** Every verified session appears. */
  lemma {:induction false} VerifiedSnapshotsComplete(ss: seq<StoredSession>, docs: seq<StoredDocument>, j: nat)
    requires j < |ss| && ss[j].session.identityVerified
    ensures SnapshotOf(ss[j], docs) in VerifiedSnapshots(ss, docs)
    decreases |ss|
  {
    if j > 0 {
      VerifiedSnapshotsComplete(ss[1..], docs, j - 1);
      assert ss[1..][j - 1] == ss[j];
    }
  }

  /** The sort key: `verifiedAt ?? 0`. */
  function VerifiedKey(r: ReaderSnapshot): int { r.verifiedAt.GetOr(0) }

  predicate NewestFirst(rs: seq<ReaderSnapshot>) {
    forall i, j :: 0 <= i < j < |rs| ==> VerifiedKey(rs[i]) >= VerifiedKey(rs[j])
  }

  /** Insert before the first entry whose key is not larger, so entries
      with equal keys keep their order. */
  function InsertByKey(x: ReaderSnapshot, rs: seq<ReaderSnapshot>): seq<ReaderSnapshot> {
    if rs == [] || VerifiedKey(rs[0]) <= VerifiedKey(x) then [x] + rs
    else [rs[0]] + InsertByKey(x, rs[1..])
  }

  /** Inserting adds exactly `x`. */
  lemma {:induction false} InsertByKeyAddsOne(x: ReaderSnapshot, rs: seq<ReaderSnapshot>)
    ensures multiset(InsertByKey(x, rs)) == multiset(rs) + multiset{x}
    decreases |rs|
  {
    if rs != [] && VerifiedKey(rs[0]) > VerifiedKey(x) {
      InsertByKeyAddsOne(x, rs[1..]);
      assert rs == [rs[0]] + rs[1..];
    }
  }

  /** Inserting below a bound stays below it. */
  lemma {:induction false} InsertByKeyBelow(x: ReaderSnapshot, rs: seq<ReaderSnapshot>, top: int)
    requires VerifiedKey(x) <= top
    requires forall k :: 0 <= k < |rs| ==> VerifiedKey(rs[k]) <= top
    ensures forall k :: 0 <= k < |InsertByKey(x, rs)| ==> VerifiedKey(InsertByKey(x, rs)[k]) <= top
    decreases |rs|
  {
    var r := InsertByKey(x, rs);
    if rs != [] && VerifiedKey(rs[0]) > VerifiedKey(x) {
      var tail := InsertByKey(x, rs[1..]);
      InsertByKeyBelow(x, rs[1..], top);
      assert r == [rs[0]] + tail;
      forall k | 0 <= k < |r|
        ensures VerifiedKey(r[k]) <= top
      {
        if k > 0 {
          assert r[k] == tail[k - 1];
        }
      }
    } else {
      assert r == [x] + rs;
      forall k | 0 <= k < |r|
        ensures VerifiedKey(r[k]) <= top
      {
        if k > 0 {
          assert r[k] == rs[k - 1];
        }
      }
    }
  }

  lemma {:induction false} InsertByKeySorts(x: ReaderSnapshot, rs: seq<ReaderSnapshot>)
    requires NewestFirst(rs)
    ensures NewestFirst(InsertByKey(x, rs))
    decreases |rs|
  {
    var r := InsertByKey(x, rs);
    if rs != [] && VerifiedKey(rs[0]) > VerifiedKey(x) {
      var tail := InsertByKey(x, rs[1..]);
      assert NewestFirst(rs[1..]) by {
        forall i, j | 0 <= i < j < |rs[1..]|
          ensures VerifiedKey(rs[1..][i]) >= VerifiedKey(rs[1..][j])
        {
          assert rs[1..][i] == rs[i + 1] && rs[1..][j] == rs[j + 1];
        }
      }
      InsertByKeySorts(x, rs[1..]);
      assert forall k :: 0 <= k < |rs[1..]| ==> VerifiedKey(rs[1..][k]) <= VerifiedKey(rs[0]) by {
        forall k | 0 <= k < |rs[1..]|
          ensures VerifiedKey(rs[1..][k]) <= VerifiedKey(rs[0])
        {
          assert rs[1..][k] == rs[k + 1];
        }
      }
      InsertByKeyBelow(x, rs[1..], VerifiedKey(rs[0]));
      assert r == [rs[0]] + tail;
      forall i, j | 0 <= i < j < |r|
        ensures VerifiedKey(r[i]) >= VerifiedKey(r[j])
      {
        assert r[j] == tail[j - 1];
        if i > 0 {
          assert r[i] == tail[i - 1];
        }
      }
    } else {
      assert r == [x] + rs;
      forall i, j | 0 <= i < j < |r|
        ensures VerifiedKey(r[i]) >= VerifiedKey(r[j])
      {
        assert r[j] == rs[j - 1];
        if i > 0 {
          assert r[i] == rs[i - 1];
        }
      }
    }
  }

  /** `.sort((a, b) => (b.verifiedAt ?? 0) - (a.verifiedAt ?? 0))` */
  function SortNewestFirst(rs: seq<ReaderSnapshot>): (r: seq<ReaderSnapshot>)
    ensures NewestFirst(r)
    ensures multiset(r) == multiset(rs)
  {
    if rs == [] then []
    else
      var sorted := SortNewestFirst(rs[1..]);
      InsertByKeySorts(rs[0], sorted);
      InsertByKeyAddsOne(rs[0], sorted);
      assert rs == [rs[0]] + rs[1..];
      InsertByKey(rs[0], sorted)
  }

  /** `listReaderIdentities`: the verified sessions' snapshots, newest
      verification first. */
  function ListReaderIdentities(ss: seq<StoredSession>, docs: seq<StoredDocument>): (r: seq<ReaderSnapshot>)
    ensures NewestFirst(r)
    ensures multiset(r) == multiset(VerifiedSnapshots(ss, docs))
  {
    SortNewestFirst(VerifiedSnapshots(ss, docs))
  }

  /** Exactly the verified sessions are listed, each with at most eight log
      and violation entries. */
  lemma ListedIffVerified(ss: seq<StoredSession>, docs: seq<StoredDocument>)
    ensures forall j :: 0 <= j < |ss| && ss[j].session.identityVerified ==> SnapshotOf(ss[j], docs) in ListReaderIdentities(ss, docs)
    ensures forall r :: r in ListReaderIdentities(ss, docs) ==>
      (exists j :: 0 <= j < |ss| && ss[j].session.identityVerified && r == SnapshotOf(ss[j], docs))
    ensures forall r :: r in ListReaderIdentities(ss, docs) ==>
      (r.logs.Some? ==> |r.logs.value| <= SnapshotEntries) && (r.violations.Some? ==> |r.violations.value| <= SnapshotEntries)
  {
    var v := VerifiedSnapshots(ss, docs);
    var l := ListReaderIdentities(ss, docs);
    forall j | 0 <= j < |ss| && ss[j].session.identityVerified
      ensures SnapshotOf(ss[j], docs) in l
    {
      VerifiedSnapshotsComplete(ss, docs, j);
      assert SnapshotOf(ss[j], docs) in multiset(v);
    }
    VerifiedSnapshotsSound(ss, docs);
    forall r | r in l
      ensures exists j :: 0 <= j < |ss| && ss[j].session.identityVerified && r == SnapshotOf(ss[j], docs)
    {
      assert r in multiset(l);
      assert r in v;
    }
  }

  // ---------------------------------------------------------------------
  // The store

  class SessionStore {
    var sessions: map<string, StoredSession>
    var emitted: seq<EventBus.SystemEvent>

    constructor (sessions: map<string, StoredSession>)
      ensures this.sessions == sessions && emitted == []
    {
      this.sessions := sessions;
      emitted := [];
    }

    /** `emitSystemEvent` called directly by a route. */
    method Emit(e: EventBus.SystemEvent)
      modifies this
      ensures sessions == old(sessions) && emitted == old(emitted) + [e]
    {
      emitted := emitted + [e];
    }

    /** `mutateSession`: nothing happens to a missing record; otherwise the
        mutated record is written back and returned. */
    method MutateSession(token: string, mutator: StoredSession -> StoredSession) returns (r: Option<StoredSession>)
      modifies this
      ensures token !in old(sessions) ==> r.None? && sessions == old(sessions)
      ensures token in old(sessions) ==> r == Some(mutator(old(sessions)[token])) && sessions == old(sessions)[token := r.value]
      ensures emitted == old(emitted)
    {
      if token !in sessions {
        return None;
      }
      var next := mutator(sessions[token]);
      sessions := sessions[token := next];
      return Some(next);
    }

    /** `markSessionInactive`: the event goes out only for an existing
        record. */
    method MarkSessionInactive(token: string, reason: Option<Json>, nowIso: string)
      modifies this
      ensures token !in old(sessions) ==> sessions == old(sessions) && emitted == old(emitted)
      ensures token in old(sessions) ==>
        && sessions == old(sessions)[token := MarkInactive(old(sessions)[token], reason)]
        && emitted == old(emitted) + [RevokedEvent(old(sessions)[token].documentId, reason, nowIso)]
    {
      var updated := MutateSession(token, rec => MarkInactive(rec, reason));
      if updated.Some? {
        emitted := emitted + [RevokedEvent(updated.value.documentId, reason, nowIso)];
      }
    }

    /** `appendSessionLogEntry` */
    method AppendSessionLogEntry(token: string, event: string, context: Option<Json>, id: string, nowIso: string)
      modifies this
      ensures token !in old(sessions) ==> sessions == old(sessions)
      ensures token in old(sessions) ==>
        sessions == old(sessions)[token := AppendLog(old(sessions)[token], LogEntry(id, event, nowIso, context))]
      ensures emitted == old(emitted)
    {
      var _ := MutateSession(token, rec => AppendLog(rec, LogEntry(id, event, nowIso, context)));
    }

    /** `attachViewerIdentity` */
    method AttachViewerIdentity(token: string, name: string, phone: string, photo: string, now: int, nowIso: string)
      returns (updated: Option<StoredSession>)
      modifies this
      ensures token !in old(sessions) ==> updated.None? && sessions == old(sessions) && emitted == old(emitted)
      ensures token in old(sessions) ==>
        && updated == Some(AttachIdentity(old(sessions)[token], name, phone, photo, now))
        && sessions == old(sessions)[token := updated.value]
        && emitted == old(emitted) + [IdentityEvent(updated.value, name, phone, photo, nowIso)]
    {
      updated := MutateSession(token, rec => AttachIdentity(rec, name, phone, photo, now));
      if updated.Some? {
        emitted := emitted + [IdentityEvent(updated.value, name, phone, photo, nowIso)];
      }
    }

    /** `recordPresenceEvent`: the event goes out whether or not the session
        exists. */
    method RecordPresenceEvent(token: string, docId: string, payload: PresencePayload, nowIso: string)
      modifies this
      ensures token !in old(sessions) ==> sessions == old(sessions)
      ensures token in old(sessions) ==>
        sessions == old(sessions)[token := RecordPresence(old(sessions)[token], payload.location)]
      ensures emitted == old(emitted) + [PresenceEvent(docId, payload, nowIso)]
    {
      var _ := MutateSession(token, rec => RecordPresence(rec, payload.location));
      emitted := emitted + [PresenceEvent(docId, payload, nowIso)];
    }

    /** `recordSessionViolation` */
    method RecordSessionViolation(token: string, violation: Json, photo: Option<string>, location: Option<Json>)
      modifies this
      ensures token !in old(sessions) ==> sessions == old(sessions)
      ensures token in old(sessions) ==>
        sessions == old(sessions)[token := RecordViolation(old(sessions)[token], violation, photo, location)]
      ensures emitted == old(emitted)
    {
      var _ := MutateSession(token, rec => RecordViolation(rec, violation, photo, location));
    }

    /** `createViewerSession`: a fresh session under a new token and the
        `OTP_VERIFIED` event. */
    method CreateViewerSession(d: StoredDocument, otp: string, agent: string, viewerSuffix: string, token: string,
                               sessionId: string, tamperHash: string, startedAt: int, later: int, nowIso: string)
      returns (session: SessionStatus)
      modifies this
      ensures session == SessionRecords.CreateSession(AsSecureDocument(d), "viewer-" + viewerSuffix, startedAt, later, sessionId, tamperHash)
      ensures sessions == old(sessions)[token := NewViewerRecord(d, otp, agent, token, session, nowIso)]
      ensures emitted == old(emitted) + [OtpVerifiedEvent(d.documentId, "viewer-" + viewerSuffix, nowIso)]
    {
      var viewerId := "viewer-" + viewerSuffix;
      session := SessionRecords.CreateSession(AsSecureDocument(d), viewerId, startedAt, later, sessionId, tamperHash);
      sessions := sessions[token := NewViewerRecord(d, otp, agent, token, session, nowIso)];
      emitted := emitted + [OtpVerifiedEvent(d.documentId, viewerId, nowIso)];
    }
  }
}
