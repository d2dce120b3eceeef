/** The owner console of src/components/dashboard/OwnerDashboard.tsx: the
    live feed fed by the event stream, the document list the builder adds
    to, and the reader refreshes the feed triggers. A frame reaches the page
    as the JSON the event stream wrote; `JSON.parse` of it is an input
    (`None` when it throws). Fetching is left out: a reader refresh is
    counted, not performed. */
module OwnerDashboard {
  import opened Common
  import opened Json
  import EventBus
  import EventStreams
  import DocumentService

  const FeedCap: nat := 25

  datatype Tab = Builder | Documents | Events | Readers

  /** The `type` string an event carries on the wire. */
  function WireName(k: EventBus.SystemEventType): string {
    match k
    case DOCUMENT_CREATED => "DOCUMENT_CREATED"
    case DOCUMENT_DELETED => "DOCUMENT_DELETED"
    case OTP_VERIFIED => "OTP_VERIFIED"
    case SESSION_HEARTBEAT => "SESSION_HEARTBEAT"
    case VIOLATION => "VIOLATION"
    case PRESENCE_CAPTURED => "PRESENCE_CAPTURED"
    case VIEWER_IDENTITY_CAPTURED => "VIEWER_IDENTITY_CAPTURED"
    case SESSION_REVOKED_EVENT => "SESSION_REVOKED_EVENT"
  }

  /** Different event kinds have different wire names. */
  lemma WireNameInjective(a: EventBus.SystemEventType, b: EventBus.SystemEventType)
    requires WireName(a) == WireName(b)
    ensures a == b
  {
  }

  /** `JSON.stringify` of what the stream sends: `{type: "READY"}`,
      `{type: "HEARTBEAT", at}`, or the event itself. */
  function Frame(m: EventStreams.Message): (j: Json)
    ensures Get(j, "type").Some? && Get(j, "type").value.JStr?
    ensures m.Event? ==> Get(j, "type") == Some(JStr(WireName(m.event.kind)))
  {
    match m
    case Ready => JObj(map["type" := JStr("READY")])
    case Heartbeat(at) => JObj(map["type" := JStr("HEARTBEAT"), "at" := JNum(at as real)])
    case Event(e) => JObj(map["type" := JStr(WireName(e.kind)), "payload" := e.payload, "createdAt" := JStr(e.createdAt)])
  }

  predicate HasType(data: Json, t: string) { Get(data, "type") == Some(JStr(t)) }

  /** `setEvents((prev) => [data, ...prev].slice(0, 25))`, skipped for READY,
      for text that does not parse and for `null` (whose `type` throws). */
  function FeedStep(feed: seq<Json>, parsed: Option<Json>): (r: seq<Json>)
    ensures parsed.None? || parsed == Some(JNull) || HasType(parsed.value, "READY") ==> r == feed
    ensures parsed.Some? && parsed.value != JNull && !HasType(parsed.value, "READY") ==>
      r == PushCapped(parsed.value, feed, FeedCap)
  {
    if parsed.None? || parsed.value == JNull || HasType(parsed.value, "READY") then feed
    else PushCapped(parsed.value, feed, FeedCap)
  }

  /** The feed never holds more than 25 entries; a new entry goes first
      and the oldest falls off. */
  lemma FeedBoundedNewestFirst(feed: seq<Json>, parsed: Option<Json>)
    requires |feed| <= FeedCap
    ensures |FeedStep(feed, parsed)| <= FeedCap
    ensures parsed.Some? && parsed.value != JNull && !HasType(parsed.value, "READY") ==>
      FeedStep(feed, parsed)[0] == parsed.value
      && FeedStep(feed, parsed)[1..] == feed[..Min(|feed|, FeedCap - 1)]
  {
  }

  /** READY frames never enter the feed; heartbeat frames do, at its head. */
  lemma ReadySkippedHeartbeatListed(feed: seq<Json>, at: int)
    ensures FeedStep(feed, Some(Frame(EventStreams.Ready))) == feed
    ensures FeedStep(feed, Some(Frame(EventStreams.Heartbeat(at))))[0] == Frame(EventStreams.Heartbeat(at))
  {
    assert HasType(Frame(EventStreams.Ready), "READY");
    assert Get(Frame(EventStreams.Heartbeat(at)), "type") == Some(JStr("HEARTBEAT"));
  }

  /** The reader-refresh test as written: identity captures, and the three
      names `VIOLATION_LOGGED`, `LOCATION_CAPTURED` and `SESSION_REVOKED`. */
  predicate RefreshesReaders(data: Json) {
    HasType(data, "VIEWER_IDENTITY_CAPTURED")
    || HasType(data, "VIOLATION_LOGGED") || HasType(data, "LOCATION_CAPTURED") || HasType(data, "SESSION_REVOKED")
  }

  /** No event the server emits carries one of the three security names,
      so of all the stream's frames only identity captures refresh the
      reader list. */
  lemma OnlyIdentityRefreshes(m: EventStreams.Message)
    ensures RefreshesReaders(Frame(m)) <==> m.Event? && m.event.kind == EventBus.VIEWER_IDENTITY_CAPTURED
  {
    if m.Event? {
      assert Get(Frame(m), "type") == Some(JStr(WireName(m.event.kind)));
      match m.event.kind
      case DOCUMENT_CREATED => assert WireName(m.event.kind)[0] == 'D';
      case DOCUMENT_DELETED => assert WireName(m.event.kind)[0] == 'D';
      case OTP_VERIFIED => assert WireName(m.event.kind)[0] == 'O';
      case SESSION_HEARTBEAT => assert WireName(m.event.kind)[8] == 'H';
      case VIOLATION => assert |WireName(m.event.kind)| == 9;
      case PRESENCE_CAPTURED => assert WireName(m.event.kind)[0] == 'P';
      case VIEWER_IDENTITY_CAPTURED =>
      case SESSION_REVOKED_EVENT => assert |WireName(m.event.kind)| == 21;
    } else if m.Ready? {
      assert Frame(m) == JObj(map["type" := JStr("READY")]);
    } else {
      assert Get(Frame(m), "type") == Some(JStr("HEARTBEAT"));
    }
  }

  /** The test with the names the server emits for violations, presence
      captures and revocations. */
  predicate RefreshesReadersCorrected(data: Json) {
    HasType(data, "VIEWER_IDENTITY_CAPTURED")
    || HasType(data, "VIOLATION") || HasType(data, "PRESENCE_CAPTURED") || HasType(data, "SESSION_REVOKED_EVENT")
  }

  /** With the emitted names, every identity, violation, presence or
      revocation event refreshes the readers, and nothing else does. */
  lemma CorrectedRefreshesOnSecurityEvents(m: EventStreams.Message)
    ensures RefreshesReadersCorrected(Frame(m)) <==>
      m.Event? && m.event.kind in {EventBus.VIEWER_IDENTITY_CAPTURED, EventBus.VIOLATION, EventBus.PRESENCE_CAPTURED,
                                   EventBus.SESSION_REVOKED_EVENT}
  {
    if m.Event? {
      assert Get(Frame(m), "type") == Some(JStr(WireName(m.event.kind)));
      match m.event.kind
      case DOCUMENT_CREATED => assert WireName(m.event.kind)[0] == 'D';
      case DOCUMENT_DELETED => assert WireName(m.event.kind)[0] == 'D';
      case OTP_VERIFIED => assert WireName(m.event.kind)[0] == 'O';
      case SESSION_HEARTBEAT => assert WireName(m.event.kind)[8] == 'H';
      case VIOLATION =>
      case PRESENCE_CAPTURED =>
      case VIEWER_IDENTITY_CAPTURED =>
      case SESSION_REVOKED_EVENT =>
    } else if m.Ready? {
      assert Frame(m) == JObj(map["type" := JStr("READY")]);
    } else {
      assert Get(Frame(m), "type") == Some(JStr("HEARTBEAT"));
    }
  }

  class Console {
    var activeTab: Tab
    var documents: seq<DocumentService.PublicDocument>
    var events: seq<Json>
    /** How often `refreshReaders` has been started. */
    var readerRefreshes: nat

    constructor ()
      ensures activeTab == Builder && documents == [] && events == [] && readerRefreshes == 0
    {
      activeTab := Builder;
      documents := [];
      events := [];
      readerRefreshes := 0;
    }

    ghost predicate Valid()
      reads this
    {
      |events| <= FeedCap
    }

    /** `source.onmessage` */
    method OnMessage(parsed: Option<Json>)
      requires Valid()
      modifies this
      ensures Valid()
      ensures events == FeedStep(old(events), parsed)
      ensures readerRefreshes == old(readerRefreshes) +
        (if parsed.Some? && parsed.value != JNull && !HasType(parsed.value, "READY") && RefreshesReaders(parsed.value) then 1 else 0)
      ensures activeTab == old(activeTab) && documents == old(documents)
    {
      if parsed.None? || parsed.value == JNull {
        return;
      }
      var data := parsed.value;
      if HasType(data, "READY") {
        return;
      }
      FeedBoundedNewestFirst(events, parsed);
      events := PushCapped(data, events, FeedCap);
      if HasType(data, "VIEWER_IDENTITY_CAPTURED") {
        readerRefreshes := readerRefreshes + 1;
      }
      if HasType(data, "VIOLATION_LOGGED") || HasType(data, "LOCATION_CAPTURED") || HasType(data, "SESSION_REVOKED") {
        readerRefreshes := readerRefreshes + 1;
      }
    }

    /** The builder's `onCreated`: the new document goes first and the
        Documents tab opens. */
    method OnCreated(doc: DocumentService.PublicDocument)
      modifies this
      ensures documents == [doc] + old(documents) && activeTab == Documents
      ensures events == old(events) && readerRefreshes == old(readerRefreshes)
    {
      documents := [doc] + documents;
      activeTab := Documents;
    }
  }
}
