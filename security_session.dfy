/** The client-side security session of src/hooks/useSecuritySession.ts.

    The hook's state is the record `HookState`; each operation of the hook is
    a function from the old state to the new one (`PushLogStep`,
    `KillSessionStep`, ...), and the class `SecuritySession` implements the
    same operations by updating its fields step by step, each method proved
    to land in the state its function describes. Fire-and-forget requests
    (the monitoring notifier, the revoke and lock fetches, the evidence
    request) are appended to `outbox`; ids come from the `mint` oracle,
    which is asked once per created record. */
module SecuritySessionHook {
  import opened Common
  import opened Json
  import opened SecurityTypes
  import opened SessionRecords
  import opened ViolationText
  import Watermark

  const LogCap: nat := 32
  const ViolationCap: nat := 32
  const RevokeMessage: string := "Session revoked due to policy violation."
  const ObstructionThreshold: real := 0.4

  /** What the evidence source hands back for one violation. */
  datatype Evidence = Evidence(photo: Option<string>, frameHash: Option<string>, location: Option<ReaderLocation>)

  /** How the promise from `requestEvidence` settled. */
  datatype EvidenceOutcome = Resolved(evidence: Option<Evidence>) | Rejected

  /** Requests the hook sends without waiting for an answer. */
  datatype Outbound =
    | LogNotice(documentId: string, viewerId: string, event: LogEvent, context: Option<Context>)
    | ViolationNotice(documentId: string, viewerId: string, violation: ViolationEvent,
                      context: Option<Context>, evidence: Option<Evidence>)
    | HeartbeatNotice(sessionId: string, documentId: string, tamperHash: string)
    | RevokeRequest(reason: string)
    | LockRequest(documentId: string, reason: string, violation: ViolationEvent, context: Option<Context>)
    | EvidenceRequest(code: ViolationCode, violation: ViolationEvent, context: Option<Context>)

  /** The hook's parameters. `hasEvidenceSource` says whether
      `requestEvidence` was supplied. */
  datatype HookConfig = HookConfig(
    document: SecureDocument,
    viewer: ViewerProfile,
    hasEvidenceSource: bool,
    mint: nat -> string)

  datatype HookState = HookState(
    session: SessionStatus,
    camera: Option<CameraInsight>,
    logs: seq<ActivityLog>,
    violations: seq<ViolationEvent>,
    focusLost: bool,
    revokedReason: Option<string>,
    lockRequested: bool,
    outbox: seq<Outbound>,
    minted: nat)

  // ---------------------------------------------------------------------
  // Counting over the outbox

  function Count(out: seq<Outbound>, p: Outbound -> bool): nat {
    if out == [] then 0 else (if p(out[0]) then 1 else 0) + Count(out[1..], p)
  }

  lemma {:induction false} CountAppend(a: seq<Outbound>, b: seq<Outbound>, p: Outbound -> bool)
    ensures Count(a + b, p) == Count(a, p) + Count(b, p)
    decreases |a|
  {
    if a == [] {
      assert a + b == b;
    } else {
      assert (a + b)[0] == a[0];
      assert (a + b)[1..] == a[1..] + b;
      CountAppend(a[1..], b, p);
    }
  }

  lemma {:induction false} CountNone(out: seq<Outbound>, p: Outbound -> bool)
    requires forall i :: 0 <= i < |out| ==> !p(out[i])
    ensures Count(out, p) == 0
    decreases |out|
  {
    if out != [] {
      CountNone(out[1..], p);
    }
  }

  lemma CountOne(x: Outbound, p: Outbound -> bool)
    ensures Count([x], p) == if p(x) then 1 else 0
  {
    assert [x][1..] == [];
  }

  predicate IsLock(o: Outbound) { o.LockRequest? }
  predicate IsRevoke(o: Outbound) { o.RevokeRequest? }
  predicate IsViolationLog(o: Outbound) { o.LogNotice? && o.event == VIOLATION }
  predicate IsReport(o: Outbound) { o.EvidenceRequest? || o.ViolationNotice? }

  function ReportedCode(o: Outbound): ViolationCode
    requires IsReport(o)
  {
    if o.EvidenceRequest? then o.code else o.violation.code
  }

  /** The codes reported through the violation channel (an evidence request
      or a violation notice), in order. */
  function Codes(out: seq<Outbound>): seq<ViolationCode> {
    if out == [] then []
    else (if IsReport(out[0]) then [ReportedCode(out[0])] else []) + Codes(out[1..])
  }

  lemma {:induction false} CodesAppend(a: seq<Outbound>, b: seq<Outbound>)
    ensures Codes(a + b) == Codes(a) + Codes(b)
    decreases |a|
  {
    if a == [] {
      assert a + b == b;
    } else {
      var head := if IsReport(a[0]) then [ReportedCode(a[0])] else [];
      assert (a + b)[0] == a[0];
      assert (a + b)[1..] == a[1..] + b;
      assert Codes(a + b) == head + Codes(a[1..] + b);
      CodesAppend(a[1..], b);
      assert head + (Codes(a[1..]) + Codes(b)) == (head + Codes(a[1..])) + Codes(b);
    }
  }

  lemma {:induction false} CodesNone(out: seq<Outbound>)
    requires forall i :: 0 <= i < |out| ==> !IsReport(out[i])
    ensures Codes(out) == []
    decreases |out|
  {
    if out != [] {
      CodesNone(out[1..]);
    }
  }

  lemma CodesOne(x: Outbound)
    ensures Codes([x]) == if IsReport(x) then [ReportedCode(x)] else []
  {
    assert [x][1..] == [];
  }

  // ---------------------------------------------------------------------
  // The operations as state transitions

  function Initial(cfg: HookConfig, initialSession: SessionStatus): HookState {
    HookState(initialSession, None, cfg.document.logs, cfg.document.violations,
              false, None, false, [], 0)
  }

  function LogNoticeFor(cfg: HookConfig, event: LogEvent, context: Option<Context>): Outbound {
    LogNotice(cfg.document.documentId, cfg.viewer.viewerId, event, context)
  }

  /** `pushLog`: newest entry first, at most 32 kept, notifier told. */
  function PushLogStep(cfg: HookConfig, st: HookState, event: LogEvent, context: Option<Context>, now: int): HookState {
    var entry := CreateLog(cfg.document.documentId, cfg.viewer.viewerId, event, context, cfg.mint(st.minted), now);
    st.(logs := PushCapped(entry, st.logs, LogCap),
        outbox := st.outbox + [LogNoticeFor(cfg, event, context)],
        minted := st.minted + 1)
  }

  function ReasonContext(reason: string): Context { map["reason" := JStr(reason)] }

  /** `killSession`: unguarded, so a second call logs and requests again. */
  function KillSessionStep(cfg: HookConfig, st: HookState, reason: string, now: int): HookState {
    var s1 := st.(session := st.session.(active := false), revokedReason := Some(reason));
    var s2 := PushLogStep(cfg, s1, SESSION_REVOKED, Some(ReasonContext(reason)), now);
    s2.(outbox := s2.outbox + [RevokeRequest(reason)])
  }

  function LockRequestFor(cfg: HookConfig, reason: string, violation: ViolationEvent, context: Option<Context>): Outbound {
    LockRequest(cfg.document.documentId, reason, violation, context)
  }

  /** `lockDocumentRemote`: the latch lets one request through. */
  function LockDocumentRemoteStep(cfg: HookConfig, st: HookState, reason: string, violation: ViolationEvent,
                                  context: Option<Context>): HookState {
    if st.lockRequested then st
    else st.(lockRequested := true, outbox := st.outbox + [LockRequestFor(cfg, reason, violation, context)])
  }

  /** `{ code, ...context }` */
  function ViolationContext(code: ViolationCode, context: Option<Context>): Context {
    map["code" := JStr(CodeName(code))] + (if context.Some? then context.value else map[])
  }

  /** The first request a violation causes: an evidence request when an
      evidence source exists, otherwise the violation notice itself. */
  function Report(cfg: HookConfig, violation: ViolationEvent, context: Option<Context>): Outbound {
    if cfg.hasEvidenceSource then EvidenceRequest(violation.code, violation, context)
    else ViolationNotice(cfg.document.documentId, cfg.viewer.viewerId, violation, context, None)
  }

  function SeverityFor(code: ViolationCode): Severity {
    if code == EXTERNAL_CAMERA_DETECTED then SevCritical else SevHigh
  }

  function NewViolation(cfg: HookConfig, st: HookState, code: ViolationCode, now: int): ViolationEvent {
    CreateViolation(code, ReadableViolation(code), Some(SeverityFor(code)), None, cfg.mint(st.minted), now)
  }

  /** The part of `registerViolation` before the policy check: store the
      violation, report it, log it. */
  function RecordViolationStep(cfg: HookConfig, st: HookState, v: ViolationEvent, context: Option<Context>,
                               now: int): HookState {
    var s1 := st.(violations := PushCapped(v, st.violations, ViolationCap), minted := st.minted + 1);
    var s2 := s1.(outbox := s1.outbox + [Report(cfg, v, context)]);
    PushLogStep(cfg, s2, VIOLATION, Some(ViolationContext(v.code, context)), now)
  }

  /** The policy check closing `registerViolation`: lock, then kill. */
  function EnforceStep(cfg: HookConfig, st: HookState, v: ViolationEvent, context: Option<Context>, now: int): HookState {
    if ShouldRevokeSession(v, cfg.document) then
      KillSessionStep(cfg, LockDocumentRemoteStep(cfg, st, v.description, v, context), RevokeMessage, now)
    else st
  }

  /** `registerViolation`, giving the new state and the created violation. */
  function RegisterViolationStep(cfg: HookConfig, st: HookState, code: ViolationCode, context: Option<Context>,
                                 now: int): (HookState, ViolationEvent) {
    var v := NewViolation(cfg, st, code, now);
    (EnforceStep(cfg, RecordViolationStep(cfg, st, v, context, now), v, context, now), v)
  }

  function RegisterViolationState(cfg: HookConfig, st: HookState, code: ViolationCode, context: Option<Context>,
                                  now: int): HookState {
    RegisterViolationStep(cfg, st, code, context, now).0
  }

  /** The codes one camera insight registers, in the order they are checked. */
  function InsightCodes(insight: CameraInsight): seq<ViolationCode> {
    (if insight.externalDeviceDetected then [EXTERNAL_CAMERA_DETECTED] else [])
    + (if insight.obstructionScore > ObstructionThreshold then [CAMERA_OBSTRUCTED] else [])
    + (if insight.personsDetected == 0 then [CAMERA_ABSENT] else [])
  }

  function DeviceContext(insight: CameraInsight): Context { map["frameHash" := JStr(insight.frameHash)] }

  function ObstructionContext(insight: CameraInsight): Context { map["obstruction" := JNum(insight.obstructionScore)] }

  function AfterDeviceCheck(cfg: HookConfig, st: HookState, insight: CameraInsight, now: int): HookState {
    if insight.externalDeviceDetected
    then RegisterViolationState(cfg, st, EXTERNAL_CAMERA_DETECTED, Some(DeviceContext(insight)), now)
    else st
  }

  function AfterObstructionCheck(cfg: HookConfig, st: HookState, insight: CameraInsight, now: int): HookState {
    if insight.obstructionScore > ObstructionThreshold
    then RegisterViolationState(cfg, st, CAMERA_OBSTRUCTED, Some(ObstructionContext(insight)), now)
    else st
  }

  function AfterAbsenceCheck(cfg: HookConfig, st: HookState, insight: CameraInsight, now: int): HookState {
    if insight.personsDetected == 0 then RegisterViolationState(cfg, st, CAMERA_ABSENT, None, now) else st
  }

  /** `updateCameraInsight`, giving the new state and the flag handed to
      `onObstructionChange`. */
  function UpdateCameraInsightStep(cfg: HookConfig, st: HookState, insight: CameraInsight, now: int): (HookState, bool) {
    var s0 := st.(camera := Some(insight));
    var s1 := AfterDeviceCheck(cfg, s0, insight, now);
    var s2 := AfterObstructionCheck(cfg, s1, insight, now);
    (AfterAbsenceCheck(cfg, s2, insight, now), insight.obstructionScore > ObstructionThreshold)
  }

  function HeartbeatContext(st: HookState): Context { map["tamperHash" := JStr(st.session.tamperHash)] }

  function HeartbeatNoticeFor(cfg: HookConfig, st: HookState): Outbound {
    HeartbeatNotice(st.session.id, cfg.document.documentId, st.session.tamperHash)
  }

  /** One tick of the heartbeat interval, which runs only while the session
      is active. */
  function HeartbeatTickStep(cfg: HookConfig, st: HookState, now: int): HookState {
    if !st.session.active then st
    else
      var s1 := st.(outbox := st.outbox + [HeartbeatNoticeFor(cfg, st)]);
      PushLogStep(cfg, s1, HEARTBEAT, Some(HeartbeatContext(st)), now)
  }

  /** `handleFocusChange` */
  function HandleFocusChangeStep(cfg: HookConfig, st: HookState, hasFocus: bool, now: int): HookState {
    var s1 := st.(focusLost := !hasFocus);
    if !hasFocus then RegisterViolationState(cfg, s1, FOCUS_LOSS, Some(ReasonContext("focus_change")), now) else s1
  }

  /** The violations list with the photo recorded on every entry carrying `id`. */
  function WithEvidence(vs: seq<ViolationEvent>, id: string, photo: string): seq<ViolationEvent> {
    seq(|vs|, i requires 0 <= i < |vs| => if vs[i].id == id then vs[i].(evidenceUrl := Some(photo)) else vs[i])
  }

  /** A non-empty photo (`evidence?.photo` is truthy). */
  predicate HasPhoto(e: Option<Evidence>) { e.Some? && e.value.photo.Some? && e.value.photo.value != "" }

  function EvidenceNotice(cfg: HookConfig, violation: ViolationEvent, context: Option<Context>,
                          outcome: EvidenceOutcome): Outbound {
    ViolationNotice(cfg.document.documentId, cfg.viewer.viewerId, violation, context,
                    if outcome.Resolved? then outcome.evidence else None)
  }

  /** The continuation of the evidence request made for `violation`. */
  function AttachEvidenceStep(cfg: HookConfig, st: HookState, violation: ViolationEvent, context: Option<Context>,
                              outcome: EvidenceOutcome): HookState {
    var s1 := if outcome.Resolved? && HasPhoto(outcome.evidence)
              then st.(violations := WithEvidence(st.violations, violation.id, outcome.evidence.value.photo.value))
              else st;
    s1.(outbox := s1.outbox + [EvidenceNotice(cfg, violation, context, outcome)])
  }

  /** The hook's `watermark`, with the viewer's device address and id as context. */
  function WatermarkOf(cfg: HookConfig, st: HookState, now: int, formatTime: int -> string): Watermark.WatermarkPayload {
    Watermark.BuildWatermarkPayload(cfg.document, st.session,
      Watermark.WatermarkContext(cfg.viewer.device.ipAddress, cfg.viewer.viewerId), now, formatTime)
  }

  // ---------------------------------------------------------------------
  // Runs of operations and the invariant they keep

  datatype HookOp =
    | RegisterOp(code: ViolationCode, context: Option<Context>, now: int)
    | CameraOp(insight: CameraInsight, now: int)
    | FocusOp(hasFocus: bool, now: int)
    | HeartbeatOp(now: int)
    | KillOp(reason: string, now: int)
    | EvidenceOp(violation: ViolationEvent, context: Option<Context>, outcome: EvidenceOutcome)

  function Step(cfg: HookConfig, st: HookState, op: HookOp): HookState {
    match op
    case RegisterOp(code, context, now) => RegisterViolationState(cfg, st, code, context, now)
    case CameraOp(insight, now) => UpdateCameraInsightStep(cfg, st, insight, now).0
    case FocusOp(hasFocus, now) => HandleFocusChangeStep(cfg, st, hasFocus, now)
    case HeartbeatOp(now) => HeartbeatTickStep(cfg, st, now)
    case KillOp(reason, now) => KillSessionStep(cfg, st, reason, now)
    case EvidenceOp(violation, context, outcome) => AttachEvidenceStep(cfg, st, violation, context, outcome)
  }

  function Run(cfg: HookConfig, st: HookState, ops: seq<HookOp>): HookState
    decreases |ops|
  {
    if ops == [] then st else Run(cfg, Step(cfg, st, ops[0]), ops[1..])
  }

  /** Both lists stay within their caps (or the document's own history, if
      that was longer to begin with), a revoked session is inactive, and the
      outbox holds a lock request exactly when the latch is set. */
  ghost predicate Consistent(cfg: HookConfig, st: HookState) {
    && |st.logs| <= Max(LogCap, |cfg.document.logs|)
    && |st.violations| <= Max(ViolationCap, |cfg.document.violations|)
    && (st.revokedReason.Some? ==> !st.session.active)
    && Count(st.outbox, IsLock) == (if st.lockRequested then 1 else 0)
  }

  /** How any operation may change what it does not own: the session only
      loses `active`, and the lock latch only gets set. */
  ghost predicate Evolves(st: HookState, r: HookState) {
    && r.session == st.session.(active := r.session.active)
    && (r.session.active ==> st.session.active)
    && (st.lockRequested ==> r.lockRequested)
    && st.outbox <= r.outbox
  }

  lemma InitialConsistent(cfg: HookConfig, initialSession: SessionStatus)
    ensures Consistent(cfg, Initial(cfg, initialSession))
  {
  }

  lemma AppendKeepsLockCount(st: HookState, x: Outbound)
    requires !IsLock(x)
    ensures Count(st.outbox + [x], IsLock) == Count(st.outbox, IsLock)
  {
    CountAppend(st.outbox, [x], IsLock);
    CountOne(x, IsLock);
  }

  lemma PushLogEffects(cfg: HookConfig, st: HookState, event: LogEvent, context: Option<Context>, now: int)
    requires Consistent(cfg, st)
    ensures var r := PushLogStep(cfg, st, event, context, now);
      && Consistent(cfg, r)
      && r.logs[0].event == event && r.logs[0].context == context
      && |r.logs| == Min(|st.logs| + 1, LogCap)
      && r.outbox == st.outbox + [LogNoticeFor(cfg, event, context)]
      && r.session == st.session && r.violations == st.violations && r.camera == st.camera
      && r.focusLost == st.focusLost
      && r.lockRequested == st.lockRequested && r.revokedReason == st.revokedReason
  {
    AppendKeepsLockCount(st, LogNoticeFor(cfg, event, context));
  }

  /** `killSession` deactivates, records the reason, logs SESSION_REVOKED and
      asks the server to revoke, every time it is called. */
  lemma KillSessionEffects(cfg: HookConfig, st: HookState, reason: string, now: int)
    requires Consistent(cfg, st)
    ensures var r := KillSessionStep(cfg, st, reason, now);
      && Consistent(cfg, r)
      && !r.session.active && r.session == st.session.(active := false)
      && r.revokedReason == Some(reason)
      && r.logs[0].event == SESSION_REVOKED
      && r.outbox == st.outbox + KillRequests(cfg, reason)
      && Count(r.outbox, IsRevoke) == Count(st.outbox, IsRevoke) + 1
      && r.lockRequested == st.lockRequested && r.violations == st.violations
      && r.focusLost == st.focusLost && r.camera == st.camera
  {
    var s1 := st.(session := st.session.(active := false), revokedReason := Some(reason));
    PushLogEffects(cfg, s1, SESSION_REVOKED, Some(ReasonContext(reason)), now);
    var s2 := PushLogStep(cfg, s1, SESSION_REVOKED, Some(ReasonContext(reason)), now);
    AppendKeepsLockCount(s2, RevokeRequest(reason));
    var added := KillRequests(cfg, reason);
    assert s2.outbox + [RevokeRequest(reason)] == st.outbox + added;
    CountAppend(st.outbox, added, IsRevoke);
    CountNone([added[0]], IsRevoke);
    CountOne(added[1], IsRevoke);
    CountAppend([added[0]], [added[1]], IsRevoke);
    assert added == [added[0]] + [added[1]];
  }

  /** The two requests every `killSession` sends. */
  function KillRequests(cfg: HookConfig, reason: string): seq<Outbound> {
    [LogNoticeFor(cfg, SESSION_REVOKED, Some(ReasonContext(reason))), RevokeRequest(reason)]
  }

  lemma LockDocumentRemoteEffects(cfg: HookConfig, st: HookState, reason: string, violation: ViolationEvent,
                                  context: Option<Context>)
    requires Consistent(cfg, st)
    ensures var r := LockDocumentRemoteStep(cfg, st, reason, violation, context);
      && Consistent(cfg, r) && r.lockRequested
      && r.outbox == st.outbox + (if st.lockRequested then [] else [LockRequestFor(cfg, reason, violation, context)])
      && r.session == st.session && r.revokedReason == st.revokedReason
      && r.logs == st.logs && r.violations == st.violations
      && r.focusLost == st.focusLost && r.camera == st.camera
  {
    if !st.lockRequested {
      CountAppend(st.outbox, [LockRequestFor(cfg, reason, violation, context)], IsLock);
      CountOne(LockRequestFor(cfg, reason, violation, context), IsLock);
    } else {
      assert st.outbox + [] == st.outbox;
    }
  }

  lemma RecordViolationEffects(cfg: HookConfig, st: HookState, v: ViolationEvent, context: Option<Context>, now: int)
    requires Consistent(cfg, st)
    ensures var r := RecordViolationStep(cfg, st, v, context, now);
      && Consistent(cfg, r)
      && r.violations[0] == v && |r.violations| == Min(|st.violations| + 1, ViolationCap)
      && r.outbox == st.outbox + RecordRequests(cfg, v, context)
      && Count(r.outbox, IsViolationLog) == Count(st.outbox, IsViolationLog) + 1
      && Codes(r.outbox) == Codes(st.outbox) + [v.code]
      && r.session == st.session && r.revokedReason == st.revokedReason && r.lockRequested == st.lockRequested
      && r.focusLost == st.focusLost && r.camera == st.camera
  {
    var s1 := st.(violations := PushCapped(v, st.violations, ViolationCap), minted := st.minted + 1);
    var s2 := s1.(outbox := s1.outbox + [Report(cfg, v, context)]);
    AppendKeepsLockCount(s1, Report(cfg, v, context));
    PushLogEffects(cfg, s2, VIOLATION, Some(ViolationContext(v.code, context)), now);
    var added := RecordRequests(cfg, v, context);
    RecordRequestsCounts(cfg, v, context);
    CountAppend(st.outbox, added, IsViolationLog);
    CodesAppend(st.outbox, added);
  }

  /** The two first requests of a violation hold one VIOLATION log and one
      report, of the violation's code. */
  lemma RecordRequestsCounts(cfg: HookConfig, v: ViolationEvent, context: Option<Context>)
    ensures Count(RecordRequests(cfg, v, context), IsViolationLog) == 1
    ensures Codes(RecordRequests(cfg, v, context)) == [v.code]
  {
    var added := RecordRequests(cfg, v, context);
    assert added == [added[0]] + [added[1]];
    CountAppend([added[0]], [added[1]], IsViolationLog);
    CountOne(added[0], IsViolationLog);
    CountOne(added[1], IsViolationLog);
    CodesAppend([added[0]], [added[1]]);
    CodesOne(added[0]);
    CodesOne(added[1]);
  }

  /** The two requests every violation sends first: its report, then the
      VIOLATION log carrying its code. */
  function RecordRequests(cfg: HookConfig, v: ViolationEvent, context: Option<Context>): seq<Outbound> {
    [Report(cfg, v, context), LogNoticeFor(cfg, VIOLATION, Some(ViolationContext(v.code, context)))]
  }

  /** The requests the policy check sends: when the policy revokes, the lock
      request (unless one was already sent) before the SESSION_REVOKED log
      and the revoke request. */
  function EnforceRequests(cfg: HookConfig, lockRequested: bool, v: ViolationEvent, context: Option<Context>): seq<Outbound> {
    if ShouldRevokeSession(v, cfg.document) then
      (if lockRequested then [] else [LockRequestFor(cfg, v.description, v, context)]) + KillRequests(cfg, RevokeMessage)
    else []
  }

  lemma EnforceEffects(cfg: HookConfig, st: HookState, v: ViolationEvent, context: Option<Context>, now: int)
    requires Consistent(cfg, st)
    ensures var r := EnforceStep(cfg, st, v, context, now);
      && Consistent(cfg, r)
      && r.outbox == st.outbox + EnforceRequests(cfg, st.lockRequested, v, context)
      && Count(r.outbox, IsViolationLog) == Count(st.outbox, IsViolationLog)
      && Codes(r.outbox) == Codes(st.outbox)
      && (ShouldRevokeSession(v, cfg.document) ==>
            !r.session.active && r.revokedReason == Some(RevokeMessage) && r.lockRequested)
      && (!ShouldRevokeSession(v, cfg.document) ==> r == st)
      && r.session == st.session.(active := r.session.active)
      && (st.lockRequested ==> r.lockRequested)
      && r.violations == st.violations && r.focusLost == st.focusLost && r.camera == st.camera
  {
    var added := EnforceRequests(cfg, st.lockRequested, v, context);
    if ShouldRevokeSession(v, cfg.document) {
      LockDocumentRemoteEffects(cfg, st, v.description, v, context);
      var s1 := LockDocumentRemoteStep(cfg, st, v.description, v, context);
      KillSessionEffects(cfg, s1, RevokeMessage, now);
      assert st.outbox + added
          == st.outbox + (if st.lockRequested then [] else [LockRequestFor(cfg, v.description, v, context)])
             + KillRequests(cfg, RevokeMessage);
    } else {
      assert added == [];
      assert st.outbox + added == st.outbox;
    }
    EnforceRequestsSilent(cfg, st.lockRequested, v, context);
    CountAppend(st.outbox, added, IsViolationLog);
    CodesAppend(st.outbox, added);
  }

  /** The policy check's requests hold no VIOLATION log and no report. */
  lemma EnforceRequestsSilent(cfg: HookConfig, lockRequested: bool, v: ViolationEvent, context: Option<Context>)
    ensures Count(EnforceRequests(cfg, lockRequested, v, context), IsViolationLog) == 0
    ensures Codes(EnforceRequests(cfg, lockRequested, v, context)) == []
  {
    var added := EnforceRequests(cfg, lockRequested, v, context);
    assert forall i :: 0 <= i < |added| ==> !IsViolationLog(added[i]) && !IsReport(added[i]);
    CountNone(added, IsViolationLog);
    CodesNone(added);
  }

  /** The requests one violation sends, in order. */
  function ViolationRequests(cfg: HookConfig, lockRequested: bool, v: ViolationEvent, context: Option<Context>): seq<Outbound> {
    RecordRequests(cfg, v, context) + EnforceRequests(cfg, lockRequested, v, context)
  }

  /** A violation gets severity CRITICAL exactly for an external camera and
      HIGH otherwise; it is stored newest first, logged exactly once, reported
      with its code, and its requests go out in the fixed order; when the
      policy revokes, the session ends and the lock latch is set. */
  lemma RegisterViolationEffects(cfg: HookConfig, st: HookState, code: ViolationCode, context: Option<Context>, now: int)
    requires Consistent(cfg, st)
    ensures RegisterViolationStep(cfg, st, code, context, now).1 == NewViolation(cfg, st, code, now)
    ensures var v := NewViolation(cfg, st, code, now);
      && v.code == code && v.description == ReadableViolation(code) && v.evidenceUrl.None?
      && (v.severity == SevCritical <==> code == EXTERNAL_CAMERA_DETECTED)
      && (v.severity != SevCritical ==> v.severity == SevHigh)
    ensures var r := RegisterViolationState(cfg, st, code, context, now);
      && Consistent(cfg, r)
      && r.violations[0] == NewViolation(cfg, st, code, now)
      && |r.violations| == Min(|st.violations| + 1, ViolationCap)
    ensures var r := RegisterViolationState(cfg, st, code, context, now);
      && r.outbox == st.outbox + ViolationRequests(cfg, st.lockRequested, NewViolation(cfg, st, code, now), context)
      && Count(r.outbox, IsViolationLog) == Count(st.outbox, IsViolationLog) + 1
      && Codes(r.outbox) == Codes(st.outbox) + [code]
    ensures var r, v := RegisterViolationState(cfg, st, code, context, now), NewViolation(cfg, st, code, now);
      && (ShouldRevokeSession(v, cfg.document) ==>
            !r.session.active && r.revokedReason == Some(RevokeMessage) && r.lockRequested)
      && (!ShouldRevokeSession(v, cfg.document) ==>
            r.session == st.session && r.revokedReason == st.revokedReason && r.lockRequested == st.lockRequested)
    ensures var r := RegisterViolationState(cfg, st, code, context, now);
      Evolves(st, r) && r.focusLost == st.focusLost && r.camera == st.camera
  {
    var v := NewViolation(cfg, st, code, now);
    RecordViolationEffects(cfg, st, v, context, now);
    var s3 := RecordViolationStep(cfg, st, v, context, now);
    EnforceEffects(cfg, s3, v, context, now);
    var r := EnforceStep(cfg, s3, v, context, now);
    assert RegisterViolationState(cfg, st, code, context, now) == r;
    OutboxAssoc(st.outbox, RecordRequests(cfg, v, context), EnforceRequests(cfg, st.lockRequested, v, context));
  }

  lemma OutboxAssoc(a: seq<Outbound>, b: seq<Outbound>, c: seq<Outbound>)
    ensures a + b + c == a + (b + c)
  {
  }

  /** The summary of `registerViolation` that the other operations rely on. */
  lemma RegisterSummary(cfg: HookConfig, st: HookState, code: ViolationCode, context: Option<Context>, now: int)
    requires Consistent(cfg, st)
    ensures var r := RegisterViolationState(cfg, st, code, context, now);
      && Consistent(cfg, r) && Evolves(st, r)
      && Codes(r.outbox) == Codes(st.outbox) + [code]
      && r.focusLost == st.focusLost && r.camera == st.camera
      && r.violations[0].code == code
  {
    RegisterViolationEffects(cfg, st, code, context, now);
  }

  lemma DeviceCheckEffects(cfg: HookConfig, st: HookState, insight: CameraInsight, now: int)
    requires Consistent(cfg, st)
    ensures var r := AfterDeviceCheck(cfg, st, insight, now);
      && Consistent(cfg, r) && Evolves(st, r) && r.camera == st.camera
      && Codes(r.outbox) == Codes(st.outbox) + (if insight.externalDeviceDetected then [EXTERNAL_CAMERA_DETECTED] else [])
  {
    if insight.externalDeviceDetected {
      RegisterSummary(cfg, st, EXTERNAL_CAMERA_DETECTED, Some(DeviceContext(insight)), now);
    } else {
      assert Codes(st.outbox) + [] == Codes(st.outbox);
    }
  }

  lemma ObstructionCheckEffects(cfg: HookConfig, st: HookState, insight: CameraInsight, now: int)
    requires Consistent(cfg, st)
    ensures var r := AfterObstructionCheck(cfg, st, insight, now);
      && Consistent(cfg, r) && Evolves(st, r) && r.camera == st.camera
      && Codes(r.outbox) == Codes(st.outbox) + (if insight.obstructionScore > ObstructionThreshold then [CAMERA_OBSTRUCTED] else [])
  {
    if insight.obstructionScore > ObstructionThreshold {
      RegisterSummary(cfg, st, CAMERA_OBSTRUCTED, Some(ObstructionContext(insight)), now);
    } else {
      assert Codes(st.outbox) + [] == Codes(st.outbox);
    }
  }

  lemma AbsenceCheckEffects(cfg: HookConfig, st: HookState, insight: CameraInsight, now: int)
    requires Consistent(cfg, st)
    ensures var r := AfterAbsenceCheck(cfg, st, insight, now);
      && Consistent(cfg, r) && Evolves(st, r) && r.camera == st.camera
      && Codes(r.outbox) == Codes(st.outbox) + (if insight.personsDetected == 0 then [CAMERA_ABSENT] else [])
  {
    if insight.personsDetected == 0 {
      RegisterSummary(cfg, st, CAMERA_ABSENT, None, now);
    } else {
      assert Codes(st.outbox) + [] == Codes(st.outbox);
    }
  }

  lemma ConcatAssoc(w: seq<ViolationCode>, a: seq<ViolationCode>, b: seq<ViolationCode>, c: seq<ViolationCode>)
    ensures w + a + b + c == w + (a + b + c)
  {
  }

  /** The three camera checks are independent and run in the fixed order
      external device, obstruction, absence. */
  lemma UpdateCameraInsightEffects(cfg: HookConfig, st: HookState, insight: CameraInsight, now: int)
    requires Consistent(cfg, st)
    ensures UpdateCameraInsightStep(cfg, st, insight, now).1 <==> insight.obstructionScore > 0.4
    ensures var r := UpdateCameraInsightStep(cfg, st, insight, now).0;
      && Consistent(cfg, r) && Evolves(st, r)
      && r.camera == Some(insight)
      && Codes(r.outbox) == Codes(st.outbox) + InsightCodes(insight)
  {
    var s0 := st.(camera := Some(insight));
    var s1 := AfterDeviceCheck(cfg, s0, insight, now);
    var s2 := AfterObstructionCheck(cfg, s1, insight, now);
    var s3 := AfterAbsenceCheck(cfg, s2, insight, now);
    assert UpdateCameraInsightStep(cfg, st, insight, now).0 == s3;
    DeviceCheckEffects(cfg, s0, insight, now);
    ObstructionCheckEffects(cfg, s1, insight, now);
    AbsenceCheckEffects(cfg, s2, insight, now);
    EvolvesTrans(st, s0, s1);
    EvolvesTrans(st, s1, s2);
    EvolvesTrans(st, s2, s3);
    var a := if insight.externalDeviceDetected then [EXTERNAL_CAMERA_DETECTED] else [];
    var b := if insight.obstructionScore > ObstructionThreshold then [CAMERA_OBSTRUCTED] else [];
    var c := if insight.personsDetected == 0 then [CAMERA_ABSENT] else [];
    assert InsightCodes(insight) == a + b + c;
    ConcatAssoc(Codes(st.outbox), a, b, c);
  }

  lemma EvolvesTrans(a: HookState, b: HookState, c: HookState)
    requires Evolves(a, b) && Evolves(b, c)
    ensures Evolves(a, c)
  {
  }

  /** The camera check only ever appends to the outbox. */
  lemma UpdateCameraInsightAppends(cfg: HookConfig, st: HookState, insight: CameraInsight, now: int)
    requires Consistent(cfg, st)
    ensures st.outbox <= UpdateCameraInsightStep(cfg, st, insight, now).0.outbox
  {
    UpdateCameraInsightEffects(cfg, st, insight, now);
  }

  lemma HeartbeatTickEffects(cfg: HookConfig, st: HookState, now: int)
    requires Consistent(cfg, st)
    ensures var r := HeartbeatTickStep(cfg, st, now);
      && Consistent(cfg, r) && Evolves(st, r)
      && (!st.session.active ==> r == st)
      && (st.session.active ==>
            r.outbox == st.outbox + [HeartbeatNoticeFor(cfg, st), LogNoticeFor(cfg, HEARTBEAT, Some(HeartbeatContext(st)))]
            && r.logs[0].event == HEARTBEAT && r.session == st.session)
  {
    if st.session.active {
      var s1 := st.(outbox := st.outbox + [HeartbeatNoticeFor(cfg, st)]);
      AppendKeepsLockCount(st, HeartbeatNoticeFor(cfg, st));
      PushLogEffects(cfg, s1, HEARTBEAT, Some(HeartbeatContext(st)), now);
    }
  }

  /** Losing focus records FOCUS_LOSS; regaining it only clears the flag and
      takes back no violation. */
  lemma HandleFocusChangeEffects(cfg: HookConfig, st: HookState, hasFocus: bool, now: int)
    requires Consistent(cfg, st)
    ensures var r := HandleFocusChangeStep(cfg, st, hasFocus, now);
      && Consistent(cfg, r) && Evolves(st, r)
      && r.focusLost == !hasFocus
      && (hasFocus ==> r == st.(focusLost := false))
      && (!hasFocus ==> r.violations[0].code == FOCUS_LOSS && Codes(r.outbox) == Codes(st.outbox) + [FOCUS_LOSS])
  {
    if !hasFocus {
      RegisterSummary(cfg, st.(focusLost := true), FOCUS_LOSS, Some(ReasonContext("focus_change")), now);
    }
  }

  /** Evidence changes only the entries whose id matches, and only their
      evidence URL, and only when a photo came back; the notice follows in
      every case. */
  lemma AttachEvidenceEffects(cfg: HookConfig, st: HookState, violation: ViolationEvent, context: Option<Context>,
                              outcome: EvidenceOutcome)
    requires Consistent(cfg, st)
    ensures var r := AttachEvidenceStep(cfg, st, violation, context, outcome);
      && Consistent(cfg, r) && Evolves(st, r)
      && |r.violations| == |st.violations|
      && (forall i :: 0 <= i < |st.violations| && st.violations[i].id != violation.id ==>
            r.violations[i] == st.violations[i])
      && (forall i :: 0 <= i < |st.violations| && st.violations[i].id == violation.id ==>
            r.violations[i] == if outcome.Resolved? && HasPhoto(outcome.evidence)
                               then st.violations[i].(evidenceUrl := outcome.evidence.value.photo)
                               else st.violations[i])
      && r.outbox == st.outbox + [EvidenceNotice(cfg, violation, context, outcome)]
      && r.logs == st.logs
  {
    AppendKeepsLockCount(st, EvidenceNotice(cfg, violation, context, outcome));
  }

  lemma StepEffects(cfg: HookConfig, st: HookState, op: HookOp)
    requires Consistent(cfg, st)
    ensures Consistent(cfg, Step(cfg, st, op)) && Evolves(st, Step(cfg, st, op))
  {
    match op
    case RegisterOp(code, context, now) => RegisterSummary(cfg, st, code, context, now);
    case CameraOp(insight, now) => UpdateCameraInsightEffects(cfg, st, insight, now);
    case FocusOp(hasFocus, now) => HandleFocusChangeEffects(cfg, st, hasFocus, now);
    case HeartbeatOp(now) => HeartbeatTickEffects(cfg, st, now);
    case KillOp(reason, now) => KillSessionEffects(cfg, st, reason, now);
    case EvidenceOp(violation, context, outcome) => AttachEvidenceEffects(cfg, st, violation, context, outcome);
  }

  /** Over any run of the hook's operations: the invariant holds, the session
      never becomes active again once inactive, its other fields never
      change, and the lock latch never resets. */
  lemma {:induction false} RunEffects(cfg: HookConfig, st: HookState, ops: seq<HookOp>)
    requires Consistent(cfg, st)
    ensures Consistent(cfg, Run(cfg, st, ops)) && Evolves(st, Run(cfg, st, ops))
    decreases |ops|
  {
    if ops != [] {
      StepEffects(cfg, st, ops[0]);
      RunEffects(cfg, Step(cfg, st, ops[0]), ops[1..]);
    }
  }

  /** From a fresh hook, whatever happens, at most one lock request is ever
      sent and both lists stay within 32 entries, or the document's own
      history if that was longer. */
  lemma LockRequestedAtMostOnce(cfg: HookConfig, initialSession: SessionStatus, ops: seq<HookOp>)
    ensures var r := Run(cfg, Initial(cfg, initialSession), ops);
      && Count(r.outbox, IsLock) <= 1
      && |r.logs| <= Max(LogCap, |cfg.document.logs|)
      && |r.violations| <= Max(ViolationCap, |cfg.document.violations|)
      && (r.session.active ==> initialSession.active)
  {
    InitialConsistent(cfg, initialSession);
    RunEffects(cfg, Initial(cfg, initialSession), ops);
  }

  // ---------------------------------------------------------------------
  // The hook as an object

  class SecuritySession {
    const config: HookConfig
    var session: SessionStatus
    var camera: Option<CameraInsight>
    var logs: seq<ActivityLog>
    var violations: seq<ViolationEvent>
    var focusLost: bool
    var revokedReason: Option<string>
    var lockRequested: bool
    var outbox: seq<Outbound>
    var minted: nat

    function State(): HookState
      reads this
    {
      HookState(session, camera, logs, violations, focusLost, revokedReason, lockRequested, outbox, minted)
    }

    ghost predicate Valid()
      reads this
    {
      Consistent(config, State())
    }

    constructor(document: SecureDocument, viewer: ViewerProfile, initialSession: SessionStatus,
                hasEvidenceSource: bool, mint: nat -> string)
      ensures config.document == document && config.viewer == viewer
      ensures config.hasEvidenceSource == hasEvidenceSource && config.mint == mint
      ensures State() == Initial(config, initialSession)
      ensures Valid()
    {
      config := HookConfig(document, viewer, hasEvidenceSource, mint);
      session := initialSession;
      camera := None;
      logs := document.logs;
      violations := document.violations;
      focusLost := false;
      revokedReason := None;
      lockRequested := false;
      outbox := [];
      minted := 0;
    }

    method PushLog(event: LogEvent, context: Option<Context>, now: int)
      modifies this
      ensures State() == PushLogStep(config, old(State()), event, context, now)
    {
      var entry := CreateLog(config.document.documentId, config.viewer.viewerId, event, context, config.mint(minted), now);
      minted := minted + 1;
      logs := PushCapped(entry, logs, LogCap);
      outbox := outbox + [LogNoticeFor(config, event, context)];
    }

    method KillSession(reason: string, now: int)
      modifies this
      requires Valid()
      ensures Valid()
      ensures State() == KillSessionStep(config, old(State()), reason, now)
    {
      KillSessionEffects(config, State(), reason, now);
      session := session.(active := false);
      revokedReason := Some(reason);
      PushLog(SESSION_REVOKED, Some(ReasonContext(reason)), now);
      outbox := outbox + [RevokeRequest(reason)];
    }

    method LockDocumentRemote(reason: string, violation: ViolationEvent, context: Option<Context>)
      modifies this
      requires Valid()
      ensures Valid()
      ensures State() == LockDocumentRemoteStep(config, old(State()), reason, violation, context)
    {
      LockDocumentRemoteEffects(config, State(), reason, violation, context);
      if lockRequested {
        return;
      }
      lockRequested := true;
      outbox := outbox + [LockRequestFor(config, reason, violation, context)];
    }

    /** The part of `registerViolation` before the policy check. */
    method RecordViolation(violation: ViolationEvent, context: Option<Context>, now: int)
      modifies this
      requires Valid()
      ensures Valid()
      ensures State() == RecordViolationStep(config, old(State()), violation, context, now)
    {
      RecordViolationEffects(config, State(), violation, context, now);
      minted := minted + 1;
      violations := PushCapped(violation, violations, ViolationCap);
      if config.hasEvidenceSource {
        outbox := outbox + [EvidenceRequest(violation.code, violation, context)];
      } else {
        outbox := outbox + [ViolationNotice(config.document.documentId, config.viewer.viewerId, violation, context, None)];
      }
      PushLog(VIOLATION, Some(ViolationContext(violation.code, context)), now);
    }

    /** The policy check closing `registerViolation`. */
    method Enforce(violation: ViolationEvent, context: Option<Context>, now: int)
      modifies this
      requires Valid()
      ensures Valid()
      ensures State() == EnforceStep(config, old(State()), violation, context, now)
    {
      EnforceEffects(config, State(), violation, context, now);
      if ShouldRevokeSession(violation, config.document) {
        LockDocumentRemote(violation.description, violation, context);
        KillSession(RevokeMessage, now);
      }
    }

    method RegisterViolation(code: ViolationCode, context: Option<Context>, now: int) returns (violation: ViolationEvent)
      modifies this
      requires Valid()
      ensures Valid()
      ensures (State(), violation) == RegisterViolationStep(config, old(State()), code, context, now)
    {
      var description := ReadableViolation(code);
      var severity := if code == EXTERNAL_CAMERA_DETECTED then SevCritical else SevHigh;
      violation := CreateViolation(code, description, Some(severity), None, config.mint(minted), now);
      assert violation == NewViolation(config, State(), code, now);
      RecordViolation(violation, context, now);
      Enforce(violation, context, now);
    }

    method UpdateCameraInsight(insight: CameraInsight, now: int) returns (obstructed: bool)
      modifies this
      requires Valid()
      ensures Valid()
      ensures (State(), obstructed) == UpdateCameraInsightStep(config, old(State()), insight, now)
      ensures obstructed <==> insight.obstructionScore > ObstructionThreshold
    {
      camera := Some(insight);
      obstructed := insight.obstructionScore > ObstructionThreshold;
      if insight.externalDeviceDetected {
        var _ := RegisterViolation(EXTERNAL_CAMERA_DETECTED, Some(DeviceContext(insight)), now);
      }
      if obstructed {
        var _ := RegisterViolation(CAMERA_OBSTRUCTED, Some(ObstructionContext(insight)), now);
      }
      if insight.personsDetected == 0 {
        var _ := RegisterViolation(CAMERA_ABSENT, None, now);
      }
    }

    method HeartbeatTick(now: int)
      modifies this
      requires Valid()
      ensures Valid()
      ensures State() == HeartbeatTickStep(config, old(State()), now)
    {
      HeartbeatTickEffects(config, State(), now);
      if !session.active {
        return;
      }
      outbox := outbox + [HeartbeatNoticeFor(config, State())];
      PushLog(HEARTBEAT, Some(map["tamperHash" := JStr(session.tamperHash)]), now);
    }

    method HandleFocusChange(hasFocus: bool, now: int)
      modifies this
      requires Valid()
      ensures Valid()
      ensures State() == HandleFocusChangeStep(config, old(State()), hasFocus, now)
    {
      focusLost := !hasFocus;
      if !hasFocus {
        var _ := RegisterViolation(FOCUS_LOSS, Some(ReasonContext("focus_change")), now);
      }
    }

    method AttachEvidence(violation: ViolationEvent, context: Option<Context>, outcome: EvidenceOutcome)
      modifies this
      requires Valid()
      ensures Valid()
      ensures State() == AttachEvidenceStep(config, old(State()), violation, context, outcome)
    {
      AttachEvidenceEffects(config, State(), violation, context, outcome);
      match outcome
      case Rejected =>
        outbox := outbox + [ViolationNotice(config.document.documentId, config.viewer.viewerId, violation, context, None)];
      case Resolved(e) =>
        if HasPhoto(e) {
          violations := WithEvidence(violations, violation.id, e.value.photo.value);
        }
        outbox := outbox + [ViolationNotice(config.document.documentId, config.viewer.viewerId, violation, context, e)];
    }
  }
}
