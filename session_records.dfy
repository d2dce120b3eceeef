/** Record constructors and the revocation rule of src/lib/security/session.ts.
    The clock and the id generators are parameters. */
module SessionRecords {
  import opened Common
  import opened SecurityTypes

  const MinuteMs: int := 60 * 1000
  const DefaultSessionMinutes: int := 30
  const HeartbeatMs: int := 5000

  /** `createSession`. `startedAt` is the first clock reading and `later`
      the second one, taken only when the document sets no positive
      session length. */
  function CreateSession(document: SecureDocument, viewerId: string, startedAt: int, later: int,
                         id: string, tamperHash: string): (s: SessionStatus)
    ensures s.startedAt == startedAt
    ensures var m := document.permissions.maxSessionMinutes;
      if m.Some? && m.value > 0 then s.expiresAt == startedAt + m.value * MinuteMs
      else s.expiresAt == later + DefaultSessionMinutes * MinuteMs
    ensures s.active && !s.focusLost && !s.identityVerified && s.viewerIdentity.None?
    ensures s.heartbeatMs == HeartbeatMs
    ensures s.documentId == document.documentId && s.viewerId == viewerId
    ensures s.id == id && s.tamperHash == tamperHash
  {
    var m := document.permissions.maxSessionMinutes;
    var expiresAt := if m.Some? && m.value > 0 then startedAt + m.value * 60 * 1000 else later + 30 * 60 * 1000;
    SessionStatus(id, document.documentId, viewerId, startedAt, expiresAt,
                  true, 5000, false, tamperHash, false, None)
  }

  /** A new session always ends after it starts, as long as the clock does
      not run backwards between the two readings. */
  lemma SessionEndsAfterStart(document: SecureDocument, viewerId: string, startedAt: int, later: int,
                              id: string, tamperHash: string)
    requires startedAt <= later
    ensures CreateSession(document, viewerId, startedAt, later, id, tamperHash).expiresAt
            >= startedAt + MinuteMs
  {
  }

  /** `createLog` */
  function CreateLog(documentId: string, viewerId: string, event: LogEvent, context: Option<Context>,
                     id: string, now: int): (l: ActivityLog)
    ensures l.documentId == documentId && l.viewerId == viewerId
    ensures l.event == event && l.context == context
    ensures l.id == id && l.createdAt == now
  {
    ActivityLog(id, documentId, viewerId, event, context, now)
  }

  /** `createViolation`; a missing severity defaults to HIGH. */
  function CreateViolation(code: ViolationCode, description: string, severity: Option<Severity>,
                           evidenceUrl: Option<string>, id: string, now: int): (v: ViolationEvent)
    ensures v.code == code && v.description == description && v.evidenceUrl == evidenceUrl
    ensures v.severity == if severity.Some? then severity.value else SevHigh
    ensures v.id == id && v.createdAt == now
  {
    ViolationEvent(id, code, severity.GetOr(SevHigh), description, evidenceUrl, now)
  }

  /** `shouldRevokeSession`: an external camera always revokes, a MAXIMUM
      document revokes on anything, and otherwise only CRITICAL revokes. */
  function ShouldRevokeSession(violation: ViolationEvent, document: SecureDocument): (r: bool)
    ensures r <==> violation.code == EXTERNAL_CAMERA_DETECTED
                   || document.permissions.securityLevel == MAXIMUM
                   || violation.severity == SevCritical
  {
    if violation.code == EXTERNAL_CAMERA_DETECTED then true
    else if document.permissions.securityLevel == MAXIMUM then true
    else violation.severity == SevCritical
  }

  lemma ExternalCameraAlwaysRevokes(violation: ViolationEvent, document: SecureDocument)
    requires violation.code == EXTERNAL_CAMERA_DETECTED
    ensures ShouldRevokeSession(violation, document)
  {
  }

  lemma MaximumRevokesEverything(violation: ViolationEvent, document: SecureDocument)
    requires document.permissions.securityLevel == MAXIMUM
    ensures ShouldRevokeSession(violation, document)
  {
  }

  /** Below MAXIMUM, a violation other than an external camera revokes
      exactly when it is CRITICAL; in particular HIGH never revokes. */
  lemma BelowMaximumOnlyCriticalRevokes(violation: ViolationEvent, document: SecureDocument)
    requires document.permissions.securityLevel != MAXIMUM
    requires violation.code != EXTERNAL_CAMERA_DETECTED
    ensures ShouldRevokeSession(violation, document) <==> violation.severity == SevCritical
    ensures violation.severity == SevHigh ==> !ShouldRevokeSession(violation, document)
  {
  }
}
