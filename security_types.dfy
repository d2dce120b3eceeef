/** The records and enumerations of the secure viewer (security levels,
    violation codes, severities, activity-log events, sessions, camera
    insights, documents and viewers), plus the reader-side location record.
    Timestamps are milliseconds since the epoch; ISO-8601 strings the source
    writes are represented by the timestamp they print. */
module SecurityTypes {
  import opened Common
  import opened Json

  datatype SecurityLevel = LOW | MEDIUM | HIGH | MAXIMUM

  /** `securityLevels` */
  const SecurityLevels: seq<SecurityLevel> := [LOW, MEDIUM, HIGH, MAXIMUM]

  function SecurityLevelName(l: SecurityLevel): string {
    match l
    case LOW => "LOW"
    case MEDIUM => "MEDIUM"
    case HIGH => "HIGH"
    case MAXIMUM => "MAXIMUM"
  }

  lemma SecurityLevelsExact()
    ensures |SecurityLevels| == 4
    ensures forall l: SecurityLevel :: l in SecurityLevels
    ensures forall i, j :: 0 <= i < j < |SecurityLevels| ==>
      SecurityLevelName(SecurityLevels[i]) != SecurityLevelName(SecurityLevels[j])
  {
    forall l: SecurityLevel ensures l in SecurityLevels {
      match l
      case LOW => assert SecurityLevels[0] == l;
      case MEDIUM => assert SecurityLevels[1] == l;
      case HIGH => assert SecurityLevels[2] == l;
      case MAXIMUM => assert SecurityLevels[3] == l;
    }
  }

  datatype ViolationCode =
    | SCREEN_RECORDING
    | SCREEN_SHARING
    | SCREENSHOT_ATTEMPT
    | FOCUS_LOSS
    | DEVTOOLS_OPENED
    | DEVTOOLS_ATTEMPT
    | CAMERA_OBSTRUCTED
    | CAMERA_ABSENT
    | EXTERNAL_CAMERA_DETECTED
    | MULTI_PERSON
    | NO_LIVENESS
    | ENVIRONMENT_CHANGE
    | NETWORK_TAMPER
    | SESSION_TAMPER
    | POLICY_BREACH

  /** `violationCodes`, in the source's order. */
  const ViolationCodes: seq<ViolationCode> := [
    SCREEN_RECORDING, SCREEN_SHARING, SCREENSHOT_ATTEMPT, FOCUS_LOSS,
    DEVTOOLS_OPENED, DEVTOOLS_ATTEMPT, CAMERA_OBSTRUCTED, CAMERA_ABSENT,
    EXTERNAL_CAMERA_DETECTED, MULTI_PERSON, NO_LIVENESS, ENVIRONMENT_CHANGE,
    NETWORK_TAMPER, SESSION_TAMPER, POLICY_BREACH
  ]

  /** The wire spelling of a code. */
  function CodeName(c: ViolationCode): string {
    match c
    case SCREEN_RECORDING => "SCREEN_RECORDING"
    case SCREEN_SHARING => "SCREEN_SHARING"
    case SCREENSHOT_ATTEMPT => "SCREENSHOT_ATTEMPT"
    case FOCUS_LOSS => "FOCUS_LOSS"
    case DEVTOOLS_OPENED => "DEVTOOLS_OPENED"
    case DEVTOOLS_ATTEMPT => "DEVTOOLS_ATTEMPT"
    case CAMERA_OBSTRUCTED => "CAMERA_OBSTRUCTED"
    case CAMERA_ABSENT => "CAMERA_ABSENT"
    case EXTERNAL_CAMERA_DETECTED => "EXTERNAL_CAMERA_DETECTED"
    case MULTI_PERSON => "MULTI_PERSON"
    case NO_LIVENESS => "NO_LIVENESS"
    case ENVIRONMENT_CHANGE => "ENVIRONMENT_CHANGE"
    case NETWORK_TAMPER => "NETWORK_TAMPER"
    case SESSION_TAMPER => "SESSION_TAMPER"
    case POLICY_BREACH => "POLICY_BREACH"
  }

  /** There are exactly fifteen codes, listed once each, with distinct
      wire spellings. */
  lemma ViolationCodesExact()
    ensures |ViolationCodes| == 15
    ensures forall c: ViolationCode :: c in ViolationCodes
    ensures forall i, j :: 0 <= i < j < |ViolationCodes| ==>
      CodeName(ViolationCodes[i]) != CodeName(ViolationCodes[j])
  {
    forall c: ViolationCode ensures c in ViolationCodes {
      match c
      case SCREEN_RECORDING => assert ViolationCodes[0] == c;
      case SCREEN_SHARING => assert ViolationCodes[1] == c;
      case SCREENSHOT_ATTEMPT => assert ViolationCodes[2] == c;
      case FOCUS_LOSS => assert ViolationCodes[3] == c;
      case DEVTOOLS_OPENED => assert ViolationCodes[4] == c;
      case DEVTOOLS_ATTEMPT => assert ViolationCodes[5] == c;
      case CAMERA_OBSTRUCTED => assert ViolationCodes[6] == c;
      case CAMERA_ABSENT => assert ViolationCodes[7] == c;
      case EXTERNAL_CAMERA_DETECTED => assert ViolationCodes[8] == c;
      case MULTI_PERSON => assert ViolationCodes[9] == c;
      case NO_LIVENESS => assert ViolationCodes[10] == c;
      case ENVIRONMENT_CHANGE => assert ViolationCodes[11] == c;
      case NETWORK_TAMPER => assert ViolationCodes[12] == c;
      case SESSION_TAMPER => assert ViolationCodes[13] == c;
      case POLICY_BREACH => assert ViolationCodes[14] == c;
    }
  }

  datatype Severity = SevLow | SevMedium | SevHigh | SevCritical

  function SeverityName(s: Severity): string {
    match s
    case SevLow => "LOW"
    case SevMedium => "MEDIUM"
    case SevHigh => "HIGH"
    case SevCritical => "CRITICAL"
  }

  /** The events of `ActivityLog["event"]`. */
  datatype LogEvent =
    | VIEWER_OPENED
    | VIEWER_CLOSED
    | HEARTBEAT
    | SCREENSHOT_BLOCKED
    | SCREEN_SHARE_BLOCKED
    | VIOLATION
    | CAMERA_STATE
    | POLICY_CHANGED
    | SESSION_REVOKED

  const LogEvents: seq<LogEvent> := [
    VIEWER_OPENED, VIEWER_CLOSED, HEARTBEAT, SCREENSHOT_BLOCKED,
    SCREEN_SHARE_BLOCKED, VIOLATION, CAMERA_STATE, POLICY_CHANGED, SESSION_REVOKED
  ]

  function LogEventName(e: LogEvent): string {
    match e
    case VIEWER_OPENED => "VIEWER_OPENED"
    case VIEWER_CLOSED => "VIEWER_CLOSED"
    case HEARTBEAT => "HEARTBEAT"
    case SCREENSHOT_BLOCKED => "SCREENSHOT_BLOCKED"
    case SCREEN_SHARE_BLOCKED => "SCREEN_SHARE_BLOCKED"
    case VIOLATION => "VIOLATION"
    case CAMERA_STATE => "CAMERA_STATE"
    case POLICY_CHANGED => "POLICY_CHANGED"
    case SESSION_REVOKED => "SESSION_REVOKED"
  }

  lemma LogEventsExact()
    ensures |LogEvents| == 9
    ensures forall e: LogEvent :: e in LogEvents
    ensures forall i, j :: 0 <= i < j < |LogEvents| ==>
      LogEventName(LogEvents[i]) != LogEventName(LogEvents[j])
  {
    forall e: LogEvent ensures e in LogEvents {
      match e
      case VIEWER_OPENED => assert LogEvents[0] == e;
      case VIEWER_CLOSED => assert LogEvents[1] == e;
      case HEARTBEAT => assert LogEvents[2] == e;
      case SCREENSHOT_BLOCKED => assert LogEvents[3] == e;
      case SCREEN_SHARE_BLOCKED => assert LogEvents[4] == e;
      case VIOLATION => assert LogEvents[5] == e;
      case CAMERA_STATE => assert LogEvents[6] == e;
      case POLICY_CHANGED => assert LogEvents[7] == e;
      case SESSION_REVOKED => assert LogEvents[8] == e;
    }
  }

  /** `Record<string, unknown>` context bags. */
  type Context = map<string, Json>

  datatype ActivityLog = ActivityLog(
    id: string,
    documentId: string,
    viewerId: string,
    event: LogEvent,
    context: Option<Context>,
    createdAt: int)

  datatype ViolationEvent = ViolationEvent(
    id: string,
    code: ViolationCode,
    severity: Severity,
    description: string,
    evidenceUrl: Option<string>,
    createdAt: int)

  datatype DocumentPermissions = DocumentPermissions(
    maxViews: int,
    expiryDate: string,
    securityLevel: SecurityLevel,
    maxSessionMinutes: Option<int>,
    maxConcurrentSessions: Option<int>)

  datatype ViewerIdentityRequirement = ViewerIdentityRequirement(
    required: bool,
    expectedName: Option<string>,
    expectedPhone: Option<string>,
    enforceMatch: Option<bool>)

  datatype DocumentSecurityPolicy = DocumentSecurityPolicy(
    cameraEnforcement: bool,
    watermarking: bool,
    screenShield: bool,
    downloadDisabled: bool,
    multiMonitorBlock: bool,
    deviceLock: bool,
    locationTracking: bool,
    captureReaderPhoto: bool)

  datatype Classification = CONFIDENTIAL | SECRET | RESTRICTED

  datatype SecureDocument = SecureDocument(
    documentId: string,
    ownerId: string,
    title: string,
    classification: Classification,
    permissions: DocumentPermissions,
    logs: seq<ActivityLog>,
    violations: seq<ViolationEvent>,
    fileUrl: Option<string>,
    fileName: Option<string>,
    fileType: Option<string>,
    policies: Option<DocumentSecurityPolicy>,
    identityRequirement: Option<ViewerIdentityRequirement>,
    locked: Option<bool>,
    lockedReason: Option<string>)

  datatype ViewerDeviceFingerprint = ViewerDeviceFingerprint(
    id: string, deviceLabel: string, platform: string, ipAddress: string, createdAt: string)

  datatype ViewerProfile = ViewerProfile(
    viewerId: string, name: string, email: string, device: ViewerDeviceFingerprint)

  datatype CameraInsight = CameraInsight(
    frameHash: string,
    obstructionScore: real,
    personsDetected: nat,
    externalDeviceDetected: bool,
    livenessScore: real,
    brightnessDelta: real,
    updatedAt: int)

  datatype ViewerIdentity = ViewerIdentity(
    name: Option<string>, phone: Option<string>, verifiedAt: Option<int>, photo: Option<string>)

  datatype SessionStatus = SessionStatus(
    id: string,
    documentId: string,
    viewerId: string,
    startedAt: int,
    expiresAt: int,
    active: bool,
    heartbeatMs: int,
    focusLost: bool,
    tamperHash: string,
    identityVerified: bool,
    viewerIdentity: Option<ViewerIdentity>)

  /** `ReaderLocation` (src/lib/types/reader.ts). */
  datatype ReaderLocation = ReaderLocation(
    lat: real, lon: real, accuracy: Option<real>, capturedAt: int)
}
