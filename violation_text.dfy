/** `violationDescriptions` and `readableViolation` of
    src/lib/security/events.ts. */
module ViolationText {
  import opened Common
  import opened SecurityTypes

  /** The fixed description table; DEVTOOLS_ATTEMPT has no entry. */
  function Description(code: ViolationCode): Option<string> {
    match code
    case SCREEN_RECORDING => Some("Screen recording tool detected.")
    case SCREEN_SHARING => Some("Screen sharing detected.")
    case SCREENSHOT_ATTEMPT => Some("Screenshot attempt blocked.")
    case FOCUS_LOSS => Some("Viewer lost focus on the secure window.")
    case DEVTOOLS_OPENED => Some("Developer tools opened.")
    case DEVTOOLS_ATTEMPT => None
    case CAMERA_OBSTRUCTED => Some("Camera obstruction detected.")
    case CAMERA_ABSENT => Some("Camera stream missing.")
    case EXTERNAL_CAMERA_DETECTED => Some("External phone or camera aimed at the screen.")
    case MULTI_PERSON => Some("Multiple people detected in frame.")
    case NO_LIVENESS => Some("Liveness check failed.")
    case ENVIRONMENT_CHANGE => Some("Environment changed unexpectedly.")
    case NETWORK_TAMPER => Some("Network tamper detected.")
    case SESSION_TAMPER => Some("Session tamper detected.")
    case POLICY_BREACH => Some("Access policy violation.")
  }

  /** `readableViolation`: the table entry, falling back to the code's own
      spelling; never empty. */
  function ReadableViolation(code: ViolationCode): (r: string)
    ensures r != []
    ensures Description(code).Some? ==> r == Description(code).value
    ensures Description(code).None? ==> r == CodeName(code)
  {
    match Description(code)
    case Some(d) => d
    case None => CodeName(code)
  }

  /** DEVTOOLS_ATTEMPT is the only code without a description, so it reads
      as its own name; every other code reads as its table entry. */
  lemma OnlyDevtoolsAttemptUnmapped()
    ensures forall c :: Description(c).None? <==> c == DEVTOOLS_ATTEMPT
    ensures ReadableViolation(DEVTOOLS_ATTEMPT) == "DEVTOOLS_ATTEMPT"
    ensures ReadableViolation(EXTERNAL_CAMERA_DETECTED) == "External phone or camera aimed at the screen."
  {
  }
}
