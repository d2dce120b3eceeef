/** The reader's session panel of src/components/security/SessionHud.tsx:
    the remaining time, kept as state a one-second interval refreshes, its
    `M:SS` countdown, whether the session counts as revoked, and the status
    line. The clock is a parameter. */
module SessionHud {
  import opened Common
  import opened Text
  import opened Json
  import opened SecurityTypes

  /** `Math.max(0, expiresAt - Date.now())` */
  function RemainingMs(expiresAt: int, now: int): (ms: nat)
    ensures ms == 0 <==> now >= expiresAt
    ensures now < expiresAt ==> ms == expiresAt - now
  {
    if expiresAt - now <= 0 then 0 else expiresAt - now
  }

  /** Time only runs down. */
  lemma RemainingNeverGrows(expiresAt: int, earlier: int, later: int)
    requires earlier <= later
    ensures RemainingMs(expiresAt, later) <= RemainingMs(expiresAt, earlier)
  {
  }

  /** `${minutes}:${seconds}` with `minutes = floor(ms / 60000)` and
      `seconds = floor(ms / 1000) mod 60` padded to two digits. */
  function Countdown(ms: nat): string {
    NatText(ms / 60000) + ":" + PadTwo((ms / 1000) % 60)
  }

  /** Reads an `M:SS` text back into minutes and seconds. */
  function ParseCountdown(s: string): Option<(nat, nat)> {
    var i := FirstIndex(s, ':');
    if i == |s| || i == 0 || !AllDigits(s[..i]) then None
    else
      var sec := s[i + 1..];
      if |sec| != 2 || !AllDigits(sec) then None
      else Some((DigitsValue(s[..i]), DigitValue(sec[0]) * 10 + DigitValue(sec[1])))
  }

  /** The countdown shows whole minutes and the seconds below a minute, and
      together they make up the whole seconds remaining. */
  lemma {:induction false} CountdownRoundTrip(ms: nat)
    ensures ParseCountdown(Countdown(ms)) == Some((ms / 60000, (ms / 1000) % 60))
    ensures (ms / 60000) * 60 + (ms / 1000) % 60 == ms / 1000
  {
    var m := NatText(ms / 60000);
    var sec := PadTwo((ms / 1000) % 60);
    var s := Countdown(ms);
    assert s == m + (":" + sec);
    FirstIndexAfter(m, ":" + sec, ':');
    assert s[..|m|] == m;
    assert s[|m| + 1..] == sec;
    NatTextRoundTrip(ms / 60000);
    MinutesOfSeconds(ms);
  }

  lemma MinutesOfSeconds(ms: nat)
    ensures ms / 60000 == (ms / 1000) / 60
  {
    var q := ms / 1000;
    var m := q / 60;
    assert ms == 1000 * q + ms % 1000;
    assert q == 60 * m + q % 60;
    assert ms == 60000 * m + (1000 * (q % 60) + ms % 1000);
    assert 0 <= 1000 * (q % 60) + ms % 1000 < 60000;
  }

  /** `revokedReason !== null || !session.active`; the kill button is
      disabled exactly then. */
  predicate IsRevoked(session: SessionStatus, revokedReason: Option<string>) {
    revokedReason.Some? || !session.active
  }

  function KillDisabled(session: SessionStatus, revokedReason: Option<string>): (disabled: bool)
    ensures disabled <==> revokedReason.Some? || !session.active
  {
    IsRevoked(session, revokedReason)
  }

  /** `session.heartbeatMs / 1000` as the template writes it. */
  function ComplianceText(session: SessionStatus): string {
    "Viewer compliant. Camera tracking + heartbeat (" + NumberText(session.heartbeatMs as real / 1000.0) + "s) stay active."
  }

  /** The status line: a revocation first (its reason, or "Session
      revoked"), then the newest violation, then the compliance note. */
  function StatusText(session: SessionStatus, violations: seq<ViolationEvent>, revokedReason: Option<string>): (t: string)
    ensures IsRevoked(session, revokedReason) ==> t == revokedReason.GetOr("Session revoked")
    ensures !IsRevoked(session, revokedReason) && violations != [] ==> t == violations[0].description
    ensures !IsRevoked(session, revokedReason) && violations == [] ==> t == ComplianceText(session)
  {
    if IsRevoked(session, revokedReason) then revokedReason.GetOr("Session revoked")
    else if |violations| > 0 then violations[0].description
    else ComplianceText(session)
  }

  /** Once revoked, no violation list changes the status line. */
  lemma RevocationOutranksViolations(session: SessionStatus, v1: seq<ViolationEvent>, v2: seq<ViolationEvent>, reason: Option<string>)
    requires IsRevoked(session, reason)
    ensures StatusText(session, v1, reason) == StatusText(session, v2, reason)
  {
  }

  /** The panel's countdown state, refreshed by the interval. */
  class HudClock {
    const expiresAt: int
    var remainingMs: nat

    /** The initial `useState` value. */
    constructor (expiresAt: int, now: int)
      ensures this.expiresAt == expiresAt && remainingMs == RemainingMs(expiresAt, now)
    {
      this.expiresAt := expiresAt;
      remainingMs := RemainingMs(expiresAt, now);
    }

    /** One firing of the one-second interval. */
    method Tick(now: int)
      modifies this
      ensures remainingMs == RemainingMs(expiresAt, now)
    {
      remainingMs := RemainingMs(expiresAt, now);
    }

    function CountdownText(): (s: string)
      reads this
      ensures ParseCountdown(s) == Some((remainingMs / 60000, (remainingMs / 1000) % 60))
    {
      CountdownRoundTrip(remainingMs);
      Countdown(remainingMs)
    }
  }
}
