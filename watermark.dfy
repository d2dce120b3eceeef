/** `buildWatermarkPayload` of src/lib/security/watermark.ts. The clock
    reading and the date formatter are parameters. */
module Watermark {
  import opened Common
  import opened Text
  import opened SecurityTypes

  datatype WatermarkPayload = WatermarkPayload(lines: seq<string>, opacity: real)

  datatype WatermarkContext = WatermarkContext(ip: string, viewerId: string)

  /** The label that opens each of the eight lines, in order. */
  const Labels: seq<string> := ["DOC", "OWNER", "SESSION", "VIEWER", "IP", "LEVEL", "EXPIRES", "COUNTDOWN"]

  /** Whole minutes left until `expiresAt`, never negative: the largest `m`
      with `m` minutes fitting in the remaining time. */
  function CountdownMinutes(expiresAt: int, now: int): (m: nat)
    ensures m * 60000 <= Max(0, expiresAt - now) < (m + 1) * 60000
  {
    var left := expiresAt - now;
    if left < 0 then 0 else left / 60000
  }

  /** The countdown never goes up as time passes. */
  lemma CountdownMonotone(expiresAt: int, earlier: int, later: int)
    requires earlier <= later
    ensures CountdownMinutes(expiresAt, later) <= CountdownMinutes(expiresAt, earlier)
  {
    var a := CountdownMinutes(expiresAt, earlier);
    var b := CountdownMinutes(expiresAt, later);
    assert b * 60000 <= Max(0, expiresAt - later) <= Max(0, expiresAt - earlier) < (a + 1) * 60000;
  }

  /** Once the session has expired the countdown reads zero. */
  lemma CountdownZeroAfterExpiry(expiresAt: int, now: int)
    requires now >= expiresAt
    ensures CountdownMinutes(expiresAt, now) == 0
  {
  }

  function BuildWatermarkPayload(document: SecureDocument, session: SessionStatus, context: WatermarkContext,
                                 now: int, formatTime: int -> string): (p: WatermarkPayload)
    ensures |p.lines| == |Labels| == 8
    ensures forall i :: 0 <= i < 8 ==> StartsWith(p.lines[i], Labels[i] + " ")
    ensures p.lines[0] == "DOC " + document.documentId
    ensures p.lines[1] == "OWNER " + document.ownerId
    ensures p.lines[2] == "SESSION " + session.id
    ensures p.lines[3] == "VIEWER " + context.viewerId
    ensures p.lines[4] == "IP " + context.ip
    ensures p.lines[5] == "LEVEL " + SecurityLevelName(document.permissions.securityLevel)
    ensures p.lines[6] == "EXPIRES " + formatTime(session.expiresAt)
    ensures p.lines[7] == "COUNTDOWN " + NatText(CountdownMinutes(session.expiresAt, now)) + "m"
    ensures p.opacity == 0.25 <==> document.permissions.securityLevel == MAXIMUM
    ensures p.opacity == 0.15 <==> document.permissions.securityLevel != MAXIMUM
  {
    var expiresInMinutes := CountdownMinutes(session.expiresAt, now);
    var base := [
      "DOC " + document.documentId,
      "OWNER " + document.ownerId,
      "SESSION " + session.id,
      "VIEWER " + context.viewerId,
      "IP " + context.ip,
      "LEVEL " + SecurityLevelName(document.permissions.securityLevel),
      "EXPIRES " + formatTime(session.expiresAt),
      "COUNTDOWN " + NatText(expiresInMinutes) + "m"
    ];
    WatermarkPayload(base, if document.permissions.securityLevel == MAXIMUM then 0.25 else 0.15)
  }

  /** The VIEWER and IP lines come from the request context, not from the
      session: two sessions with different viewers watermark the same way. */
  lemma ViewerAndIpFromContext(document: SecureDocument, s1: SessionStatus, s2: SessionStatus,
                               context: WatermarkContext, now: int, formatTime: int -> string)
    ensures var p1 := BuildWatermarkPayload(document, s1, context, now, formatTime);
            var p2 := BuildWatermarkPayload(document, s2, context, now, formatTime);
            p1.lines[3] == p2.lines[3] && p1.lines[4] == p2.lines[4]
  {
  }

  /** The payload's countdown line changes only with the whole minutes left. */
  lemma CountdownLineDecreases(document: SecureDocument, session: SessionStatus, context: WatermarkContext,
                               earlier: int, later: int, formatTime: int -> string)
    requires earlier <= later
    ensures var p := BuildWatermarkPayload(document, session, context, later, formatTime);
            var q := BuildWatermarkPayload(document, session, context, earlier, formatTime);
            DigitsValue(p.lines[7][|"COUNTDOWN "|..|p.lines[7]| - 1])
            <= DigitsValue(q.lines[7][|"COUNTDOWN "|..|q.lines[7]| - 1])
  {
    var m := CountdownMinutes(session.expiresAt, later);
    var n := CountdownMinutes(session.expiresAt, earlier);
    var p := BuildWatermarkPayload(document, session, context, later, formatTime);
    var q := BuildWatermarkPayload(document, session, context, earlier, formatTime);
    assert p.lines[7][|"COUNTDOWN "|..|p.lines[7]| - 1] == NatText(m);
    assert q.lines[7][|"COUNTDOWN "|..|q.lines[7]| - 1] == NatText(n);
    NatTextRoundTrip(m);
    NatTextRoundTrip(n);
    CountdownMonotone(session.expiresAt, earlier, later);
  }
}
