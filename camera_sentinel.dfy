/** The camera watcher of src/components/security/CameraSentinel.tsx. The
    component's React state becomes the fields of `CameraSentinel`; the
    4-second interval is the `Tick` method, called with what the timer
    callback observes (the video element, its ready state, the detector's
    answer, whether the component is still mounted, the captured frame).
    `SentinelState` and the `...Step` functions are the same behaviour on
    values, and the invariant `SentinelInv` is proved for them. */
module Sentinel {
  import opened Common
  import opened SecurityTypes
  import opened CameraFrames
  import opened SecuritySessionHook

  datatype Phase = Initializing | Tracking | Failed

  const CameraFailure: string := "Camera permission denied or unavailable."

  /** What `evaluateCameraFrame` gave the timer callback: an insight, or an
      exception the callback swallows. */
  datatype TickOutcome = Evaluated(insight: CameraInsight) | EvalFailed

  /** One `onSnapshot(photo, frameHash)` call. */
  datatype Snapshot = Snapshot(photo: string, frameHash: string)

  datatype SentinelConfig = SentinelConfig(hasSnapshotHandler: bool)

  /** The component state plus what it has handed to its callbacks:
      `insights` for `onInsight`, `snapshots` for `onSnapshot`.
      `disabled` is the current value of the prop, which the shell derives
      from the session (`disabled={!session.active}`), and `streamPending`
      is true while a `getUserMedia` request has not settled. */
  datatype SentinelState = SentinelState(
    disabled: bool,
    phase: Phase,
    lastInsight: Option<CameraInsight>,
    error: Option<string>,
    snapshotSent: bool,
    streamPending: bool,
    insights: seq<CameraInsight>,
    snapshots: seq<Snapshot>)

  /** The state after mounting: the stream is requested unless disabled. */
  function InitialSentinel(disabled: bool): SentinelState {
    SentinelState(disabled, Initializing, None, None, false, !disabled, [], [])
  }

  /** A new value of the `disabled` prop. Both effects depend on it, so a
      change runs their cleanups (the stream's tracks stop, the sampling
      interval is cleared and an evaluation in flight is dropped) and then
      the effects again: disabling leaves nothing running, enabling requests
      the camera anew and restarts the interval. A request already in flight
      still settles. */
  function DisabledStep(st: SentinelState, disabled: bool): SentinelState {
    if disabled == st.disabled then st
    else if disabled then st.(disabled := true)
    else st.(disabled := false, streamPending := true)
  }

  /** The `getUserMedia(...).then(play).then(...).catch(...)` chain settles
      once: tracking on success, the failure message on any rejection. */
  function SettleStep(st: SentinelState, ok: bool): SentinelState {
    if !st.streamPending then st
    else if ok then st.(phase := Tracking, streamPending := false)
    else st.(phase := Failed, error := Some(CameraFailure), streamPending := false)
  }

  /** One run of the interval callback. */
  function TickStep(cfg: SentinelConfig, st: SentinelState, videoPresent: bool, readyState: int,
                    outcome: TickOutcome, mounted: bool, photo: string): SentinelState {
    if st.disabled || !videoPresent || readyState < 2 || st.phase == Failed then st
    else match outcome
      case EvalFailed => st
      case Evaluated(insight) =>
        if !mounted then st
        else
          var s1 := st.(lastInsight := Some(insight), insights := st.insights + [insight]);
          if !s1.snapshotSent && cfg.hasSnapshotHandler && photo != ""
          then s1.(snapshotSent := true, snapshots := s1.snapshots + [Snapshot(photo, insight.frameHash)])
          else s1
  }

  datatype SentinelOp =
    | SettleOp(ok: bool)
    | TickOp(videoPresent: bool, readyState: int, outcome: TickOutcome, mounted: bool, photo: string)
    | DisabledOp(disabled: bool)

  function SentinelStep(cfg: SentinelConfig, st: SentinelState, op: SentinelOp): SentinelState {
    match op
    case SettleOp(ok) => SettleStep(st, ok)
    case TickOp(v, r, o, m, p) => TickStep(cfg, st, v, r, o, m, p)
    case DisabledOp(d) => DisabledStep(st, d)
  }

  function SentinelRun(cfg: SentinelConfig, st: SentinelState, ops: seq<SentinelOp>): SentinelState
    decreases |ops|
  {
    if ops == [] then st else SentinelRun(cfg, SentinelStep(cfg, st, ops[0]), ops[1..])
  }

  /** What the component keeps true: at most one snapshot, sent only with a
      handler and a non-empty photo, carrying the id of a forwarded frame;
      the last insight is the last one forwarded; the error message is shown
      exactly in the failed phase. */
  ghost predicate SentinelInv(cfg: SentinelConfig, st: SentinelState) {
    && |st.snapshots| <= 1
    && (st.snapshotSent <==> |st.snapshots| == 1)
    && (st.snapshots != [] ==>
          && cfg.hasSnapshotHandler && st.snapshots[0].photo != ""
          && exists i :: 0 <= i < |st.insights| && st.insights[i].frameHash == st.snapshots[0].frameHash)
    && st.lastInsight == (if st.insights == [] then None else Some(st.insights[|st.insights| - 1]))
    && (st.phase == Failed ==> st.error == Some(CameraFailure))
    && (st.error.Some? ==> st.error.value == CameraFailure)
  }

  /** The failed phase with no camera request in flight. */
  predicate FailedForGood(st: SentinelState) {
    st.phase == Failed && !st.streamPending
  }

  lemma InitialSentinelInv(cfg: SentinelConfig, disabled: bool)
    ensures SentinelInv(cfg, InitialSentinel(disabled))
  {
  }

  lemma SettleKeepsInv(cfg: SentinelConfig, st: SentinelState, ok: bool)
    requires SentinelInv(cfg, st)
    ensures SentinelInv(cfg, SettleStep(st, ok))
    ensures SettleStep(st, ok).insights == st.insights && SettleStep(st, ok).snapshots == st.snapshots
  {
  }

  lemma TickKeepsInv(cfg: SentinelConfig, st: SentinelState, videoPresent: bool, readyState: int,
                     outcome: TickOutcome, mounted: bool, photo: string)
    requires SentinelInv(cfg, st)
    ensures var r := TickStep(cfg, st, videoPresent, readyState, outcome, mounted, photo);
      && SentinelInv(cfg, r)
      && r.phase == st.phase && r.error == st.error
      && st.insights <= r.insights && |r.insights| <= |st.insights| + 1
  {
    var r := TickStep(cfg, st, videoPresent, readyState, outcome, mounted, photo);
    if r.snapshots != [] && st.snapshots == [] {
      var insight := outcome.insight;
      assert r.insights[|r.insights| - 1].frameHash == r.snapshots[0].frameHash;
    } else if r.snapshots != [] {
      var i :| 0 <= i < |st.insights| && st.insights[i].frameHash == st.snapshots[0].frameHash;
      assert r.insights[i] == st.insights[i];
    }
  }

  lemma DisabledKeepsInv(cfg: SentinelConfig, st: SentinelState, disabled: bool)
    requires SentinelInv(cfg, st)
    ensures SentinelInv(cfg, DisabledStep(st, disabled))
    ensures DisabledStep(st, disabled).disabled == disabled
    ensures DisabledStep(st, disabled).insights == st.insights && DisabledStep(st, disabled).snapshots == st.snapshots
  {
  }

  lemma StepKeepsInv(cfg: SentinelConfig, st: SentinelState, op: SentinelOp)
    requires SentinelInv(cfg, st)
    ensures SentinelInv(cfg, SentinelStep(cfg, st, op))
    ensures FailedForGood(st) && op != DisabledOp(false) ==> FailedForGood(SentinelStep(cfg, st, op))
    ensures FailedForGood(st) ==> SentinelStep(cfg, st, op).insights == st.insights
  {
    match op
    case SettleOp(ok) => SettleKeepsInv(cfg, st, ok);
    case TickOp(v, r, o, m, p) => TickKeepsInv(cfg, st, v, r, o, m, p);
    case DisabledOp(d) => DisabledKeepsInv(cfg, st, d);
  }

  /** Every reachable state keeps the invariant. */
  lemma {:induction false} RunKeepsInv(cfg: SentinelConfig, st: SentinelState, ops: seq<SentinelOp>)
    requires SentinelInv(cfg, st)
    ensures SentinelInv(cfg, SentinelRun(cfg, st, ops))
    decreases |ops|
  {
    if ops != [] {
      StepKeepsInv(cfg, st, ops[0]);
      RunKeepsInv(cfg, SentinelStep(cfg, st, ops[0]), ops[1..]);
    }
  }

  /** A camera failure with no request in flight is final as long as the
      prop is not cleared again (which requests the camera anew): no
      further frame is forwarded. */
  lemma {:induction false} FailedIsFinal(cfg: SentinelConfig, st: SentinelState, ops: seq<SentinelOp>)
    requires SentinelInv(cfg, st) && FailedForGood(st)
    requires forall i :: 0 <= i < |ops| ==> ops[i] != DisabledOp(false)
    ensures FailedForGood(SentinelRun(cfg, st, ops))
    ensures SentinelRun(cfg, st, ops).insights == st.insights
    decreases |ops|
  {
    if ops != [] {
      StepKeepsInv(cfg, st, ops[0]);
      assert forall i :: 0 <= i < |ops[1..]| ==> ops[1..][i] == ops[i + 1];
      FailedIsFinal(cfg, SentinelStep(cfg, st, ops[0]), ops[1..]);
    }
  }

  /** Whatever the timer, the camera and the prop do, `onSnapshot` is
      called at most once per mount. */
  lemma SnapshotAtMostOnce(cfg: SentinelConfig, disabled: bool, ops: seq<SentinelOp>)
    ensures |SentinelRun(cfg, InitialSentinel(disabled), ops).snapshots| <= 1
  {
    InitialSentinelInv(cfg, disabled);
    RunKeepsInv(cfg, InitialSentinel(disabled), ops);
  }

  /** While the sentinel stays disabled nothing is forwarded: once the shell
      disables it (the session is no longer active), no later tick hands an
      insight to `onInsight` or a photo to `onSnapshot`, until the prop is
      cleared again. */
  lemma {:induction false} DisabledForwardsNothing(cfg: SentinelConfig, st: SentinelState, ops: seq<SentinelOp>)
    requires st.disabled
    requires forall i :: 0 <= i < |ops| ==> ops[i] != DisabledOp(false)
    ensures SentinelRun(cfg, st, ops).disabled
    ensures SentinelRun(cfg, st, ops).insights == st.insights
    ensures SentinelRun(cfg, st, ops).snapshots == st.snapshots
    decreases |ops|
  {
    if ops != [] {
      var next := SentinelStep(cfg, st, ops[0]);
      assert next.disabled && next.insights == st.insights && next.snapshots == st.snapshots;
      assert forall i :: 0 <= i < |ops[1..]| ==> ops[1..][i] == ops[i + 1];
      DisabledForwardsNothing(cfg, next, ops[1..]);
    }
  }

  /** Disabling the sentinel at any point cuts it off from then on. */
  lemma DisableStopsForwarding(cfg: SentinelConfig, st: SentinelState, ops: seq<SentinelOp>)
    requires forall i :: 0 <= i < |ops| ==> ops[i] != DisabledOp(false)
    ensures SentinelRun(cfg, SentinelRun(cfg, st, [DisabledOp(true)]), ops).insights == st.insights
    ensures SentinelRun(cfg, SentinelRun(cfg, st, [DisabledOp(true)]), ops).snapshots == st.snapshots
  {
    var off := DisabledStep(st, true);
    assert SentinelRun(cfg, st, [DisabledOp(true)]) == off by {
      assert [DisabledOp(true)][1..] == [];
    }
    DisabledForwardsNothing(cfg, off, ops);
  }

  /** The text of the status badge. */
  function StatusLabel(phase: Phase, error: Option<string>): (s: string)
    ensures phase == Initializing ==> s == "Initializing camera..."
    ensures phase == Tracking ==> s == "Camera tracking active"
    ensures phase == Failed ==> s == error.GetOr("Camera error")
  {
    match phase
    case Initializing => "Initializing camera..."
    case Tracking => "Camera tracking active"
    case Failed => error.GetOr("Camera error")
  }

  /** In every reachable state, a failed camera shows the failure message. */
  lemma FailedShowsMessage(cfg: SentinelConfig, st: SentinelState)
    requires SentinelInv(cfg, st) && st.phase == Failed
    ensures StatusLabel(st.phase, st.error) == CameraFailure
  {
  }

  /** What a classified frame makes the security hook register: absence
      exactly when no confident person was seen, a revoking device code
      exactly when a confident phone, remote or camera was seen, and
      obstruction exactly above the threshold. */
  lemma FrameViolations(ps: seq<Prediction>, obstructionScore: real, brightnessDelta: real, frameHash: string, now: int)
    ensures var codes := InsightCodes(EvaluateCameraFrame(ps, obstructionScore, brightnessDelta, frameHash, now));
      && (CAMERA_ABSENT in codes <==> forall i :: 0 <= i < |ps| ==> !IsPerson(ps[i]))
      && (EXTERNAL_CAMERA_DETECTED in codes <==> exists i :: 0 <= i < |ps| && IsDevice(ps[i]))
      && (CAMERA_OBSTRUCTED in codes <==> obstructionScore > ObstructionThreshold)
  {
    var c := EvaluateCameraFrame(ps, obstructionScore, brightnessDelta, frameHash, now);
    var a: seq<ViolationCode> := if c.externalDeviceDetected then [EXTERNAL_CAMERA_DETECTED] else [];
    var b: seq<ViolationCode> := if c.obstructionScore > ObstructionThreshold then [CAMERA_OBSTRUCTED] else [];
    var d: seq<ViolationCode> := if c.personsDetected == 0 then [CAMERA_ABSENT] else [];
    assert InsightCodes(c) == a + b + d;
  }

  class CameraSentinel {
    var disabled: bool
    const hasSnapshotHandler: bool
    var phase: Phase
    var lastInsight: Option<CameraInsight>
    var error: Option<string>
    var snapshotSent: bool
    var streamPending: bool
    var insights: seq<CameraInsight>
    var snapshots: seq<Snapshot>

    function Config(): SentinelConfig {
      SentinelConfig(hasSnapshotHandler)
    }

    function State(): SentinelState
      reads this
    {
      SentinelState(disabled, phase, lastInsight, error, snapshotSent, streamPending, insights, snapshots)
    }

    ghost predicate Valid()
      reads this
    {
      SentinelInv(Config(), State())
    }

    /** The first render and the mount effect. */
    constructor (disabled: bool, hasSnapshotHandler: bool)
      ensures Config() == SentinelConfig(hasSnapshotHandler)
      ensures State() == InitialSentinel(disabled)
      ensures Valid()
    {
      this.disabled := disabled;
      this.hasSnapshotHandler := hasSnapshotHandler;
      phase := Initializing;
      lastInsight := None;
      error := None;
      snapshotSent := false;
      streamPending := !disabled;
      insights := [];
      snapshots := [];
      InitialSentinelInv(SentinelConfig(hasSnapshotHandler), disabled);
    }

    /** The camera promise chain settled. */
    method OnStreamSettled(ok: bool)
      requires Valid()
      modifies this
      ensures State() == SettleStep(old(State()), ok)
      ensures Valid()
    {
      SettleKeepsInv(Config(), State(), ok);
      if streamPending {
        if ok {
          phase := Tracking;
        } else {
          phase := Failed;
          error := Some(CameraFailure);
        }
        streamPending := false;
      }
    }

    /** A re-render with a new `disabled` prop. */
    method SetDisabled(value: bool)
      requires Valid()
      modifies this
      ensures State() == DisabledStep(old(State()), value)
      ensures Valid()
    {
      DisabledKeepsInv(Config(), State(), value);
      if value != disabled {
        disabled := value;
        if !value {
          streamPending := true;
        }
      }
    }

    /** One run of the interval callback; `forwarded` is what it handed to
        `onInsight` and `snapshot` what it handed to `onSnapshot`. */
    method Tick(videoPresent: bool, readyState: int, outcome: TickOutcome, mounted: bool, photo: string)
      returns (forwarded: Option<CameraInsight>, snapshot: Option<Snapshot>)
      requires Valid()
      modifies this
      ensures State() == TickStep(Config(), old(State()), videoPresent, readyState, outcome, mounted, photo)
      ensures Valid()
      ensures forwarded.Some? <==> |insights| == |old(insights)| + 1
      ensures forwarded.Some? ==> insights == old(insights) + [forwarded.value]
      ensures snapshot.Some? <==> |snapshots| == |old(snapshots)| + 1
      ensures snapshot.Some? ==> snapshots == old(snapshots) + [snapshot.value]
    {
      TickKeepsInv(Config(), State(), videoPresent, readyState, outcome, mounted, photo);
      forwarded := None;
      snapshot := None;
      if disabled || !videoPresent || readyState < 2 || phase == Failed {
        return;
      }
      if outcome.EvalFailed? || !mounted {
        return;
      }
      var insight := outcome.insight;
      lastInsight := Some(insight);
      insights := insights + [insight];
      forwarded := Some(insight);
      if !snapshotSent && hasSnapshotHandler && photo != "" {
        snapshotSent := true;
        snapshot := Some(Snapshot(photo, insight.frameHash));
        snapshots := snapshots + [snapshot.value];
      }
    }
  }
}
