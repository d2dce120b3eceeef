/** The secure viewer shell of src/components/security/SecureViewerShell.tsx:
    the DevTools gap check that decides whether the document is shown, the
    mutation observer and the overlay watchdog that wipe the page, the
    fullscreen rule, the presence photo and geolocation reports, and the
    wiring between the security-session hook and the snapshot broker.

    The DOM wipe followed by a reload is recorded as a message appended to
    `wipes`; presence posts are appended to `presenceSent`. Browser events
    (resizes, mutation batches, fullscreen changes, geolocation answers and
    camera snapshots) arrive as method calls. */
module SecureViewer {
  import opened Common
  import opened Json
  import opened SecurityTypes
  import opened Snapshots
  import opened SecuritySessionHook

  const DomManipulation: string := "DOM manipulation detected. Session terminated."
  const BypassAttempt: string := "Attempted to bypass security controls. Session terminated."
  const ControlsCompromised: string := "Security controls compromised. Session terminated."
  const FullscreenExitKill: string := "Viewer exited secure fullscreen."
  const DevToolsGap: int := 200

  // ---------------------------------------------------------------------
  // What the shell renders

  datatype Screen = DevToolsBlocked | Initializing | Viewing

  /** The three render branches. The DOM watchdogs run exactly while the
      document itself is shown. */
  function ScreenFor(devToolsChecked: bool, devToolsOpen: bool): (s: Screen)
    ensures s == Viewing <==> devToolsChecked && !devToolsOpen
    ensures s == DevToolsBlocked <==> devToolsChecked && devToolsOpen
  {
    if devToolsChecked && devToolsOpen then DevToolsBlocked
    else if !devToolsChecked then Initializing
    else Viewing
  }

  /** `checkDevTools`: a window chrome wider or taller than 200 pixels. */
  predicate GapDetected(outerWidth: int, innerWidth: int, outerHeight: int, innerHeight: int) {
    outerWidth - innerWidth > DevToolsGap || outerHeight - innerHeight > DevToolsGap
  }

  /** `capturePhotoPolicy`: absent policies mean no presence photo. */
  function CapturePhotoPolicy(document: SecureDocument): (r: bool)
    ensures document.policies.None? ==> !r
    ensures document.policies.Some? ==> (r <==> document.policies.value.captureReaderPhoto)
  {
    document.policies.Some? && document.policies.value.captureReaderPhoto
  }

  /** `trackLocation`: absent policies mean no location tracking. */
  function TrackLocation(document: SecureDocument): (r: bool)
    ensures document.policies.None? ==> !r
    ensures document.policies.Some? ==> (r <==> document.policies.value.locationTracking)
  {
    document.policies.Some? && document.policies.value.locationTracking
  }

  // ---------------------------------------------------------------------
  // The mutation observer

  /** A node as a mutation record shows it: whether it is an element, its
      `data-security-overlay` value, and its inline display and visibility. */
  datatype DomNode = DomNode(isElement: bool, overlay: Option<string>, display: string, visibility: string)

  /** The observer watches child lists and the `style` and `class`
      attributes. */
  datatype MutationRecord =
    | ChildList(removedNodes: seq<DomNode>)
    | AttributeChange(attributeName: string, target: DomNode)

  /** A protected element: an element whose overlay marker is a non-empty
      string. */
  predicate IsOverlay(n: DomNode) {
    n.isElement && n.overlay.Some? && n.overlay.value != ""
  }

  /** Whether a removed-node list takes away a protected element. */
  predicate RemovesOverlay(removed: seq<DomNode>) {
    exists k :: 0 <= k < |removed| && IsOverlay(removed[k])
  }

  /** Whether a style change hides a protected element. */
  predicate HidesOverlay(attributeName: string, target: DomNode) {
    attributeName == "style" && IsOverlay(target) && (target.display == "none" || target.visibility == "hidden")
  }

  /** The verdict on a single mutation record. */
  function Verdict(m: MutationRecord): Option<string> {
    match m
    case ChildList(removed) => if RemovesOverlay(removed) then Some(DomManipulation) else None
    case AttributeChange(name, target) => if HidesOverlay(name, target) then Some(BypassAttempt) else None
  }

  /** The verdict on a batch: that of the first record that has one. */
  function BatchVerdict(ms: seq<MutationRecord>): Option<string> {
    if ms == [] then None
    else if Verdict(ms[0]).Some? then Verdict(ms[0])
    else BatchVerdict(ms[1..])
  }

  /** A batch is let through exactly when no record in it is suspicious,
      and otherwise it is judged by its first suspicious record. */
  lemma {:induction false} BatchVerdictFirst(ms: seq<MutationRecord>)
    ensures BatchVerdict(ms).None? <==> forall i :: 0 <= i < |ms| ==> Verdict(ms[i]).None?
    ensures BatchVerdict(ms).Some? ==>
      exists i :: 0 <= i < |ms| && BatchVerdict(ms) == Verdict(ms[i])
                  && forall j :: 0 <= j < i ==> Verdict(ms[j]).None?
    ensures BatchVerdict(ms).Some? ==> BatchVerdict(ms).value in {DomManipulation, BypassAttempt}
  {
    if ms != [] {
      BatchVerdictFirst(ms[1..]);
      if Verdict(ms[0]).None? {
        assert forall i :: 1 <= i < |ms| ==> ms[i] == ms[1..][i - 1];
        if BatchVerdict(ms).Some? {
          var i :| 0 <= i < |ms[1..]| && BatchVerdict(ms[1..]) == Verdict(ms[1..][i])
                   && forall j :: 0 <= j < i ==> Verdict(ms[1..][j]).None?;
          assert BatchVerdict(ms) == Verdict(ms[i + 1]);
          forall j | 0 <= j < i + 1 ensures Verdict(ms[j]).None? {
            if j > 0 { assert ms[j] == ms[1..][j - 1]; }
          }
        }
      }
    }
  }

  /** `mutationCallback`: scans the records in order, and the removed nodes
      of each in order, stopping at the first protected element removed or
      hidden. */
  method ScanMutations(ms: seq<MutationRecord>) returns (reason: Option<string>)
    ensures reason == BatchVerdict(ms)
  {
    var i := 0;
    while i < |ms|
      invariant 0 <= i <= |ms|
      invariant BatchVerdict(ms) == BatchVerdict(ms[i..])
    {
      assert ms[i..][0] == ms[i] && ms[i..][1..] == ms[i + 1..];
      var m := ms[i];
      if m.ChildList? {
        var j := 0;
        while j < |m.removedNodes|
          invariant 0 <= j <= |m.removedNodes|
          invariant forall k :: 0 <= k < j ==> !IsOverlay(m.removedNodes[k])
        {
          if IsOverlay(m.removedNodes[j]) {
            return Some(DomManipulation);
          }
          j := j + 1;
        }
      }
      if m.AttributeChange? && m.attributeName == "style" {
        if IsOverlay(m.target) && (m.target.display == "none" || m.target.visibility == "hidden") {
          return Some(BypassAttempt);
        }
      }
      i := i + 1;
    }
    assert ms[i..] == [];
    return None;
  }

  // ---------------------------------------------------------------------
  // Evidence and presence

  /** `captureViolationEvidence` once the snapshot has come back: nothing
      without a snapshot or without a non-empty photo, otherwise the photo,
      its hash and the last known location. */
  function CaptureViolationEvidence(snapshot: Option<SnapshotResult>, lastLocation: Option<ReaderLocation>): (e: Option<Evidence>)
    ensures e.None? <==> snapshot.None? || snapshot.value.photo.None? || snapshot.value.photo.value == ""
    ensures e.Some? ==> e.value.photo == snapshot.value.photo
                        && e.value.frameHash == Some(snapshot.value.frameHash)
                        && e.value.location == lastLocation
  {
    if snapshot.None? || snapshot.value.photo.None? || snapshot.value.photo.value == "" then None
    else Some(Evidence(snapshot.value.photo, Some(snapshot.value.frameHash), lastLocation))
  }

  /** Evidence the shell hands back always carries a photo, so the hook
      attaches it exactly when the camera delivered a non-empty photo. */
  lemma EvidenceAttachesIffPhoto(snapshot: SnapshotResult, lastLocation: Option<ReaderLocation>)
    ensures HasPhoto(CaptureViolationEvidence(Some(snapshot), lastLocation))
            <==> snapshot.photo.Some? && snapshot.photo.value != ""
  {
  }

  /** The body of a `/api/presence` post. */
  datatype PresencePost = PresencePost(
    documentId: string,
    photo: Option<string>,
    frameHash: Option<string>,
    location: Option<ReaderLocation>,
    reason: string)

  /** `sendPresence`: an explicit location wins over the last known one. */
  function PresenceBody(documentId: string, photo: Option<string>, frameHash: Option<string>,
                        location: Option<ReaderLocation>, lastLocation: Option<ReaderLocation>,
                        reason: string): PresencePost {
    PresencePost(documentId, photo, frameHash, if location.Some? then location else lastLocation, reason)
  }

  /** What the geolocation request answers. */
  datatype GeoOutcome =
    | GeoUnavailable
    | GeoPosition(lat: real, lon: real, accuracy: real, capturedAt: int)
    | GeoDenied

  // ---------------------------------------------------------------------
  // Routing the hook's evidence requests into the broker

  /** The broker, the violation each snapshot ticket was asked for, and the
      number of directive ids used so far. */
  datatype Routing = Routing(broker: BrokerState, evidenceFor: map<nat, (ViolationEvent, Option<Context>)>, minted: nat)

  predicate AsksEvidence(o: Outbound) { o.EvidenceRequest? }

  /** One outbound entry of the hook: an evidence request becomes a
      violation snapshot request; anything else leaves the broker alone. */
  function RouteOne(r: Routing, o: Outbound, mintDirective: nat -> string): Routing {
    if o.EvidenceRequest? then
      var (b, t) := RequestStep(r.broker, ViolationShot, None, mintDirective(r.minted));
      Routing(b, r.evidenceFor[t := (o.violation, o.context)], r.minted + 1)
    else r
  }

  function RouteAll(r: Routing, out: seq<Outbound>, mintDirective: nat -> string): Routing
    decreases |out|
  {
    if out == [] then r
    else RouteOne(RouteAll(r, out[..|out| - 1], mintDirective), out[|out| - 1], mintDirective)
  }

  lemma RouteOneEffects(r: Routing, o: Outbound, mintDirective: nat -> string)
    requires Fifo(r.broker)
    ensures var q := RouteOne(r, o, mintDirective);
      && Fifo(q.broker)
      && q.broker.resolved == r.broker.resolved
      && |q.broker.submitted| == |r.broker.submitted| + (if o.EvidenceRequest? then 1 else 0)
      && q.minted == r.minted + (if o.EvidenceRequest? then 1 else 0)
      && (o.EvidenceRequest? ==> q.evidenceFor[|r.broker.submitted|] == (o.violation, o.context))
  {
    if o.EvidenceRequest? {
      RequestKeepsFifo(r.broker, ViolationShot, None, mintDirective(r.minted));
    }
  }

  /** Every evidence request of the hook becomes exactly one snapshot
      request, none is settled on the way, and the broker stays FIFO. */
  lemma {:induction false} RouteAllEffects(r: Routing, out: seq<Outbound>, mintDirective: nat -> string)
    requires Fifo(r.broker)
    ensures var q := RouteAll(r, out, mintDirective);
      && Fifo(q.broker)
      && q.broker.resolved == r.broker.resolved
      && |q.broker.submitted| == |r.broker.submitted| + Count(out, AsksEvidence)
      && q.minted == r.minted + Count(out, AsksEvidence)
    decreases |out|
  {
    if out != [] {
      var init := out[..|out| - 1];
      var last := out[|out| - 1];
      RouteAllEffects(r, init, mintDirective);
      RouteOneEffects(RouteAll(r, init, mintDirective), last, mintDirective);
      assert out == init + [last];
      CountAppend(init, [last], AsksEvidence);
      CountOne(last, AsksEvidence);
    }
  }

  /** Entries that are not evidence requests route to nothing. */
  lemma {:induction false} RouteAllNoEvidence(r: Routing, out: seq<Outbound>, mintDirective: nat -> string)
    requires forall i :: 0 <= i < |out| ==> !out[i].EvidenceRequest?
    ensures RouteAll(r, out, mintDirective) == r
    decreases |out|
  {
    if out != [] {
      RouteAllNoEvidence(r, out[..|out| - 1], mintDirective);
    }
  }

  /** Leaving fullscreen is a POLICY_BREACH: a HIGH violation, reported
      once, that ends the session only on a MAXIMUM document. */
  lemma FullscreenExitRecorded(cfg: HookConfig, st: HookState, now: int)
    requires Consistent(cfg, st)
    ensures var (r, v) := RegisterViolationStep(cfg, st, POLICY_BREACH, Some(ReasonContext("fullscreen_exit")), now);
      && r.violations[0] == v && v.code == POLICY_BREACH && v.severity == SevHigh
      && Codes(r.outbox) == Codes(st.outbox) + [POLICY_BREACH]
      && (cfg.document.permissions.securityLevel == MAXIMUM ==> !r.session.active)
      && (cfg.document.permissions.securityLevel != MAXIMUM ==> r.session == st.session)
  {
    RegisterViolationEffects(cfg, st, POLICY_BREACH, Some(ReasonContext("fullscreen_exit")), now);
  }

  // ---------------------------------------------------------------------
  // The shell as an object

  class ViewerShell {
    const document: SecureDocument
    const hook: SecuritySession
    const broker: SnapshotBroker
    /** `crypto.randomUUID` for snapshot directives. */
    const mintDirective: nat -> string
    var directivesMinted: nat
    var devToolsOpen: bool
    var devToolsChecked: bool
    var fullscreenPrompt: bool
    var cameraObstructed: bool
    var lastLocation: Option<ReaderLocation>
    var presenceSent: seq<PresencePost>
    /** Messages the page was wiped with before a reload. */
    var wipes: seq<string>
    /** How much of the hook's outbox has been routed. */
    var forwarded: nat
    var evidenceFor: map<nat, (ViolationEvent, Option<Context>)>
    var presenceTicket: Option<nat>
    var presenceCancelled: bool

    function Routes(): Routing
      reads this`evidenceFor, this`directivesMinted, broker
    {
      Routing(broker.State(), evidenceFor, directivesMinted)
    }

    /** Both parts keep their invariants and every evidence request the
        hook has made was turned into a snapshot request. */
    ghost predicate Valid()
      reads this`forwarded, hook, broker
    {
      hook.Valid() && broker.Valid() && forwarded == |hook.outbox|
    }

    constructor(document: SecureDocument, viewer: ViewerProfile, initialSession: SessionStatus,
                mint: nat -> string, mintDirective: nat -> string)
      ensures Valid()
      ensures hook.config == HookConfig(document, viewer, true, mint)
      ensures hook.State() == Initial(hook.config, initialSession)
      ensures broker.State() == Empty
      ensures this.document == document && this.mintDirective == mintDirective
      ensures !devToolsOpen && !devToolsChecked && !fullscreenPrompt && !cameraObstructed
      ensures lastLocation.None? && presenceSent == [] && wipes == [] && evidenceFor == map[]
      ensures presenceTicket.None? && !presenceCancelled && directivesMinted == 0
    {
      this.document := document;
      this.mintDirective := mintDirective;
      hook := new SecuritySession(document, viewer, initialSession, true, mint);
      broker := new SnapshotBroker();
      directivesMinted := 0;
      devToolsOpen := false;
      devToolsChecked := false;
      fullscreenPrompt := false;
      cameraObstructed := false;
      lastLocation := None;
      presenceSent := [];
      wipes := [];
      forwarded := 0;
      evidenceFor := map[];
      presenceTicket := None;
      presenceCancelled := false;
    }

    function CurrentScreen(): Screen
      reads this
    {
      ScreenFor(devToolsChecked, devToolsOpen)
    }

    /** `checkDevTools`, run on mount and again 100 ms later: a wide gap
        latches the blocking screen, and nothing ever unlatches it. */
    method CheckDevTools(outerWidth: int, innerWidth: int, outerHeight: int, innerHeight: int)
      modifies this
      ensures devToolsOpen == (old(devToolsOpen) || GapDetected(outerWidth, innerWidth, outerHeight, innerHeight))
      ensures devToolsChecked
      ensures old(CurrentScreen()) == DevToolsBlocked ==> CurrentScreen() == DevToolsBlocked
      ensures unchanged(this`fullscreenPrompt, this`cameraObstructed, this`lastLocation, this`presenceSent, this`wipes)
      ensures unchanged(this`forwarded, this`evidenceFor, this`presenceTicket, this`presenceCancelled, this`directivesMinted)
    {
      var widthGap := outerWidth - innerWidth;
      var heightGap := outerHeight - innerHeight;
      if widthGap > DevToolsGap || heightGap > DevToolsGap {
        devToolsOpen := true;
      }
      devToolsChecked := true;
    }

    /** The mutation observer, installed only while the document is shown:
        a suspicious record wipes the page with the matching message. */
    method OnMutations(ms: seq<MutationRecord>)
      modifies this
      ensures CurrentScreen() != Viewing || BatchVerdict(ms).None? ==> wipes == old(wipes)
      ensures CurrentScreen() == Viewing && BatchVerdict(ms).Some? ==> wipes == old(wipes) + [BatchVerdict(ms).value]
      ensures unchanged(this`devToolsOpen, this`devToolsChecked, this`fullscreenPrompt, this`cameraObstructed)
      ensures unchanged(this`lastLocation, this`presenceSent, this`forwarded, this`evidenceFor)
      ensures unchanged(this`presenceTicket, this`presenceCancelled, this`directivesMinted)
    {
      if !devToolsChecked || devToolsOpen {
        return;
      }
      var reason := ScanMutations(ms);
      if reason.Some? {
        wipes := wipes + [reason.value];
      }
    }

    /** The one-second overlay check, also only while the document is
        shown: no protected element left while the camera is obstructed. */
    method VerifyTick(overlayCount: nat)
      modifies this
      ensures wipes == old(wipes) + (if CurrentScreen() == Viewing && overlayCount == 0 && cameraObstructed
                                     then [ControlsCompromised] else [])
      ensures unchanged(this`devToolsOpen, this`devToolsChecked, this`fullscreenPrompt, this`cameraObstructed)
      ensures unchanged(this`lastLocation, this`presenceSent, this`forwarded, this`evidenceFor)
      ensures unchanged(this`presenceTicket, this`presenceCancelled, this`directivesMinted)
    {
      if !devToolsChecked || devToolsOpen {
        return;
      }
      if overlayCount == 0 && cameraObstructed {
        wipes := wipes + [ControlsCompromised];
      }
    }

    /** Routes what the hook appended to its outbox since the last call. */
    method Forward()
      modifies this`forwarded, this`evidenceFor, this`directivesMinted, broker
      requires hook.Valid() && broker.Valid() && forwarded <= |hook.outbox|
      ensures Valid()
      ensures Routes() == RouteAll(old(Routes()), hook.outbox[old(forwarded)..], mintDirective)
    {
      ghost var r0 := Routes();
      ghost var f0 := forwarded;
      while forwarded < |hook.outbox|
        invariant f0 <= forwarded <= |hook.outbox|
        invariant broker.Valid()
        invariant Routes() == RouteAll(r0, hook.outbox[f0..forwarded], mintDirective)
        decreases |hook.outbox| - forwarded
      {
        assert hook.outbox[f0..forwarded + 1] == hook.outbox[f0..forwarded] + [hook.outbox[forwarded]];
        ForwardOne();
      }
      assert hook.outbox[f0..forwarded] == hook.outbox[f0..];
    }

    /** Routes the next unrouted entry of the hook's outbox. */
    method ForwardOne()
      modifies this`forwarded, this`evidenceFor, this`directivesMinted, broker
      requires broker.Valid() && forwarded < |hook.outbox|
      ensures broker.Valid()
      ensures forwarded == old(forwarded) + 1
      ensures Routes() == RouteOne(old(Routes()), hook.outbox[old(forwarded)], mintDirective)
    {
      var o := hook.outbox[forwarded];
      if o.EvidenceRequest? {
        var t := broker.RequestSnapshot(ViolationShot, None, mintDirective(directivesMinted));
        evidenceFor := evidenceFor[t := (o.violation, o.context)];
        directivesMinted := directivesMinted + 1;
      }
      forwarded := forwarded + 1;
    }

    /** `registerViolation` as the screen shield calls it. */
    method OnViolation(code: ViolationCode, context: Option<Context>, now: int)
      modifies this`forwarded, this`evidenceFor, this`directivesMinted, hook, broker
      requires Valid()
      ensures Valid()
      ensures hook.State() == Step(hook.config, old(hook.State()), RegisterOp(code, context, now))
      ensures old(hook.outbox) <= hook.outbox
      ensures Routes() == RouteAll(old(Routes()), hook.outbox[old(forwarded)..], mintDirective)
    {
      ghost var s0 := hook.State();
      var _ := hook.RegisterViolation(code, context, now);
      StepEffects(hook.config, s0, RegisterOp(code, context, now));
      Forward();
    }

    /** `handleFocusChange` as the screen shield calls it. */
    method OnFocusChange(hasFocus: bool, now: int)
      modifies this`forwarded, this`evidenceFor, this`directivesMinted, hook, broker
      requires Valid()
      ensures Valid()
      ensures hook.State() == Step(hook.config, old(hook.State()), FocusOp(hasFocus, now))
      ensures old(hook.outbox) <= hook.outbox
      ensures Routes() == RouteAll(old(Routes()), hook.outbox[old(forwarded)..], mintDirective)
    {
      ghost var s0 := hook.State();
      hook.HandleFocusChange(hasFocus, now);
      StepEffects(hook.config, s0, FocusOp(hasFocus, now));
      Forward();
    }

    /** `onInsight`: the hook's `updateCameraInsight`, whose obstruction
        verdict drives the obstruction overlay. */
    method OnInsight(insight: CameraInsight, now: int)
      modifies this`forwarded, this`evidenceFor, this`directivesMinted, this`cameraObstructed, hook, broker
      requires Valid()
      ensures Valid()
      ensures hook.State() == UpdateCameraInsightStep(hook.config, old(hook.State()), insight, now).0
      ensures cameraObstructed <==> insight.obstructionScore > ObstructionThreshold
      ensures old(hook.outbox) <= hook.outbox
      ensures Routes() == RouteAll(old(Routes()), hook.outbox[old(forwarded)..], mintDirective)
    {
      ghost var s0 := hook.State();
      var obstructed := hook.UpdateCameraInsight(insight, now);
      UpdateCameraInsightAppends(hook.config, s0, insight, now);
      Forward();
      cameraObstructed := obstructed;
    }

    /** The hook's heartbeat interval. */
    method HeartbeatTick(now: int)
      modifies this`forwarded, this`evidenceFor, this`directivesMinted, hook, broker
      requires Valid()
      ensures Valid()
      ensures hook.State() == Step(hook.config, old(hook.State()), HeartbeatOp(now))
      ensures old(hook.outbox) <= hook.outbox
      ensures Routes() == RouteAll(old(Routes()), hook.outbox[old(forwarded)..], mintDirective)
    {
      ghost var s0 := hook.State();
      hook.HeartbeatTick(now);
      StepEffects(hook.config, s0, HeartbeatOp(now));
      Forward();
    }

    /** `enforce`, on every `fullscreenchange`: leaving fullscreen shows the
        prompt and registers a POLICY_BREACH; coming back only hides it. */
    method OnFullscreenChange(inFullscreen: bool, now: int)
      modifies this`forwarded, this`evidenceFor, this`directivesMinted, this`fullscreenPrompt, hook, broker
      requires Valid()
      ensures Valid()
      ensures fullscreenPrompt == !inFullscreen
      ensures inFullscreen ==> hook.State() == old(hook.State()) && Routes() == old(Routes())
      ensures !inFullscreen ==>
        hook.State() == Step(hook.config, old(hook.State()), RegisterOp(POLICY_BREACH, Some(ReasonContext("fullscreen_exit")), now))
      ensures old(hook.outbox) <= hook.outbox
      ensures Routes() == RouteAll(old(Routes()), hook.outbox[old(forwarded)..], mintDirective)
    {
      if !inFullscreen {
        LeaveFullscreen(now);
      } else {
        fullscreenPrompt := false;
        assert hook.outbox[forwarded..] == [];
      }
    }

    /** The exit branch of `enforce`: the prompt shows and a POLICY_BREACH
        with reason `fullscreen_exit` is registered. */
    method LeaveFullscreen(now: int)
      modifies this`forwarded, this`evidenceFor, this`directivesMinted, this`fullscreenPrompt, hook, broker
      requires Valid()
      ensures Valid()
      ensures fullscreenPrompt
      ensures hook.State() == Step(hook.config, old(hook.State()), RegisterOp(POLICY_BREACH, Some(ReasonContext("fullscreen_exit")), now))
      ensures old(hook.outbox) <= hook.outbox
      ensures Routes() == RouteAll(old(Routes()), hook.outbox[old(forwarded)..], mintDirective)
    {
      OnViolation(POLICY_BREACH, Some(ReasonContext("fullscreen_exit")), now);
      fullscreenPrompt := true;
    }

    /** `requestFullscreen`: the prompt shows exactly when the request was
        refused. */
    method OnFullscreenRequest(granted: bool)
      modifies this
      ensures fullscreenPrompt == !granted
      ensures unchanged(this`devToolsOpen, this`devToolsChecked, this`cameraObstructed, this`lastLocation)
      ensures unchanged(this`presenceSent, this`wipes, this`forwarded, this`evidenceFor)
      ensures unchanged(this`presenceTicket, this`presenceCancelled, this`directivesMinted)
    {
      fullscreenPrompt := !granted;
    }

    /** The "Close document" button of the fullscreen prompt. */
    method CloseDocument(now: int)
      modifies this`forwarded, this`evidenceFor, this`directivesMinted, hook, broker
      requires Valid()
      ensures Valid()
      ensures hook.State() == Step(hook.config, old(hook.State()), KillOp(FullscreenExitKill, now))
      ensures Routes() == old(Routes())
    {
      ghost var s0 := hook.State();
      hook.KillSession(FullscreenExitKill, now);
      KillSessionEffects(hook.config, s0, FullscreenExitKill, now);
      ghost var added := hook.outbox[forwarded..];
      assert added == KillRequests(hook.config, FullscreenExitKill);
      RouteAllNoEvidence(Routes(), added, mintDirective);
      Forward();
    }

    /** The presence-photo effect: one presence snapshot is requested on
        mount, and only when the document's policy asks for it. */
    method StartPresence()
      modifies this, broker
      requires Valid()
      ensures Valid()
      ensures CapturePhotoPolicy(document) ==>
        && presenceTicket.Some?
        && (broker.State(), presenceTicket.value) == RequestStep(old(broker.State()), PresenceShot, None, mintDirective(old(directivesMinted)))
        && directivesMinted == old(directivesMinted) + 1
      ensures !CapturePhotoPolicy(document) ==>
        broker.State() == old(broker.State()) && presenceTicket == old(presenceTicket) && directivesMinted == old(directivesMinted)
      ensures unchanged(this`devToolsOpen, this`devToolsChecked, this`fullscreenPrompt, this`cameraObstructed)
      ensures unchanged(this`lastLocation, this`presenceSent, this`wipes, this`forwarded, this`evidenceFor)
      ensures unchanged(this`presenceCancelled)
    {
      if !CapturePhotoPolicy(document) {
        return;
      }
      var t := broker.RequestSnapshot(PresenceShot, None, mintDirective(directivesMinted));
      directivesMinted := directivesMinted + 1;
      presenceTicket := Some(t);
    }

    /** The presence effect's cleanup: a later presence photo is dropped. */
    method CancelPresence()
      modifies this
      ensures presenceCancelled
      ensures unchanged(this`devToolsOpen, this`devToolsChecked, this`fullscreenPrompt, this`cameraObstructed)
      ensures unchanged(this`lastLocation, this`presenceSent, this`wipes, this`forwarded, this`evidenceFor)
      ensures unchanged(this`presenceTicket, this`directivesMinted)
    {
      presenceCancelled := true;
    }

    /** The geolocation effect, only when the policy tracks location: a
        position becomes the last known location and is posted; otherwise
        the failure is posted with whatever location was known. */
    method OnGeolocation(outcome: GeoOutcome)
      modifies this
      ensures !TrackLocation(document) ==> presenceSent == old(presenceSent) && lastLocation == old(lastLocation)
      ensures TrackLocation(document) ==> match outcome
        case GeoUnavailable =>
          && lastLocation == old(lastLocation)
          && presenceSent == old(presenceSent) + [PresencePost(document.documentId, None, None, old(lastLocation), "geolocation_unavailable")]
        case GeoDenied =>
          && lastLocation == old(lastLocation)
          && presenceSent == old(presenceSent) + [PresencePost(document.documentId, None, None, old(lastLocation), "geolocation_denied")]
        case GeoPosition(lat, lon, accuracy, capturedAt) =>
          && lastLocation == Some(ReaderLocation(lat, lon, Some(accuracy), capturedAt))
          && presenceSent == old(presenceSent) + [PresencePost(document.documentId, None, None, lastLocation, "geolocation")]
      ensures unchanged(this`devToolsOpen, this`devToolsChecked, this`fullscreenPrompt, this`cameraObstructed)
      ensures unchanged(this`wipes, this`forwarded, this`evidenceFor, this`presenceTicket)
      ensures unchanged(this`presenceCancelled, this`directivesMinted)
    {
      if !TrackLocation(document) {
        return;
      }
      match outcome
      case GeoUnavailable =>
        presenceSent := presenceSent + [PresenceBody(document.documentId, None, None, None, lastLocation, "geolocation_unavailable")];
      case GeoDenied =>
        presenceSent := presenceSent + [PresenceBody(document.documentId, None, None, None, lastLocation, "geolocation_denied")];
      case GeoPosition(lat, lon, accuracy, capturedAt) =>
        var location := ReaderLocation(lat, lon, Some(accuracy), capturedAt);
        lastLocation := Some(location);
        presenceSent := presenceSent + [PresenceBody(document.documentId, None, None, Some(location), lastLocation, "geolocation")];
    }

    /** `handleSnapshot` with the camera's photo and hash (the camera hands
        back no directive), followed by the continuation of the request it
        settled: the presence post, or the violation evidence attached
        through the hook. */
    method OnSnapshot(photo: Option<string>, frameHash: string)
      modifies this`presenceSent, this`forwarded, this`evidenceFor, hook, broker
      requires Valid()
      ensures Valid()
      ensures broker.State() == HandleSnapshotStep(old(broker.State()), photo, frameHash, None)
      ensures var t := old(broker.resolverSlot);
        var result := SnapshotResult(photo, frameHash, None);
        && (t.Some? && old(presenceTicket) == t ==>
              && hook.State() == old(hook.State())
              && presenceSent == old(presenceSent) +
                   (if !presenceCancelled && photo.Some? && photo.value != ""
                    then [PresencePost(document.documentId, photo, Some(frameHash), lastLocation, "presence_photo")]
                    else []))
        && (t.Some? && old(presenceTicket) != t && t.value in old(evidenceFor) ==>
              && presenceSent == old(presenceSent)
              && hook.State() == Step(hook.config, old(hook.State()),
                   EvidenceOp(old(evidenceFor)[t.value].0, old(evidenceFor)[t.value].1,
                              Resolved(CaptureViolationEvidence(Some(result), lastLocation)))))
        && (t.None? || (old(presenceTicket) != t && t.value !in old(evidenceFor)) ==>
              hook.State() == old(hook.State()) && presenceSent == old(presenceSent))
      ensures evidenceFor == if old(broker.resolverSlot).Some? then old(evidenceFor) - {old(broker.resolverSlot).value} else old(evidenceFor)
    {
      var t := broker.resolverSlot;
      broker.HandleSnapshot(photo, frameHash, None);
      if t.None? {
        return;
      }
      var result := SnapshotResult(photo, frameHash, None);
      if presenceTicket == t {
        SettlePresence(photo, frameHash);
      } else if t.value in evidenceFor {
        var (violation, context) := evidenceFor[t.value];
        DeliverEvidence(violation, context, CaptureViolationEvidence(Some(result), lastLocation));
      }
      evidenceFor := evidenceFor - {t.value};
    }

    /** The presence continuation of a settled presence request: a
        non-empty photo is posted unless the effect was cleaned up. */
    method SettlePresence(photo: Option<string>, frameHash: string)
      modifies this`presenceSent
      ensures presenceSent == old(presenceSent) +
        (if !presenceCancelled && photo.Some? && photo.value != ""
         then [PresencePost(document.documentId, photo, Some(frameHash), lastLocation, "presence_photo")]
         else [])
    {
      if !presenceCancelled && photo.Some? && photo.value != "" {
        presenceSent := presenceSent + [PresenceBody(document.documentId, photo, Some(frameHash), None, lastLocation, "presence_photo")];
      }
    }

    /** The violation continuation of a settled evidence request: the
        evidence goes to the hook, whose notice is routed. */
    method DeliverEvidence(violation: ViolationEvent, context: Option<Context>, evidence: Option<Evidence>)
      modifies this`forwarded, hook
      requires Valid()
      ensures Valid()
      ensures hook.State() == Step(hook.config, old(hook.State()), EvidenceOp(violation, context, Resolved(evidence)))
      ensures Routes() == RouteAll(old(Routes()), hook.outbox[old(forwarded)..], mintDirective)
    {
      ghost var s0 := hook.State();
      hook.AttachEvidence(violation, context, Resolved(evidence));
      AttachEvidenceEffects(hook.config, s0, violation, context, Resolved(evidence));
      ghost var notice := EvidenceNotice(hook.config, violation, context, Resolved(evidence));
      assert hook.outbox == s0.outbox + [notice];
      assert hook.outbox[forwarded..] == [notice];
      RouteAllNoEvidence(Routes(), [notice], mintDirective);
      forwarded := |hook.outbox|;
    }
  }
}
