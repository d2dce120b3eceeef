# Secure document viewer: a Dafny model

This project models the enforcement core of the secure-document application.
An owner uploads a document protected by a one-time code. A reader who types
the code gets a time-limited viewing session. While the document is open, the
browser watches the screen, the keyboard, focus, developer tools and the
camera. Every breach is recorded, and some breaches revoke the session and
lock the document. The server keeps session records, fans system events out
to the owner's live console, and guards its pages and routes by role.

The Dafny modules follow the source files:

- `SecurityTypes`, `SessionRecords`, `ViolationText` and `Watermark` cover the
  record types and enumerations, the record constructors, the revocation rule,
  the violation descriptions and the watermark with its countdown. These are
  pure functions with lemmas.
- `SecuritySessionHook` is the client security session: each operation is a
  state-transition function with its invariants. The class `SecuritySession`
  updates fields step by step, and each method is proved to land in the state
  its function describes.
- `Snapshots` and `SecureViewer` cover the viewer shell. They include the FIFO
  snapshot broker with its single active slot, the developer-tools gap latch,
  the mutation and overlay watchdog, evidence capture, and the fullscreen and
  presence rules.
- `ScreenGuards`, `CameraFrames` and `Sentinel` cover the signal sources:
  - window and keyboard handlers with their focus and developer-tools latches;
  - the screen-share title test;
  - prediction filtering and near-black pixel counting;
  - the camera sentinel's sampling tick and its snapshot-once latch.
- `EventBus` and `EventStreams` cover the process-wide emitter, subscription
  and fan-out, and the server-sent event stream with its idempotent cleanup.
- `DocumentService` covers the server records. The JSON files are a listing
  and a token-keyed map in the class `SessionStore`. It also holds the mutator
  bodies and the reader-identity listing, which is filtered, trimmed and
  sorted newest first.
- `ApiRoutes` covers the request handlers for identity capture, code
  verification, presence, violations, logs, revocation and documents: their
  guard order, defaults and effects on the store.
- `Middleware` is the page guard and its route matcher. `AuthSession` writes
  and reads the login cookie.
- `SessionHud`, `FileViewer`, `OwnerDashboard` and `ReadersPanel` are the
  client panels: countdown and status line, file-type inference and preview
  mode, the live-event feed, and grouping readers by document.

`Common`, `Text` and `Json` are shared helpers:

- an optional value;
- ASCII string operations standing in for the JavaScript string methods;
- JSON values with the JavaScript coercions the handlers apply.

Clock readings, ids (`nanoid`, `crypto.randomUUID`), detector predictions and
JSON web token verification are parameters.

Fire-and-forget requests are not performed; they are recorded:

- the monitoring notifier's posts and the revoke, lock and evidence fetches
  are appended to an outbox;
- events handed to `emitSystemEvent` are appended to `emitted`.

Timers are explicit tick methods.

Behaviours of the code worth knowing before reading the contracts:

- `killSession` (src/hooks/useSecuritySession.ts:80-95) has no guard. A
  second call on a revoked session appends another `SESSION_REVOKED` entry
  and another revoke request; `KillSessionEffects` states this.
- `CameraSentinel` takes no snapshot directive. Its `onSnapshot` passes a
  photo and a frame hash, so the broker resolves requests with no directive.
  Because of the sentinel's latch, at most one snapshot is delivered per
  mount. The broker's safety properties (FIFO order, at most one request in
  flight) are proved; no liveness is claimed.
- In the event stream, a failure to enqueue `READY` runs `cleanup` before the
  handler subscribes and the heartbeat starts. Both are then installed on a
  closed stream and never removed. `EventStreams.EventStream.constructor`
  states exactly this.

## Model

| member | source | states |
|---|---|---|
| SecurityTypes.SecurityLevelsExact | src/lib/types/security.ts:1-2 | the level list has exactly the four levels LOW, MEDIUM, HIGH, MAXIMUM, each once, so every level is listed |
| SecurityTypes.ViolationCodesExact | src/lib/types/security.ts:4-21 | the code list has exactly the 15 codes, each once, and every code is listed |
| SecurityTypes.LogEventsExact | src/lib/types/security.ts:73-82 | the activity-log event list has exactly the 9 events, each once |
| SessionRecords.CreateSession | src/lib/security/session.ts:10-29 | the session starts at the given time; it expires `maxSessionMinutes*60000` ms after the start when that is positive, else 30 minutes after the second clock reading; it is active, not focus-lost, not identity-verified, with heartbeat 5000 ms, and copies the document and viewer ids |
| SessionRecords.SessionEndsAfterStart | src/lib/security/session.ts:12-15 | when the clock does not run back, a new session expires at least a minute after it started, so strictly after |
| SessionRecords.CreateLog | src/lib/security/session.ts:31-45 | the entry copies documentId, viewerId, event and context unchanged, with the minted id and the current time |
| SessionRecords.CreateViolation | src/lib/security/session.ts:47-61 | severity defaults to HIGH; code, description and evidenceUrl are copied unchanged |
| SessionRecords.ShouldRevokeSession | src/lib/security/session.ts:63-76 | revokes exactly when the code is EXTERNAL_CAMERA_DETECTED, or the level is MAXIMUM, or the severity is CRITICAL |
| SessionRecords.ExternalCameraAlwaysRevokes | src/lib/security/session.ts:67-69 | an external camera revokes at every security level |
| SessionRecords.MaximumRevokesEverything | src/lib/security/session.ts:71-73 | at level MAXIMUM every violation revokes |
| SessionRecords.BelowMaximumOnlyCriticalRevokes | src/lib/security/session.ts:75 | below MAXIMUM, and for any code except an external camera, revocation happens exactly for CRITICAL; a HIGH violation never revokes |
| ViolationText.ReadableViolation | src/lib/security/events.ts:20-22 | a mapped code yields its description, an unmapped code its own name, and the text is never empty |
| ViolationText.OnlyDevtoolsAttemptUnmapped | src/lib/security/events.ts:3-18 | DEVTOOLS_ATTEMPT is the only code without a description and reads as its own name; EXTERNAL_CAMERA_DETECTED reads "External phone or camera aimed at the screen." |
| Watermark.CountdownMinutes | src/lib/security/watermark.ts:14-17 | the minutes m satisfy `m*60000 <= max(0, expiresAt-now) < (m+1)*60000`, i.e. the floor of the clamped remaining time |
| Watermark.CountdownMonotone | src/lib/security/watermark.ts:14-17 | the countdown never grows as `now` advances |
| Watermark.CountdownZeroAfterExpiry | src/lib/security/watermark.ts:14-17 | at or after expiry the countdown is 0 |
| Watermark.BuildWatermarkPayload | src/lib/security/watermark.ts:9-34 | exactly 8 lines labelled DOC, OWNER, SESSION, VIEWER, IP, LEVEL, EXPIRES, COUNTDOWN in that order; each carries its value: document id, owner id, session id, viewer id, IP, level name, formatted expiry and whole minutes left; opacity 0.25 iff MAXIMUM, else 0.15 |
| Watermark.ViewerAndIpFromContext | src/lib/security/watermark.ts:23-24 | two sessions with the same context give the same VIEWER and IP lines: they come from the context, not the session |
| Watermark.CountdownLineDecreases | src/lib/security/watermark.ts:27 | the number on the COUNTDOWN line, read back, never grows as time passes |
| SecuritySessionHook.InitialConsistent | src/hooks/useSecuritySession.ts:43-51 | the hook's initial state satisfies the invariant: lists within their caps, a revoked session inactive, a lock request in the outbox exactly when the latch is set |
| SecuritySessionHook.PushLogEffects | src/hooks/useSecuritySession.ts:62-78 | `pushLog` puts the entry first with its event and context, keeps `min(n+1, 32)` entries, sends one notifier log and changes nothing else |
| SecuritySessionHook.KillSessionEffects | src/hooks/useSecuritySession.ts:80-95 | `killSession` sets `active` false and nothing else on the session, records the reason, logs SESSION_REVOKED, and sends one more revoke request on every call (no guard) |
| SecuritySessionHook.LockDocumentRemoteEffects | src/hooks/useSecuritySession.ts:97-116 | the latch ends set; a lock request is sent only when the latch was clear; nothing else changes |
| SecuritySessionHook.RecordViolationEffects | src/hooks/useSecuritySession.ts:120-155 | the violation goes first in a list capped at 32; its report and exactly one VIOLATION log carrying its code are sent |
| SecuritySessionHook.EnforceEffects | src/hooks/useSecuritySession.ts:157-164 | when the policy revokes, the lock request (if the latch was clear) goes out before the kill's log and revoke request, and the session ends; otherwise nothing changes |
| SecuritySessionHook.RegisterViolationEffects | src/hooks/useSecuritySession.ts:118-175 | severity is CRITICAL iff the code is EXTERNAL_CAMERA_DETECTED, else HIGH; the description is the readable text; the entry goes first, capped at 32; one VIOLATION log; the requests go out in the fixed order; revocation ends the session and sets the latch |
| SecuritySessionHook.RecordRequestsCounts | src/hooks/useSecuritySession.ts:125-155 | the two requests a violation sends before the policy check hold exactly one VIOLATION log and one report, both of the violation's code |
| SecuritySessionHook.EnforceRequestsSilent | src/hooks/useSecuritySession.ts:157-164 | the policy check's lock, log and revoke requests hold no VIOLATION log and no report |
| SecuritySessionHook.RegisterSummary | src/hooks/useSecuritySession.ts:118-175 | `registerViolation` keeps the invariant, only deactivates, reports exactly its code and leaves focus and camera alone |
| SecuritySessionHook.DeviceCheckEffects | src/hooks/useSecuritySession.ts:186-190 | the device check reports EXTERNAL_CAMERA_DETECTED exactly when a device is detected |
| SecuritySessionHook.ObstructionCheckEffects | src/hooks/useSecuritySession.ts:191-195 | the obstruction check reports CAMERA_OBSTRUCTED exactly when the score exceeds 0.4 |
| SecuritySessionHook.AbsenceCheckEffects | src/hooks/useSecuritySession.ts:196-198 | the absence check reports CAMERA_ABSENT exactly when no person is detected |
| SecuritySessionHook.UpdateCameraInsightEffects | src/hooks/useSecuritySession.ts:177-201 | the insight is stored; the flag handed on means score > 0.4; the reported codes are external device, obstruction, absence, each independently and in that order |
| SecuritySessionHook.UpdateCameraInsightAppends | src/hooks/useSecuritySession.ts:177-201 | the camera check only appends to what was sent |
| SecuritySessionHook.HeartbeatTickEffects | src/hooks/useSecuritySession.ts:203-216 | an inactive session's tick does nothing; an active one sends a heartbeat and a HEARTBEAT log with the tamper hash |
| SecuritySessionHook.HandleFocusChangeEffects | src/hooks/useSecuritySession.ts:218-226 | `focusLost` becomes `!hasFocus`; a loss registers FOCUS_LOSS; a regain changes only the flag and removes no violation |
| SecuritySessionHook.AttachEvidenceEffects | src/hooks/useSecuritySession.ts:134-151 | only the entries with the violation's id change, only their evidence URL, and only when a non-empty photo came back; the notice is sent in every case |
| SecuritySessionHook.StepEffects | src/hooks/useSecuritySession.ts:62-226 | every hook operation keeps the invariant, never reactivates the session nor changes its other fields, and never resets the lock latch |
| SecuritySessionHook.RunEffects | src/hooks/useSecuritySession.ts:62-226 | the same over any sequence of operations |
| SecuritySessionHook.LockRequestedAtMostOnce | src/hooks/useSecuritySession.ts:51-106 | from a fresh hook, over any sequence of operations, at most one lock request is sent, both lists stay within 32 entries (or the document's own history), and an inactive session stays inactive |
| SecuritySessionHook.SecuritySession.constructor | src/hooks/useSecuritySession.ts:37-51 | the object starts in the initial state with the given document, viewer and evidence source |
| SecuritySessionHook.SecuritySession.PushLog | src/hooks/useSecuritySession.ts:62-78 | the new state is the `pushLog` step of the old |
| SecuritySessionHook.SecuritySession.KillSession | src/hooks/useSecuritySession.ts:80-95 | the new state is the `killSession` step of the old; the invariant is kept |
| SecuritySessionHook.SecuritySession.LockDocumentRemote | src/hooks/useSecuritySession.ts:97-116 | the new state is the latched lock step of the old |
| SecuritySessionHook.SecuritySession.RegisterViolation | src/hooks/useSecuritySession.ts:118-175 | the new state and the returned violation are those of the `registerViolation` step |
| SecuritySessionHook.SecuritySession.RecordViolation | src/hooks/useSecuritySession.ts:123-155 | the hook's new state is that of the recording half of `registerViolation`: the capped list, the evidence request or the notice, the VIOLATION log |
| SecuritySessionHook.SecuritySession.Enforce | src/hooks/useSecuritySession.ts:157-164 | the hook's new state is that of the policy check: lock request and session kill when the policy revokes, nothing otherwise |
| SecuritySessionHook.SecuritySession.UpdateCameraInsight | src/hooks/useSecuritySession.ts:177-201 | the new state is the camera step of the old; the result means score > 0.4 |
| SecuritySessionHook.SecuritySession.HeartbeatTick | src/hooks/useSecuritySession.ts:203-216 | the new state is the heartbeat step of the old |
| SecuritySessionHook.SecuritySession.HandleFocusChange | src/hooks/useSecuritySession.ts:218-226 | the new state is the focus step of the old |
| SecuritySessionHook.SecuritySession.AttachEvidence | src/hooks/useSecuritySession.ts:134-151 | the new state is the evidence step of the old |
| Snapshots.QueueTickets | src/components/security/SecureViewerShell.tsx:38-43 | the tickets of the waiting requests, one per request, in queue order |
| Snapshots.ResolvedTickets | src/components/security/SecureViewerShell.tsx:167-171 | the tickets of the settled requests, in settlement order |
| Snapshots.EmptyFifo | src/components/security/SecureViewerShell.tsx:38-47 | the empty broker (no queue, no active slot) satisfies the FIFO invariant |
| Snapshots.PumpIdle | src/components/security/SecureViewerShell.tsx:55-58 | pumping does nothing while a directive is active or the queue is empty |
| Snapshots.PumpKeepsOrder | src/components/security/SecureViewerShell.tsx:59-65 | pumping keeps the order of tickets and moves the oldest waiting request (the `shift`) into the free slot, directive and resolver together |
| Snapshots.RequestPreservesFifo | src/components/security/SecureViewerShell.tsx:153-165 | a request keeps the broker invariant: slots set together, each ticket with its own directive, nothing waiting while the slot is free, tickets in request order |
| Snapshots.RequestKeepsFifo | src/components/security/SecureViewerShell.tsx:153-165 | a request gets the next ticket and is never dropped: it becomes active when the slot was free, otherwise it waits at the back; nothing is settled; the invariant holds |
| Snapshots.HandleSnapshotKeepsFifo | src/components/security/SecureViewerShell.tsx:167-178 | the active request, if any, is settled with the photo, hash and directive; with none the state is unchanged; the next waiting request becomes active; the invariant holds |
| Snapshots.ResolvedInRequestOrder | src/components/security/SecureViewerShell.tsx:161-175 | under the invariant the k-th settlement goes to the k-th request, the active request is the next one, and the queue holds the following ones in order |
| Snapshots.BrokerRunKeepsFifo | src/components/security/SecureViewerShell.tsx:55-178 | after any interleaving of requests and snapshots the FIFO invariant still holds, so at most one request is in flight and settlements follow request order |
| Snapshots.SnapshotBroker.constructor | src/components/security/SecureViewerShell.tsx:38-47 | the broker starts empty |
| Snapshots.SnapshotBroker.Pump | src/components/security/SecureViewerShell.tsx:55-66 | the new state is the pump step of the old |
| Snapshots.SnapshotBroker.RequestSnapshot | src/components/security/SecureViewerShell.tsx:153-165 | the new state and the ticket are those of the request step: enqueue, then pump |
| Snapshots.SnapshotBroker.HandleSnapshot | src/components/security/SecureViewerShell.tsx:167-178 | the new state is the settle-clear-pump step of the old |
| SecureViewer.ScreenFor | src/components/security/SecureViewerShell.tsx:330-389 | the document is shown exactly when the DevTools check has run and found nothing; the blocking screen exactly when it found a gap |
| SecureViewer.CapturePhotoPolicy | src/components/security/SecureViewerShell.tsx:51 | without policies no presence photo is taken (`?? false`) |
| SecureViewer.TrackLocation | src/components/security/SecureViewerShell.tsx:52 | without policies no location is tracked (`?? false`) |
| SecureViewer.BatchVerdictFirst | src/components/security/SecureViewerShell.tsx:97-128 | a batch passes exactly when no record in it is suspicious; otherwise its verdict is that of the first suspicious record, one of the two kill messages |
| SecureViewer.ScanMutations | src/components/security/SecureViewerShell.tsx:97-128 | the loop over records and removed nodes returns the batch verdict |
| SecureViewer.CaptureViolationEvidence | src/components/security/SecureViewerShell.tsx:218-228 | no evidence without a snapshot or a non-empty photo; otherwise the photo, its frame hash and the last known location |
| SecureViewer.EvidenceAttachesIffPhoto | src/components/security/SecureViewerShell.tsx:218-228 | the hook attaches evidence exactly when the camera delivered a non-empty photo |
| SecureViewer.RouteOneEffects | src/components/security/SecureViewerShell.tsx:219-244 | an evidence request of the hook becomes one snapshot request of reason "violation", remembered under its ticket; other entries request nothing; the broker stays FIFO |
| SecureViewer.RouteAllEffects | src/components/security/SecureViewerShell.tsx:219-244 | over any outbox, the number of snapshot requests equals the number of evidence requests, none is settled on the way, and the broker stays FIFO |
| SecureViewer.RouteAllNoEvidence | src/components/security/SecureViewerShell.tsx:219-244 | entries that are not evidence requests route to nothing |
| SecureViewer.FullscreenExitRecorded | src/components/security/SecureViewerShell.tsx:265-268 | leaving fullscreen registers one HIGH POLICY_BREACH, which ends the session only on a MAXIMUM document |
| SecureViewer.ViewerShell.constructor | src/components/security/SecureViewerShell.tsx:34-53 | a fresh hook and an empty broker; no latch, prompt, location or presence yet |
| SecureViewer.ViewerShell.CheckDevTools | src/components/security/SecureViewerShell.tsx:69-86 | the open flag latches on a width or height gap over 200 and never unlatches; the check is marked done; a blocked screen stays blocked |
| SecureViewer.ViewerShell.OnMutations | src/components/security/SecureViewerShell.tsx:89-136 | while the document is shown, a suspicious batch wipes the page with its verdict; otherwise nothing happens |
| SecureViewer.ViewerShell.VerifyTick | src/components/security/SecureViewerShell.tsx:139-146 | while the document is shown, no overlays plus an obstructed camera wipes the page; otherwise nothing happens |
| SecureViewer.ViewerShell.Forward | src/components/security/SecureViewerShell.tsx:219-244 | everything the hook appended since the last call is routed to the broker, as the route function says |
| SecureViewer.ViewerShell.ForwardOne | src/components/security/SecureViewerShell.tsx:219-244 | the next unrouted outbox entry is routed |
| SecureViewer.ViewerShell.OnViolation | src/components/security/SecureViewerShell.tsx:404-405 | the hook takes one `registerViolation` step and its evidence requests are routed |
| SecureViewer.ViewerShell.OnFocusChange | src/components/security/SecureViewerShell.tsx:404-406 | the hook takes one `handleFocusChange` step and its evidence requests are routed |
| SecureViewer.ViewerShell.OnInsight | src/components/security/SecureViewerShell.tsx:396-399 | the hook takes one camera step; the obstruction flag means score > 0.4 |
| SecureViewer.ViewerShell.HeartbeatTick | src/hooks/useSecuritySession.ts:203-216 | the hook takes one heartbeat step |
| SecureViewer.ViewerShell.OnFullscreenChange | src/components/security/SecureViewerShell.tsx:264-272 | the prompt shows exactly when fullscreen was left; leaving registers POLICY_BREACH with reason `fullscreen_exit`; re-entering only hides the prompt |
| SecureViewer.ViewerShell.LeaveFullscreen | src/components/security/SecureViewerShell.tsx:266-268 | the prompt shows, the hook takes one POLICY_BREACH `fullscreen_exit` step and its evidence requests are routed |
| SecureViewer.ViewerShell.OnFullscreenRequest | src/components/security/SecureViewerShell.tsx:255-262 | the prompt shows exactly when the fullscreen request failed |
| SecureViewer.ViewerShell.CloseDocument | src/components/security/SecureViewerShell.tsx:451 | the close button kills the session with "Viewer exited secure fullscreen." |
| SecureViewer.ViewerShell.StartPresence | src/components/security/SecureViewerShell.tsx:309-314 | one presence snapshot is requested exactly when the policy captures reader photos; otherwise nothing happens |
| SecureViewer.ViewerShell.CancelPresence | src/components/security/SecureViewerShell.tsx:324-326 | the effect's cleanup marks the presence request cancelled |
| SecureViewer.ViewerShell.OnGeolocation | src/components/security/SecureViewerShell.tsx:283-307 | only when the policy tracks location: unavailable and denied post their reasons with the last location; a fix becomes the last location and is posted with reason `geolocation` |
| SecureViewer.ViewerShell.OnSnapshot | src/components/security/SecureViewerShell.tsx:167-178 | the broker settles the active request; a presence ticket posts the photo unless cancelled or empty; a violation ticket attaches the evidence through the hook; anything else changes nothing |
| SecureViewer.ViewerShell.SettlePresence | src/components/security/SecureViewerShell.tsx:314-323 | a presence result posts its photo, frame hash and last location with reason `presence_photo` exactly when the effect is live and the photo is non-empty; otherwise nothing is posted |
| SecureViewer.ViewerShell.DeliverEvidence | src/components/security/SecureViewerShell.tsx:218-228 | the evidence goes to the hook as one evidence step and the notice it appends is routed, keeping the shell consistent |
| ScreenGuards.AnyKeyword | src/lib/security/screen.ts:17 | true exactly when some keyword occurs in the title |
| ScreenGuards.DetectScreenShare | src/lib/security/screen.ts:6-18 | true exactly when the lower-cased title contains one of meet, teams, zoom, quicktime, obs, bandicam |
| ScreenGuards.ScreenShareIgnoresCase | src/lib/security/screen.ts:16 | the detector gives the same answer for a title and its lower-cased form |
| ScreenGuards.KeydownAtMostOne | src/lib/security/screen.ts:48-79 | a DevTools shortcut yields only DEVTOOLS_ATTEMPT with the key and stops there; otherwise screenshot, print and Alt+Tab each yield their own violation; a key matching none yields nothing; as the checks exclude each other, at most one signal per key |
| ScreenGuards.LowerSingleLetter | src/lib/security/screen.ts:67-72 | a key whose lower-cased form is one lower-case letter is that letter or its capital |
| ScreenGuards.ShortcutsIgnoreCase | src/lib/security/screen.ts:67-72 | Ctrl+Shift+S counts as a screenshot and Ctrl/Cmd+P as print in either case of the letter |
| ScreenGuards.DevToolsLatchFollows | src/lib/security/screen.ts:111-123 | after a tick `devToolsLastState` equals whether DevTools were suspected |
| ScreenGuards.OpeningsAreRisingEdges | src/lib/security/screen.ts:111-123 | DEVTOOLS_OPENED is reported exactly once per rising edge of the suspicion signal |
| ScreenGuards.SteadySignalsReportOnce | src/lib/security/screen.ts:111-123 | while the signal stays up, one report at most (none if it was already up) |
| ScreenGuards.RegainsFollowBlurs | src/lib/security/screen.ts:35-46 | a focus regain is reported only after a blur since the previous regain: regains, plus one while focus is lost, never exceed blurs |
| ScreenGuards.InitialRegainsBounded | src/lib/security/screen.ts:24-46 | from the initial state regains never outnumber blurs |
| ScreenGuards.VisibilityAndBlur | src/lib/security/screen.ts:27-39 | a visibility change reports focus as the visibility and leaves `lastFocus` alone, adding FOCUS_LOSS only when hidden; a blur reports focus lost and FOCUS_LOSS `window_blur` and clears `lastFocus` |
| ScreenGuards.ScreenGuard.constructor | src/lib/security/screen.ts:20-25 | `lastFocus` true, `devToolsLastState` false, nothing emitted yet |
| ScreenGuards.ScreenGuard.Emit | src/lib/security/screen.ts:2-3 | appends one signal and leaves the flags alone |
| ScreenGuards.ScreenGuard.HandleVisibility | src/lib/security/screen.ts:27-33 | the flags and emitted signals follow the visibility step |
| ScreenGuards.ScreenGuard.HandleBlur | src/lib/security/screen.ts:35-39 | the flags and emitted signals follow the blur step |
| ScreenGuards.ScreenGuard.HandleFocus | src/lib/security/screen.ts:41-46 | the flags and emitted signals follow the focus step |
| ScreenGuards.ScreenGuard.HandleKeydown | src/lib/security/screen.ts:48-79 | the emitted signals follow the key classification |
| ScreenGuards.ScreenGuard.HandleContextMenu | src/lib/security/screen.ts:81-86 | emits POLICY_BREACH `right_click_blocked` |
| ScreenGuards.ScreenGuard.HandleTick | src/lib/security/screen.ts:88-129 | one interval tick: the screen-share check, then the edge-triggered DevTools check with the 200/160 thresholds and the debugger timing |
| CameraFrames.CountWhere | src/lib/security/camera.ts:41-50 | the count of matching predictions is at most their number, and zero exactly when none matches |
| CameraFrames.CountWhereAppend | src/lib/security/camera.ts:41-50 | counting distributes over concatenation |
| CameraFrames.ParsePredictions | src/lib/security/camera.ts:40-56 | persons counts predictions of class person with score >= 0.45, zero exactly when there are none; a device is detected exactly when some cell phone, remote or camera scores >= 0.4 |
| CameraFrames.ParsePredictionsAppend | src/lib/security/camera.ts:40-56 | the parse of two prediction lists combines their counts and device flags |
| CameraFrames.BlackQuads | src/lib/security/camera.ts:69-74 | the number of near-black pixels among the first n is at most n |
| CameraFrames.BlackQuadsExtremes | src/lib/security/camera.ts:71 | an all-dark buffer counts every pixel, an all-bright one none |
| CameraFrames.CountBlackPixels | src/lib/security/camera.ts:69-74 | the stride-4 loop counts the pixels whose R, G and B are all below 10 |
| CameraFrames.Hundredths | src/lib/security/camera.ts:75-76 | the coverage rounded to two decimals: the nearest hundredth, halves up, never above 1 |
| CameraFrames.HundredthsBound | src/lib/security/camera.ts:75-76 | the rounded hundredths never exceed 100 |
| CameraFrames.ComputeObstructionScore | src/lib/security/camera.ts:58-77 | 0 without a 2D context; no score (`None`) for a 0-sized frame, where `getImageData` throws; otherwise the black coverage rounded to hundredths, between 0 and 1 |
| CameraFrames.EvaluateCameraFrame | src/lib/security/camera.ts:96-116 | persons and device flag come from the predictions; liveness is 0.9 exactly when a confident person was seen and 0 otherwise; the scores, hash and time are copied |
| Sentinel.InitialSentinelInv | src/components/security/CameraSentinel.tsx:27-32 | the initial state, enabled or not, satisfies the sentinel invariant: at most one snapshot, sent only with a handler and a photo and for a forwarded frame; the last insight is the last forwarded; the failed phase shows the permission message |
| Sentinel.SettleKeepsInv | src/components/security/CameraSentinel.tsx:44-58 | settling the camera stream keeps the invariant and forwards nothing |
| Sentinel.TickKeepsInv | src/components/security/CameraSentinel.tsx:65-96 | a tick keeps the invariant and the camera state, and forwards at most one new insight |
| Sentinel.StepKeepsInv | src/components/security/CameraSentinel.tsx:34-96 | every event keeps the invariant; a failed sentinel with no camera request in flight forwards nothing and stays so unless the prop is cleared |
| Sentinel.RunKeepsInv | src/components/security/CameraSentinel.tsx:34-96 | the same over any sequence of events |
| Sentinel.FailedIsFinal | src/components/security/CameraSentinel.tsx:54-73 | after a camera failure with no request in flight, no later event forwards a frame or leaves the failed phase, as long as the prop is not cleared again |
| Sentinel.DisabledKeepsInv | src/components/security/CameraSentinel.tsx:34-96 | a change of the `disabled` prop keeps the invariant, takes the new value and forwards nothing |
| Sentinel.DisabledForwardsNothing | src/components/security/CameraSentinel.tsx:34-96 | while the sentinel stays disabled no event hands an insight or a snapshot to the shell |
| Sentinel.DisableStopsForwarding | src/components/security/CameraSentinel.tsx:60-96 | once the prop turns to disabled (the shell passes `!session.active`), nothing more is forwarded unless it is cleared again |
| Sentinel.SnapshotAtMostOnce | src/components/security/CameraSentinel.tsx:81-87 | over any run, prop changes included, at most one snapshot is sent per mount |
| Sentinel.StatusLabel | src/components/security/CameraSentinel.tsx:98-106 | "Initializing camera...", "Camera tracking active", or the error (default "Camera error") |
| Sentinel.FailedShowsMessage | src/components/security/CameraSentinel.tsx:54-105 | in the error state the label is the permission message |
| Sentinel.FrameViolations | src/lib/security/camera.ts:96-116 | a classified frame makes the hook register CAMERA_ABSENT exactly when no confident person was seen, EXTERNAL_CAMERA_DETECTED exactly when a confident device was seen, CAMERA_OBSTRUCTED exactly above 0.4 |
| Sentinel.CameraSentinel.constructor | src/components/security/CameraSentinel.tsx:27-32 | the sentinel starts initializing with the given `disabled` prop, no insight, no error and no snapshot, and requests the camera unless disabled |
| Sentinel.CameraSentinel.OnStreamSettled | src/components/security/CameraSentinel.tsx:44-58 | the new state is the settle step of the old |
| Sentinel.CameraSentinel.SetDisabled | src/components/security/CameraSentinel.tsx:34-96 | the new state is the prop-change step: disabling stops sampling, enabling requests the camera again |
| Sentinel.CameraSentinel.Tick | src/components/security/CameraSentinel.tsx:70-91 | the new state is the tick step of the old; an insight or snapshot handed out is exactly the one appended |
| EventBus.RemoveLast | src/lib/server/eventBus.ts:36 | `emitter.off` removes one registration of the handler (the most recent), or nothing when it is not registered |
| EventBus.Fanout | src/lib/server/eventBus.ts:30-32 | one delivery per registered handler, in registration order, each carrying the event |
| EventBus.FanoutReachesSubscribers | src/lib/server/eventBus.ts:30-35 | a handler receives an emitted event exactly when it is subscribed |
| EventBus.RemoveLastTakesOne | src/lib/server/eventBus.ts:36 | removing a handler takes exactly one copy of it out of the registrations |
| EventBus.UnsubscribeOnlyThat | src/lib/server/eventBus.ts:36 | unsubscribing removes exactly one registration of that handler and keeps every other handler's registrations; a handler subscribed once is gone afterwards |
| EventBus.Bus.constructor | src/lib/server/eventBus.ts:24 | a new emitter has no handlers and has delivered nothing |
| EventBus.Bus.Subscribe | src/lib/server/eventBus.ts:34-35 | the handler is appended; nothing is delivered |
| EventBus.Bus.Unsubscribe | src/lib/server/eventBus.ts:36 | the handlers become the list with one registration removed |
| EventBus.Bus.Emit | src/lib/server/eventBus.ts:30-32 | the handlers stay; the deliveries grow by the fan-out of the event |
| EventBus.ProcessGlobal.constructor | src/lib/server/eventBus.ts:17-19 | the process starts without a global emitter |
| EventBus.ProcessGlobal.Emitter | src/lib/server/eventBus.ts:21-28 | the existing global emitter is reused; otherwise a fresh empty one is created and stored |
| EventBus.ProcessGlobal.LoadTwice | src/lib/server/eventBus.ts:21-28 | loading the module twice yields the same emitter |
| EventStreams.EventStream.constructor | src/app/api/events/route.ts:11-48 | `start` sends READY, subscribes the handler and starts the heartbeat; when the READY enqueue throws, the stream is closed with nothing sent, yet the handler is still subscribed and the heartbeat still set |
| EventStreams.EventStream.Cleanup | src/app/api/events/route.ts:16-29 | the first call closes the stream and the controller, stops the heartbeat and drops the bus subscription if bound; later calls change nothing |
| EventStreams.EventStream.Send | src/app/api/events/route.ts:31-40 | a closed stream sends nothing; a successful send appends one frame; a failing one closes the stream through `cleanup` |
| EventStreams.EventStream.OnEvent | src/app/api/events/route.ts:43 | an event reaching an open stream is sent as its own frame, or closes the stream when the send fails |
| EventStreams.EventStream.HeartbeatTick | src/app/api/events/route.ts:44-47 | while open and ticking, a HEARTBEAT frame with the time is sent |
| EventStreams.EventStream.Cancel | src/app/api/events/route.ts:49-51 | the client's cancel runs `cleanup`: the stream ends closed, the heartbeat stopped and the subscription dropped; a second cancel changes nothing |
| DocumentService.FindDocumentByOtp | src/lib/services/documentService.ts:82-85 | no document exactly when no stored code equals the given one ignoring case; otherwise a listed document whose code matches |
| DocumentService.FindDocumentByOtpFirst | src/lib/services/documentService.ts:82-85 | the document found is the first listed one whose code matches |
| DocumentService.OtpMatchIgnoresCase | src/lib/services/documentService.ts:84 | two codes equal up to case find the same document |
| DocumentService.CreateDocumentRecord | src/lib/services/documentService.ts:87-134 | the record keeps the id, owner, title and code; it has a file URL `/api/documents/<id>/file` exactly when a file was uploaded; the blob is the file path or ""; the identity requirement defaults to `{required: false}`; without a file there is no path, name or type |
| DocumentService.SanitiseDropsExactlySecrets | src/app/api/documents/route.ts:8-65 | two records look the same to the client exactly when they differ at most in `encryptedBlob` and `filePath` |
| DocumentService.EnsureHistory | src/lib/services/documentService.ts:193-201 | an existing history is kept; a missing one becomes empty logs and violations with no location |
| DocumentService.MarkInactive | src/lib/services/documentService.ts:204-208 | the session becomes inactive with the reason recorded and nothing else in the record changes |
| DocumentService.MarkInactiveTwice | src/lib/services/documentService.ts:204-208 | revoking twice is revoking once with the later reason |
| DocumentService.AppendLog | src/lib/services/documentService.ts:222-232 | the entry goes first in the log, capped at 40; violations, location and the rest of the record are unchanged |
| DocumentService.AttachIdentity | src/lib/services/documentService.ts:239-248 | the session becomes identity-verified with name, phone, photo and the time; nothing else changes |
| DocumentService.RecordPresence | src/lib/services/documentService.ts:275-281 | a present location becomes the last location; logs, violations and the rest of the record are unchanged |
| DocumentService.RecordViolation | src/lib/services/documentService.ts:297-311 | the entry goes first in the violations, capped at 25; a truthy location becomes the last location; logs and the rest of the record are unchanged |
| DocumentService.PushCappedOfTake | src/lib/services/documentService.ts:230 | pushing onto a list already cut to the cap is the same as cutting the longer list |
| DocumentService.Reversed | src/lib/services/documentService.ts:230 | the reversal of a sequence, element by element |
| DocumentService.AppendLogsKeepsNewest | src/lib/services/documentService.ts:218-233 | after any number of appends the log holds the newest 40 entries, newest first |
| DocumentService.TakeOfPrefix | src/lib/services/documentService.ts:230 | cutting twice to the same cap is cutting once |
| DocumentService.WithOpt | src/lib/services/documentService.ts:212-258 | an `undefined` field is dropped by `JSON.stringify`; a present one is set |
| DocumentService.PresenceEvent | src/lib/services/documentService.ts:282-286 | a PRESENCE_CAPTURED event whose payload has the documentId and the spread payload's fields |
| DocumentService.DocLookup | src/lib/services/documentService.ts:316-320 | `new Map(...)` then `get`: no document when no id matches, otherwise the last document with that id |
| DocumentService.SnapshotOf | src/lib/services/documentService.ts:319-334 | the snapshot keeps the session's document and viewer ids and identity fields; its title is that of the last listed document with the id, or "Unknown" when none has it; with a history it holds the last location and the first eight (or all, if fewer) log and violation entries, without one none of them |
| DocumentService.VerifiedSnapshots | src/lib/services/documentService.ts:317-318 | the filter keeps at most the sessions given |
| DocumentService.VerifiedSnapshotsSound | src/lib/services/documentService.ts:318 | every listed snapshot is that of a verified session |
| DocumentService.VerifiedSnapshotsComplete | src/lib/services/documentService.ts:318 | every verified session is listed |
| DocumentService.InsertByKeyAddsOne | src/lib/services/documentService.ts:335 | inserting one reader adds exactly that reader to the multiset of entries |
| DocumentService.InsertByKeyBelow | src/lib/services/documentService.ts:335 | inserting an entry below a bound into a list below it gives a list below it |
| DocumentService.InsertByKeySorts | src/lib/services/documentService.ts:335 | inserting into a newest-first list keeps it newest first |
| DocumentService.SortNewestFirst | src/lib/services/documentService.ts:335 | the result is ordered by `verifiedAt` (missing counts 0), newest first, and is a permutation of the input |
| DocumentService.ListReaderIdentities | src/lib/services/documentService.ts:314-336 | the listing is newest first and a permutation of the verified sessions' snapshots |
| DocumentService.ListedIffVerified | src/lib/services/documentService.ts:314-336 | exactly the verified sessions are listed, each with at most eight log and violation entries |
| DocumentService.SessionStore.constructor | src/lib/services/documentService.ts:74-76 | the store holds the given sessions and has emitted nothing |
| DocumentService.SessionStore.Emit | src/lib/server/eventBus.ts:30-32 | appends the event to the emitted ones and leaves the sessions alone |
| DocumentService.SessionStore.MutateSession | src/lib/services/documentService.ts:179-191 | an unknown token gives no record and changes nothing; a known one is replaced by the mutator's result, which is returned |
| DocumentService.SessionStore.MarkSessionInactive | src/lib/services/documentService.ts:203-216 | an unknown token changes nothing and emits nothing; a known one is revoked and SESSION_REVOKED_EVENT emitted with its document and the reason |
| DocumentService.SessionStore.AppendSessionLogEntry | src/lib/services/documentService.ts:218-233 | a known token gets the log entry; an unknown one changes nothing; nothing is emitted |
| DocumentService.SessionStore.AttachViewerIdentity | src/lib/services/documentService.ts:235-263 | an unknown token gives nothing and emits nothing; a known one gets the identity and VIEWER_IDENTITY_CAPTURED is emitted with the recorded viewer |
| DocumentService.SessionStore.RecordPresenceEvent | src/lib/services/documentService.ts:265-287 | a known token gets the location; PRESENCE_CAPTURED is emitted whether or not the token is known |
| DocumentService.SessionStore.RecordSessionViolation | src/lib/services/documentService.ts:289-312 | a known token gets the violation entry; an unknown one changes nothing; nothing is emitted |
| DocumentService.SessionStore.CreateViewerSession | src/lib/services/documentService.ts:136-173 | the session is `createSession` for viewer `viewer-<suffix>`; the record is stored under the token; OTP_VERIFIED is emitted |
| Middleware.DecodeSession | middleware.ts:9-17 | a missing or empty token is no session; a non-empty one gives exactly what the verifier makes of it, no session when verification throws |
| Middleware.Guard | middleware.ts:34-65 | an owner path without an owner or admin role, or a reader path without the reader role, redirects to `/login` carrying `next`; a signed-in visitor on `/login` or `/signup` is sent to `/reader` exactly when a reader, otherwise to `/dashboard`; the request passes exactly when none of these holds |
| Middleware.MiddlewareDecision | middleware.ts:19-65 | on an owner path the request passes exactly when the cookie's token names an owner or admin, on a reader path exactly when it names a reader, and otherwise goes to `/login` with `next`; a signed-in reader on `/login` or `/signup` goes to `/reader`, any other signed-in role to `/dashboard` |
| Middleware.AuthPagesUnguarded | middleware.ts:6-7 | `/login` and `/signup` are neither owner nor reader paths |
| Middleware.AnonymousIsSentToLogin | middleware.ts:41-55 | without a session every owner or reader path goes to the login page with `next` set to that path |
| Middleware.RolesAreExclusive | middleware.ts:6-39 | no path is both an owner path and a reader path |
| Middleware.ApiOwnerPathsUnguarded | middleware.ts:6-70 | the guard would turn an anonymous `/api/documents` request away, but the matcher never sends `/api/documents` or `/api/events` to it, so both pass |
| Middleware.UnderBaseStartsWith | middleware.ts:69 | a path a `:path*` pattern matches starts with the pattern's base |
| Middleware.CorrectedGuardsEveryPrefix | middleware.ts:6-55 | once the matcher also lists the API prefixes, every path under an owner prefix needs an owner or admin session, and every path under `/reader` a reader session |
| SessionHud.RemainingMs | src/components/security/SessionHud.tsx:25-31 | zero exactly when the expiry has been reached; otherwise the time left until it |
| SessionHud.RemainingNeverGrows | src/components/security/SessionHud.tsx:29-34 | a later refresh never shows more time left than an earlier one |
| SessionHud.CountdownRoundTrip | src/components/security/SessionHud.tsx:36-42 | the countdown text reads back as the whole minutes and the seconds under a minute, and those make up the whole seconds left |
| SessionHud.MinutesOfSeconds | src/components/security/SessionHud.tsx:37 | whole minutes of the milliseconds equal whole minutes of the whole seconds |
| SessionHud.KillDisabled | src/components/security/SessionHud.tsx:44-63 | the kill button is disabled exactly when a revocation reason is set or the session is inactive |
| SessionHud.StatusText | src/components/security/SessionHud.tsx:85-96 | a revoked session shows its reason, or "Session revoked"; otherwise the newest violation's description; otherwise the compliance note with the heartbeat in seconds |
| SessionHud.RevocationOutranksViolations | src/components/security/SessionHud.tsx:85-89 | once revoked, the violation list does not affect the status line |
| SessionHud.HudClock.constructor | src/components/security/SessionHud.tsx:25-27 | the initial remaining time is the time left at mount |
| SessionHud.HudClock.Tick | src/components/security/SessionHud.tsx:30-32 | each interval firing sets the remaining time to the time left at that moment |
| SessionHud.HudClock.CountdownText | src/components/security/SessionHud.tsx:36-42 | the text shown reads back as the current remaining minutes and seconds |
| FileViewer.InferExtension | src/components/security/SecureFileViewer.tsx:22-53 | a name with a dot gives the lower-cased text after its last dot; otherwise a known MIME type gives its mapped extension; otherwise a URL path with a dot gives its lower-cased last part; the result has no dot and is absent exactly when none of the three applies |
| FileViewer.DotIndex | src/components/security/SecureFileViewer.tsx:35 | a position of a dot in the text |
| FileViewer.DotSurvivesLowering | src/components/security/SecureFileViewer.tsx:34-45 | the lower-cased text has a dot exactly when the original does |
| FileViewer.ExtensionFromNameIsLowerSuffix | src/components/security/SecureFileViewer.tsx:34-36 | the extension is the suffix after a dot of the lower-cased name and has no upper-case letter |
| FileViewer.LoweredSuffix | src/components/security/SecureFileViewer.tsx:35-36 | in a text with a dot and no capitals, the part after the last dot is a capital-free suffix standing right behind a dot |
| FileViewer.NameOutranksMime | src/components/security/SecureFileViewer.tsx:35-40 | when the name has a dot, the MIME type and the URL do not affect the extension |
| FileViewer.RenderPlan | src/components/security/SecureFileViewer.tsx:66-126 | PDF exactly when the extension or type says pdf and there is a URL; then text, markdown, DOCX and the legacy-DOC refusal in that order; the spreadsheet table exactly when no earlier branch applies and the extension or type says spreadsheet; any other file gets the "Preview not available" message |
| FileViewer.UnknownExtensionIsNamed | src/components/security/SecureFileViewer.tsx:123-126 | a non-empty unknown extension appears in capitals in the message |
| FileViewer.Settled | src/components/security/SecureFileViewer.tsx:63-133 | PDF and refusals settle without fetching; a cancelled fetch leaves the loading state; a thrown fetch shows the render error; an uncancelled successful fetch shows the text, the rendered HTML, the sheet rows or the DOCX mode of its plan, and each of those states arises only from its own plan's fetch |
| FileViewer.Viewer.constructor | src/components/security/SecureFileViewer.tsx:56-57 | the viewer starts loading with no DOCX buffer |
| FileViewer.Viewer.RenderFile | src/components/security/SecureFileViewer.tsx:59-139 | the state is the settled state of the plan for the inferred extension; the DOCX buffer is replaced exactly when a DOCX was fetched and not cancelled |
| FileViewer.Viewer.RenderDocx | src/components/security/SecureFileViewer.tsx:141-171 | in DOCX mode and not cancelled, a library load failure, or a render failure with buffer and container present, shows the DOCX error; otherwise the state is unchanged; the buffer is never touched |
| OwnerDashboard.WireNameInjective | src/lib/server/eventBus.ts:4-12 | different event kinds carry different `type` strings |
| OwnerDashboard.Frame | src/app/api/events/route.ts:31-45 | every frame the stream writes has a string `type`, and an event frame's `type` is the event's kind |
| OwnerDashboard.FeedStep | src/components/dashboard/OwnerDashboard.tsx:64-82 | text that does not parse, `null` and READY frames leave the feed alone; anything else goes first in a feed capped at 25 |
| OwnerDashboard.FeedBoundedNewestFirst | src/components/dashboard/OwnerDashboard.tsx:68 | the feed never exceeds 25 entries; a new entry heads it and is followed by the newest 24 previous ones |
| OwnerDashboard.ReadySkippedHeartbeatListed | src/components/dashboard/OwnerDashboard.tsx:67-68 | the READY frame never enters the feed; a HEARTBEAT frame enters at its head |
| OwnerDashboard.OnlyIdentityRefreshes | src/components/dashboard/OwnerDashboard.tsx:69-79 | of the frames the stream sends, exactly identity captures trigger a reader refresh; the three security names tested are never sent |
| OwnerDashboard.CorrectedRefreshesOnSecurityEvents | src/components/dashboard/OwnerDashboard.tsx:72-79 | testing the names the server emits, exactly identity, violation, presence and revocation events refresh the readers |
| OwnerDashboard.Console.constructor | src/components/dashboard/OwnerDashboard.tsx:20-22 | the console opens on Builder with no documents, no events and no refreshes |
| OwnerDashboard.Console.OnMessage | src/components/dashboard/OwnerDashboard.tsx:64-83 | the feed takes one feed step; the refresh count grows by one exactly when a listed frame passes the reader-refresh test as written; the tab and documents are unchanged; the feed stays within 25 |
| OwnerDashboard.Console.OnCreated | src/components/dashboard/OwnerDashboard.tsx:128-131 | the new document goes first and the Documents tab opens; the feed is unchanged |
| ReadersPanel.ByDoc | src/components/dashboard/ReadersPanel.tsx:19-23 | the records collected for one document all belong to it and come from the input |
| ReadersPanel.DocOrder | src/components/dashboard/ReadersPanel.tsx:19-27 | each listed id is the document of some record |
| ReadersPanel.EachReaderInItsGroup | src/components/dashboard/ReadersPanel.tsx:20-21 | every record is in its own document's group |
| ReadersPanel.OrderListsEachDocOnce | src/components/dashboard/ReadersPanel.tsx:20-27 | each document id is listed once, and every record's document is listed |
| ReadersPanel.GroupNonEmpty | src/components/dashboard/ReadersPanel.tsx:20-32 | a listed document has at least one record, so its first record's title exists |
| ReadersPanel.NotListedEmpty | src/components/dashboard/ReadersPanel.tsx:20 | a document that is not listed has no records |
| ReadersPanel.CountLabel | src/components/dashboard/ReadersPanel.tsx:35 | one record reads "1 reader", more read "<n> readers" |
| ReadersPanel.Group | src/components/dashboard/ReadersPanel.tsx:19-23 | the groups are keyed by exactly the listed documents, in first-appearance order, each holding that document's records in input order |
| ReadersPanel.SectionFromGroup | src/components/dashboard/ReadersPanel.tsx:28-36 | a section keeps its id and records and is titled by the first record with the count label |
| ReadersPanel.Render | src/components/dashboard/ReadersPanel.tsx:11-36 | the placeholder exactly when there are no readers; otherwise one non-empty section per document in first-appearance order, each with that document's records, title and count |
| AuthSession.ShouldUseSecure | src/lib/auth/session.ts:14-22 | the `Secure` flag is on exactly in production |
| AuthSession.GetSessionFromCookies | src/lib/auth/session.ts:32-47 | a missing or empty cookie is no session; a non-empty one gives exactly what the verifier makes of it, no session when verification throws |
| AuthSession.WriteCookie | src/lib/auth/session.ts:56-91 | the structured cookie is used exactly when the response has a cookie API, with HTTP only, same-site lax, path `/` and `Secure` in production; otherwise a `Set-Cookie` header is appended |
| AuthSession.SetSessionCookie | src/lib/auth/session.ts:49-72 | the structured cookie exactly when the response has a cookie API, else a `Set-Cookie` header; either way what is written, read back, is the token for 604800 seconds, HTTP only, same-site lax, on `/`, `Secure` exactly in production |
| AuthSession.ClearSessionCookie | src/lib/auth/session.ts:74-93 | the structured cookie exactly when the response has a cookie API, else a `Set-Cookie` header; either way what is written, read back, is an empty value with age 0, HTTP only, same-site lax, on `/`, `Secure` exactly in production |
| AuthSession.SplitConcat | src/lib/auth/session.ts:68-70 | a concatenation starts with its first part and the rest is the second |
| AuthSession.ParseAttrsRoundTrip | src/lib/auth/session.ts:68-70 | the hand-written attribute tail reads back as its `Secure` flag and age |
| AuthSession.CookieLineRoundTrip | src/lib/auth/session.ts:66-71 | a `Set-Cookie` line reads back as the same name, value, flags, path and age the structured write would set |
| ApiRoutes.StringOr | src/app/api/viewer/identity/route.ts:30-31 | an absent value gives the default; a string gives itself |
| ApiRoutes.BodyPhoto | src/app/api/viewer/identity/route.ts:32 | a photo is present exactly when the body's `photo` is a string starting with `data:`, and then it is that string |
| ApiRoutes.IdentityCheck | src/app/api/viewer/identity/route.ts:29-58 | the body is accepted exactly when no required field is missing, no enforced name or phone mismatches and a photo is present; the rejections are 400 for missing fields, then 403 for the name, then 403 for the phone, then 400 for a missing photo, in that order |
| ApiRoutes.PhotoAlwaysRequired | src/app/api/viewer/identity/route.ts:56-58 | without a photo every body is rejected, with 400 unless a name or phone match fails first |
| ApiRoutes.LaxDocumentNeedsOnlyPhoto | src/app/api/viewer/identity/route.ts:35-58 | a document that neither requires nor enforces identity accepts any body with a photo, even with an empty name and phone |
| ApiRoutes.MatchIgnoresCaseAndPunctuation | src/app/api/viewer/identity/route.ts:42-53 | names equal up to case, and phones with the same digits, get the same match verdict |
| ApiRoutes.IdentityRoute | src/app/api/viewer/identity/route.ts:11-66 | 401 without a cookie, 404 for an unknown session or document, 500 for a body that is not an object, then the body checks; only an accepted body records the identity and emits VIEWER_IDENTITY_CAPTURED |
| ApiRoutes.SessionCookie | src/app/api/otp/verify/route.ts:29-34 | the viewer cookie carries the token for one hour, HTTP only |
| ApiRoutes.OtpVerifyRoute | src/app/api/otp/verify/route.ts:7-40 | 400 for an empty code, 404 for an unknown one, 500 for a body that is not an object; otherwise a session for the matching document is stored under the token with the user agent or "unknown-device", OTP_VERIFIED is emitted and the reply carries the document id, whether identity is required and the cookie |
| ApiRoutes.NormaliseLocation | src/app/api/presence/route.ts:20-27 | a location exactly when the body's `location` is truthy, with numeric latitude and longitude, an accuracy exactly when truthy, and the capture time defaulting to now |
| ApiRoutes.PresencePayloadOf | src/app/api/presence/route.ts:29-34 | the payload has the normalised location, the photo and frame hash only when strings, and the reason defaulting to "presence" |
| ApiRoutes.PresenceRoute | src/app/api/presence/route.ts:7-37 | 400 without a document id, then 401 without a cookie; otherwise a known session gets the location, PRESENCE_CAPTURED is emitted either way and the reply is ok |
| ApiRoutes.Envelope | src/app/api/violations/route.ts:8 | a present `data` field is the data; otherwise the whole payload is |
| ApiRoutes.EvidenceLocation | src/app/api/violations/route.ts:15 | an evidence location is never `null` |
| ApiRoutes.ViolationsRoute | src/app/api/violations/route.ts:6-28 | a known session with a cookie and a truthy `violation` gets the violation recorded, any other request changes no session; a VIOLATION event with the data is always emitted and the data echoed |
| ApiRoutes.LogsPayload | src/app/api/logs/route.ts:7-15 | empty or unparsable text is `{}`; otherwise the parsed value |
| ApiRoutes.LogsRoute | src/app/api/logs/route.ts:6-35 | a known session with a cookie gets the log entry, with the event defaulting to "UNKNOWN"; SESSION_HEARTBEAT with the data is always emitted and the data echoed |
| ApiRoutes.RevokeReason | src/app/api/session/revoke/route.ts:15-16 | an unparsable body has no reason; otherwise its `reason` field |
| ApiRoutes.RevokeRoute | src/app/api/session/revoke/route.ts:7-25 | 401 without a cookie; otherwise a known session is revoked with the reason and SESSION_REVOKED_EVENT emitted, an unknown one changes nothing, and the reply clears the cookie |
| ApiRoutes.UploadOf | src/app/api/documents/route.ts:42-51 | an upload exactly when the form carries a non-empty file, keeping its name, with the type defaulting to `application/octet-stream` |
| ApiRoutes.CreateCheck | src/app/api/documents/route.ts:19-63 | 400 "Title and OTP are required." when the title or code is absent or empty (an absent field reads as ""); then 400 "Invalid security payload." exactly when a JSON field fails to parse; an accepted form is owned by `owner-root`, keeps title, description ("" when absent), code and upload, and defaults the identity rule to not required |
| ApiRoutes.CreateDocumentRoute | src/app/api/documents/route.ts:17-69 | a rejected form changes nothing; an accepted one is created, DOCUMENT_CREATED emitted, and reported without blob and path |
| ApiRoutes.ListDocumentsRoute | src/app/api/documents/route.ts:6-15 | every listed document, in order, without blob and path |

## Left out

- Concurrency: every asynchronous step is one atomic method call. The unlocked read-modify-write of `mutateSession` (lost updates between concurrent requests) and interleavings of promise callbacks are not modelled.
- Timers: intervals and timeouts are tick methods called by the environment. Wall-clock scheduling and the timing-based debugger check are not modelled; the latter is a boolean input of a tick.
- DOM and browser APIs are represented only by their observed inputs and recorded effects. The page wipe and reload are a recorded message; MutationObserver batches, fullscreen, geolocation, EventSource, window sizes and `addEventListener` bookkeeping are method arguments.
- Object detection, canvas drawing, JPEG encoding and the brightness delta are inputs. The brightness delta is floating-point luma. The obstruction score's `toFixed(2)` rounding is modelled as integer hundredths.
- Rendering libraries and fetches are not modelled: PDF.js, `marked`, `xlsx` and `docx-preview`, and the fetches of `renderFile`. Their results, and whether they throw, are inputs.
- Persistence: the JSON files under the data directories are a listing and a map; the file system is not modelled. A corrupt file, which makes `readJson` throw, is not modelled. Writing the uploaded file in `createDocument` is left out; the record stores its path.
- Parsed request bodies arrive as JSON values, with `None` when parsing throws. The exact shapes `JSON.parse` accepts are not modelled.
- `new URL(...)` parsing, the encoding of the `next` query parameter and the `formatISO9075` date formatter are parameters or plain strings.
- `toLowerCase` and `toUpperCase` map ASCII letters only; other Unicode case mappings are not modelled.
- `Number(...)` of text is modelled for plain decimal text only. Other numeric spellings (exponents, hexadecimal, `Infinity`) become NaN.
- Json.NumberText: `String(x)` of a non-integral number prints only its integer part. The compliance note's heartbeat in seconds is exact only for whole seconds.
- The order of `sort` among readers with equal `verifiedAt` is not fixed by the model. `SortNewestFirst` states order and permutation, not stability.
- `Object.entries` key order in the readers panel: the model uses first-appearance order. That is what JavaScript gives for ids that are not array-index-like integers.
- Signing JSON web tokens is left out; verification is the `verify` parameter.
- The owner console's `refreshDocuments` and `refreshReaders` fetches, the 3-second polling on the Readers tab, toasts and console logging are left out. A reader refresh is only counted.
- The sentinel's checks of the video element's readiness are inputs of a tick. React's unmount flag `mounted` is one as well.
- `setMaxListeners` on the emitter does not change delivery and is not modelled.
- The monitoring notifier's HTTP post is recorded as an outbox entry; its endpoint and body encoding are left out.
- The supporting routes (auth login, signup, check and logout; readers; document lock, unlock and file) and the environment configuration are not part of this model.
- FileViewer.InferExtension: a MIME type naming an inherited object property (such as `constructor`) is treated as absent, not as the property's value.
- ApiRoutes.PhotoAlwaysRequired: states only that a body without a photo is rejected, and with 400 when no match rule fails first. Which 400 or 403 message appears is stated by `IdentityCheck`.
- SecureViewer.ViewerShell.OnInsight: the shell does not hold the sentinel. That no insight arrives once the session is inactive is proved on the sentinel (`Sentinel.DisableStopsForwarding`), not in the shell; an insight delivered anyway would still take the camera step.
- AuthSession.SetSessionCookie: the header line is read back only for a token without `;`. A signed token (base64url parts joined by dots) never holds one.

## Findings

| source | as written | input that shows it | evidently intended | confidence | as-written member | corrected member |
|---|---|---|---|---|---|---|
| middleware.ts:6, 34-47, 68-70 | the guard lists `/api/documents` and `/api/events` as owner paths, but the matcher only selects `/dashboard/:path*`, `/reader/:path*`, `/login` and `/signup` | an anonymous `GET /api/documents` | owner or admin session required for the two API prefixes | not executed | Middleware.ApiOwnerPathsUnguarded | Middleware.CorrectedGuardsEveryPrefix |
| src/components/dashboard/OwnerDashboard.tsx:69-79 | readers are refreshed on `VIOLATION_LOGGED`, `LOCATION_CAPTURED` and `SESSION_REVOKED`, names the server never emits (src/lib/server/eventBus.ts:4-12) | a `VIOLATION` event on the stream | refresh on `VIOLATION`, `PRESENCE_CAPTURED` and `SESSION_REVOKED_EVENT` | not executed | OwnerDashboard.OnlyIdentityRefreshes | OwnerDashboard.CorrectedRefreshesOnSecurityEvents |
