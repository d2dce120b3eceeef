/** The screen guards of src/lib/security/screen.ts: the window-event
    handlers installed by `initScreenGuards`, and the two-second tick that
    looks for screen-sharing tools and open developer tools.

    The handlers' callbacks are recorded as `GuardSignal`s; the page wipe
    followed by a reload is the signal `PageWiped`. The wall-clock debugger
    timing is the boolean `debuggerOpen` of a tick. */
module ScreenGuards {
  import opened Common
  import opened Text
  import opened Json
  import opened SecurityTypes

  const ScreenShareKeywords: seq<string> := ["meet", "teams", "zoom", "quicktime", "obs", "bandicam"]
  const DevToolsWipeMessage: string := "Developer tools detected. Session terminated."

  /** What the guards report: `onViolation`, `onFocusChange`, or the wipe. */
  datatype GuardSignal =
    | Violation(code: ViolationCode, context: Option<Context>)
    | FocusReport(hasFocus: bool)
    | PageWiped(message: string)

  datatype KeyEvent = KeyEvent(key: string, ctrlKey: bool, shiftKey: bool, altKey: bool, metaKey: bool)

  function ReasonOf(reason: string): Option<Context> { Some(map["reason" := JStr(reason)]) }

  // ---------------------------------------------------------------------
  // Screen sharing

  /** Whether some keyword occurs in the title. */
  function AnyKeyword(title: string, keywords: seq<string>): (r: bool)
    ensures r <==> exists i :: 0 <= i < |keywords| && Contains(title, keywords[i])
  {
    if keywords == [] then false
    else Contains(title, keywords[0]) || AnyKeyword(title, keywords[1..])
  }

  /** `detectScreenShareProcesses` on the document title. */
  function DetectScreenShare(title: string): (r: bool)
    ensures r <==> exists i :: 0 <= i < |ScreenShareKeywords| && Contains(ToLower(title), ScreenShareKeywords[i])
  {
    AnyKeyword(ToLower(title), ScreenShareKeywords)
  }

  /** The match ignores letter case: a title and its lower-cased form are
      judged alike. */
  lemma ScreenShareIgnoresCase(title: string)
    ensures DetectScreenShare(ToLower(title)) == DetectScreenShare(title)
  {
    ToLowerIdempotent(title);
  }

  // ---------------------------------------------------------------------
  // Keyboard

  predicate IsDevToolsShortcut(e: KeyEvent) {
    || e.key == "F12"
    || (e.ctrlKey && e.shiftKey && e.key in ["I", "C", "J"])
    || (e.metaKey && e.altKey && e.key in ["I", "C", "J"])
  }

  predicate IsScreenshotKey(e: KeyEvent) {
    e.key == "PrintScreen" || (e.ctrlKey && e.shiftKey && ToLower(e.key) == "s")
  }

  predicate IsPrintKey(e: KeyEvent) {
    (e.ctrlKey || e.metaKey) && ToLower(e.key) == "p"
  }

  predicate IsAltTab(e: KeyEvent) {
    e.altKey && e.key == "Tab"
  }

  /** `handleKeydown`: a DevTools shortcut is reported on its own and ends
      the handler; otherwise the screenshot, print and Alt+Tab checks run
      one after the other. */
  function KeydownSignals(e: KeyEvent): seq<GuardSignal> {
    if IsDevToolsShortcut(e) then [Violation(DEVTOOLS_ATTEMPT, Some(map["key" := JStr(e.key)]))]
    else
      (if IsScreenshotKey(e) then [Violation(SCREENSHOT_ATTEMPT, Some(map["via" := JStr(e.key)]))] else [])
      + (if IsPrintKey(e) then [Violation(POLICY_BREACH, ReasonOf("print_blocked"))] else [])
      + (if IsAltTab(e) then [Violation(FOCUS_LOSS, ReasonOf("alt_tab"))] else [])
  }

  /** A key whose lower-cased form is a single letter is that letter in
      one of its two cases. */
  lemma LowerSingleLetter(key: string, c: char)
    requires IsLowerAscii(c) && ToLower(key) == [c]
    ensures key == [c] || key == [UpperChar(c)]
  {
    assert |key| == 1;
    assert LowerChar(key[0]) == c;
  }

  /** The screenshot, print and Alt+Tab keys never overlap, and a DevTools
      shortcut suppresses the rest, so one keydown reports at most one
      violation; each report is the one its key calls for. */
  lemma KeydownAtMostOne(e: KeyEvent)
    ensures |KeydownSignals(e)| <= 1
    ensures IsDevToolsShortcut(e) ==> KeydownSignals(e) == [Violation(DEVTOOLS_ATTEMPT, Some(map["key" := JStr(e.key)]))]
    ensures !IsDevToolsShortcut(e) && IsScreenshotKey(e) ==>
      KeydownSignals(e) == [Violation(SCREENSHOT_ATTEMPT, Some(map["via" := JStr(e.key)]))]
    ensures !IsDevToolsShortcut(e) && IsPrintKey(e) ==> KeydownSignals(e) == [Violation(POLICY_BREACH, ReasonOf("print_blocked"))]
    ensures !IsDevToolsShortcut(e) && IsAltTab(e) ==> KeydownSignals(e) == [Violation(FOCUS_LOSS, ReasonOf("alt_tab"))]
    ensures !IsDevToolsShortcut(e) && !IsScreenshotKey(e) && !IsPrintKey(e) && !IsAltTab(e) ==> KeydownSignals(e) == []
  {
    if ToLower(e.key) == "s" { LowerSingleLetter(e.key, 's'); }
    if ToLower(e.key) == "p" { LowerSingleLetter(e.key, 'p'); }
    assert !(IsScreenshotKey(e) && IsPrintKey(e));
    assert !(IsScreenshotKey(e) && IsAltTab(e));
    assert !(IsPrintKey(e) && IsAltTab(e));
  }

  /** Ctrl+Shift+S is caught in either case, and Ctrl+P or Cmd+P in either
      case is a blocked print. */
  lemma ShortcutsIgnoreCase(ctrl: bool, shift: bool, alt: bool, meta: bool)
    ensures ctrl && shift ==> IsScreenshotKey(KeyEvent("s", ctrl, shift, alt, meta)) && IsScreenshotKey(KeyEvent("S", ctrl, shift, alt, meta))
    ensures ctrl || meta ==> IsPrintKey(KeyEvent("p", ctrl, shift, alt, meta)) && IsPrintKey(KeyEvent("P", ctrl, shift, alt, meta))
  {
    assert ToLower("S") == [LowerChar('S')];
    assert ToLower("P") == [LowerChar('P')];
  }

  // ---------------------------------------------------------------------
  // The guard state

  /** `lastFocus` and `devToolsLastState`. */
  datatype GuardState = GuardState(lastFocus: bool, devToolsLastState: bool)

  const InitialGuards: GuardState := GuardState(true, false)

  datatype GuardEvent =
    | VisibilityChange(visible: bool)
    | Blur
    | Focus
    | Keydown(event: KeyEvent)
    | ContextMenu
    | Tick(title: string, outerWidth: int, innerWidth: int, outerHeight: int, innerHeight: int, debuggerOpen: bool)

  /** The three DevTools signals of `detectDevTools`: the 200-pixel gap,
      the 160-pixel gap, and the debugger pause. */
  predicate DevToolsSuspected(t: GuardEvent)
    requires t.Tick?
  {
    || t.outerWidth - t.innerWidth > 200 || t.outerHeight - t.innerHeight > 200
    || t.outerWidth - t.innerWidth > 160 || t.outerHeight - t.innerHeight > 160
    || t.debuggerOpen
  }

  /** `detectDevTools`: report and wipe once on the way up; unlatch only
      when every signal is clear. */
  function DevToolsStep(last: bool, suspected: bool): (bool, seq<GuardSignal>) {
    if suspected && !last then (true, [Violation(DEVTOOLS_OPENED, None), PageWiped(DevToolsWipeMessage)])
    else if !suspected then (false, [])
    else (last, [])
  }

  /** One handler run; `reportsFocus` says whether `onFocusChange` was
      supplied. */
  function GuardStep(reportsFocus: bool, st: GuardState, ev: GuardEvent): (GuardState, seq<GuardSignal>) {
    match ev
    case VisibilityChange(visible) =>
      (st, (if reportsFocus then [FocusReport(visible)] else [])
           + (if !visible then [Violation(FOCUS_LOSS, ReasonOf("visibilitychange"))] else []))
    case Blur =>
      (st.(lastFocus := false),
       (if reportsFocus then [FocusReport(false)] else []) + [Violation(FOCUS_LOSS, ReasonOf("window_blur"))])
    case Focus =>
      if !st.lastFocus then (st.(lastFocus := true), if reportsFocus then [FocusReport(true)] else [])
      else (st, [])
    case Keydown(e) => (st, KeydownSignals(e))
    case ContextMenu => (st, [Violation(POLICY_BREACH, ReasonOf("right_click_blocked"))])
    case Tick(title, _, _, _, _, _) =>
      var share := if DetectScreenShare(title) then [Violation(SCREEN_SHARING, None)] else [];
      var (last, dev) := DevToolsStep(st.devToolsLastState, DevToolsSuspected(ev));
      (st.(devToolsLastState := last), share + dev)
  }

  function GuardRun(reportsFocus: bool, st: GuardState, evs: seq<GuardEvent>): (GuardState, seq<GuardSignal>)
    decreases |evs|
  {
    if evs == [] then (st, [])
    else
      var (s1, out1) := GuardStep(reportsFocus, st, evs[0]);
      var (s2, out2) := GuardRun(reportsFocus, s1, evs[1..]);
      (s2, out1 + out2)
  }

  // ---------------------------------------------------------------------
  // Edge triggering

  /** How many times `DEVTOOLS_OPENED` is reported over a run of ticks,
      given by their "suspected" verdicts. */
  function DevToolsOpenings(last: bool, suspected: seq<bool>): nat
    decreases |suspected|
  {
    if suspected == [] then 0
    else
      var (next, out) := DevToolsStep(last, suspected[0]);
      (if out != [] then 1 else 0) + DevToolsOpenings(next, suspected[1..])
  }

  /** How many times the verdict goes from clear to suspected, counting a
      first suspected verdict when the latch starts clear. */
  function RisingEdges(last: bool, suspected: seq<bool>): nat
    decreases |suspected|
  {
    if suspected == [] then 0
    else (if suspected[0] && !last then 1 else 0) + RisingEdges(suspected[0], suspected[1..])
  }

  /** The latch is exactly the last verdict once a tick has run. */
  lemma DevToolsLatchFollows(last: bool, suspected: bool)
    ensures DevToolsStep(last, suspected).0 == suspected
  {
  }

  /** `DEVTOOLS_OPENED` is edge-triggered: it is reported once per rising
      edge of the signals, so never twice while they stay up. */
  lemma {:induction false} OpeningsAreRisingEdges(last: bool, suspected: seq<bool>)
    ensures DevToolsOpenings(last, suspected) == RisingEdges(last, suspected)
    decreases |suspected|
  {
    if suspected != [] {
      DevToolsLatchFollows(last, suspected[0]);
      OpeningsAreRisingEdges(suspected[0], suspected[1..]);
    }
  }

  /** While the signals stay up, at most one report is made. */
  lemma {:induction false} SteadySignalsReportOnce(last: bool, n: nat)
    ensures RisingEdges(last, seq(n, _ => true)) == if n > 0 && !last then 1 else 0
    decreases n
  {
    if n > 0 {
      assert seq(n, _ => true)[1..] == seq(n - 1, _ => true);
      SteadySignalsReportOnce(true, n - 1);
    }
  }

  // ---------------------------------------------------------------------
  // Focus tracking

  function CountEvents(evs: seq<GuardEvent>, p: GuardEvent -> bool): nat
    decreases |evs|
  {
    if evs == [] then 0 else (if p(evs[0]) then 1 else 0) + CountEvents(evs[1..], p)
  }

  /** How many `focus` events reported a regained focus. */
  function Regains(st: GuardState, evs: seq<GuardEvent>): nat
    decreases |evs|
  {
    if evs == [] then 0
    else (if evs[0].Focus? && !st.lastFocus then 1 else 0) + Regains(GuardStep(true, st, evs[0]).0, evs[1..])
  }

  predicate IsBlur(ev: GuardEvent) { ev.Blur? }

  /** The `focus` handler reports a regain only after a blur since the
      previous regain: from the initial state, regains never outnumber
      blurs, and while focus is lost there is one blur more. */
  lemma {:induction false} RegainsFollowBlurs(st: GuardState, evs: seq<GuardEvent>)
    ensures Regains(st, evs) + (if GuardRun(true, st, evs).0.lastFocus then 0 else 1)
            <= CountEvents(evs, IsBlur) + (if st.lastFocus then 0 else 1)
    decreases |evs|
  {
    if evs != [] {
      RegainsFollowBlurs(GuardStep(true, st, evs[0]).0, evs[1..]);
    }
  }

  lemma InitialRegainsBounded(evs: seq<GuardEvent>)
    ensures Regains(InitialGuards, evs) <= CountEvents(evs, IsBlur)
  {
    RegainsFollowBlurs(InitialGuards, evs);
  }

  /** A visibility change reports focus as the page's visibility, and
      leaves `lastFocus` alone; a blur always reports FOCUS_LOSS. */
  lemma VisibilityAndBlur(st: GuardState, visible: bool)
    ensures GuardStep(true, st, VisibilityChange(visible)).0 == st
    ensures GuardStep(true, st, VisibilityChange(visible)).1[0] == FocusReport(visible)
    ensures !visible <==> |GuardStep(true, st, VisibilityChange(visible)).1| == 2
    ensures GuardStep(true, st, Blur).1 == [FocusReport(false), Violation(FOCUS_LOSS, ReasonOf("window_blur"))]
    ensures !GuardStep(true, st, Blur).0.lastFocus
  {
  }

  // ---------------------------------------------------------------------
  // The installed guards

  class ScreenGuard {
    const reportsFocus: bool
    var lastFocus: bool
    var devToolsLastState: bool
    /** Everything reported so far, in order. */
    var signals: seq<GuardSignal>

    function State(): GuardState
      reads this
    {
      GuardState(lastFocus, devToolsLastState)
    }

    /** `initScreenGuards` */
    constructor(reportsFocus: bool)
      ensures this.reportsFocus == reportsFocus
      ensures State() == InitialGuards && signals == []
    {
      this.reportsFocus := reportsFocus;
      lastFocus := true;
      devToolsLastState := false;
      signals := [];
    }

    method Emit(s: GuardSignal)
      modifies this
      ensures signals == old(signals) + [s]
      ensures State() == old(State())
    {
      signals := signals + [s];
    }

    method HandleVisibility(visible: bool)
      modifies this
      ensures State() == GuardStep(reportsFocus, old(State()), VisibilityChange(visible)).0
      ensures signals == old(signals) + GuardStep(reportsFocus, old(State()), VisibilityChange(visible)).1
    {
      ghost var s0 := signals;
      if reportsFocus {
        Emit(FocusReport(visible));
      }
      ghost var s1 := signals;
      if !visible {
        Emit(Violation(FOCUS_LOSS, ReasonOf("visibilitychange")));
      }
      assert signals == s1 + (if !visible then [Violation(FOCUS_LOSS, ReasonOf("visibilitychange"))] else []);
      assert s1 == s0 + (if reportsFocus then [FocusReport(visible)] else []);
    }

    method HandleBlur()
      modifies this
      ensures State() == GuardStep(reportsFocus, old(State()), Blur).0
      ensures signals == old(signals) + GuardStep(reportsFocus, old(State()), Blur).1
    {
      ghost var s0 := signals;
      lastFocus := false;
      if reportsFocus {
        Emit(FocusReport(false));
      }
      ghost var s1 := signals;
      Emit(Violation(FOCUS_LOSS, ReasonOf("window_blur")));
      assert s1 == s0 + (if reportsFocus then [FocusReport(false)] else []);
    }

    method HandleFocus()
      modifies this
      ensures State() == GuardStep(reportsFocus, old(State()), Focus).0
      ensures signals == old(signals) + GuardStep(reportsFocus, old(State()), Focus).1
    {
      if !lastFocus {
        lastFocus := true;
        if reportsFocus {
          Emit(FocusReport(true));
        }
      }
      assert signals == old(signals) + GuardStep(reportsFocus, old(State()), Focus).1;
    }

    method HandleKeydown(e: KeyEvent)
      modifies this
      ensures State() == GuardStep(reportsFocus, old(State()), Keydown(e)).0
      ensures signals == old(signals) + GuardStep(reportsFocus, old(State()), Keydown(e)).1
    {
      if IsDevToolsShortcut(e) {
        Emit(Violation(DEVTOOLS_ATTEMPT, Some(map["key" := JStr(e.key)])));
        return;
      }
      ghost var s0 := signals;
      if e.key == "PrintScreen" || (e.ctrlKey && e.shiftKey && ToLower(e.key) == "s") {
        Emit(Violation(SCREENSHOT_ATTEMPT, Some(map["via" := JStr(e.key)])));
      }
      if (e.ctrlKey || e.metaKey) && ToLower(e.key) == "p" {
        Emit(Violation(POLICY_BREACH, ReasonOf("print_blocked")));
      }
      if e.altKey && e.key == "Tab" {
        Emit(Violation(FOCUS_LOSS, ReasonOf("alt_tab")));
      }
      assert signals == s0 + KeydownSignals(e);
    }

    method HandleContextMenu()
      modifies this
      ensures State() == GuardStep(reportsFocus, old(State()), ContextMenu).0
      ensures signals == old(signals) + GuardStep(reportsFocus, old(State()), ContextMenu).1
    {
      Emit(Violation(POLICY_BREACH, ReasonOf("right_click_blocked")));
    }

    /** The two-second interval: the screen-share check, then the DevTools
        check. */
    method HandleTick(title: string, outerWidth: int, innerWidth: int, outerHeight: int, innerHeight: int, debuggerOpen: bool)
      modifies this
      ensures State() == GuardStep(reportsFocus, old(State()), Tick(title, outerWidth, innerWidth, outerHeight, innerHeight, debuggerOpen)).0
      ensures signals == old(signals) + GuardStep(reportsFocus, old(State()), Tick(title, outerWidth, innerWidth, outerHeight, innerHeight, debuggerOpen)).1
    {
      ghost var s0 := signals;
      if DetectScreenShare(title) {
        Emit(Violation(SCREEN_SHARING, None));
      }
      ghost var s1 := signals;
      var widthGap := outerWidth - innerWidth;
      var heightGap := outerHeight - innerHeight;
      var devToolsOpen := widthGap > 200 || heightGap > 200;
      var devToolsOpenAlt := widthGap > 160 || heightGap > 160;
      if (devToolsOpen || devToolsOpenAlt || debuggerOpen) && !devToolsLastState {
        Emit(Violation(DEVTOOLS_OPENED, None));
        devToolsLastState := true;
        Emit(PageWiped(DevToolsWipeMessage));
      } else if !devToolsOpen && !devToolsOpenAlt && !debuggerOpen {
        devToolsLastState := false;
      }
      assert signals == s0 + (signals[|s0|..]);
      assert s1 == s0 + (if DetectScreenShare(title) then [Violation(SCREEN_SHARING, None)] else []);
    }
  }
}
