/**
 * The add-on's scripts: which one runs for a gesture depending on whether the Magnifier
 * is running, what each writes to the Magnifier's key, and what it announces.
 *
 * Speech is recorded as the reply a script ends with; sending the gesture on to Windows is
 * recorded as a flag. During a confirmation wait the key is observed through `snapshots`:
 * `snapshots(i)` is the key's contents when the fetcher is called for the i-th time.
 */
module WinMagPlugin {
  import opened Wrappers
  import opened MagnifierSettings
  import opened Confirmation
  import Decimal

  datatype Command =
    | ZoomIn | ZoomOut | QuitMagnifier | ToggleColorInversion | ChangeMagnificationView
    | ToggleCaretTracking | ToggleFocusTracking | ToggleMouseTracking | ToggleTracking
    | ToggleSmoothing | ToggleMouseCursorTrackingMode

  /** The scripts decorated with onlyIfMagRunning. */
  predicate IsGuarded(cmd: Command) {
    || cmd.ToggleCaretTracking? || cmd.ToggleFocusTracking? || cmd.ToggleMouseTracking?
    || cmd.ToggleTracking? || cmd.ToggleSmoothing? || cmd.ToggleMouseCursorTrackingMode?
  }

  /** The scripts that hand their gesture back to Windows while the Magnifier is off. */
  predicate PassesThroughWhenOff(cmd: Command) {
    cmd.ZoomOut? || cmd.QuitMagnifier? || cmd.ToggleColorInversion? || cmd.ChangeMagnificationView?
  }

  /** What a script goes on to do once it has checked whether the Magnifier is running. */
  datatype Route =
    | ConfirmRunningState       // modifyRunningState
    | ConfirmZoomLevel          // modifyZoomLevel
    | ConfirmColorInversion     // modifyColorInversion
    | ConfirmMagnificationView  // modifyMagnificationView
    | PassThrough               // gesture.send() only
    | ReportNotActive           // refused by onlyIfMagRunning
    | RunHandler                // the body of a guarded script

  predicate IsConfirmation(route: Route) {
    route.ConfirmRunningState? || route.ConfirmZoomLevel? || route.ConfirmColorInversion? || route.ConfirmMagnificationView?
  }

  /** onlyIfMagRunning as a wrapper around the route of the script it decorates. */
  function OnlyIfMagRunning(running: bool, handler: Route): (r: Route)
    ensures r == ReportNotActive <==> !running || handler == ReportNotActive
    ensures r != ReportNotActive ==> r == handler
  {
    if running then handler else ReportNotActive
  }

  /** The dispatch of script_zoomIn, script_zoomOut, ... on the running state. */
  function ScriptRoute(cmd: Command, running: bool): (r: Route)
    ensures r == PassThrough <==> PassesThroughWhenOff(cmd) && !running
    ensures r == ReportNotActive <==> IsGuarded(cmd) && !running
    ensures r == RunHandler <==> IsGuarded(cmd) && running
    ensures r == ConfirmRunningState <==> (cmd == ZoomIn && !running) || (cmd == QuitMagnifier && running)
    ensures r == ConfirmZoomLevel <==> (cmd == ZoomIn || cmd == ZoomOut) && running
    ensures r == ConfirmColorInversion <==> cmd == ToggleColorInversion && running
    ensures r == ConfirmMagnificationView <==> cmd == ChangeMagnificationView && running
  {
    match cmd
    case ZoomIn => if running then ConfirmZoomLevel else ConfirmRunningState
    case ZoomOut => if running then ConfirmZoomLevel else PassThrough
    case QuitMagnifier => if running then ConfirmRunningState else PassThrough
    case ToggleColorInversion => if running then ConfirmColorInversion else PassThrough
    case ChangeMagnificationView => if running then ConfirmMagnificationView else PassThrough
    case _ => OnlyIfMagRunning(running, RunHandler)
  }

  // ----- Replies -----

  /** A ValueError raised on a confirmation result outside the setting's domain. */
  datatype Fault = ValueError(message: string)

  datatype Reply = Silent | Say(message: string) | Raise(fault: Fault)

  /** What a script did: whether the gesture reached Windows, and how it ended. */
  datatype Outcome = Outcome(gestureSent: bool, reply: Reply)

  const NotActiveMessage := "The Magnifier is not active"
  const FullScreenOnlyMessage := "Mouse tracking mode applies only to full screen view."

  function Unexpected(setting: string, val: int): Fault {
    ValueError("Unexpected " + setting + " value: " + Decimal.IntToString(val))
  }

  /** ui.message for a result, or the exception it raised. */
  function Announce(r: Result<string, Fault>): Reply {
    match r
    case Success(message) => Say(message)
    case Failure(fault) => Raise(fault)
  }

  function RunningStateMessage(val: int): (r: Result<string, Fault>)
    ensures r.Failure? <==> val != 0 && val != 1
    ensures r == Success("Magnifier on") <==> val == 1
    ensures r == Success("Magnifier off") <==> val == 0
    ensures r.Failure? ==> r.error == Unexpected("RunningState", val)
  {
    if val == 1 then Success("Magnifier on")
    else if val == 0 then Success("Magnifier off")
    else Failure(Unexpected("RunningState", val))
  }

  function ColorInversionMessage(val: int): (r: Result<string, Fault>)
    ensures r.Failure? <==> val != 0 && val != 1
    ensures r == Success("Color inversion on") <==> val == 1
    ensures r == Success("Color inversion off") <==> val == 0
    ensures r.Failure? ==> r.error == Unexpected("Invert", val)
  {
    if val == 1 then Success("Color inversion on")
    else if val == 0 then Success("Color inversion off")
    else Failure(Unexpected("Invert", val))
  }

  function MagnificationViewMessage(val: int): (r: Result<string, Fault>)
    ensures r.Failure? <==> val !in {MagViewDocked, MagViewFullScreen, MagViewLens}
    ensures r == Success("Docked") <==> val == MagViewDocked
    ensures r == Success("Full screen") <==> val == MagViewFullScreen
    ensures r == Success("Lens") <==> val == MagViewLens
    ensures r.Failure? ==> r.error == Unexpected("MagnificationMode", val)
  {
    if val == MagViewDocked then Success("Docked")
    else if val == MagViewFullScreen then Success("Full screen")
    else if val == MagViewLens then Success("Lens")
    else Failure(Unexpected("MagnificationMode", val))
  }

  function ZoomLevelMessage(val: int): (m: string)
    ensures |m| >= 2 && m[|m| - 1] == '%'
    ensures var number := m[..|m| - 1];
            && (number[0] == '-' ==> |number| >= 2 && Decimal.AllDigits(number[1..]))
            && (number[0] != '-' ==> Decimal.AllDigits(number))
            && (number[0] == '-' ==> number[1] != '0')
            && (number[0] != '-' && |number| > 1 ==> number[0] != '0')
            && Decimal.ParseInt(number) == val
  {
    var number := Decimal.IntToString(val);
    Decimal.IntRoundTrip(val);
    assert (number + "%")[..|number|] == number;
    number + "%"
  }

  /** Each announcement names the value that was observed: distinct values are told apart. */
  lemma MessagesIdentifyValue(a: int, b: int)
    ensures RunningStateMessage(a).Success? && RunningStateMessage(a) == RunningStateMessage(b) ==> a == b
    ensures ColorInversionMessage(a).Success? && ColorInversionMessage(a) == ColorInversionMessage(b) ==> a == b
    ensures MagnificationViewMessage(a).Success? && MagnificationViewMessage(a) == MagnificationViewMessage(b) ==> a == b
  {
  }

  /** The zoom announcement is the observed level followed by "%", and names it uniquely. */
  lemma ZoomLevelMessageIdentifiesLevel(a: int, b: int)
    requires ZoomLevelMessage(a) == ZoomLevelMessage(b)
    ensures a == b
  {
    // The number before '%' parses back to the level, by the contract of ZoomLevelMessage.
  }

  // ----- Confirmed scripts -----

  /** The fetcher lambda of a modify* method: the setting as each snapshot resolves it. */
  function SettingFetcher(snapshots: nat -> map<string, int>, name: string, default: int): (fetch: nat -> int)
    ensures forall i :: LookupValue(snapshots(i), name, Some(default)) == Success(fetch(i))
  {
    (i: nat) => ResolvedValue(snapshots(i), name, default)
  }

  /** The reply of a confirmed script: the mapping of the value the wait returns. */
  function ConfirmReply(route: Route, snapshots: nat -> map<string, int>): Reply
    requires IsConfirmation(route)
  {
    match route
    case ConfirmRunningState =>
      Announce(RunningStateMessage(WaitValue(SettingFetcher(snapshots, "RunningState", DefaultRunningState), RunningStateTimeout)))
    case ConfirmZoomLevel =>
      Say(ZoomLevelMessage(WaitValue(SettingFetcher(snapshots, "Magnification", DefaultMagnification), DefaultTimeout)))
    case ConfirmColorInversion =>
      Announce(ColorInversionMessage(WaitValue(SettingFetcher(snapshots, "Invert", DefaultInvert), InversionTimeout)))
    case ConfirmMagnificationView =>
      Announce(MagnificationViewMessage(WaitValue(SettingFetcher(snapshots, "MagnificationMode", DefaultMagnificationMode), DefaultTimeout)))
  }

  /** Zoom-in while the Magnifier is off starts it when RunningState turns 1 within the wait. */
  lemma ZoomInWhenOffStartsMagnifier(snapshots: nat -> map<string, int>)
    requires WaitValue(SettingFetcher(snapshots, "RunningState", DefaultRunningState), RunningStateTimeout) == 1
    ensures ConfirmReply(ScriptRoute(ZoomIn, false), snapshots) == Say("Magnifier on")
  {
  }

  method ModifyRunningState(snapshots: nat -> map<string, int>) returns (out: Outcome)
    ensures out == Outcome(true, ConfirmReply(ConfirmRunningState, snapshots))
  {
    var fetch := SettingFetcher(snapshots, "RunningState", DefaultRunningState);
    var val, _, _, _ := WaitForValueChangeForAction(fetch, RunningStateTimeout);
    out := Outcome(true, Announce(RunningStateMessage(val)));
  }

  method ModifyZoomLevel(snapshots: nat -> map<string, int>) returns (out: Outcome)
    ensures out == Outcome(true, ConfirmReply(ConfirmZoomLevel, snapshots))
  {
    var fetch := SettingFetcher(snapshots, "Magnification", DefaultMagnification);
    var val, _, _, _ := WaitForValueChangeForAction(fetch, DefaultTimeout);
    out := Outcome(true, Say(ZoomLevelMessage(val)));
  }

  method ModifyColorInversion(snapshots: nat -> map<string, int>) returns (out: Outcome)
    ensures out == Outcome(true, ConfirmReply(ConfirmColorInversion, snapshots))
  {
    var fetch := SettingFetcher(snapshots, "Invert", DefaultInvert);
    var val, _, _, _ := WaitForValueChangeForAction(fetch, InversionTimeout);
    out := Outcome(true, Announce(ColorInversionMessage(val)));
  }

  method ModifyMagnificationView(snapshots: nat -> map<string, int>) returns (out: Outcome)
    ensures out == Outcome(true, ConfirmReply(ConfirmMagnificationView, snapshots))
  {
    var fetch := SettingFetcher(snapshots, "MagnificationMode", DefaultMagnificationMode);
    var val, _, _, _ := WaitForValueChangeForAction(fetch, DefaultTimeout);
    out := Outcome(true, Announce(MagnificationViewMessage(val)));
  }

  // ----- Local toggles -----

  /** The guarded scripts that toggle one value of the key. */
  datatype Toggle = CaretTracking | FocusTracking | MouseTracking | Smoothing | MouseCursorTrackingMode

  function ToggleName(t: Toggle): string {
    match t
    case CaretTracking => "FollowCARET"
    case FocusTracking => "FollowFocus"
    case MouseTracking => "FollowMouse"
    case Smoothing => "UseBitmapSmoothing"
    case MouseCursorTrackingMode => "FullScreenTrackingMode"
  }

  function ToggleDefault(t: Toggle): int {
    match t
    case CaretTracking => DefaultFollowCaret
    case FocusTracking => DefaultFollowFocus
    case MouseTracking => DefaultFollowMouse
    case Smoothing => DefaultUseBitmapSmoothing
    case MouseCursorTrackingMode => DefaultFullScreenTrackingMode
  }

  /** The announcement for the value a toggle wrote, chosen by its truth value. */
  function ToggleMessage(t: Toggle, val: int): string {
    match t
    case CaretTracking => if val != 0 then "Caret tracking on" else "Caret tracking off"
    case FocusTracking => if val != 0 then "Focus tracking on" else "Focus tracking off"
    case MouseTracking => if val != 0 then "Mouse tracking on" else "Mouse tracking off"
    case Smoothing => if val != 0 then "Smoothing on" else "Smoothing off"
    case MouseCursorTrackingMode => if val != 0 then "Centered on the screen" else "Within the edge of the screen"
  }

  /** The key and the outcome after a toggle script has run on `values`. */
  function ToggleEffect(t: Toggle, values: map<string, int>): (map<string, int>, Outcome) {
    var val := Toggled(ResolvedValue(values, ToggleName(t), ToggleDefault(t)));
    (StoreValue(values, ToggleName(t), val), Outcome(false, Say(ToggleMessage(t, val))))
  }

  /**
   * A toggle script flips its own setting, reads back the value it announces, and leaves
   * every other setting as it was.
   */
  lemma ToggleScriptFlipsOneSetting(t: Toggle, values: map<string, int>, name: string, default: Option<int>)
    ensures var before := ResolvedValue(values, ToggleName(t), ToggleDefault(t));
            var (after, out) := ToggleEffect(t, values);
            && !out.gestureSent
            && out.reply == Say(ToggleMessage(t, Toggled(before)))
            && (Normalize(name) == Normalize(ToggleName(t)) ==> LookupValue(after, name, default) == Success(Toggled(before)))
            && (Normalize(name) != Normalize(ToggleName(t)) ==> LookupValue(after, name, default) == LookupValue(values, name, default))
  {
    // ReadAfterWrite and WriteLeavesOthers on the toggled setting
  }

  /** script_toggleCaretTracking, ..., script_toggleSmoothing once past onlyIfMagRunning. */
  method ScriptToggleSetting(key: MagnifierKey, t: Toggle) returns (out: Outcome)
    requires key.Valid()
    modifies key
    ensures key.Valid()
    ensures (key.values, out) == ToggleEffect(t, old(key.values))
  {
    var r := key.ToggleValue(ToggleName(t), Some(ToggleDefault(t)));
    out := Outcome(false, Say(ToggleMessage(t, r.value)));
  }

  /** script_toggleMouseCursorTrackingMode once past onlyIfMagRunning. */
  method ScriptToggleMouseCursorTrackingMode(key: MagnifierKey) returns (out: Outcome)
    requires key.Valid()
    modifies key
    ensures key.Valid()
    ensures !IsFullScreenView(old(key.values)) ==> key.values == old(key.values) && out == Outcome(false, Say(FullScreenOnlyMessage))
    ensures IsFullScreenView(old(key.values)) ==> (key.values, out) == ToggleEffect(MouseCursorTrackingMode, old(key.values))
  {
    var mode := key.GetValue("MagnificationMode", Some(DefaultMagnificationMode));
    if mode.value != MagViewFullScreen {
      out := Outcome(false, Say(FullScreenOnlyMessage));
      return;
    }
    out := ScriptToggleSetting(key, MouseCursorTrackingMode);
  }

  // ----- Toggling all tracking flags -----

  const TrackingNames: seq<string> := ["FollowCaret", "FollowFocus", "FollowMouse"]
  const TrackingDefaults: seq<int> := [DefaultFollowCaret, DefaultFollowFocus, DefaultFollowMouse]

  /** The registry entries a list of names denotes. */
  function NameKeys(names: seq<string>): set<string> {
    set j | 0 <= j < |names| :: Normalize(names[j])
  }

  /** Writing one value under each of `names`, in order. */
  function StoreAll(values: map<string, int>, names: seq<string>, val: int): map<string, int>
  {
    if names == [] then values
    else StoreValue(StoreAll(values, names[..|names| - 1], val), names[|names| - 1], val)
  }

  /** After StoreAll every listed name reads `val` and every other name reads as before. */
  lemma {:induction false} StoreAllLookup(values: map<string, int>, names: seq<string>, val: int, name: string, default: Option<int>)
    ensures LookupValue(StoreAll(values, names, val), name, default) ==
            if Normalize(name) in NameKeys(names) then Success(val) else LookupValue(values, name, default)
  {
    if names != [] {
      var init, last := names[..|names| - 1], names[|names| - 1];
      assert NameKeys(names) == NameKeys(init) + {Normalize(last)} by {
        assert names == init + [last];
      }
      if Normalize(name) == Normalize(last) {
        ReadAfterWrite(StoreAll(values, init, val), last, name, val, default);
      } else {
        WriteLeavesOthers(StoreAll(values, init, val), last, name, val, default);
        StoreAllLookup(values, init, val, name, default);
      }
    }
  }

  lemma TrackingNamesNormalized()
    ensures Normalize(TrackingNames[0]) == "followcaret"
    ensures Normalize(TrackingNames[1]) == "followfocus"
    ensures Normalize(TrackingNames[2]) == "followmouse"
  {
    // Each character is folded by Lower.
  }

  /** The three tracking flags, as the key names them. */
  lemma TrackingKeys()
    ensures NameKeys(TrackingNames) == {"followcaret", "followfocus", "followmouse"}
  {
    TrackingNamesNormalized();
    var keys := NameKeys(TrackingNames);
    assert Normalize(TrackingNames[0]) in keys;
    assert Normalize(TrackingNames[1]) in keys;
    assert Normalize(TrackingNames[2]) in keys;
  }

  /** All three flags off (as resolved with their defaults). */
  predicate AllTrackingOff(values: map<string, int>) {
    forall j :: 0 <= j < 3 ==> ResolvedValue(values, TrackingNames[j], TrackingDefaults[j]) == 0
  }

  /** The value script_toggleTracking writes: 1 when every flag is off, 0 in every other case. */
  function TrackingTarget(values: map<string, int>): (w: int)
    ensures w == 1 <==> AllTrackingOff(values)
    ensures w == 0 <==> !AllTrackingOff(values)
  {
    if AllTrackingOff(values) then 1 else 0
  }

  function TrackingMessage(w: int): string {
    if w != 0 then "Tracking on" else "Tracking off"
  }

  /**
   * script_toggleTracking writes one value to the three flags and nothing else: on when
   * all three were off, off otherwise; it announces "Tracking on" exactly when they were all off.
   */
  lemma ToggleTrackingEffect(values: map<string, int>, name: string, default: Option<int>)
    ensures var w := TrackingTarget(values);
            && TrackingMessage(w) == (if AllTrackingOff(values) then "Tracking on" else "Tracking off")
            && LookupValue(StoreAll(values, TrackingNames, w), name, default) ==
               if Normalize(name) in {"followcaret", "followfocus", "followmouse"} then Success(w)
               else LookupValue(values, name, default)
  {
    TrackingKeys();
    StoreAllLookup(values, TrackingNames, TrackingTarget(values), name, default);
  }

  /** Caret tracking off, focus tracking on, mouse tracking off: everything is turned off. */
  lemma MixedTrackingTurnsOff(values: map<string, int>)
    requires values == map["followcaret" := 0, "followfocus" := 1, "followmouse" := 0]
    ensures TrackingTarget(values) == 0 && TrackingMessage(TrackingTarget(values)) == "Tracking off"
  {
    TrackingNamesNormalized();
    assert ResolvedValue(values, TrackingNames[1], TrackingDefaults[1]) == 1;
  }

  /** script_toggleTracking once past onlyIfMagRunning. */
  method ScriptToggleTracking(key: MagnifierKey) returns (out: Outcome)
    requires key.Valid()
    modifies key
    ensures key.Valid()
    ensures var w := TrackingTarget(old(key.values));
            key.values == StoreAll(old(key.values), TrackingNames, w) && out == Outcome(false, Say(TrackingMessage(w)))
  {
    var vals: seq<int> := [];
    for j := 0 to |TrackingNames|
      invariant key.values == old(key.values)
      invariant |vals| == j
      invariant forall k :: 0 <= k < j ==> vals[k] == ResolvedValue(key.values, TrackingNames[k], TrackingDefaults[k])
    {
      var v := key.GetValue(TrackingNames[j], Some(TrackingDefaults[j]));
      vals := vals + [v.value];
    }
    var w := if forall k :: 0 <= k < |vals| ==> vals[k] == 0 then 1 else 0;
    assert w == TrackingTarget(key.values);
    ghost var before := key.values;
    for j := 0 to |TrackingNames|
      invariant key.Valid()
      invariant key.values == StoreAll(before, TrackingNames[..j], w)
    {
      assert TrackingNames[..j + 1][..j] == TrackingNames[..j];
      key.SetValue(TrackingNames[j], w);
    }
    assert TrackingNames[..|TrackingNames|] == TrackingNames;
    out := Outcome(false, Say(TrackingMessage(w)));
  }

  // ----- Dispatch -----

  /** What a guarded script's body does to the key, and how it ends. */
  function LocalEffect(cmd: Command, values: map<string, int>): (map<string, int>, Outcome)
    requires IsGuarded(cmd)
  {
    match cmd
    case ToggleCaretTracking => ToggleEffect(CaretTracking, values)
    case ToggleFocusTracking => ToggleEffect(FocusTracking, values)
    case ToggleMouseTracking => ToggleEffect(MouseTracking, values)
    case ToggleSmoothing => ToggleEffect(Smoothing, values)
    case ToggleTracking =>
      var w := TrackingTarget(values);
      (StoreAll(values, TrackingNames, w), Outcome(false, Say(TrackingMessage(w))))
    case ToggleMouseCursorTrackingMode =>
      if IsFullScreenView(values) then ToggleEffect(MouseCursorTrackingMode, values)
      else (values, Outcome(false, Say(FullScreenOnlyMessage)))
  }

  /** A script invoked by its gesture: the running check, then the route it selects. */
  method RunScript(key: MagnifierKey, cmd: Command, snapshots: nat -> map<string, int>) returns (out: Outcome)
    requires key.Valid()
    modifies key
    ensures key.Valid()
    ensures var route := ScriptRoute(cmd, IsMagnifierRunning(old(key.values)));
            && (route != RunHandler ==> key.values == old(key.values))
            && (route == PassThrough ==> out == Outcome(true, Silent))
            && (route == ReportNotActive ==> out == Outcome(false, Say(NotActiveMessage)))
            && (IsConfirmation(route) ==> out == Outcome(true, ConfirmReply(route, snapshots)))
            && (route == RunHandler ==> (key.values, out) == LocalEffect(cmd, old(key.values)))
  {
    var state := key.GetValue("RunningState", Some(DefaultRunningState));
    var running := state.value != 0;
    match ScriptRoute(cmd, running)
    case ConfirmRunningState => out := ModifyRunningState(snapshots);
    case ConfirmZoomLevel => out := ModifyZoomLevel(snapshots);
    case ConfirmColorInversion => out := ModifyColorInversion(snapshots);
    case ConfirmMagnificationView => out := ModifyMagnificationView(snapshots);
    case PassThrough => out := Outcome(true, Silent);
    case ReportNotActive => out := Outcome(false, Say(NotActiveMessage));
    case RunHandler =>
      match cmd {
        case ToggleCaretTracking => out := ScriptToggleSetting(key, CaretTracking);
        case ToggleFocusTracking => out := ScriptToggleSetting(key, FocusTracking);
        case ToggleMouseTracking => out := ScriptToggleSetting(key, MouseTracking);
        case ToggleSmoothing => out := ScriptToggleSetting(key, Smoothing);
        case ToggleTracking => out := ScriptToggleTracking(key);
        case ToggleMouseCursorTrackingMode => out := ScriptToggleMouseCursorTrackingMode(key);
      }
  }

  /**
   * With RunningState resolving to 0, a guarded script only says the Magnifier is not active
   * (RunScript then leaves the key as it was), zoom-out, quit, inversion and view forward
   * their gesture, and zoom-in takes the running-state path instead of the zoom path.
   */
  lemma InactiveScripts(cmd: Command, values: map<string, int>)
    requires ResolvedValue(values, "RunningState", DefaultRunningState) == 0
    ensures var route := ScriptRoute(cmd, IsMagnifierRunning(values));
            && (IsGuarded(cmd) ==> route == ReportNotActive)
            && (PassesThroughWhenOff(cmd) ==> route == PassThrough)
            && (cmd == ZoomIn ==> route == ConfirmRunningState)
  {
  }
}
