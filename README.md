# Windows Magnifier add-on for NVDA: a Dafny model of its core

The add-on `addon/globalPlugins/winMag.py` lets a screen-reader user drive the Windows
Magnifier from the keyboard and hear what each command did. This project models its core:

- **Settings accessor** (`settings.dfy`, module `MagnifierSettings`): the registry key
  `HKCU\Software\Microsoft\ScreenMagnifier` as a `map<string, int>` field of the class
  `MagnifierKey`, with `GetValue`, `SetValue` and `ToggleValue` (getMagnifierKeyValue,
  setMagnifierKeyValue, toggleMagnifierKeyValue), the compiled-in defaults, and the derived
  predicates `IsMagnifierRunning` and `IsFullScreenView`. Registry value names are
  case-insensitive, so entries are stored under the ASCII lower-cased name (`Normalize`):
  the `'FollowCARET'` of the caret-tracking script and the `'FollowCaret'` of the
  toggle-all-tracking script are one entry.
- **Change confirmation** (`confirmation.dfy`, module `Confirmation`):
  `_WaitForValueChangeForAction` as a method with a `while` loop. The fetcher is the
  environment, a function `fetch: nat -> int` giving what its i-th call returns (call 0 is the
  pre-action read). The clock is integer milliseconds, advanced by the 30 ms poll period on
  each pass; timeouts are 200 ms by default, 500 ms for colour inversion and 2000 ms for the
  running state. The method is proved against an independent recursive search `StopRead`,
  and returns the steps it took (fetch, send, sleep) as a trace.
- **Scripts** (`plugin.dfy`, module `WinMagPlugin`): the dispatch of every `script_*`
  handler on the running state (`ScriptRoute`, with `onlyIfMagRunning` as the wrapper
  `OnlyIfMagRunning`), the local toggles that write the key, `script_toggleTracking` with its
  asymmetric all-off rule, the four `modify*` methods that confirm a change and map the
  observed value to a message or a `ValueError`, and `RunScript`, which runs one script on the
  key. During a confirmation the key is observed through `snapshots: nat -> map<string, int>`,
  the key's contents at each fetcher call, resolved with the setting's default.
- `decimal.dfy` (module `Decimal`) renders an integer as Python's `'{}'.format` does, for the
  zoom announcement `"<level>%"`, and proves it can be read back.
- `wrappers.dfy` holds `Option` and `Result`.

Three behaviours of the code shape the model:

- A toggle does not turn every non-zero value to 0: the code (winMag.py:86) turns only 1
  into 0, and every other value, 2 included, into 1. `Toggled` follows the code, and
  `ToggleTwiceFromTwo` shows that a stored 2 is not restored by two toggles.
- A read can fail: `getMagnifierKeyValue` re-raises the registry error when the name is
  absent and no default is given (winMag.py:71-74), so `LookupValue` has that error outcome;
  every caller in the add-on passes a default, and `ResolvedValue` states that such a read
  always succeeds.
- `isMagnifierRunning` returns the stored value and the scripts test its truth value, so any
  non-zero RunningState counts as running, not only 1.

## Model

| member | source | states |
|---|---|---|
| MagnifierSettings.Normalize | addon/globalPlugins/winMag.py:183 | a value name and its canonical form have the same length, each character of the canonical form is the lower-cased character of the name, and none is upper-case |
| MagnifierSettings.SameEntryIffEqualIgnoringCase | addon/globalPlugins/winMag.py:183 | two value names denote one registry entry exactly when they have the same length and agree character by character ignoring case |
| MagnifierSettings.CanonicalEntriesReadBack | addon/globalPlugins/winMag.py:63-74 | when every stored name is canonical, as the key's invariant keeps it, each entry is read back by its own name even without a default |
| MagnifierSettings.CaretTrackingSpellingsAgree | addon/globalPlugins/winMag.py:227 | 'FollowCARET' (line 183) and 'FollowCaret' (line 227) denote the same registry entry |
| MagnifierSettings.LookupValue | addon/globalPlugins/winMag.py:63-74 | a present name gives its stored value; an absent name gives the default when one is given (0 included); it fails, with NotFound for that name, exactly when the name is absent and no default is given |
| MagnifierSettings.ResolvedValue | addon/globalPlugins/winMag.py:63-74 | a read with a default never fails |
| MagnifierSettings.MagnifierKey.GetValue | addon/globalPlugins/winMag.py:63-74 | the read returns LookupValue of the key's contents and changes nothing |
| MagnifierSettings.StoreValue | addon/globalPlugins/winMag.py:76-82 | a write adds the canonical name to the key's names and nothing else |
| MagnifierSettings.MagnifierKey.SetValue | addon/globalPlugins/winMag.py:76-82 | the key afterwards is the old key with the canonical name bound to the value; every name stays canonical |
| MagnifierSettings.ReadAfterWrite | addon/globalPlugins/winMag.py:76-82 | a written value is read back under any spelling of its name |
| MagnifierSettings.WriteLeavesOthers | addon/globalPlugins/winMag.py:76-82 | a write leaves the reading of every other name unchanged, defaults and missing names included |
| MagnifierSettings.Toggled | addon/globalPlugins/winMag.py:84-86 | the toggle of a value is 0 or 1, and it is 0 exactly when the value was 1 |
| MagnifierSettings.MagnifierKey.ToggleValue | addon/globalPlugins/winMag.py:84-88 | a failed read raises and writes nothing; otherwise the toggled value is written under the name and returned, and nothing else changes |
| MagnifierSettings.ToggleTwiceRestores | addon/globalPlugins/winMag.py:84-88 | two toggles in a row restore a value of 0 or 1 |
| MagnifierSettings.ToggleTwiceFromTwo | addon/globalPlugins/winMag.py:84-88 | a stored 2 becomes 1 and then 0, so two toggles do not restore it |
| MagnifierSettings.IsMagnifierRunning | addon/globalPlugins/winMag.py:90-91 | the truth value of the resolved RunningState (default 0): the Magnifier counts as running exactly when RunningState is stored with a non-zero value |
| MagnifierSettings.IsFullScreenView | addon/globalPlugins/winMag.py:93-94 | MagnificationMode resolving (default 2) to the full-screen view: the view counts as full screen exactly when MagnificationMode is absent or stores 2 |
| MagnifierSettings.EmptyKeyDefaults | addon/globalPlugins/winMag.py:53-61 | with an empty key the Magnifier counts as off and the view as full screen |
| Confirmation.WaitForValueChangeForAction | addon/globalPlugins/winMag.py:113-123 | the loop performs the unique number of post-action fetches the stopping rule allows, returns the last fetched value, which is the reference search's value, reports 30 ms elapsed per re-read, and its steps are: fetch, send, fetch, then sleep-and-fetch pairs |
| Confirmation.StopReadFrom | addon/globalPlugins/winMag.py:118-122 | the recursive search, started at a fetch before which the loop would have continued, ends at a fetch where the loop stops |
| Confirmation.StopReadIsWaitOutcome | addon/globalPlugins/winMag.py:118-122 | the reference search always finds a stopping fetch, so the wait terminates |
| Confirmation.WaitOutcomeUnique | addon/globalPlugins/winMag.py:118-122 | the stopping rule admits one number of fetches only |
| Confirmation.WaitOutcomeIsStopRead | addon/globalPlugins/winMag.py:118-122 | every number of fetches the stopping rule admits is the reference search's |
| Confirmation.WaitIsBounded | addon/globalPlugins/winMag.py:118-122 | the last fetch happens less than one poll period after the timeout, so there are at most ceil(timeout / 30 ms) re-reads |
| Confirmation.UnchangedMeansTimedOut | addon/globalPlugins/winMag.py:118 | when the returned value equals the pre-action value, the elapsed time is at least the timeout |
| Confirmation.NoWriterReturnsOldValue | addon/globalPlugins/winMag.py:113-123 | when no fetch ever differs, the wait returns the pre-action value after exactly ceil(timeout / 30 ms) re-reads |
| Confirmation.Trace | addon/globalPlugins/winMag.py:114-122 | a wait with n post-action fetches takes 2n + 1 steps, starts with the pre-action fetch and the send, and ends with the fetch of the returned value |
| Confirmation.SentOnceAfterFirstFetch | addon/globalPlugins/winMag.py:114-117 | the gesture is sent exactly once, after the pre-action fetch and before every other fetch |
| Decimal.NatToString | addon/globalPlugins/winMag.py:294 | the rendering of a natural number is a non-empty string of digits without a leading zero, and it starts with '0' exactly for 0 |
| Decimal.IntToString | addon/globalPlugins/winMag.py:294 | the rendering is non-empty and starts with '-' exactly for a negative number; no zero follows the sign and a numeral of several digits does not start with zero, so 0 is "0", never "-0" or "05" |
| Decimal.NatRoundTrip | addon/globalPlugins/winMag.py:294 | parsing the rendering of a natural number gives that number |
| Decimal.IntRoundTrip | addon/globalPlugins/winMag.py:294 | parsing the rendering of any integer gives that integer |
| Decimal.IntToStringInjective | addon/globalPlugins/winMag.py:294 | distinct integers are rendered differently |
| WinMagPlugin.ScriptRoute | addon/globalPlugins/winMag.py:135-174 | a script forwards its gesture exactly when it is zoom-out, quit, inversion or view and the Magnifier is off; a guarded script reports "not active" exactly when the Magnifier is off and runs its body exactly when it is on; the running-state path is taken by zoom-in when off and quit when on; the zoom path by zoom-in or zoom-out when on; the inversion path exactly by inversion when on, and the view path exactly by view when on |
| WinMagPlugin.OnlyIfMagRunning | addon/globalPlugins/winMag.py:96-109 | the wrapper refuses with "not active" exactly when the Magnifier is not running, and otherwise leaves the decorated script's route as it is |
| WinMagPlugin.InactiveScripts | addon/globalPlugins/winMag.py:96-174 | with RunningState resolving to 0, guarded scripts report "not active", zoom-out, quit, inversion and view forward the gesture, and zoom-in takes the running-state path |
| WinMagPlugin.RunningStateMessage | addon/globalPlugins/winMag.py:281-288 | RunningState 1 gives exactly "Magnifier on" and 0 exactly "Magnifier off"; any other value raises ValueError naming RunningState and the value |
| WinMagPlugin.ColorInversionMessage | addon/globalPlugins/winMag.py:299-306 | Invert 1 gives exactly "Color inversion on" and 0 exactly "Color inversion off"; any other value raises ValueError naming Invert and the value |
| WinMagPlugin.MagnificationViewMessage | addon/globalPlugins/winMag.py:311-321 | MagnificationMode 1, 2 and 3 give exactly "Docked", "Full screen" and "Lens"; any other value raises ValueError naming MagnificationMode and the value |
| WinMagPlugin.ZoomLevelMessage | addon/globalPlugins/winMag.py:294 | the zoom announcement is a decimal numeral followed by '%', written as Python prints it (no leading zero, no "-0"), and that numeral reads back as the observed level |
| WinMagPlugin.MessagesIdentifyValue | addon/globalPlugins/winMag.py:278-321 | the on/off and view messages are distinct for distinct values |
| WinMagPlugin.ZoomLevelMessageIdentifiesLevel | addon/globalPlugins/winMag.py:290-294 | two equal zoom announcements come from the same level |
| WinMagPlugin.SettingFetcher | addon/globalPlugins/winMag.py:279 | the i-th fetch is what a read of the setting with its default returns on the i-th snapshot of the key, so it never fails |
| WinMagPlugin.ZoomInWhenOffStartsMagnifier | addon/globalPlugins/winMag.py:135-139 | zoom-in with the Magnifier off announces "Magnifier on" when the wait observes RunningState 1 |
| WinMagPlugin.ModifyRunningState | addon/globalPlugins/winMag.py:278-288 | the gesture is sent, and the reply is the RunningState mapping of the value the 2000 ms wait returns |
| WinMagPlugin.ModifyZoomLevel | addon/globalPlugins/winMag.py:290-294 | the gesture is sent, and the reply is the zoom announcement of the value the 200 ms wait returns |
| WinMagPlugin.ModifyColorInversion | addon/globalPlugins/winMag.py:296-306 | the gesture is sent, and the reply is the Invert mapping of the value the 500 ms wait returns |
| WinMagPlugin.ModifyMagnificationView | addon/globalPlugins/winMag.py:308-321 | the gesture is sent, and the reply is the view mapping of the value the 200 ms wait returns |
| WinMagPlugin.ToggleScriptFlipsOneSetting | addon/globalPlugins/winMag.py:181-276 | a toggle script does not send its gesture, writes the toggle of its setting's resolved value, announces that value, and leaves every other setting unchanged |
| WinMagPlugin.ScriptToggleSetting | addon/globalPlugins/winMag.py:181-256 | the key and the reply after a single toggle script are those of ToggleEffect on the old key |
| WinMagPlugin.ScriptToggleMouseCursorTrackingMode | addon/globalPlugins/winMag.py:263-276 | outside full-screen view nothing is written and the full-screen-only message is given; in full-screen view FullScreenTrackingMode is toggled and announced |
| WinMagPlugin.StoreAllLookup | addon/globalPlugins/winMag.py:234-235 | after writing one value under a list of names, each listed name reads that value and every other name reads as before |
| WinMagPlugin.TrackingNamesNormalized | addon/globalPlugins/winMag.py:227 | the three tracking names denote the entries followcaret, followfocus and followmouse |
| WinMagPlugin.TrackingKeys | addon/globalPlugins/winMag.py:227 | the tracking names denote exactly those three entries |
| WinMagPlugin.TrackingTarget | addon/globalPlugins/winMag.py:229-233 | the value written is 1 exactly when all three flags resolve to 0, and 0 otherwise |
| WinMagPlugin.ToggleTrackingEffect | addon/globalPlugins/winMag.py:226-241 | toggle-all writes one value to the three flags and to no other entry, and announces "Tracking on" exactly when all three were off |
| WinMagPlugin.MixedTrackingTurnsOff | addon/globalPlugins/winMag.py:229-241 | caret off, focus on, mouse off: all three are turned off and "Tracking off" is announced |
| WinMagPlugin.ScriptToggleTracking | addon/globalPlugins/winMag.py:226-241 | the three flags are read, the target value is written to each in order, and the matching summary is announced |
| WinMagPlugin.RunScript | addon/globalPlugins/winMag.py:96-174 | a script follows the route its running check selects: forwarding and "not active" write nothing, confirmations write nothing and reply with the confirmed mapping, and a guarded body has the effect of its handler |

## Left out

- Opening the registry key (`winreg.OpenKey`), the REG_DWORD type and the WOW64 flags: the key
  is a map that is always available, so the failure to open it is not modelled.
- Value names are case-folded for ASCII letters only; the registry's folding of non-ASCII
  letters is not modelled (every name the add-on uses is ASCII).
- Values are unbounded integers; the 32-bit range of REG_DWORD is not modelled.
- `time.time()` and `time.sleep()`: the clock is an abstract millisecond counter that advances
  by exactly one poll period per pass, and fetches take no time.
- `gesture.send()` and the Magnifier process reacting to it: what the Magnifier writes is seen
  only through the fetch results (`fetch`, `snapshots`); those writes are not applied to the
  `MagnifierKey` object, and the running check of `RunScript` reads that object.
- `WaitForValueChangeForAction`: besides the value, it returns the number of post-action
  fetches, the elapsed milliseconds and the trace of its steps, which the add-on does not keep.
- Speech (`ui.message`), translation (`_()`), `log.debug`, the add-on summary and the
  commented-out add-on initialisation: an announcement is the reply a script ends with.
- The NVDA framework: the `GlobalPlugin` base class, the `@script` decorator, gesture
  bindings, descriptions and the script category; a script is selected by a `Command` value.
