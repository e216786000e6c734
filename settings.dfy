/**
 * The Magnifier's settings under HKEY_CURRENT_USER\Software\Microsoft\ScreenMagnifier.
 *
 * The registry key is modelled as a map from value names to integers (every value the
 * add-on reads or writes is a REG_DWORD). Registry value names are compared without regard
 * to case, so the map is keyed by the lower-cased name: 'FollowCARET' and 'FollowCaret'
 * denote the same entry.
 */
module MagnifierSettings {
  import opened Wrappers

  // Magnifier view kinds, as stored in MagnificationMode
  const MagViewDocked := 1
  const MagViewFullScreen := 2
  const MagViewLens := 3

  // Values the Magnifier assumes when a name is absent from the key
  const DefaultFollowCaret := 0
  const DefaultFollowFocus := 0
  const DefaultFollowMouse := 1
  const DefaultFullScreenTrackingMode := 0
  const DefaultInvert := 1
  const DefaultMagnification := 200
  const DefaultMagnificationMode := MagViewFullScreen
  const DefaultRunningState := 0
  const DefaultUseBitmapSmoothing := 1

  predicate IsUpper(c: char) {
    'A' <= c <= 'Z'
  }

  /** ASCII lower-casing of one character of a value name. */
  function Lower(c: char): (r: char)
    ensures !IsUpper(r)
    ensures !IsUpper(c) ==> r == c
    ensures IsUpper(c) ==> r as int - c as int == 'a' as int - 'A' as int
  {
    if IsUpper(c) then (c as int - 'A' as int + 'a' as int) as char else c
  }

  /** The canonical form of a value name: the registry entry it denotes. */
  function Normalize(name: string): (key: string)
    ensures |key| == |name|
    ensures forall i :: 0 <= i < |key| ==> key[i] == Lower(name[i]) && !IsUpper(key[i])
  {
    seq(|name|, i requires 0 <= i < |name| => Lower(name[i]))
  }

  /** Two names denote one registry entry exactly when they agree ignoring case. */
  lemma SameEntryIffEqualIgnoringCase(a: string, b: string)
    ensures Normalize(a) == Normalize(b) <==> |a| == |b| && forall i :: 0 <= i < |a| ==> Lower(a[i]) == Lower(b[i])
  {
    // Both directions follow pointwise from the contract of Normalize.
  }

  /** Canonical names are fixed points of Normalize. */
  predicate IsCanonical(name: string) {
    Normalize(name) == name
  }

  lemma NormalizeIsCanonical(name: string)
    ensures IsCanonical(Normalize(name))
  {
    // Lower leaves the characters it produces unchanged.
  }

  /** The two spellings the add-on uses for the caret-tracking flag name one entry. */
  lemma CaretTrackingSpellingsAgree()
    ensures Normalize("FollowCARET") == Normalize("FollowCaret") == "followcaret"
  {
    // Each character is folded by Lower.
  }

  datatype StoreError = NotFound(name: string)

  /**
   * getMagnifierKeyValue on the key contents `values`: the stored value if the name is
   * present, otherwise the default when one is given (0 included), otherwise the error the
   * registry query raised.
   */
  function LookupValue(values: map<string, int>, name: string, default: Option<int>): (r: Result<int, StoreError>)
    ensures r.Failure? <==> Normalize(name) !in values && default.None?
    ensures Normalize(name) in values ==> r == Success(values[Normalize(name)])
    ensures Normalize(name) !in values && default.Some? ==> r == Success(default.value)
    ensures r.Failure? ==> r.error == NotFound(name)
  {
    var key := Normalize(name);
    if key in values then Success(values[key])
    else if default.Some? then Success(default.value)
    else Failure(NotFound(name))
  }

  /** A read with a default always resolves to a value. */
  function ResolvedValue(values: map<string, int>, name: string, default: int): (v: int)
    ensures LookupValue(values, name, Some(default)) == Success(v)
  {
    LookupValue(values, name, Some(default)).value
  }

  /** setMagnifierKeyValue: the key contents after writing `val` under `name`. */
  function StoreValue(values: map<string, int>, name: string, val: int): (r: map<string, int>)
    ensures r.Keys == values.Keys + {Normalize(name)}
  {
    values[Normalize(name) := val]
  }

  /** The value toggleMagnifierKeyValue writes: only 1 becomes 0, every other value becomes 1. */
  function Toggled(val: int): (r: int)
    ensures r == 0 || r == 1
    ensures r == 0 <==> val == 1
  {
    if val == 1 then 0 else 1
  }

  /**
   * isMagnifierRunning, used as a truth value: RunningState resolves to a non-zero value, so
   * the Magnifier counts as running exactly when RunningState is stored and non-zero.
   */
  predicate IsMagnifierRunning(values: map<string, int>)
    ensures IsMagnifierRunning(values) <==> "runningstate" in values && values["runningstate"] != 0
  {
    RunningStateName();
    ResolvedValue(values, "RunningState", DefaultRunningState) != 0
  }

  /**
   * isFullScreenView: MagnificationMode resolves to the full-screen view, so the view counts as
   * full screen exactly when MagnificationMode is absent or stores 2.
   */
  predicate IsFullScreenView(values: map<string, int>)
    ensures IsFullScreenView(values) <==> "magnificationmode" !in values || values["magnificationmode"] == MagViewFullScreen
  {
    MagnificationModeName();
    ResolvedValue(values, "MagnificationMode", DefaultMagnificationMode) == MagViewFullScreen
  }

  /** With every stored name canonical, each entry is read back by its own name. */
  lemma CanonicalEntriesReadBack(values: map<string, int>)
    requires forall name :: name in values ==> IsCanonical(name)
    ensures forall name :: name in values ==> LookupValue(values, name, None) == Success(values[name])
  {
  }

  /** A write is read back under any spelling of the same name. */
  lemma ReadAfterWrite(values: map<string, int>, written: string, read: string, val: int, default: Option<int>)
    requires Normalize(written) == Normalize(read)
    ensures LookupValue(StoreValue(values, written, val), read, default) == Success(val)
  {
  }

  /** A write leaves every other entry as it was, defaults and missing names included. */
  lemma WriteLeavesOthers(values: map<string, int>, written: string, read: string, val: int, default: Option<int>)
    requires Normalize(written) != Normalize(read)
    ensures LookupValue(StoreValue(values, written, val), read, default) == LookupValue(values, read, default)
  {
  }

  /** The registry entry RunningState denotes. */
  lemma RunningStateName()
    ensures Normalize("RunningState") == "runningstate"
  {
    // Each character is folded by Lower.
  }

  /** The registry entry MagnificationMode denotes. */
  lemma MagnificationModeName()
    ensures Normalize("MagnificationMode") == "magnificationmode"
  {
    // Each character is folded by Lower.
  }

  /** With the key empty the Magnifier counts as off and its view as full screen. */
  lemma EmptyKeyDefaults()
    ensures !IsMagnifierRunning(map[])
    ensures IsFullScreenView(map[])
  {
  }

  /** Two toggles in a row give back a value of 0 or 1, whether stored or defaulted. */
  lemma ToggleTwiceRestores(values: map<string, int>, name: string, default: Option<int>)
    requires LookupValue(values, name, default).Success?
    requires LookupValue(values, name, default).value in {0, 1}
    ensures var v := LookupValue(values, name, default).value;
            var once := StoreValue(values, name, Toggled(v));
            var twice := StoreValue(once, name, Toggled(LookupValue(once, name, default).value));
            LookupValue(twice, name, default) == Success(v)
  {
  }

  /** A stored 2 is not restored by two toggles: it becomes 1, then 0. */
  lemma ToggleTwiceFromTwo(values: map<string, int>, name: string, default: Option<int>)
    requires LookupValue(values, name, default) == Success(2)
    ensures var once := StoreValue(values, name, Toggled(2));
            LookupValue(once, name, default) == Success(1) &&
            LookupValue(StoreValue(once, name, Toggled(1)), name, default) == Success(0)
  {
  }

  /** The registry key, whose values the add-on reads, writes and toggles in place. */
  class MagnifierKey {
    var values: map<string, int>

    /**
     * Every entry is stored under its canonical name, so no two entries denote the same
     * registry value and each is read back by its own name (CanonicalEntriesReadBack).
     */
    ghost predicate Valid()
      reads this
    {
      forall name :: name in values ==> IsCanonical(name)
    }

    constructor (initial: map<string, int>)
      requires forall name :: name in initial ==> IsCanonical(name)
      ensures Valid() && values == initial
    {
      values := initial;
    }

    /** getMagnifierKeyValue: reads one value, and changes nothing. */
    method GetValue(name: string, default: Option<int>) returns (r: Result<int, StoreError>)
      ensures r == LookupValue(values, name, default)
    {
      var key := Normalize(name);
      if key in values {
        r := Success(values[key]);
      } else if default.Some? {
        r := Success(default.value);
      } else {
        r := Failure(NotFound(name));
      }
    }

    /** setMagnifierKeyValue: writes one value. */
    method SetValue(name: string, val: int)
      requires Valid()
      modifies this
      ensures Valid()
      ensures values == StoreValue(old(values), name, val)
    {
      NormalizeIsCanonical(name);
      values := values[Normalize(name) := val];
    }

    /**
     * toggleMagnifierKeyValue: reads the value (an absent name with no default raises
     * before anything is written), writes its toggle and returns it.
     */
    method ToggleValue(name: string, default: Option<int>) returns (r: Result<int, StoreError>)
      requires Valid()
      modifies this
      ensures Valid()
      ensures match LookupValue(old(values), name, default)
        case Failure(e) => r == Failure(e) && values == old(values)
        case Success(v) => r == Success(Toggled(v)) && values == StoreValue(old(values), name, Toggled(v))
    {
      r := GetValue(name, default);
      if r.Success? {
        var val := if r.value == 1 then 0 else 1;
        SetValue(name, val);
        r := Success(val);
      }
    }
  }
}
