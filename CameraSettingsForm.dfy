/**
 * The view-mapping part of the camera settings dialog:
 *   - the "ifName::device" mapping keys and their parsing;
 *   - the six mapping combos (View1..View6 -> Cam1..Cam6), their shared
 *     item list, and the rule that one physical camera is selected in at
 *     most one combo;
 *   - the auto-assign button and the write-back of the combos into the
 *     camera slots;
 *   - the parsing of HALCON device descriptors into list entries.
 *
 * A combo is modelled by its selected text ("" for no selection or for the
 * empty item). The WinForms SelectedItem setter selects a value only when
 * the item list holds it (ordinal equality) and raises SelectedIndexChanged
 * only when the selection changes; the dialog handles that event with
 * OnMappingComboChanged.
 */
module SettingsDialog {
  import opened Wrappers
  import opened Text
  import opened Models
  import opened HalconCameraHelper
  import opened UniqueKeys
  import CameraSettingsStore

  // ---------------------------------------------------------------------
  // Mapping keys
  // ---------------------------------------------------------------------

  const KEY_SEPARATOR: string := "::"

  /** A key as BuildKey produces it and the item list holds it: empty, or not blank. */
  predicate WellFormedKey(k: string) {
    k == "" || !IsBlank(k)
  }

  lemma BuildKeyWellFormed(cfg: CameraConfig)
    ensures WellFormedKey(CameraSettingsStore.BuildKey(cfg))
  {
    var k := CameraSettingsStore.BuildKey(cfg);
    if k != "" {
      assert k[0] == ToHalconInterfaceName(cfg.interfaceType)[0];
    }
  }

  /**
   * TryParseKey: the trimmed key split at its first "::" into an interface
   * name and a device; fails on a blank key, a missing separator, a
   * separator at the start or at the end, or a blank part.
   */
  function TryParseKey(key: string): (r: Option<(string, string)>)
    ensures IsBlank(key) ==> r.None?
    ensures r.Some? ==> !IsBlank(r.value.0) && !IsBlank(r.value.1)
    ensures r.Some? ==> Trim(key) == r.value.0 + KEY_SEPARATOR + r.value.1
    ensures r.Some? ==> IndexOf(Trim(key), KEY_SEPARATOR) == Some(|r.value.0|)
  {
    if IsBlank(key) then None
    else
      var s := Trim(key);
      var idx := IndexOf(s, KEY_SEPARATOR);
      if idx.None? || idx.value <= 0 || idx.value >= |s| - 2 then None
      else
        SplitAtOccurrence(s, KEY_SEPARATOR, idx.value);
        var ifName := s[..idx.value];
        var device := s[idx.value + 2..];
        if IsBlank(ifName) || IsBlank(device) then None else Some((ifName, device))
  }

  /** An interface name without ':' joined to a device by "::" parses back into the two. */
  lemma ParseJoin(ifName: string, device: string)
    requires !IsBlank(ifName) && !IsBlank(device)
    requires forall i :: 0 <= i < |ifName| ==> ifName[i] != ':'
    requires Trimmed(ifName + KEY_SEPARATOR + device)
    ensures TryParseKey(ifName + KEY_SEPARATOR + device) == Some((ifName, device))
  {
    var s := ifName + KEY_SEPARATOR + device;
    FirstSeparator(ifName, device);
    JoinParts(ifName, KEY_SEPARATOR, device);
  }

  /** A string is the part before an occurrence of `sep`, `sep`, and the part after. */
  lemma SplitAtOccurrence(s: string, sep: string, k: nat)
    requires OccursAt(s, sep, k)
    ensures s == s[..k] + sep + s[k + |sep|..]
  {
    var t := s[..k] + sep + s[k + |sep|..];
    assert forall i :: 0 <= i < |s| ==> t[i] == s[i] by {
      forall i | 0 <= i < |s| ensures t[i] == s[i] {
        if k <= i < k + |sep| {
          assert t[i] == sep[i - k] == s[k..k + |sep|][i - k];
        }
      }
    }
  }

  /** The parts of a join are its slices. */
  lemma JoinParts(a: string, sep: string, b: string)
    ensures (a + sep + b)[..|a|] == a && (a + sep + b)[|a| + |sep|..] == b
  {
  }

  /** In `ifName + "::" + device` with no ':' in ifName, the first "::" is the one after ifName. */
  lemma FirstSeparator(ifName: string, device: string)
    requires forall i :: 0 <= i < |ifName| ==> ifName[i] != ':'
    ensures IndexOf(ifName + KEY_SEPARATOR + device, KEY_SEPARATOR) == Some(|ifName|)
  {
    var s := ifName + KEY_SEPARATOR + device;
    assert OccursAt(s, KEY_SEPARATOR, |ifName|) by {
      assert s[|ifName|..|ifName| + 2] == KEY_SEPARATOR;
    }
    forall k: nat | k < |ifName| ensures !OccursAt(s, KEY_SEPARATOR, k) {
      if k + 2 <= |s| {
        assert s[k..k + 2][0] == s[k] == ifName[k];
      }
    }
    match IndexOf(s, KEY_SEPARATOR)
    case Some(idx) =>
    case None =>
  }

  /** A non-empty key of a slot parses back into the slot's interface name and trimmed device. */
  lemma KeyRoundTrip(cfg: CameraConfig)
    ensures var k := CameraSettingsStore.BuildKey(cfg);
      k != "" ==> TryParseKey(k) == Some((ToHalconInterfaceName(cfg.interfaceType), Trim(cfg.device)))
  {
    var k := CameraSettingsStore.BuildKey(cfg);
    if k != "" {
      var ifName := ToHalconInterfaceName(cfg.interfaceType);
      var dev := Trim(cfg.device);
      JoinTrimmed(ifName, dev);
      ParseJoin(ifName, dev);
    }
  }

  /** A join that starts with a non-space and ends with a non-empty trimmed device is trimmed. */
  lemma JoinTrimmed(ifName: string, dev: string)
    requires |ifName| > 0 && !IsWhiteSpace(ifName[0])
    requires dev != "" && Trimmed(dev)
    ensures !IsBlank(ifName) && !IsBlank(dev)
    ensures Trimmed(ifName + KEY_SEPARATOR + dev)
  {
    var s := ifName + KEY_SEPARATOR + dev;
    assert s[0] == ifName[0] && s[|s| - 1] == dev[|dev| - 1];
  }

  /**
   * ApplyOne: the key selected in a combo written into its slot. An empty
   * key resets the device to "default"; a key that parses sets the device
   * and the interface; any other text becomes the device, trimmed.
   */
  function ApplyOne(cfg: CameraConfig, key: string): (c: CameraConfig)
    ensures c.(device := cfg.device, interfaceType := cfg.interfaceType) == cfg
    ensures TryParseKey(key).None? ==> c.interfaceType == cfg.interfaceType
    ensures IsBlank(key) ==> c.device == DEFAULT_DEVICE
    ensures !IsBlank(key) && TryParseKey(key).None? ==> c.device == Trim(key)
    ensures TryParseKey(key).Some? ==>
      c.device == TryParseKey(key).value.1 && c.interfaceType == FromHalconInterfaceName(TryParseKey(key).value.0)
  {
    if IsBlank(key) then cfg.(device := DEFAULT_DEVICE)
    else
      match TryParseKey(key)
      case Some((ifName, dev)) => cfg.(device := dev, interfaceType := FromHalconInterfaceName(ifName))
      case None => cfg.(device := Trim(key))
  }

  /**
   * Writing a slot's own key back into it keeps the key: an empty key
   * leaves the device "default", any other restores the interface and the
   * trimmed device.
   */
  lemma ApplyOwnKey(cfg: CameraConfig)
    ensures var k := CameraSettingsStore.BuildKey(cfg);
      ApplyOne(cfg, k) == if k == "" then cfg.(device := DEFAULT_DEVICE) else cfg.(device := Trim(cfg.device))
    ensures CameraSettingsStore.BuildKey(ApplyOne(cfg, CameraSettingsStore.BuildKey(cfg))) == CameraSettingsStore.BuildKey(cfg)
  {
    if CameraSettingsStore.BuildKey(cfg) == "" {
      ApplyEmptyKey(cfg);
    } else {
      ApplyNonEmptyKey(cfg);
    }
  }

  lemma ApplyEmptyKey(cfg: CameraConfig)
    requires CameraSettingsStore.BuildKey(cfg) == ""
    ensures ApplyOne(cfg, "") == cfg.(device := DEFAULT_DEVICE)
    ensures CameraSettingsStore.BuildKey(cfg.(device := DEFAULT_DEVICE)) == ""
  {
    assert Trimmed(DEFAULT_DEVICE) && DEFAULT_DEVICE[0] == 'd';
  }

  lemma ApplyNonEmptyKey(cfg: CameraConfig)
    requires CameraSettingsStore.BuildKey(cfg) != ""
    ensures ApplyOne(cfg, CameraSettingsStore.BuildKey(cfg)) == cfg.(device := Trim(cfg.device))
    ensures CameraSettingsStore.BuildKey(cfg.(device := Trim(cfg.device))) == CameraSettingsStore.BuildKey(cfg)
  {
    var k := CameraSettingsStore.BuildKey(cfg);
    BuildKeyWellFormed(cfg);
    KeyRoundTrip(cfg);
    assert TryParseKey(k) == Some((ToHalconInterfaceName(cfg.interfaceType), Trim(cfg.device)));
    InterfaceNameRoundTrip(cfg.interfaceType);
    var c := ApplyOne(cfg, k);
    assert c.device == Trim(cfg.device) && c.interfaceType == cfg.interfaceType;
    TrimIdempotent(cfg.device);
    TrimKeepsBlankness(cfg.device);
  }

  // ---------------------------------------------------------------------
  // Device descriptors
  // ---------------------------------------------------------------------

  const EMPTY_DEVICE_DISPLAY: string := "(空)"
  const UNIQUE_NAME_FIELD: string := "unique_name"
  const USER_NAME_FIELD: string := "user_name"

  /** The first position at or after `k` that is not white space. */
  function SkipWhiteSpace(s: string, k: nat): (r: nat)
    requires k <= |s|
    ensures k <= r <= |s|
    ensures forall i :: k <= i < r ==> IsWhiteSpace(s[i])
    ensures r < |s| ==> !IsWhiteSpace(s[r])
    decreases |s| - k
  {
    if k < |s| && IsWhiteSpace(s[k]) then SkipWhiteSpace(s, k + 1) else k
  }

  /** The end of the run of characters other than '|' that starts at `k`. */
  function RunEnd(s: string, k: nat): (r: nat)
    requires k <= |s|
    ensures k <= r <= |s|
    ensures forall i :: k <= i < r ==> s[i] != '|'
    ensures r < |s| ==> s[r] == '|'
    decreases |s| - k
  {
    if k < |s| && s[k] != '|' then RunEnd(s, k + 1) else k
  }

  /**
   * The pattern `field\s*:\s*([^|]+)` tried at position `p`: the capture,
   * trimmed, when it matches there.
   */
  function FieldAt(s: string, field: string, p: nat): (r: Option<string>)
    requires p <= |s|
    ensures r.Some? ==> OccursAt(s, field, p)
    ensures r.Some? ==> Trimmed(r.value) && forall i :: 0 <= i < |r.value| ==> r.value[i] != '|'
  {
    if !OccursAt(s, field, p) then None
    else ColonValue(s, SkipWhiteSpace(s, p + |field|))
  }

  /** The rest of the pattern, `:\s*([^|]+)`, tried at `q`. */
  function ColonValue(s: string, q: nat): (r: Option<string>)
    requires q <= |s|
    ensures r.Some? ==> Trimmed(r.value) && forall i :: 0 <= i < |r.value| ==> r.value[i] != '|'
  {
    if q + 1 < |s| && s[q] == ':' && s[q + 1] != '|' then Some(Capture(s, q + 1))
    else None
  }

  /** The run of characters other than '|' from `k`, trimmed. */
  function Capture(s: string, k: nat): (r: string)
    requires k <= |s|
    ensures Trimmed(r)
    ensures forall i :: 0 <= i < |r| ==> r[i] != '|'
  {
    var run := s[k..RunEnd(s, k)];
    TrimChars(run);
    Trim(run)
  }

  /** The first match of the pattern at or after `p`. */
  function ExtractFrom(s: string, field: string, p: nat): (r: string)
    requires p <= |s|
    ensures Trimmed(r)
    ensures forall i :: 0 <= i < |r| ==> r[i] != '|'
    ensures (forall k: nat :: p <= k <= |s| ==> !OccursAt(s, field, k)) ==> r == ""
    decreases |s| - p
  {
    match FieldAt(s, field, p)
    case Some(v) => v
    case None => if p == |s| then "" else ExtractFrom(s, field, p + 1)
  }

  /** ExtractField: the trimmed value of `field:value` up to the next '|', or "" when there is none. */
  function ExtractField(s: string, field: string): (r: string)
    ensures Trimmed(r)
    ensures forall i :: 0 <= i < |r| ==> r[i] != '|'
    ensures (forall k: nat :: k <= |s| ==> !OccursAt(s, field, k)) ==> r == ""
  {
    ExtractFrom(s, field, 0)
  }

  /** The characters of Trim(s) are characters of `s`. */
  lemma TrimChars(s: string)
    ensures forall i :: 0 <= i < |Trim(s)| ==> Trim(s)[i] in s
  {
    var t := TrimStart(s);
    assert forall i :: 0 <= i < |t| ==> t[i] == s[|s| - |t| + i];
  }

  /** The number of occurrences of `c` in `s`. */
  function CountChar(s: string, c: char): (n: nat)
    ensures n <= |s|
  {
    if s == [] then 0 else (if s[0] == c then 1 else 0) + CountChar(s[1..], c)
  }

  /** One entry of the device list: what it shows and the device token it stands for. */
  datatype DeviceEntry = DeviceEntry(display: string, token: string)

  /**
   * ParseDeviceDescriptor: a blank descriptor gives ("(空)", ""); otherwise
   * the token is "unique_name:" + the unique_name field when there is one,
   * else the trimmed descriptor. The display prefers a readable user_name.
   */
  function ParseDeviceDescriptor(raw: string): (e: DeviceEntry)
    ensures IsBlank(raw) <==> e == DeviceEntry(EMPTY_DEVICE_DISPLAY, "")
    ensures !IsBlank(raw) ==> !IsBlank(e.token) && Trimmed(e.token)
  {
    var s := Trim(raw);
    if s == "" then DeviceEntry(EMPTY_DEVICE_DISPLAY, "")
    else
      var unique := ExtractField(s, UNIQUE_NAME_FIELD);
      var user := ExtractField(s, USER_NAME_FIELD);
      var token := if !IsBlank(unique) then UNIQUE_NAME + unique else s;
      var display := DeviceDisplay(s, unique, user);
      assert !IsBlank(token) && Trimmed(token) by {
        if !IsBlank(unique) {
          PrefixedTrimmed(UNIQUE_NAME, unique);
        } else {
          assert !IsWhiteSpace(s[0]);
        }
      }
      DeviceEntry(display, token)
  }

  /** The text shown for a device: a readable user_name with the unique_name after it, else the unique_name, else the descriptor. */
  function DeviceDisplay(s: string, unique: string, user: string): string {
    if !IsBlank(user) && CountChar(user, '?') < 3 then Trim(user + "  (" + unique + ")")
    else if !IsBlank(unique) then unique
    else s
  }

  /** A trimmed non-empty string after a prefix that starts with a visible character is trimmed and not blank. */
  lemma PrefixedTrimmed(p: string, v: string)
    requires |p| > 0 && !IsWhiteSpace(p[0]) && |v| > 0 && Trimmed(v)
    ensures Trimmed(p + v) && !IsBlank(p + v)
  {
    assert (p + v)[0] == p[0] && (p + v)[|p + v| - 1] == v[|v| - 1];
  }

  /** A descriptor without a unique_name field is its own token, trimmed. */
  lemma TokenWithoutUniqueName(raw: string)
    requires !IsBlank(raw)
    requires forall k: nat :: k <= |Trim(raw)| ==> !OccursAt(Trim(raw), UNIQUE_NAME_FIELD, k)
    ensures ParseDeviceDescriptor(raw).token == Trim(raw)
  {
  }

  /** ExtractFrom gives the value of the first match at or after `p`. */
  lemma {:induction false} ExtractFromFirstMatch(s: string, field: string, p: nat, m: nat)
    requires p <= m <= |s| && FieldAt(s, field, m).Some?
    requires forall k: nat :: p <= k < m ==> FieldAt(s, field, k).None?
    ensures ExtractFrom(s, field, p) == FieldAt(s, field, m).value
    decreases m - p
  {
    if p < m {
      ExtractFromFirstMatch(s, field, p + 1, m);
    }
  }

  /** ExtractFrom gives "" when nothing matches at or after `p`. */
  lemma {:induction false} ExtractFromNoMatch(s: string, field: string, p: nat)
    requires p <= |s|
    requires forall k: nat :: p <= k <= |s| ==> FieldAt(s, field, k).None?
    ensures ExtractFrom(s, field, p) == ""
    decreases |s| - p
  {
    if p < |s| {
      ExtractFromNoMatch(s, field, p + 1);
    }
  }

  /**
   * The regular expression's leftmost match decides ExtractField: the value
   * captured at the first position where the pattern matches, and "" when it
   * matches nowhere.
   */
  lemma ExtractFieldFirstMatch(s: string, field: string, m: nat)
    requires m <= |s| && FieldAt(s, field, m).Some?
    requires forall k: nat :: k < m ==> FieldAt(s, field, k).None?
    ensures ExtractField(s, field) == FieldAt(s, field, m).value
  {
    ExtractFromFirstMatch(s, field, 0, m);
  }

  lemma ExtractFieldNoMatch(s: string, field: string)
    requires forall k: nat :: k <= |s| ==> FieldAt(s, field, k).None?
    ensures ExtractField(s, field) == ""
  {
    ExtractFromNoMatch(s, field, 0);
  }

  /** `field:value`, the value running to the next '|' or the end, matches where the field starts and captures the value trimmed. */
  lemma FieldAtValue(pre: string, field: string, value: string, rest: string)
    requires |value| > 0 && forall i :: 0 <= i < |value| ==> value[i] != '|'
    requires rest == [] || rest[0] == '|'
    ensures FieldAt(pre + field + [':'] + value + rest, field, |pre|) == Some(Trim(value))
  {
    var s := pre + field + [':'] + value + rest;
    var q := |pre| + |field|;
    assert OccursAt(s, field, |pre|) by { assert s[|pre|..q] == field; }
    assert s[q] == ':' && SkipWhiteSpace(s, q) == q;
    assert s[q + 1] == value[0];
    assert RunEnd(s, q + 1) == q + 1 + |value| by {
      if rest != [] { assert s[q + 1 + |value|] == rest[0]; }
      assert forall i :: q + 1 <= i < q + 1 + |value| ==> s[i] == value[i - q - 1];
      RunEndOfRun(s, q + 1, q + 1 + |value|);
    }
    assert s[q + 1..q + 1 + |value|] == value;
    assert Capture(s, q + 1) == Trim(value);
    FieldAtColon(s, field, |pre|, q);
  }

  /** The pattern matches at `p` when the field is there, followed by ':' and a character other than '|'. */
  lemma FieldAtColon(s: string, field: string, p: nat, q: nat)
    requires OccursAt(s, field, p) && q == p + |field| && SkipWhiteSpace(s, q) == q
    requires q + 1 < |s| && s[q] == ':' && s[q + 1] != '|'
    ensures FieldAt(s, field, p) == Some(Capture(s, q + 1))
  {
    assert SkipWhiteSpace(s, p + |field|) == q;
    assert FieldAt(s, field, p) == ColonValue(s, q);
    assert ColonValue(s, q) == Some(Capture(s, q + 1));
  }

  /**
   * `field:value` after a prefix in which the pattern matches nowhere, the
   * value running to the next '|' or the end, yields the value trimmed.
   */
  lemma FieldAfter(pre: string, field: string, value: string, rest: string)
    requires |value| > 0 && forall i :: 0 <= i < |value| ==> value[i] != '|'
    requires rest == [] || rest[0] == '|'
    requires forall k: nat :: k < |pre| ==> FieldAt(pre + field + [':'] + value + rest, field, k).None?
    ensures ExtractField(pre + field + [':'] + value + rest, field) == Trim(value)
  {
    FieldAtValue(pre, field, value, rest);
    ExtractFieldFirstMatch(pre + field + [':'] + value + rest, field, |pre|);
  }

  /**
   * A descriptor whose first unique_name field is "unique_name:" + value,
   * the value running to the next '|' or the end and not blank, gives the
   * token "unique_name:" + the value trimmed.
   */
  lemma TokenOfUniqueName(raw: string, pre: string, value: string, rest: string)
    requires Trim(raw) == pre + UNIQUE_NAME + value + rest
    requires !IsBlank(value) && forall i :: 0 <= i < |value| ==> value[i] != '|'
    requires rest == [] || rest[0] == '|'
    requires forall k: nat :: k < |pre| ==> FieldAt(Trim(raw), UNIQUE_NAME_FIELD, k).None?
    ensures ParseDeviceDescriptor(raw).token == UNIQUE_NAME + Trim(value)
  {
    UniqueNameField(pre, value, rest);
    FieldAfter(pre, UNIQUE_NAME_FIELD, value, rest);
    TrimKeepsBlankness(value);
    TokenOfDescriptor(raw);
  }

  /** "unique_name:" is the field name followed by ':'. */
  lemma UniqueNameField(pre: string, value: string, rest: string)
    ensures pre + UNIQUE_NAME + value + rest == pre + UNIQUE_NAME_FIELD + [':'] + value + rest
  {
    assert UNIQUE_NAME == UNIQUE_NAME_FIELD + [':'];
  }

  /** A descriptor whose unique_name field is blank or missing is its own token, trimmed. */
  lemma TokenWithBlankField(raw: string)
    requires !IsBlank(raw) && IsBlank(ExtractField(Trim(raw), UNIQUE_NAME_FIELD))
    ensures ParseDeviceDescriptor(raw).token == Trim(raw)
  {
    TrimKeepsBlankness(raw);
  }

  /** The token of a descriptor with a non-blank unique_name field. */
  lemma TokenOfDescriptor(raw: string)
    requires Trim(raw) != "" && !IsBlank(ExtractField(Trim(raw), UNIQUE_NAME_FIELD))
    ensures ParseDeviceDescriptor(raw).token == UNIQUE_NAME + ExtractField(Trim(raw), UNIQUE_NAME_FIELD)
  {
  }

  /** The run of non-'|' characters from `k` ends at `e` when `e` is a '|' or the end. */
  lemma RunEndOfRun(s: string, k: nat, e: nat)
    requires k <= e <= |s|
    requires forall i :: k <= i < e ==> s[i] != '|'
    requires e < |s| ==> s[e] == '|'
    ensures RunEnd(s, k) == e
    decreases e - k
  {
    if k < e {
      RunEndOfRun(s, k + 1, e);
    }
  }

  /**
   * An enumerated device becomes the combo key "ifName::token"; writing that
   * key into a slot sets the slot's interface and its device to the token.
   */
  lemma EnumeratedKeyApplies(cfg: CameraConfig, t: CameraInterfaceType, raw: string)
    requires !IsBlank(raw)
    ensures var key := ToHalconInterfaceName(t) + KEY_SEPARATOR + ParseDeviceDescriptor(raw).token;
      ApplyOne(cfg, key) == cfg.(device := ParseDeviceDescriptor(raw).token, interfaceType := t)
  {
    TokenKeyApplies(cfg, t, ParseDeviceDescriptor(raw).token);
  }

  /** The key "ifName::token" of a trimmed, non-empty token sets the slot's interface and device. */
  lemma TokenKeyApplies(cfg: CameraConfig, t: CameraInterfaceType, token: string)
    requires |token| > 0 && Trimmed(token)
    ensures ApplyOne(cfg, ToHalconInterfaceName(t) + KEY_SEPARATOR + token) == cfg.(device := token, interfaceType := t)
  {
    var ifName := ToHalconInterfaceName(t);
    assert (ifName + KEY_SEPARATOR)[0] == ifName[0];
    PrefixedTrimmed(ifName + KEY_SEPARATOR, token);
    assert !IsBlank(token) by { assert !IsWhiteSpace(token[0]); }
    ParseJoin(ifName, token);
    InterfaceNameRoundTrip(t);
  }

  // ---------------------------------------------------------------------
  // The mapping combos
  // ---------------------------------------------------------------------

  /** The dialog's mapping state. */
  datatype DialogState = DialogState(
    settings: CameraSettings,     // the slots being edited, Cam1..Cam6
    items: seq<string>,           // the item list shared by the six combos
    selected: seq<string>,        // the selected text of the combos of views 1..6
    lastEnumerated: seq<string>,  // the devices of the last enumeration
    updating: bool)               // set while OnMappingComboChanged runs

  predicate Shaped(st: DialogState) {
    |st.settings| == SLOT_COUNT && |st.selected| == SLOT_COUNT
  }

  /** Six combos with nothing selected. */
  function Blanks(): (b: seq<string>)
    ensures |b| == SLOT_COUNT && forall i :: 0 <= i < |b| ==> b[i] == ""
  {
    seq(SLOT_COUNT, i => "")
  }

  /** The keys of the slots, Cam1..Cam6 in order. */
  function SavedKeys(settings: CameraSettings): (keys: seq<string>)
    ensures |keys| == |settings|
    ensures forall i :: 0 <= i < |settings| ==> keys[i] == CameraSettingsStore.BuildKey(settings[i])
  {
    seq(|settings|, i requires 0 <= i < |settings| => CameraSettingsStore.BuildKey(settings[i]))
  }

  /** The entries that are not blank, in order (LINQ Where). */
  function NonBlank(keys: seq<string>): (r: seq<string>)
    ensures forall x :: x in r <==> x in keys && !IsBlank(x)
    decreases |keys|
  {
    if keys == [] then []
    else
      var init := keys[..|keys| - 1];
      var last := keys[|keys| - 1];
      assert keys == init + [last];
      if IsBlank(last) then NonBlank(init) else NonBlank(init) + [last]
  }

  /** The device loop of PopulateMappingCombos: a device is added unless blank or already listed, ignoring case. */
  function AddDevices(items: seq<string>, devices: seq<string>): seq<string>
    decreases |devices|
  {
    if devices == [] then items
    else
      var r := AddDevices(items, devices[..|devices| - 1]);
      var d := devices[|devices| - 1];
      if IsBlank(d) || HasFolded(r, d) then r else r + [d]
  }

  /** The item list of PopulateMappingCombos: "", the distinct saved keys, then the new devices. */
  function ComboItems(keys: seq<string>, devices: seq<string>): seq<string> {
    AddDevices([""] + SavedItems(keys), devices)
  }

  /** The nested clearing of OnMappingComboChanged: every other combo holding `key`, ignoring case, is set to "". */
  function ClearOthers(sel: seq<string>, items: seq<string>, src: nat, key: string): (r: seq<string>)
    ensures |r| == |sel|
    ensures forall j :: 0 <= j < |sel| ==>
      r[j] == if j != src && EqualsIgnoreCase(sel[j], key) && "" in items then "" else sel[j]
  {
    seq(|sel|, j requires 0 <= j < |sel| =>
      if j != src && EqualsIgnoreCase(sel[j], key) && "" in items then "" else sel[j])
  }

  /**
   * OnMappingComboChanged(src): ignored while the dialog is already
   * updating; a blank selection changes no other combo; otherwise every
   * other combo holding the same key, ignoring case, is cleared.
   */
  function OnComboChanged(st: DialogState, src: nat): (r: DialogState)
    requires src < |st.selected|
    ensures r.(selected := st.selected) == st && |r.selected| == |st.selected|
    ensures st.updating || IsBlank(st.selected[src]) ==> r == st
    ensures !st.updating && !IsBlank(st.selected[src]) && "" in st.items ==>
      r.selected[src] == st.selected[src] &&
      forall j :: 0 <= j < |r.selected| && j != src ==> !EqualsIgnoreCase(r.selected[j], st.selected[src])
    ensures forall j :: 0 <= j < |r.selected| && r.selected[j] != st.selected[j] ==>
      r.selected[j] == "" && j != src && EqualsIgnoreCase(st.selected[j], st.selected[src])
  {
    if st.updating || IsBlank(st.selected[src]) then st
    else
      var key := st.selected[src];
      assert Fold("") != Fold(key) by { assert |Fold(key)| == |key| > 0; }
      st.(selected := ClearOthers(st.selected, st.items, src, key))
  }

  /** `combo i`.SelectedItem = v, with the SelectedIndexChanged it raises. */
  function Select(st: DialogState, i: nat, v: string): (r: DialogState)
    requires i < |st.selected|
    ensures r.(selected := st.selected) == st && |r.selected| == |st.selected|
  {
    if v in st.items && st.selected[i] != v then OnComboChanged(st.(selected := st.selected[i := v]), i)
    else st
  }

  /** Combo i set to values[i], for i = 0, 1, ... in order. */
  function SelectAll(st: DialogState, values: seq<string>): (r: DialogState)
    requires |values| <= |st.selected|
    ensures r.(selected := st.selected) == st && |r.selected| == |st.selected|
    decreases |values|
  {
    if values == [] then st
    else Select(SelectAll(st, values[..|values| - 1]), |values| - 1, values[|values| - 1])
  }

  /**
   * PopulateMappingCombos(devices): the item list is rebuilt (which clears
   * every selection) and each combo is set to its slot's saved key.
   */
  function Populated(st: DialogState, devices: seq<string>): DialogState
    requires Shaped(st)
  {
    PopulatedWith(st, SavedKeys(st.settings), devices)
  }

  /** PopulateMappingCombos for the slot keys `keys`. */
  function PopulatedWith(st: DialogState, keys: seq<string>, devices: seq<string>): DialogState
    requires |keys| <= SLOT_COUNT
  {
    SelectAll(Rebound(st, keys, devices), keys)
  }

  /** The combos after their item list is rebuilt: nothing selected. */
  function Rebound(st: DialogState, keys: seq<string>, devices: seq<string>): DialogState {
    st.(items := ComboItems(keys, devices), selected := Blanks(), lastEnumerated := devices)
  }

  /** btnAutoAssign_Click's values: the i-th enumerated device for view i + 1, or "". */
  function AutoValues(devices: seq<string>): (v: seq<string>)
    ensures |v| == SLOT_COUNT
    ensures forall i :: 0 <= i < SLOT_COUNT ==> v[i] == if i < |devices| then devices[i] else ""
  {
    seq(SLOT_COUNT, i requires 0 <= i < SLOT_COUNT => if i < |devices| then devices[i] else "")
  }

  /** btnAutoAssign_Click: nothing without enumerated devices, else each combo set in order. */
  function AutoAssigned(st: DialogState): DialogState
    requires Shaped(st)
  {
    if st.lastEnumerated == [] then st else SelectAll(st, AutoValues(st.lastEnumerated))
  }

  /** ApplyMappingFromUi: combo i is written into slot i. */
  function AppliedMapping(st: DialogState): DialogState
    requires Shaped(st)
  {
    st.(settings := seq(SLOT_COUNT, i requires 0 <= i < SLOT_COUNT => ApplyOne(st.settings[i], st.selected[i])))
  }

  // ---------------------------------------------------------------------
  // Properties of the combos
  // ---------------------------------------------------------------------

  /** No key is selected in two combos, ignoring case. */
  predicate Exclusive(sel: seq<string>) {
    forall i, j :: 0 <= i < |sel| && 0 <= j < |sel| && i != j && !IsBlank(sel[i]) ==>
      !EqualsIgnoreCase(sel[i], sel[j])
  }

  /** No two entries share a non-blank key, ignoring case. */
  predicate FoldDistinctNonBlank(keys: seq<string>) {
    forall i, j :: 0 <= i < j < |keys| && !IsBlank(keys[j]) ==> !EqualsIgnoreCase(keys[i], keys[j])
  }

  /** Every selection, made by the user or by the dialog, keeps the combos exclusive. */
  lemma SelectKeepsExclusive(st: DialogState, i: nat, v: string)
    requires i < |st.selected| && !st.updating && "" in st.items
    requires Exclusive(st.selected)
    ensures Exclusive(Select(st, i, v).selected)
  {
    if v in st.items && st.selected[i] != v {
      var s1 := st.(selected := st.selected[i := v]);
      var r := OnComboChanged(s1, i);
      forall a, b | 0 <= a < |r.selected| && 0 <= b < |r.selected| && a != b && !IsBlank(r.selected[a])
        ensures !EqualsIgnoreCase(r.selected[a], r.selected[b])
      {
        FoldKeepsBlankness(r.selected[a]);
        FoldKeepsBlankness(r.selected[b]);
        if IsBlank(v) {
          FoldKeepsBlankness(v);
        }
      }
    }
  }

  lemma {:induction false} SelectAllKeepsExclusive(st: DialogState, values: seq<string>)
    requires |values| <= |st.selected| && !st.updating && "" in st.items
    requires Exclusive(st.selected)
    ensures Exclusive(SelectAll(st, values).selected)
    decreases |values|
  {
    if values != [] {
      SelectAllKeepsExclusive(st, values[..|values| - 1]);
      SelectKeepsExclusive(SelectAll(st, values[..|values| - 1]), |values| - 1, values[|values| - 1]);
    }
  }

  /** Setting the combos in order to well-formed, listed, pairwise different keys leaves exactly those keys selected. */
  lemma {:induction false} SelectAllSets(st: DialogState, values: seq<string>)
    requires |values| <= |st.selected| && !st.updating
    requires forall i :: 0 <= i < |values| ==> values[i] in st.items && WellFormedKey(values[i])
    requires FoldDistinctNonBlank(values)
    ensures SelectAll(st, values).selected[..|values|] == values
    decreases |values|
  {
    if values != [] {
      var n := |values| - 1;
      var init := values[..n];
      assert FoldDistinctNonBlank(init);
      SelectAllSets(st, init);
      SelectSetsNext(SelectAll(st, init), values);
    }
  }

  /** One more combo set to its listed, well-formed value keeps the combos set before it. */
  lemma SelectSetsNext(s0: DialogState, values: seq<string>)
    requires 0 < |values| <= |s0.selected| && !s0.updating
    requires s0.selected[..|values| - 1] == values[..|values| - 1]
    requires values[|values| - 1] in s0.items && WellFormedKey(values[|values| - 1])
    requires FoldDistinctNonBlank(values)
    ensures Select(s0, |values| - 1, values[|values| - 1]).selected[..|values|] == values
  {
    var n := |values| - 1;
    var r := Select(s0, n, values[n]);
    forall k | 0 <= k <= n ensures r.selected[k] == values[k] {
      if k < n {
        assert s0.selected[..n][k] == values[..n][k];
        assert IsBlank(values[n]) || !EqualsIgnoreCase(values[k], values[n]);
      }
    }
  }

  /** The saved part of the item list: the non-blank slot keys, without repeats ignoring case. */
  function SavedItems(keys: seq<string>): seq<string> {
    Dedup(NonBlank(keys))
  }

  /** "" and the saved keys share no key, ignoring case. */
  lemma SavedItemsDistinct(keys: seq<string>)
    ensures DistinctFolded([""] + SavedItems(keys))
  {
    var saved := SavedItems(keys);
    var base := [""] + saved;
    DedupProperties(NonBlank(keys));
    forall i, j | 0 <= i < j < |base| ensures Fold(base[i]) != Fold(base[j]) {
      assert base[j] == saved[j - 1];
      if i == 0 {
        FoldKeepsBlankness(base[j]);
      } else {
        assert base[i] == saved[i - 1];
      }
    }
  }

  /** Every saved item is a non-blank slot key. */
  lemma SavedItemsFromKeys(keys: seq<string>)
    ensures forall i :: 0 <= i < |SavedItems(keys)| ==> SavedItems(keys)[i] in keys && !IsBlank(SavedItems(keys)[i])
  {
    var nb := NonBlank(keys);
    var saved := SavedItems(keys);
    DedupProperties(nb);
    forall i | 0 <= i < |saved| ensures saved[i] in nb {
      var j :| 0 <= j < |nb| && nb[j] == saved[i] && !HasFolded(nb[..j], saved[i]);
    }
  }

  /** Every non-blank slot key is among the saved items, ignoring case. */
  lemma SavedItemsCoverKeys(keys: seq<string>)
    ensures forall k :: k in keys && !IsBlank(k) ==> HasFolded(SavedItems(keys), k)
  {
    var nb := NonBlank(keys);
    DedupProperties(nb);
    forall k | k in keys && !IsBlank(k) ensures HasFolded(SavedItems(keys), k) {
      assert k in nb;
    }
  }

  /** The item list starts with "" and the saved keys. */
  lemma ComboItemsStart(keys: seq<string>, devices: seq<string>)
    ensures var n := |SavedItems(keys)| + 1;
      |ComboItems(keys, devices)| >= n && ComboItems(keys, devices)[..n] == [""] + SavedItems(keys)
  {
    AddDevicesPrefix([""] + SavedItems(keys), devices);
  }

  /** The item list holds no key twice, ignoring case. */
  lemma ComboItemsDistinct(keys: seq<string>, devices: seq<string>)
    ensures DistinctFolded(ComboItems(keys, devices))
  {
    SavedItemsDistinct(keys);
    AddDevicesDistinct([""] + SavedItems(keys), devices);
  }

  /** Every non-blank slot key is in the item list, ignoring case. */
  lemma ComboItemsCoverKeys(keys: seq<string>, devices: seq<string>)
    ensures forall k :: k in keys && !IsBlank(k) ==> HasFolded(ComboItems(keys, devices), k)
  {
    var saved := SavedItems(keys);
    var items := ComboItems(keys, devices);
    SavedItemsCoverKeys(keys);
    ComboItemsStart(keys, devices);
    forall k | k in keys && !IsBlank(k) ensures HasFolded(items, k) {
      var i :| 0 <= i < |saved| && Fold(saved[i]) == Fold(k);
      assert items[..|saved| + 1][i + 1] == saved[i];
    }
  }

  /** Every non-blank enumerated device is in the item list, ignoring case. */
  lemma ComboItemsCoverDevices(keys: seq<string>, devices: seq<string>)
    ensures forall d :: d in devices && !IsBlank(d) ==> HasFolded(ComboItems(keys, devices), d)
  {
    AddDevicesCovers([""] + SavedItems(keys), devices);
  }

  /** Every item after the first is a non-blank slot key or a non-blank device. */
  lemma ComboItemsOrigin(keys: seq<string>, devices: seq<string>)
    ensures forall i :: 1 <= i < |ComboItems(keys, devices)| ==>
      !IsBlank(ComboItems(keys, devices)[i]) && (ComboItems(keys, devices)[i] in keys || ComboItems(keys, devices)[i] in devices)
  {
    var saved := SavedItems(keys);
    var base := [""] + saved;
    var items := ComboItems(keys, devices);
    SavedItemsFromKeys(keys);
    AddDevicesPrefix(base, devices);
    AddDevicesOrigin(base, devices);
    forall i | 1 <= i < |base| ensures items[i] == saved[i - 1] {
      assert items[..|base|][i] == base[i];
    }
  }

  /** When no two slots share a key, every non-blank slot key is itself in the item list. */
  lemma ComboItemsHoldKeys(keys: seq<string>, devices: seq<string>)
    requires FoldDistinctNonBlank(keys)
    ensures forall k :: k in keys && !IsBlank(k) ==> k in ComboItems(keys, devices)
  {
    forall k | k in keys && !IsBlank(k) ensures k in ComboItems(keys, devices) {
      ComboItemsHoldKey(keys, devices, k);
    }
  }

  lemma ComboItemsHoldKey(keys: seq<string>, devices: seq<string>, k: string)
    requires FoldDistinctNonBlank(keys) && k in keys && !IsBlank(k)
    ensures k in ComboItems(keys, devices)
  {
    SavedItemsFromKeys(keys);
    SavedItemsCoverKeys(keys);
    ComboItemsStart(keys, devices);
    HeldAfterBlank(ComboItems(keys, devices), SavedItems(keys), keys, k);
  }

  /** A list that starts with "" and distinct-key entries of `keys` matching `k` holds `k` itself. */
  lemma HeldAfterBlank(items: seq<string>, saved: seq<string>, keys: seq<string>, k: string)
    requires |items| >= |saved| + 1 && items[..|saved| + 1] == [""] + saved
    requires forall i :: 0 <= i < |saved| ==> saved[i] in keys && !IsBlank(saved[i])
    requires HasFolded(saved, k)
    requires FoldDistinctNonBlank(keys) && k in keys && !IsBlank(k)
    ensures k in items
  {
    var i :| 0 <= i < |saved| && Fold(saved[i]) == Fold(k);
    SameFoldSameKey(keys, saved[i], k);
    assert items[..|saved| + 1][i + 1] == saved[i];
  }

  /** Two non-blank entries of a list without repeated keys that fold alike are the same entry. */
  lemma SameFoldSameKey(keys: seq<string>, x: string, y: string)
    requires FoldDistinctNonBlank(keys)
    requires x in keys && y in keys && !IsBlank(x) && !IsBlank(y) && Fold(x) == Fold(y)
    ensures x == y
  {
    var i :| 0 <= i < |keys| && keys[i] == x;
    var j :| 0 <= j < |keys| && keys[j] == y;
    assert !(i < j) && !(j < i);
  }

  /** Adding devices keeps the items already listed, in place. */
  lemma {:induction false} AddDevicesPrefix(items: seq<string>, devices: seq<string>)
    ensures |AddDevices(items, devices)| >= |items| && AddDevices(items, devices)[..|items|] == items
    decreases |devices|
  {
    if devices != [] {
      var r0 := AddDevices(items, devices[..|devices| - 1]);
      AddDevicesPrefix(items, devices[..|devices| - 1]);
      assert (r0 + [devices[|devices| - 1]])[..|items|] == r0[..|items|];
    }
  }

  /** Adding devices adds no key twice, ignoring case. */
  lemma {:induction false} AddDevicesDistinct(items: seq<string>, devices: seq<string>)
    requires DistinctFolded(items)
    ensures DistinctFolded(AddDevices(items, devices))
    decreases |devices|
  {
    if devices != [] {
      var d := devices[|devices| - 1];
      var r0 := AddDevices(items, devices[..|devices| - 1]);
      AddDevicesDistinct(items, devices[..|devices| - 1]);
      if !(IsBlank(d) || HasFolded(r0, d)) {
        var r := r0 + [d];
        forall i, j | 0 <= i < j < |r| ensures Fold(r[i]) != Fold(r[j]) {
          if j == |r0| {
            assert r[i] == r0[i];
          } else {
            assert r[i] == r0[i] && r[j] == r0[j];
          }
        }
      }
    }
  }

  /** Every non-blank device ends up listed, ignoring case. */
  lemma {:induction false} AddDevicesCovers(items: seq<string>, devices: seq<string>)
    ensures forall d :: d in devices && !IsBlank(d) ==> HasFolded(AddDevices(items, devices), d)
    decreases |devices|
  {
    if devices != [] {
      var init := devices[..|devices| - 1];
      var d := devices[|devices| - 1];
      assert devices == init + [d];
      AddDevicesCovers(items, init);
      var r0 := AddDevices(items, init);
      var r := AddDevices(items, devices);
      forall x | x in devices && !IsBlank(x) ensures HasFolded(r, x) {
        if x in init {
          var i :| 0 <= i < |r0| && Fold(r0[i]) == Fold(x);
          assert r[i] == r0[i];
        } else if !HasFolded(r0, d) {
          assert r[|r0|] == x;
        }
      }
    }
  }

  /** Every added item is a non-blank device. */
  lemma {:induction false} AddDevicesOrigin(items: seq<string>, devices: seq<string>)
    ensures forall i :: |items| <= i < |AddDevices(items, devices)| ==>
      AddDevices(items, devices)[i] in devices && !IsBlank(AddDevices(items, devices)[i])
    decreases |devices|
  {
    if devices != [] {
      var init := devices[..|devices| - 1];
      var d := devices[|devices| - 1];
      assert devices == init + [d];
      AddDevicesOrigin(items, init);
      var r0 := AddDevices(items, init);
      var r := AddDevices(items, devices);
      forall i | |items| <= i < |r| ensures r[i] in devices && !IsBlank(r[i]) {
        if i < |r0| {
          assert r[i] == r0[i] && r0[i] in init;
        }
      }
    }
  }

  /** A list of slot keys: each is empty or not blank. */
  lemma SavedKeysWellFormed(settings: CameraSettings)
    ensures forall i :: 0 <= i < |settings| ==> WellFormedKey(SavedKeys(settings)[i])
  {
    forall i | 0 <= i < |settings| ensures WellFormedKey(SavedKeys(settings)[i]) {
      BuildKeyWellFormed(settings[i]);
    }
  }

  lemma {:induction false} PopulatedWithIsExclusive(st: DialogState, keys: seq<string>, devices: seq<string>)
    requires |keys| <= SLOT_COUNT && !st.updating
    ensures Exclusive(PopulatedWith(st, keys, devices).selected)
  {
    var s1 := Rebound(st, keys, devices);
    ComboItemsStart(keys, devices);
    assert s1.items[..|SavedItems(keys)| + 1][0] == "";
    SelectAllKeepsExclusive(s1, keys);
  }

  lemma {:induction false} PopulatedWithShowsKeys(st: DialogState, keys: seq<string>, devices: seq<string>)
    requires |keys| == SLOT_COUNT && !st.updating
    requires forall i :: 0 <= i < |keys| ==> WellFormedKey(keys[i])
    requires FoldDistinctNonBlank(keys)
    ensures PopulatedWith(st, keys, devices).selected == keys
  {
    var s1 := Rebound(st, keys, devices);
    ComboItemsStart(keys, devices);
    ComboItemsHoldKeys(keys, devices);
    assert s1.items[..|SavedItems(keys)| + 1][0] == "";
    forall i | 0 <= i < |keys| ensures keys[i] in s1.items {
      if keys[i] != "" {
        assert keys[i] in keys;
      }
    }
    SelectAllSets(s1, keys);
    assert PopulatedWith(st, keys, devices).selected[..|keys|] == PopulatedWith(st, keys, devices).selected;
  }

  /** Populating the combos leaves no key selected twice. */
  lemma PopulateIsExclusive(st: DialogState, devices: seq<string>)
    requires Shaped(st) && !st.updating
    ensures Exclusive(Populated(st, devices).selected)
  {
    PopulatedWithIsExclusive(st, SavedKeys(st.settings), devices);
  }

  /**
   * When no two slots share a key, reopening the dialog shows each slot's
   * saved key in its combo, whatever devices were enumerated.
   */
  lemma PopulateShowsSaved(st: DialogState, devices: seq<string>)
    requires Shaped(st) && !st.updating
    requires FoldDistinctNonBlank(SavedKeys(st.settings))
    ensures Populated(st, devices).selected == SavedKeys(st.settings)
  {
    SavedKeysWellFormed(st.settings);
    PopulatedWithShowsKeys(st, SavedKeys(st.settings), devices);
  }

  /** The settings after the start-up heal have no shared key, so the dialog shows all of them. */
  lemma HealedKeysDistinct(s: CameraSettings)
    ensures FoldDistinctNonBlank(SavedKeys(CameraSettingsStore.Healed(s, CameraSettingsStore.Key)))
  {
    var h := CameraSettingsStore.Healed(s, CameraSettingsStore.Key);
    CameraSettingsStore.KeyForgets();
    CameraSettingsStore.HealedIsUnique(s, CameraSettingsStore.Key);
    var slotKeys := CameraSettingsStore.SlotKeys(h, CameraSettingsStore.Key);
    var keys := SavedKeys(h);
    forall i, j | 0 <= i < j < |keys| && !IsBlank(keys[j]) ensures !EqualsIgnoreCase(keys[i], keys[j]) {
      assert slotKeys[j] == Fold(keys[j]) && slotKeys[i] == Fold(keys[i]);
      assert keys[j] != "";
    }
  }

  /** Opening the dialog and saving without touching the combos keeps every slot's key. */
  lemma MappingSurvivesReopen(st: DialogState, devices: seq<string>)
    requires Shaped(st) && !st.updating
    requires FoldDistinctNonBlank(SavedKeys(st.settings))
    ensures SavedKeys(AppliedMapping(Populated(st, devices)).settings) == SavedKeys(st.settings)
  {
    PopulateShowsSaved(st, devices);
    var p := Populated(st, devices);
    assert p.settings == st.settings;
    ApplyingOwnKeys(p);
  }

  /** Writing each slot's own key back into it keeps every slot's key. */
  lemma ApplyingOwnKeys(p: DialogState)
    requires Shaped(p) && p.selected == SavedKeys(p.settings)
    ensures SavedKeys(AppliedMapping(p).settings) == SavedKeys(p.settings)
  {
    var applied := AppliedMapping(p).settings;
    forall i | 0 <= i < SLOT_COUNT
      ensures CameraSettingsStore.BuildKey(applied[i]) == CameraSettingsStore.BuildKey(p.settings[i])
    {
      ApplyOwnKey(p.settings[i]);
    }
  }

  /**
   * Auto-assign with enumerated devices that are listed, not blank and
   * pairwise different puts device i into view i + 1 and clears the views
   * left over.
   */
  lemma AutoAssignShowsDevices(st: DialogState)
    requires Shaped(st) && !st.updating && st.lastEnumerated != [] && "" in st.items
    requires forall i :: 0 <= i < |st.lastEnumerated| && i < SLOT_COUNT ==>
      st.lastEnumerated[i] in st.items && !IsBlank(st.lastEnumerated[i])
    requires forall i, j :: 0 <= i < j < |st.lastEnumerated| && j < SLOT_COUNT ==>
      !EqualsIgnoreCase(st.lastEnumerated[i], st.lastEnumerated[j])
    ensures AutoAssigned(st).selected == AutoValues(st.lastEnumerated)
  {
    var v := AutoValues(st.lastEnumerated);
    forall i | 0 <= i < |v| ensures v[i] in st.items && WellFormedKey(v[i]) {
    }
    SelectAllSets(st, v);
    assert AutoAssigned(st).selected[..|v|] == AutoAssigned(st).selected;
  }

  /** Auto-assign keeps the combos exclusive. */
  lemma AutoAssignKeepsExclusive(st: DialogState)
    requires Shaped(st) && !st.updating && "" in st.items && Exclusive(st.selected)
    ensures Exclusive(AutoAssigned(st).selected)
  {
    if st.lastEnumerated != [] {
      SelectAllKeepsExclusive(st, AutoValues(st.lastEnumerated));
    }
  }

  // ---------------------------------------------------------------------
  // The dialog
  // ---------------------------------------------------------------------

  class CameraSettingsForm {
    var settings: CameraSettings
    var items: seq<string>
    var selected: seq<string>
    var lastEnumeratedDevices: seq<string>
    var mappingUiUpdating: bool

    function Snapshot(): DialogState
      reads this
    {
      DialogState(settings, items, selected, lastEnumeratedDevices, mappingUiUpdating)
    }

    /**
     * The dialog over the six slots. Of the two PopulateMappingCombos calls
     * of the constructor only the second, made once the combo handlers are
     * attached, shapes the result: it rebuilds the list and every selection.
     */
    constructor(slots: CameraSettings)
      requires |slots| == SLOT_COUNT
      ensures Snapshot() == Populated(DialogState(slots, [], Blanks(), [], false), [])
    {
      settings := slots;
      items := [];
      selected := Blanks();
      lastEnumeratedDevices := [];
      mappingUiUpdating := false;
      new;
      PopulateMappingCombos([]);
    }

    /** PopulateMappingCombos: rebuilds the item list and selects each slot's saved key. */
    method PopulateMappingCombos(devices: seq<string>)
      requires Shaped(Snapshot()) && !mappingUiUpdating
      modifies this
      ensures Snapshot() == Populated(old(Snapshot()), devices)
    {
      var keys := SavedKeys(settings);
      PopulateWithKeys(keys, devices);
    }

    /** The body of PopulateMappingCombos once the six slot keys are built. */
    method PopulateWithKeys(keys: seq<string>, devices: seq<string>)
      requires |keys| == |selected| == SLOT_COUNT && !mappingUiUpdating
      modifies this
      ensures Snapshot() == PopulatedWith(old(Snapshot()), keys, devices)
    {
      ghost var st := Snapshot();
      lastEnumeratedDevices := devices;
      var saved := DedupIgnoreCase(NonBlank(keys));
      var list := [""] + saved;
      var i := 0;
      while i < |devices|
        invariant 0 <= i <= |devices|
        invariant list == AddDevices([""] + saved, devices[..i])
      {
        assert devices[..i + 1][..i] == devices[..i];
        var d := devices[i];
        if !IsBlank(d) && !HasFolded(list, d) {
          list := list + [d];
        }
        i := i + 1;
      }
      assert devices[..i] == devices;
      items := list;
      selected := Blanks();
      ghost var s1 := Snapshot();
      assert s1 == Rebound(st, keys, devices);
      var k := 0;
      while k < SLOT_COUNT
        invariant 0 <= k <= SLOT_COUNT
        invariant Snapshot() == SelectAll(s1, keys[..k])
      {
        assert keys[..k + 1][..k] == keys[..k];
        SelectItem(k, keys[k]);
        k := k + 1;
      }
      assert keys[..k] == keys;
    }

    /** `combo i`.SelectedItem = v, and the SelectedIndexChanged it raises. */
    method SelectItem(i: nat, v: string)
      requires i < |selected|
      modifies this
      ensures Snapshot() == Select(old(Snapshot()), i, v)
      decreases if mappingUiUpdating then 0 else 1, 1
    {
      if v in items && selected[i] != v {
        selected := selected[i := v];
        OnMappingComboChanged(i);
      }
    }

    /** OnMappingComboChanged: one camera per view, with the nesting guard. */
    method OnMappingComboChanged(src: nat)
      requires src < |selected|
      modifies this
      ensures Snapshot() == OnComboChanged(old(Snapshot()), src)
      decreases if mappingUiUpdating then 0 else 1, 0
    {
      if mappingUiUpdating {
        return;
      }
      mappingUiUpdating := true;
      var key := selected[src];
      if !IsBlank(key) {
        ghost var st := Snapshot();
        var j := 0;
        while j < |selected|
          invariant 0 <= j <= |selected| == |st.selected|
          invariant Snapshot().(selected := st.selected) == st
          invariant forall k :: 0 <= k < j ==> selected[k] == ClearOthers(st.selected, items, src, key)[k]
          invariant forall k :: j <= k < |selected| ==> selected[k] == st.selected[k]
        {
          if j != src && EqualsIgnoreCase(selected[j], key) {
            SelectItem(j, "");
          }
          j := j + 1;
        }
        assert selected == ClearOthers(st.selected, items, src, key);
      }
      mappingUiUpdating := false;
    }

    /** btnAutoAssign_Click: device i of the last enumeration into view i + 1, or "". */
    method AutoAssignClicked()
      requires Shaped(Snapshot()) && !mappingUiUpdating
      modifies this
      ensures Snapshot() == AutoAssigned(old(Snapshot()))
    {
      if |lastEnumeratedDevices| == 0 {
        return;
      }
      ghost var st := Snapshot();
      var values := AutoValues(lastEnumeratedDevices);
      var i := 0;
      while i < SLOT_COUNT
        invariant 0 <= i <= SLOT_COUNT
        invariant Snapshot() == SelectAll(st, values[..i])
      {
        assert values[..i + 1][..i] == values[..i];
        SelectItem(i, if i < |lastEnumeratedDevices| then lastEnumeratedDevices[i] else "");
        i := i + 1;
      }
      assert values[..i] == values;
    }

    /** ApplyMappingFromUi: each combo's key written into its slot. */
    method ApplyMappingFromUi()
      requires Shaped(Snapshot())
      modifies this
      ensures Snapshot() == AppliedMapping(old(Snapshot()))
    {
      var slots, combos := settings, selected;
      settings := seq(SLOT_COUNT, i requires 0 <= i < SLOT_COUNT => ApplyOne(slots[i], combos[i]));
    }
  }
}
