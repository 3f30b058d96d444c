/**
 * Helpers for talking to HALCON's acquisition interfaces: interface names and
 * their fallbacks, the `port` argument, device identifiers and the ordered
 * list of device candidates tried by OpenFramegrabber, and error hints.
 * Whether an interface is installed (InfoFramegrabber) is an oracle
 * `available: string -> bool`.
 */
module HalconCameraHelper {
  import opened Wrappers
  import opened Text
  import opened Models

  // ---------------------------------------------------------------------
  // Interface names
  // ---------------------------------------------------------------------

  /**
   * The HALCON name of an interface type. It starts with a letter and has no
   * ':', so it can open a settings key "ifName::device".
   */
  function ToHalconInterfaceName(t: CameraInterfaceType): (n: string)
    ensures |n| > 0 && !IsWhiteSpace(n[0]) && forall i :: 0 <= i < |n| ==> n[i] != ':'
  {
    match t
    case GigEVision2 => "GigEVision2"
    case USB3Vision => "USB3Vision"
    case DirectShow => "DirectShow"
  }

  /** Blank or unknown names fall back to GigEVision2. */
  function FromHalconInterfaceName(ifName: string): (t: CameraInterfaceType)
    ensures IsBlank(ifName) ==> t == GigEVision2
    ensures t != GigEVision2 ==> EqualsIgnoreCase(Trim(ifName), ToHalconInterfaceName(t))
    ensures !IsBlank(ifName) && EqualsIgnoreCase(Trim(ifName), "USB3Vision") ==> t == USB3Vision
    ensures !IsBlank(ifName) && EqualsIgnoreCase(Trim(ifName), "DirectShow") ==> t == DirectShow
  {
    if IsBlank(ifName) then GigEVision2
    else
      var n := Trim(ifName);
      if EqualsIgnoreCase(n, "USB3Vision") then USB3Vision
      else if EqualsIgnoreCase(n, "DirectShow") then DirectShow
      else GigEVision2
  }

  /** Naming an interface type and reading the name back gives the same type. */
  lemma InterfaceNameRoundTrip(t: CameraInterfaceType)
    ensures FromHalconInterfaceName(ToHalconInterfaceName(t)) == t
  {
    var n := ToHalconInterfaceName(t);
    assert Trimmed(n) && !IsWhiteSpace(n[0]);
    match t
    case GigEVision2 =>
      DifferentFirstLetters(n, "USB3Vision");
      DifferentFirstLetters(n, "DirectShow");
    case USB3Vision =>
    case DirectShow =>
      DifferentFirstLetters(n, "USB3Vision");
  }

  /** Names whose first letters differ ignoring case are different ignoring case. */
  lemma DifferentFirstLetters(a: string, b: string)
    requires |a| > 0 && |b| > 0 && FoldChar(a[0]) != FoldChar(b[0])
    ensures !EqualsIgnoreCase(a, b)
  {
    assert Fold(a)[0] != Fold(b)[0];
  }

  /** Interfaces to try for a configured type, preferred one first. */
  function GetFallbackInterfaces(t: CameraInterfaceType): (names: seq<string>)
    ensures |names| > 0 && names[0] == ToHalconInterfaceName(t)
  {
    match t
    case GigEVision2 => ["GigEVision2", "GigEVision"]
    case USB3Vision => ["USB3Vision", "DirectShow"]
    case DirectShow => ["DirectShow"]
  }

  const FALLBACK_NOTICE: string := "已自动回退到接口："

  function NotAvailableDiagnostic(resolved: string): string {
    "HALCON 接口不可用：" + resolved + "。\n"
      + "请使用 MVTec Software Manager 安装对应的图像采集接口（GigEVision2/USB3Vision）。\n"
      + "若你已安装旧接口，可尝试 GigEVision（程序已自动回退尝试）。"
  }

  /** The first name in `names` that is installed, if any. */
  function FirstAvailable(names: seq<string>, available: string -> bool): (r: Option<string>)
    ensures r.Some? ==> exists k :: 0 <= k < |names| && names[k] == r.value && available(names[k])
                          && forall j :: 0 <= j < k ==> !available(names[j])
    ensures r.None? <==> forall j :: 0 <= j < |names| ==> !available(names[j])
  {
    if names == [] then None
    else if available(names[0]) then Some(names[0])
    else
      var r := FirstAvailable(names[1..], available);
      assert forall j :: 1 <= j < |names| ==> names[j] == names[1..][j - 1];
      r
  }

  /**
   * Picks the first installed interface in fallback order. The diagnostic is
   * non-empty exactly when it had to fall back; when none is installed the
   * preferred name is reported with an installation hint.
   */
  method TryResolveAvailableInterface(preferred: CameraInterfaceType, available: string -> bool)
    returns (ok: bool, resolved: string, diagnostic: string)
    ensures var first := FirstAvailable(GetFallbackInterfaces(preferred), available);
      && ok == first.Some?
      && (ok ==> resolved == first.value && (diagnostic != "" <==> resolved != ToHalconInterfaceName(preferred)))
      && (!ok ==> resolved == ToHalconInterfaceName(preferred) && diagnostic == NotAvailableDiagnostic(resolved))
  {
    var fb := GetFallbackInterfaces(preferred);
    var i := 0;
    while i < |fb|
      invariant 0 <= i <= |fb|
      invariant FirstAvailable(fb, available) == FirstAvailable(fb[i..], available)
    {
      assert fb[i..][1..] == fb[i + 1..];
      if available(fb[i]) {
        ok, resolved := true, fb[i];
        diagnostic := if fb[i] != ToHalconInterfaceName(preferred) then FALLBACK_NOTICE + fb[i] else "";
        return;
      }
      i := i + 1;
    }
    ok, resolved := false, ToHalconInterfaceName(preferred);
    diagnostic := NotAvailableDiagnostic(resolved);
  }

  // ---------------------------------------------------------------------
  // The `port` argument of OpenFramegrabber
  // ---------------------------------------------------------------------

  /** A numeric port or the string "default". */
  datatype PortTuple = PortNumber(n: int) | PortDefault

  /** A positive port is passed through; otherwise GigE/USB3 interfaces get 0 and others "default". */
  function GetPortTuple(interfaceName: string, port: int): (r: PortTuple)
    ensures port > 0 ==> r == PortNumber(port)
    ensures port <= 0 ==> (r == PortNumber(0) <==>
      (!IsBlank(interfaceName)
        && (EqualsIgnoreCase(Trim(interfaceName), "USB3Vision")
          || EqualsIgnoreCase(Trim(interfaceName), "GigEVision2")
          || EqualsIgnoreCase(Trim(interfaceName), "GigEVision"))))
    ensures port <= 0 ==> r.PortDefault? || r == PortNumber(0)
  {
    if port > 0 then PortNumber(port)
    else if !IsBlank(interfaceName)
      && (var n := Trim(interfaceName);
          EqualsIgnoreCase(n, "USB3Vision") || EqualsIgnoreCase(n, "GigEVision2") || EqualsIgnoreCase(n, "GigEVision"))
    then PortNumber(0)
    else PortDefault
  }

  // ---------------------------------------------------------------------
  // Device identifiers
  // ---------------------------------------------------------------------

  const UNIQUE_NAME: string := "unique_name:"
  const DEVICE_PREFIX: string := "device:"

  /** The first part whose trimmed text satisfies `ok`, trimmed. */
  function FirstTrimmedWith(parts: seq<string>, ok: string -> bool): (r: Option<string>)
    ensures r.None? <==> forall i :: 0 <= i < |parts| ==> !ok(Trim(parts[i]))
    ensures r.Some? ==>
      exists i :: 0 <= i < |parts| && r.value == Trim(parts[i]) && ok(r.value) &&
        (forall j :: 0 <= j < i ==> !ok(Trim(parts[j])))
  {
    var trimmed := seq(|parts|, i requires 0 <= i < |parts| => Trim(parts[i]));
    match FirstIndexFrom(trimmed, ok, 0)
    case Some(i) =>
      assert forall j :: 0 <= j < i ==> !ok(Trim(parts[j])) by {
        forall j | 0 <= j < i ensures !ok(Trim(parts[j])) { assert !ok(trimmed[j]); }
      }
      assert ok(Trim(parts[i]));
      Some(Trim(parts[i]))
    case None =>
      assert forall j :: 0 <= j < |parts| ==> !ok(Trim(parts[j])) by {
        forall j | 0 <= j < |parts| ensures !ok(Trim(parts[j])) { assert !ok(trimmed[j]); }
      }
      None
  }

  /** The first index from `from` on whose item satisfies `ok`. */
  function FirstIndexFrom(items: seq<string>, ok: string -> bool, from: nat): (r: Option<nat>)
    requires from <= |items|
    ensures r.Some? ==> from <= r.value < |items| && ok(items[r.value])
    ensures r.Some? ==> forall j :: from <= j < r.value ==> !ok(items[j])
    ensures r.None? ==> forall j :: from <= j < |items| ==> !ok(items[j])
    decreases |items| - from
  {
    if from == |items| then None
    else if ok(items[from]) then Some(from)
    else FirstIndexFrom(items, ok, from + 1)
  }

  /**
   * The first part that, trimmed, starts with `prefix` (ignoring case),
   * trimmed; None when no part does.
   */
  function FirstPartWithPrefix(parts: seq<string>, prefix: string): (r: Option<string>)
    ensures r.None? <==> forall i :: 0 <= i < |parts| ==> !StartsWithIgnoreCase(Trim(parts[i]), prefix)
    ensures r.Some? ==>
      exists i :: 0 <= i < |parts| && r.value == Trim(parts[i]) && StartsWithIgnoreCase(r.value, prefix) &&
        (forall j :: 0 <= j < i ==> !StartsWithIgnoreCase(Trim(parts[j]), prefix))
    ensures r.Some? ==> Trimmed(r.value)
  {
    FirstTrimmedWith(parts, t => StartsWithIgnoreCase(t, prefix))
  }

  /** A string whose folded form starts with a non-blank prefix is not blank. */
  lemma FoldedPrefixNotBlank(s: string, prefix: string)
    requires StartsWithIgnoreCase(s, prefix) && |prefix| > 0 && !IsWhiteSpace(FoldChar(prefix[0]))
    ensures !IsWhiteSpace(s[0]) && !IsBlank(s)
  {
    assert Fold(s)[0] == Fold(prefix)[0];
  }

  /** Trimming keeps a case-insensitive prefix that starts with a non-blank character. */
  lemma TrimKeepsPrefix(s: string, prefix: string)
    requires StartsWithIgnoreCase(s, prefix) && |prefix| > 0 && !IsWhiteSpace(FoldChar(prefix[0]))
    requires forall i :: 0 <= i < |prefix| ==> !IsWhiteSpace(FoldChar(prefix[i]))
    ensures StartsWithIgnoreCase(Trim(s), prefix)
  {
    FoldedPrefixNotBlank(s, prefix);
    var t := TrimStart(s);
    assert t == s;
    var r := TrimEnd(t);
    // The trailing white space removed by TrimEnd lies beyond the prefix.
    assert forall i :: 0 <= i < |prefix| ==> !IsWhiteSpace(s[i]) by {
      forall i | 0 <= i < |prefix| ensures !IsWhiteSpace(s[i]) {
        assert Fold(s)[i] == Fold(prefix)[i];
      }
    }
    TrimEndKeeps(s, |prefix| - 1);
    assert Fold(r)[..|prefix|] == Fold(s)[..|prefix|];
  }

  /**
   * Normalises a device identifier: blank input becomes "default"; a
   * "unique_name:" anywhere (ignoring case) selects the text from there on;
   * a '|'-separated descriptor selects its "unique_name:" or "device:" part;
   * anything else is kept as the trimmed input.
   */
  function NormalizeDeviceId(interfaceName: string, raw: string): (r: string)
    ensures IsBlank(raw) ==> r == DEFAULT_DEVICE
    ensures !IsBlank(raw) && !ContainsIgnoreCase(Trim(raw), UNIQUE_NAME) && '|' !in Trim(raw) ==> r == Trim(raw)
  {
    if IsBlank(raw) then DEFAULT_DEVICE else NormalizeTrimmed(Trim(raw))
  }

  /** NormalizeDeviceId for a trimmed, non-blank identifier `s`. */
  function NormalizeTrimmed(s: string): string {
    match IndexOfIgnoreCase(s, UNIQUE_NAME)
    case Some(idx) => Trim(s[idx..])
    case None =>
      if '|' in s then
        var parts := Split(s, '|');
        match FirstPartWithPrefix(parts, UNIQUE_NAME)
        case Some(t) => t
        case None =>
          match FirstPartWithPrefix(parts, DEVICE_PREFIX)
          case Some(t) => t
          case None => s
      else s
  }

  /** Neither identifier prefix contains white space, even after folding. */
  lemma PrefixesHaveNoWhiteSpace()
    ensures |UNIQUE_NAME| > 0 && forall i :: 0 <= i < |UNIQUE_NAME| ==> !IsWhiteSpace(FoldChar(UNIQUE_NAME[i]))
    ensures |DEVICE_PREFIX| > 0 && forall i :: 0 <= i < |DEVICE_PREFIX| ==> !IsWhiteSpace(FoldChar(DEVICE_PREFIX[i]))
  {
  }

  /** A case-insensitive match of `p` at `idx` makes the suffix from `idx` start with `p`. */
  lemma SuffixStartsWith(s: string, p: string, idx: nat)
    requires OccursAt(Fold(s), Fold(p), idx)
    ensures StartsWithIgnoreCase(s[idx..], p)
  {
    assert Fold(s[idx..])[..|p|] == Fold(s)[idx..idx + |p|];
  }

  /** `idx` is the first place where `p` occurs in `s`, ignoring case. */
  predicate FirstMatchIgnoreCase(s: string, p: string, idx: nat) {
    OccursAt(Fold(s), Fold(p), idx) && forall k: nat :: k < idx ==> !OccursAt(Fold(s), Fold(p), k)
  }

  /** A '|'-separated descriptor without "unique_name:" anywhere has no part starting with it. */
  lemma NoUniqueNamePart(s: string)
    requires !ContainsIgnoreCase(s, UNIQUE_NAME)
    ensures FirstPartWithPrefix(Split(s, '|'), UNIQUE_NAME).None?
  {
    var parts := Split(s, '|');
    if FirstPartWithPrefix(parts, UNIQUE_NAME).Some? {
      var i :| 0 <= i < |parts| && StartsWithIgnoreCase(Trim(parts[i]), UNIQUE_NAME);
      PartPrefixContained(s, '|', i, UNIQUE_NAME);
      assert false;
    }
  }

  /**
   * The normalised identifier is never blank (unless the input is, which
   * gives "default") and is trimmed. When the trimmed input mentions
   * "unique_name:" it is the trimmed text from the first such mention on;
   * otherwise a '|'-separated descriptor gives its trimmed first "device:"
   * part, or the trimmed input when it has none; anything else gives the
   * trimmed input.
   */
  lemma NormalizeDeviceIdProperties(interfaceName: string, raw: string)
    ensures var r := NormalizeDeviceId(interfaceName, raw);
      && (IsBlank(raw) ==> r == DEFAULT_DEVICE)
      && (!IsBlank(raw) ==> !IsBlank(r) && Trimmed(r))
      && (ContainsIgnoreCase(Trim(raw), UNIQUE_NAME) ==> StartsWithIgnoreCase(r, UNIQUE_NAME))
      && (!IsBlank(raw) && ContainsIgnoreCase(Trim(raw), UNIQUE_NAME) ==>
            exists idx: nat ::
              idx <= |Trim(raw)| && FirstMatchIgnoreCase(Trim(raw), UNIQUE_NAME, idx) && r == Trim(Trim(raw)[idx..]))
      && (!IsBlank(raw) && !ContainsIgnoreCase(Trim(raw), UNIQUE_NAME) && '|' in Trim(raw) ==>
            r == FirstPartWithPrefix(Split(Trim(raw), '|'), DEVICE_PREFIX).GetOr(Trim(raw)))
      && (!IsBlank(raw) && !ContainsIgnoreCase(Trim(raw), UNIQUE_NAME) && '|' !in Trim(raw) ==> r == Trim(raw))
  {
    PrefixesHaveNoWhiteSpace();
    if !IsBlank(raw) {
      var s := Trim(raw);
      match IndexOfIgnoreCase(s, UNIQUE_NAME)
      case Some(idx) =>
        assert FirstMatchIgnoreCase(s, UNIQUE_NAME, idx);
        SuffixStartsWith(s, UNIQUE_NAME, idx);
        TrimKeepsPrefix(s[idx..], UNIQUE_NAME);
        FoldedPrefixNotBlank(Trim(s[idx..]), UNIQUE_NAME);
      case None =>
        if '|' in s {
          var parts := Split(s, '|');
          NoUniqueNamePart(s);
          match FirstPartWithPrefix(parts, DEVICE_PREFIX)
          case Some(t) =>
            FoldedPrefixNotBlank(t, DEVICE_PREFIX);
          case None =>
        }
    }
  }

  /** The first index of a character of `stops` in `s`. */
  function IndexOfAny(s: string, stops: set<char>): (r: Option<nat>)
    ensures r.Some? ==> r.value < |s| && s[r.value] in stops
    ensures r.Some? ==> forall k :: 0 <= k < r.value ==> s[k] !in stops
    ensures r.None? ==> forall k :: 0 <= k < |s| ==> s[k] !in stops
  {
    if s == [] then None
    else if s[0] in stops then Some(0)
    else match IndexOfAny(s[1..], stops)
      case Some(k) => Some(k + 1)
      case None => None
  }

  const TOKEN_STOPS: set<char> := {' ', '|', '\t', '\r', '\n'}

  /** The token after position `start`: trimmed, up to the next space, '|', tab or line break. */
  function TokenAfter(s: string, start: nat): string
    requires start <= |s|
  {
    var after := Trim(s[start..]);
    match IndexOfAny(after, TOKEN_STOPS)
    case Some(stop) => if stop > 0 then after[..stop] else after
    case None => after
  }

  /** The candidates derived from the normalised identifier: itself, and its unique name without the prefix. */
  function CandidatesFromNorm(norm: string): seq<string> {
    if IsBlank(norm) then []
    else if StartsWithIgnoreCase(norm, UNIQUE_NAME) then
      var v := Trim(norm[|UNIQUE_NAME|..]);
      if !IsBlank(v) then [norm, v] else [norm]
    else [norm]
  }

  /** The candidates built from the token after `prefix` in the raw text. */
  function CandidatesFromToken(rawTrim: string, prefix: string, bare: bool): seq<string> {
    match IndexOfIgnoreCase(rawTrim, prefix)
    case Some(idx) =>
      var token := TokenAfter(rawTrim, idx + |prefix|);
      if IsBlank(token) then []
      else if bare then [prefix + token, token]
      else [prefix + token]
    case None => []
  }

  /** The candidates taken from the raw text: its unique-name and device tokens, and the text itself. */
  function CandidatesFromRaw(rawTrim: string, norm: string): seq<string> {
    CandidatesFromToken(rawTrim, UNIQUE_NAME, true)
      + CandidatesFromToken(rawTrim, DEVICE_PREFIX, false)
      + (if rawTrim != norm then [rawTrim] else [])
  }

  /** The identifiers OpenFramegrabber is tried with, before de-duplication. */
  function RawDeviceCandidates(interfaceName: string, raw: string): seq<string> {
    if IsBlank(raw) then [DEFAULT_DEVICE]
    else
      var rawTrim := Trim(raw);
      var norm := NormalizeDeviceId(interfaceName, rawTrim);
      CandidatesFromNorm(norm) + CandidatesFromRaw(rawTrim, norm) + [DEFAULT_DEVICE]
  }

  /** Normalising depends only on the trimmed input. */
  lemma NormalizeIgnoresOuterWhiteSpace(interfaceName: string, raw: string)
    ensures NormalizeDeviceId(interfaceName, Trim(raw)) == NormalizeDeviceId(interfaceName, raw)
  {
    TrimKeepsBlankness(raw);
    TrimIdempotent(raw);
  }

  /** The normalised identifier heads the raw candidates and "default" ends them. */
  lemma RawDeviceCandidatesShape(interfaceName: string, raw: string)
    ensures var list := RawDeviceCandidates(interfaceName, raw);
      && |list| > 0
      && list[0] == NormalizeDeviceId(interfaceName, raw)
      && list[|list| - 1] == DEFAULT_DEVICE
  {
    if !IsBlank(raw) {
      var rawTrim := Trim(raw);
      NormalizeIgnoresOuterWhiteSpace(interfaceName, raw);
      var norm := NormalizeDeviceId(interfaceName, rawTrim);
      NormalizedNotBlank(interfaceName, raw);
      var head := CandidatesFromNorm(norm);
      assert |head| > 0 && head[0] == norm;
      var list := head + CandidatesFromRaw(rawTrim, norm) + [DEFAULT_DEVICE];
      assert RawDeviceCandidates(interfaceName, raw) == list;
      assert list[0] == head[0];
    }
  }

  /** A non-blank identifier normalises to a non-blank one. */
  lemma NormalizedNotBlank(interfaceName: string, raw: string)
    requires !IsBlank(raw)
    ensures !IsBlank(NormalizeDeviceId(interfaceName, raw))
  {
    NormalizeDeviceIdProperties(interfaceName, raw);
  }

  /**
   * The de-duplicated candidates: the normalised identifier comes first,
   * "default" is always among them, no two are equal ignoring case, and
   * each is the first of its case-insensitive equals in the raw list.
   */
  lemma DeviceCandidatesProperties(interfaceName: string, raw: string)
    ensures var list := RawDeviceCandidates(interfaceName, raw);
      var candidates := Dedup(list);
      && (IsBlank(raw) ==> candidates == [DEFAULT_DEVICE])
      && |candidates| > 0 && candidates[0] == NormalizeDeviceId(interfaceName, raw)
      && HasFolded(candidates, DEFAULT_DEVICE)
      && DistinctFolded(candidates)
      && forall i :: 0 <= i < |candidates| ==> IsFirstOccurrence(list, candidates[i])
  {
    var list := RawDeviceCandidates(interfaceName, raw);
    RawDeviceCandidatesShape(interfaceName, raw);
    DedupProperties(list);
    assert list[|list| - 1] in list;
    if IsBlank(raw) {
      assert list[..0] == [];
    }
  }

  /** GetDeviceCandidates: the raw candidates with case-insensitive duplicates removed, in order. */
  method GetDeviceCandidates(interfaceName: string, raw: string) returns (candidates: seq<string>)
    ensures candidates == Dedup(RawDeviceCandidates(interfaceName, raw))
  {
    if IsBlank(raw) {
      candidates := [DEFAULT_DEVICE];
      assert [DEFAULT_DEVICE][..0] == [];
      return;
    }
    candidates := DedupIgnoreCase(RawDeviceCandidates(interfaceName, raw));
  }

  // ---------------------------------------------------------------------
  // Diagnostic hints
  // ---------------------------------------------------------------------

  const HINT_8603: string := "检测到接口库不可用（#8603）。请在 MVTec Software Manager 中安装对应 Image Acquisition Interface。\n"
  const HINT_GIGE: string := "GigE：确认安装 GigEVision2（或旧版 GigEVision）接口组件。\n"
  const HINT_USB3: string := "USB3：确认安装 USB3Vision 接口组件；若使用 GenTL，请确认 Producer(CTI) 已安装。\n"
  const HINT_TIMEOUT: string := "可能为超时：检查相机是否被占用、触发/曝光设置、网段/带宽（GigE）或 USB3 带宽。\n"

  function Concat(parts: seq<string>): string {
    if parts == [] then "" else parts[0] + Concat(parts[1..])
  }

  /** The hints that apply to a trimmed error text. */
  function DiagnosticHints(baseErr: string, it: CameraInterfaceType): seq<string> {
    (if Contains(baseErr, "#8603") then
      [HINT_8603]
        + (if it == GigEVision2 then [HINT_GIGE] else [])
        + (if it == USB3Vision then [HINT_USB3] else [])
     else [])
    + (if ContainsIgnoreCase(baseErr, "timeout") then [HINT_TIMEOUT] else [])
  }

  /**
   * Blank errors give ""; an error mentioning neither #8603 nor a timeout is
   * returned trimmed and unchanged; otherwise hints follow the trimmed error.
   */
  function AppendDiagnosticHints(error: string, it: CameraInterfaceType): (r: string)
    ensures IsBlank(error) ==> r == ""
    ensures !IsBlank(error) ==> StartsWith(r, Trim(error))
    ensures !IsBlank(error) && !Contains(Trim(error), "#8603") && !ContainsIgnoreCase(Trim(error), "timeout")
      ==> r == Trim(error)
    ensures !IsBlank(error) && (Contains(Trim(error), "#8603") || ContainsIgnoreCase(Trim(error), "timeout"))
      ==> |r| > |Trim(error)|
  {
    if IsBlank(error) then ""
    else
      var baseErr := Trim(error);
      var hints := DiagnosticHints(baseErr, it);
      NoHintsIff(baseErr, it);
      if hints == [] then baseErr
      else WithHints(baseErr, Trim(Concat(hints)))
  }

  /** The error, a blank line, then the hints. */
  function WithHints(baseErr: string, hintText: string): (r: string)
    ensures StartsWith(r, baseErr) && |r| > |baseErr|
  {
    var r := baseErr + "\n\n" + hintText;
    assert r[..|baseErr|] == baseErr;
    r
  }

  /** Hints are added exactly when the error mentions "#8603" or a timeout. */
  lemma NoHintsIff(baseErr: string, it: CameraInterfaceType)
    ensures DiagnosticHints(baseErr, it) == [] <==> !Contains(baseErr, "#8603") && !ContainsIgnoreCase(baseErr, "timeout")
  {
  }
}
