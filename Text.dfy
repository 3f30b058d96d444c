/**
 * The .NET string operations the camera code relies on, over `string` (a
 * sequence of chars): ordinal case-insensitive comparison, white space,
 * Trim, IndexOf, Split, order-preserving de-duplication, and the Int32 text
 * conversions. Case-insensitivity is modelled by ASCII folding and white
 * space by the ASCII white-space characters.
 */
module Text {
  import opened Wrappers

  // ---------------------------------------------------------------------
  // Case folding (StringComparison.OrdinalIgnoreCase)
  // ---------------------------------------------------------------------

  function FoldChar(c: char): char {
    if 'A' <= c <= 'Z' then (c as int + 32) as char else c
  }

  /** The comparison key of a string under OrdinalIgnoreCase. */
  function Fold(s: string): (r: string)
    ensures |r| == |s|
    ensures forall i :: 0 <= i < |s| ==> r[i] == FoldChar(s[i])
  {
    seq(|s|, i requires 0 <= i < |s| => FoldChar(s[i]))
  }

  predicate EqualsIgnoreCase(a: string, b: string) {
    Fold(a) == Fold(b)
  }

  lemma FoldConcat(a: string, b: string)
    ensures Fold(a + b) == Fold(a) + Fold(b)
  {
    assert forall i :: 0 <= i < |a + b| ==> Fold(a + b)[i] == (Fold(a) + Fold(b))[i];
  }

  // ---------------------------------------------------------------------
  // White space, IsNullOrWhiteSpace and Trim
  // ---------------------------------------------------------------------

  /** The white-space characters of the model: tab, LF, VT, FF, CR and space. */
  predicate IsWhiteSpace(c: char) {
    c == ' ' || c == '\t' || c == '\n' || c == '\r' || c == '\U{000B}' || c == '\U{000C}'
  }

  /** string.IsNullOrWhiteSpace for a non-null string. */
  predicate IsBlank(s: string) {
    forall i :: 0 <= i < |s| ==> IsWhiteSpace(s[i])
  }

  /** Neither end of `s` is white space. */
  predicate Trimmed(s: string) {
    |s| == 0 || (!IsWhiteSpace(s[0]) && !IsWhiteSpace(s[|s| - 1]))
  }

  function TrimStart(s: string): (r: string)
    ensures |r| <= |s| && r == s[|s| - |r|..]
    ensures IsBlank(s[..|s| - |r|])
    ensures |r| > 0 ==> !IsWhiteSpace(r[0])
    decreases |s|
  {
    if |s| > 0 && IsWhiteSpace(s[0]) then
      var r := TrimStart(s[1..]);
      assert s[1..][..|s[1..]| - |r|] == s[1..|s| - |r|];
      assert IsBlank(s[..|s| - |r|]) by {
        forall i | 0 <= i < |s| - |r| ensures IsWhiteSpace(s[i]) {
          if i > 0 { assert s[i] == s[1..|s| - |r|][i - 1]; }
        }
      }
      r
    else s
  }

  function TrimEnd(s: string): (r: string)
    ensures |r| <= |s| && r == s[..|r|]
    ensures IsBlank(s[|r|..])
    ensures |r| > 0 ==> !IsWhiteSpace(r[|r| - 1])
    decreases |s|
  {
    if |s| > 0 && IsWhiteSpace(s[|s| - 1]) then
      var r := TrimEnd(s[..|s| - 1]);
      assert s[..|s| - 1][|r|..] + [s[|s| - 1]] == s[|r|..];
      r
    else s
  }

  /** TrimEnd keeps every character up to a non-white-space one. */
  lemma TrimEndKeeps(s: string, k: nat)
    requires k < |s| && !IsWhiteSpace(s[k])
    ensures |TrimEnd(s)| > k
    decreases |s|
  {
    if IsWhiteSpace(s[|s| - 1]) {
      TrimEndKeeps(s[..|s| - 1], k);
    }
  }

  /** string.Trim(): the text between the leading and trailing white space. */
  function Trim(s: string): (r: string)
    ensures Trimmed(r)
    ensures |r| <= |s|
    ensures r == "" <==> IsBlank(s)
    ensures Trimmed(s) ==> r == s
  {
    var t := TrimStart(s);
    var r := TrimEnd(t);
    assert r == "" ==> IsBlank(s) by {
      if r == "" {
        assert s == s[..|s| - |t|] + t;
        assert IsBlank(t) by { assert t[|r|..] == t; }
      }
    }
    r
  }

  /** Folding keeps white space and only white space. */
  lemma FoldKeepsBlankness(s: string)
    ensures IsBlank(Fold(s)) <==> IsBlank(s)
  {
    if IsBlank(Fold(s)) {
      forall i | 0 <= i < |s| ensures IsWhiteSpace(s[i]) {
        assert IsWhiteSpace(Fold(s)[i]);
      }
    }
  }

  lemma TrimKeepsBlankness(s: string)
    ensures IsBlank(Trim(s)) == IsBlank(s)
  {
    var t := Trim(s);
    if !IsBlank(s) { assert t != "" && !IsWhiteSpace(t[0]); }
  }

  lemma TrimIdempotent(s: string)
    ensures Trim(Trim(s)) == Trim(s)
  {
  }

  // ---------------------------------------------------------------------
  // Prefixes, IndexOf, Contains
  // ---------------------------------------------------------------------

  predicate StartsWith(s: string, p: string) {
    |p| <= |s| && s[..|p|] == p
  }

  predicate StartsWithIgnoreCase(s: string, p: string) {
    StartsWith(Fold(s), Fold(p))
  }

  predicate EndsWith(s: string, p: string) {
    |p| <= |s| && s[|s| - |p|..] == p
  }

  predicate EndsWithIgnoreCase(s: string, p: string) {
    EndsWith(Fold(s), Fold(p))
  }

  /** `p` occurs in `s` at index `k`. */
  predicate OccursAt(s: string, p: string, k: nat) {
    k + |p| <= |s| && s[k..k + |p|] == p
  }

  function IndexOfFrom(s: string, p: string, from: nat): (r: Option<nat>)
    ensures r.Some? ==> from <= r.value && OccursAt(s, p, r.value)
    ensures r.Some? ==> forall k: nat :: from <= k < r.value ==> !OccursAt(s, p, k)
    ensures r.None? ==> forall k: nat :: from <= k ==> !OccursAt(s, p, k)
    decreases |s| - from
  {
    if from + |p| > |s| then None
    else if s[from..from + |p|] == p then Some(from)
    else IndexOfFrom(s, p, from + 1)
  }

  /** string.IndexOf(p, StringComparison.Ordinal): the first occurrence of `p`. */
  function IndexOf(s: string, p: string): Option<nat> {
    IndexOfFrom(s, p, 0)
  }

  predicate Contains(s: string, p: string) {
    IndexOf(s, p).Some?
  }

  function IndexOfIgnoreCase(s: string, p: string): Option<nat> {
    IndexOf(Fold(s), Fold(p))
  }

  predicate ContainsIgnoreCase(s: string, p: string) {
    IndexOfIgnoreCase(s, p).Some?
  }

  /** string.Split(sep): the pieces between the separators, at least one. */
  function Split(s: string, sep: char): (parts: seq<string>)
    ensures |parts| >= 1
    decreases |s|
  {
    if |s| == 0 then [""]
    else if s[0] == sep then [""] + Split(s[1..], sep)
    else
      var rest := Split(s[1..], sep);
      [[s[0]] + rest[0]] + rest[1..]
  }

  /** `t` occurs somewhere in `s`. */
  ghost predicate OccursIn(s: string, t: string) {
    exists a: nat :: OccursAt(s, t, a)
  }

  /** `s` starts with the first piece of Split(s, sep), and every piece occurs in `s`. */
  lemma {:induction false} SplitPartsOccur(s: string, sep: char)
    ensures StartsWith(s, Split(s, sep)[0])
    ensures forall i :: 0 <= i < |Split(s, sep)| ==> OccursIn(s, Split(s, sep)[i])
    decreases |s|
  {
    var parts := Split(s, sep);
    if |s| == 0 {
      assert parts == [""];
      assert OccursAt(s, parts[0], 0);
    } else {
      var rest := Split(s[1..], sep);
      SplitPartsOccur(s[1..], sep);
      if s[0] != sep {
        assert s[..|parts[0]|] == [s[0]] + s[1..][..|rest[0]|];
      }
      forall i | 0 <= i < |parts| ensures OccursIn(s, parts[i]) {
        if i == 0 {
          assert OccursAt(s, parts[0], 0);
        } else {
          var j := if s[0] == sep then i - 1 else i;
          assert parts[i] == rest[j];
          assert OccursIn(s[1..], rest[j]);
          var a: nat :| OccursAt(s[1..], rest[j], a);
          assert s[a + 1..a + 1 + |rest[j]|] == s[1..][a..a + |rest[j]|];
          assert OccursAt(s, parts[i], a + 1);
        }
      }
    }
  }

  /** Trim(s) occurs in `s`. */
  lemma TrimOccurs(s: string)
    ensures exists c: nat :: OccursAt(s, Trim(s), c)
  {
    var t := TrimStart(s);
    assert OccursAt(s, Trim(s), |s| - |t|);
  }

  /** A text that occurs at `a` and starts with `p` ignoring case puts `p`, folded, at `a` of the folded string. */
  lemma FoldedOccurrence(s: string, t: string, p: string, a: nat)
    requires OccursAt(s, t, a) && StartsWithIgnoreCase(t, p)
    ensures OccursAt(Fold(s), Fold(p), a)
  {
    forall k | 0 <= k < |p| ensures Fold(s)[a + k] == Fold(p)[k] {
      assert s[a + k] == t[k];
      assert Fold(t)[k] == Fold(p)[k];
    }
    assert Fold(s)[a..a + |p|] == Fold(p);
  }

  /** An occurrence of `p` in `s`, both folded, means `s` contains `p` ignoring case. */
  lemma FoldedOccurrenceContained(s: string, p: string, k: nat)
    requires OccursAt(Fold(s), Fold(p), k)
    ensures ContainsIgnoreCase(s, p)
  {
    assert IndexOfFrom(Fold(s), Fold(p), 0).Some?;
  }

  /** A text that occurs in a text that occurs in `s` occurs in `s`. */
  lemma OccursWithin(s: string, t: string, u: string, a: nat, c: nat)
    requires OccursAt(s, t, a) && OccursAt(t, u, c)
    ensures OccursAt(s, u, a + c)
  {
    forall k | 0 <= k < |u| ensures s[a + c + k] == u[k] {
      assert s[a..a + |t|][c + k] == t[c + k];
      assert t[c..c + |u|][k] == u[k];
    }
    assert s[a + c..a + c + |u|] == u;
  }

  /** When a trimmed piece of Split(s, sep) starts with `p` ignoring case, `s` contains `p` ignoring case. */
  lemma PartPrefixContained(s: string, sep: char, i: int, p: string)
    requires 0 <= i < |Split(s, sep)| && StartsWithIgnoreCase(Trim(Split(s, sep)[i]), p)
    ensures ContainsIgnoreCase(s, p)
  {
    var part := Split(s, sep)[i];
    SplitPartsOccur(s, sep);
    assert OccursIn(s, part);
    var a: nat :| OccursAt(s, part, a);
    TrimOccurs(part);
    var c: nat :| OccursAt(part, Trim(part), c);
    OccursWithin(s, part, Trim(part), a, c);
    FoldedOccurrence(s, Trim(part), p, a + c);
    FoldedOccurrenceContained(s, p, a + c);
  }

  // ---------------------------------------------------------------------
  // Order-preserving de-duplication under OrdinalIgnoreCase
  // (a HashSet<string>(StringComparer.OrdinalIgnoreCase) plus a List)
  // ---------------------------------------------------------------------

  /** Some element of `s` equals `x` case-insensitively. */
  predicate HasFolded(s: seq<string>, x: string) {
    exists i :: 0 <= i < |s| && Fold(s[i]) == Fold(x)
  }

  /** No two elements of `s` are equal case-insensitively. */
  predicate DistinctFolded(s: seq<string>) {
    forall i, j :: 0 <= i < j < |s| ==> Fold(s[i]) != Fold(s[j])
  }

  /** The fold keys of a list: the contents of the `seen` set. */
  function FoldSet(s: seq<string>): set<string> {
    set i | 0 <= i < |s| :: Fold(s[i])
  }

  lemma FoldSetMembership(s: seq<string>, x: string)
    ensures Fold(x) in FoldSet(s) <==> HasFolded(s, x)
  {
  }

  lemma FoldSetAppend(s: seq<string>, x: string)
    ensures FoldSet(s + [x]) == FoldSet(s) + {Fold(x)}
  {
    var t := s + [x];
    assert forall i :: 0 <= i < |s| ==> t[i] == s[i];
    assert t[|s|] == x;
  }

  /** `x` appears in `s`, and nothing before it equals it case-insensitively. */
  predicate IsFirstOccurrence(s: seq<string>, x: string) {
    exists j :: 0 <= j < |s| && s[j] == x && !HasFolded(s[..j], x)
  }

  /** The elements of `s` that have no case-insensitive equal before them, in order. */
  function Dedup(s: seq<string>): seq<string>
    decreases |s|
  {
    if s == [] then []
    else
      var d := Dedup(s[..|s| - 1]);
      if HasFolded(d, s[|s| - 1]) then d else d + [s[|s| - 1]]
  }

  /** What Dedup keeps: no two equal ignoring case, every element represented, each the first of its kind, the head first. */
  lemma DedupProperties(s: seq<string>)
    ensures DistinctFolded(Dedup(s))
    ensures forall x :: x in s ==> HasFolded(Dedup(s), x)
    ensures forall x :: HasFolded(s, x) ==> HasFolded(Dedup(s), x)
    ensures forall i :: 0 <= i < |Dedup(s)| ==> IsFirstOccurrence(s, Dedup(s)[i])
    ensures |s| > 0 ==> |Dedup(s)| > 0 && Dedup(s)[0] == s[0]
  {
    DedupDistinct(s);
    DedupCovers(s);
    DedupFirstOccurrences(s);
    DedupHead(s);
  }

  lemma {:induction false} DedupDistinct(s: seq<string>)
    ensures DistinctFolded(Dedup(s))
    decreases |s|
  {
    if s != [] {
      var init, last := s[..|s| - 1], s[|s| - 1];
      DedupDistinct(init);
      var d := Dedup(init);
      if !HasFolded(d, last) {
        var e := d + [last];
        assert forall i :: 0 <= i < |d| ==> e[i] == d[i] && Fold(d[i]) != Fold(last);
      }
    }
  }

  lemma {:induction false} DedupCovers(s: seq<string>)
    ensures forall x :: HasFolded(s, x) ==> HasFolded(Dedup(s), x)
    ensures forall x :: x in s ==> HasFolded(Dedup(s), x)
    decreases |s|
  {
    if s != [] {
      var init, last := s[..|s| - 1], s[|s| - 1];
      DedupCovers(init);
      var d := Dedup(init);
      forall x | HasFolded(s, x) ensures HasFolded(Dedup(s), x) {
        var k :| 0 <= k < |s| && Fold(s[k]) == Fold(x);
        if k < |init| {
          assert Fold(init[k]) == Fold(x);
          assert HasFolded(init, x);
          var i :| 0 <= i < |d| && Fold(d[i]) == Fold(x);
          assert Dedup(s)[i] == d[i];
        } else if HasFolded(d, last) {
          var i :| 0 <= i < |d| && Fold(d[i]) == Fold(last);
          assert Dedup(s)[i] == d[i];
        } else {
          assert Dedup(s)[|d|] == last;
        }
      }
      forall k | 0 <= k < |s| ensures HasFolded(Dedup(s), s[k]) {
        assert HasFolded(s, s[k]);
      }
    }
  }

  lemma {:induction false} DedupFirstOccurrences(s: seq<string>)
    ensures forall i :: 0 <= i < |Dedup(s)| ==> IsFirstOccurrence(s, Dedup(s)[i])
    decreases |s|
  {
    if s != [] {
      var init, last := s[..|s| - 1], s[|s| - 1];
      DedupFirstOccurrences(init);
      DedupCovers(init);
      var d := Dedup(init);
      forall i | 0 <= i < |Dedup(s)| ensures IsFirstOccurrence(s, Dedup(s)[i]) {
        if i < |d| {
          assert Dedup(s)[i] == d[i];
          var j :| 0 <= j < |init| && init[j] == d[i] && !HasFolded(init[..j], d[i]);
          assert s[j] == d[i] && s[..j] == init[..j];
        } else {
          assert Dedup(s)[i] == last && s[..|s| - 1] == init;
          assert !HasFolded(init, last);
        }
      }
    }
  }

  lemma {:induction false} DedupHead(s: seq<string>)
    ensures |s| > 0 ==> |Dedup(s)| > 0 && Dedup(s)[0] == s[0]
    decreases |s|
  {
    if |s| > 1 {
      var init := s[..|s| - 1];
      DedupHead(init);
      assert init[0] == s[0];
      assert Dedup(s)[0] == Dedup(init)[0];
    } else if |s| == 1 {
      assert s[..0] == [];
      assert Dedup(s) == [s[0]];
    }
  }

  /**
   * The List-plus-HashSet loop: keeps each element whose fold key has not
   * been seen yet.
   */
  method DedupIgnoreCase(list: seq<string>) returns (result: seq<string>)
    ensures result == Dedup(list)
  {
    var seen: set<string> := {};
    result := [];
    var i := 0;
    while i < |list|
      invariant 0 <= i <= |list|
      invariant result == Dedup(list[..i])
      invariant seen == FoldSet(result)
    {
      FoldSetMembership(result, list[i]);
      assert list[..i + 1][..i] == list[..i];
      if Fold(list[i]) !in seen {
        FoldSetAppend(result, list[i]);
        seen := seen + {Fold(list[i])};
        result := result + [list[i]];
      }
      i := i + 1;
    }
    assert list[..i] == list;
  }

  /** Prefixes of the input de-duplicate to prefixes of the output. */
  lemma {:induction false} DedupPrefix(s: seq<string>, k: nat)
    requires k <= |s|
    ensures |Dedup(s[..k])| <= |Dedup(s)| && Dedup(s)[..|Dedup(s[..k])|] == Dedup(s[..k])
    decreases |s|
  {
    if k < |s| {
      assert s[..|s| - 1][..k] == s[..k];
      DedupPrefix(s[..|s| - 1], k);
    } else {
      assert s[..k] == s;
    }
  }

  // ---------------------------------------------------------------------
  // Int32 text conversions (invariant culture, NumberStyles.Integer)
  // ---------------------------------------------------------------------

  const INT32_MIN: int := -0x8000_0000
  const INT32_MAX: int := 0x7FFF_FFFF

  predicate IsInt32(n: int) {
    INT32_MIN <= n <= INT32_MAX
  }

  predicate IsDigit(c: char) {
    '0' <= c <= '9'
  }

  predicate AllDigits(s: string) {
    forall i :: 0 <= i < |s| ==> IsDigit(s[i])
  }

  function DigitsValue(s: string): nat
    requires AllDigits(s)
    decreases |s|
  {
    if |s| == 0 then 0 else DigitsValue(s[..|s| - 1]) * 10 + (s[|s| - 1] as int - '0' as int)
  }

  /**
   * int.TryParse with NumberStyles.Integer: optional surrounding white space,
   * an optional leading '+' or '-', one or more decimal digits, and a value
   * that fits in 32 bits.
   */
  function ParseInt(s: string): (r: Option<int>)
    ensures r.Some? ==> IsInt32(r.value)
  {
    var t := Trim(s);
    var negative := |t| > 0 && t[0] == '-';
    var body := if |t| > 0 && (t[0] == '-' || t[0] == '+') then t[1..] else t;
    if |body| == 0 || !AllDigits(body) then None
    else
      var v := if negative then -(DigitsValue(body) as int) else DigitsValue(body) as int;
      if IsInt32(v) then Some(v) else None
  }

  /** bool.TryParse: "True" or "False" in any case, surrounding white space allowed. */
  function ParseBool(s: string): Option<bool> {
    var t := Fold(Trim(s));
    if t == "true" then Some(true) else if t == "false" then Some(false) else None
  }

  function DigitChar(d: nat): (c: char)
    requires d < 10
    ensures IsDigit(c) && c as int - '0' as int == d
  {
    ('0' as int + d) as char
  }

  function NatToString(n: nat): string
    decreases n
  {
    if n < 10 then [DigitChar(n)] else NatToString(n / 10) + [DigitChar(n % 10)]
  }

  /** int.ToString(CultureInfo.InvariantCulture). */
  function IntToString(n: int): string {
    if n < 0 then "-" + NatToString(-n) else NatToString(n)
  }

  lemma {:induction false} NatToStringDigits(n: nat)
    ensures |NatToString(n)| > 0 && AllDigits(NatToString(n))
    ensures DigitsValue(NatToString(n)) == n
    decreases n
  {
    if n >= 10 {
      NatToStringDigits(n / 10);
      var s := NatToString(n);
      assert s[..|s| - 1] == NatToString(n / 10);
    }
  }

  /** Printing an Int32 and parsing it back gives the same number. */
  lemma IntToStringRoundTrip(n: int)
    requires IsInt32(n)
    ensures ParseInt(IntToString(n)) == Some(n)
  {
    var m := if n < 0 then -n else n;
    NatToStringDigits(m);
    var digits := NatToString(m);
    var s := IntToString(n);
    if n < 0 {
      assert s == "-" + digits;
    } else {
      assert s == digits && IsDigit(s[0]);
    }
    assert Trimmed(s) by {
      assert IsDigit(s[|s| - 1]);
    }
    assert Trim(s) == s;
    ParseSigned(s, digits, n < 0);
  }

  /** A trimmed run of digits, with a '-' before it when negative, parses to its value. */
  lemma ParseSigned(s: string, digits: string, negative: bool)
    requires |digits| > 0 && AllDigits(digits) && Trim(s) == s
    requires s == if negative then "-" + digits else digits
    requires IsInt32(if negative then -(DigitsValue(digits) as int) else DigitsValue(digits) as int)
    ensures ParseInt(s) == Some(if negative then -(DigitsValue(digits) as int) else DigitsValue(digits) as int)
  {
    if negative {
      assert s[0] == '-' && s[1..] == digits;
    } else {
      assert IsDigit(s[0]);
    }
  }
}
