/** The string operations of JavaScript that the components use: prefix and suffix tests,
    substring search, ASCII lower case, `trim` and `padStart`. */
module Text {
  import opened Results

  /** A string or `null` in a JavaScript condition: true unless null or empty. */
  predicate Truthy(s: Option<string>)
  {
    s.Some? && s.value != ""
  }

  /** `s || ""` for a string or `null`. */
  function OrEmpty(s: Option<string>): string
  {
    if s.Some? then s.value else ""
  }

  /** `s || null` for a text field. */
  function NullIfEmpty(s: string): (f: Field<string>)
    ensures f == Null <==> s == ""
    ensures f.Value? ==> f.value == s
  {
    if s != "" then Value(s) else Null
  }

  /** `s || undefined` for a text field. */
  function UndefinedIfEmpty(s: string): (f: Field<string>)
    ensures f == Undefined <==> s == ""
    ensures f.Value? ==> f.value == s
  {
    if s != "" then Value(s) else Undefined
  }

  predicate StartsWith(s: string, prefix: string)
  {
    |prefix| <= |s| && s[..|prefix|] == prefix
  }

  predicate EndsWith(s: string, suffix: string)
  {
    |suffix| <= |s| && s[|s| - |suffix|..] == suffix
  }

  /** `part` occurs in `s` starting at position `i`. */
  predicate OccursAt(s: string, part: string, i: int)
  {
    0 <= i <= |s| - |part| && s[i..i + |part|] == part
  }

  /** The first position at or after `from` where `part` occurs, or -1. */
  function IndexOf(s: string, part: string, from: nat): (r: int)
    requires from <= |s|
    ensures r == -1 || (from <= r && OccursAt(s, part, r))
    ensures r == -1 <==> forall i :: from <= i ==> !OccursAt(s, part, i)
    ensures r >= 0 ==> forall i :: from <= i < r ==> !OccursAt(s, part, i)
    decreases |s| - from
  {
    if |s| - from < |part| then -1
    else if s[from..from + |part|] == part then from
    else if from == |s| then -1
    else IndexOf(s, part, from + 1)
  }

  /** `s.includes(part)` */
  predicate Contains(s: string, part: string)
  {
    IndexOf(s, part, 0) >= 0
  }

  /** `Contains` means what it says: `part` occurs at some position of `s`. */
  lemma ContainsIff(s: string, part: string)
    ensures Contains(s, part) <==> exists i :: OccursAt(s, part, i)
  {
    if Contains(s, part) {
      assert OccursAt(s, part, IndexOf(s, part, 0));
    }
  }

  function LowerAscii(c: char): char
  {
    if 'A' <= c <= 'Z' then (c as int + 32) as char else c
  }

  /** `toLowerCase` on ASCII letters; other characters are kept. */
  function AsciiLower(s: string): (r: string)
    ensures |r| == |s| && forall i :: 0 <= i < |s| ==> r[i] == LowerAscii(s[i])
  {
    if s == [] then [] else [LowerAscii(s[0])] + AsciiLower(s[1..])
  }

  /** JavaScript's white space and line terminators, the characters `trim` removes. */
  predicate IsJsSpace(c: char)
  {
    var n := c as int;
    (0x09 <= n <= 0x0D) || n == 0x20 || n == 0xA0 || n == 0x1680 || (0x2000 <= n <= 0x200A)
    || n == 0x2028 || n == 0x2029 || n == 0x202F || n == 0x205F || n == 0x3000 || n == 0xFEFF
  }

  function TrimStart(s: string): (r: string)
    ensures |r| <= |s| && r == s[|s| - |r|..]
    ensures r == [] || !IsJsSpace(r[0])
    ensures forall i :: 0 <= i < |s| - |r| ==> IsJsSpace(s[i])
  {
    if s != [] && IsJsSpace(s[0]) then TrimStart(s[1..]) else s
  }

  function TrimEnd(s: string): (r: string)
    ensures |r| <= |s| && r == s[..|r|]
    ensures r == [] || !IsJsSpace(r[|r| - 1])
    ensures forall i :: |r| <= i < |s| ==> IsJsSpace(s[i])
  {
    if s != [] && IsJsSpace(s[|s| - 1]) then TrimEnd(s[..|s| - 1]) else s
  }

  /** `s.trim()` */
  function Trim(s: string): string
  {
    TrimEnd(TrimStart(s))
  }

  /** `r` is the piece of `s` that starts at `k`, with white space only around it and none at
      its ends. */
  ghost predicate TrimmedAt(s: string, r: string, k: int)
  {
    && (r == [] || (!IsJsSpace(r[0]) && !IsJsSpace(r[|r| - 1])))
    && 0 <= k <= |s| - |r| && s[k..k + |r|] == r
    && (forall i :: 0 <= i < k ==> IsJsSpace(s[i]))
    && (forall i :: k + |r| <= i < |s| ==> IsJsSpace(s[i]))
  }

  lemma {:induction false} TrimEnds(s: string)
    ensures var r := Trim(s); r == [] || (!IsJsSpace(r[0]) && !IsJsSpace(r[|r| - 1]))
  {
    var a := TrimStart(s);
    var r := TrimEnd(a);
    if r != [] {
      assert r[0] == a[0];
    }
  }

  lemma {:induction false} TrimPiece(s: string)
    ensures var r, k := Trim(s), |s| - |TrimStart(s)|; 0 <= k <= |s| - |r| && s[k..k + |r|] == r
  {
    var a := TrimStart(s);
    var r := TrimEnd(a);
    var k := |s| - |a|;
    assert s[k..k + |r|] == a[..|r|];
  }

  /** A property of every character of `a` from `n` on, where `a` is `s` from `k` on, holds of every
      character of `s` from `k + n` on. */
  lemma SuffixShift(s: string, a: string, k: nat, n: nat, p: char -> bool)
    requires k <= |s| && a == s[k..]
    requires forall j :: n <= j < |a| ==> p(a[j])
    ensures forall i :: k + n <= i < |s| ==> p(s[i])
  {
    forall i | k + n <= i < |s| ensures p(s[i]) {
      assert s[i] == a[i - k];
    }
  }

  lemma {:induction false} TrimTrailingSpace(s: string)
    ensures var r, k := Trim(s), |s| - |TrimStart(s)|; forall i :: k + |r| <= i < |s| ==> IsJsSpace(s[i])
  {
    var a := TrimStart(s);
    var r := TrimEnd(a);
    SuffixShift(s, a, |s| - |a|, |r|, IsJsSpace);
  }

  /** The trimmed text is what `trim` promises: the input without its leading and trailing white
      space. */
  lemma {:induction false} TrimShape(s: string)
    ensures TrimmedAt(s, Trim(s), |s| - |TrimStart(s)|)
  {
    TrimEnds(s);
    TrimPiece(s);
    TrimTrailingSpace(s);
  }

  /** Trimming twice is trimming once. */
  lemma TrimIdempotent(s: string)
    ensures Trim(Trim(s)) == Trim(s)
  {
    var r := Trim(s);
    assert TrimStart(r) == r;
    assert TrimEnd(r) == r;
  }

  lemma {:induction false} TrimStartOfSpace(s: string)
    requires forall i :: 0 <= i < |s| ==> IsJsSpace(s[i])
    ensures TrimStart(s) == []
  {
    if s != [] {
      TrimStartOfSpace(s[1..]);
    }
  }

  /** The trimmed text is empty exactly when the input is white space only. */
  lemma TrimEmptyIff(s: string)
    ensures Trim(s) == "" <==> forall i :: 0 <= i < |s| ==> IsJsSpace(s[i])
  {
    if forall i :: 0 <= i < |s| ==> IsJsSpace(s[i]) {
      TrimStartOfSpace(s);
    } else {
      var a := TrimStart(s);
      var d := |s| - |a|;
      assert forall i :: 0 <= i < |a| ==> a[i] == s[d + i];
    }
  }

  /** `s.padStart(2, "0")` */
  function PadStart2(s: string): string
  {
    if |s| >= 2 then s else seq(2 - |s|, _ => '0') + s
  }
}
