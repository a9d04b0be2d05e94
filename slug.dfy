/** `generateSlug`: a URL slug from a program name. The text is lower-cased, Russian letters are
    transliterated by a fixed table, combining diacritical marks are removed, every run of
    characters other than `a-z` and `0-9` becomes one hyphen, hyphens are trimmed from both ends,
    the text is cut to `maxLength`, and hyphens are trimmed from the end again. */
module Slug {

  const DefaultMaxLength: int := 32

  predicate IsAlnum(c: char) { 'a' <= c <= 'z' || '0' <= c <= '9' }
  predicate IsSlugChar(c: char) { IsAlnum(c) || c == '-' }

  /** Lower case for ASCII and the Cyrillic capitals U+0400..U+042F. */
  function Lower(c: char): char
  {
    if 'A' <= c <= 'Z' then (c as int + 32) as char
    else if 'А' <= c <= 'Я' then (c as int + 32) as char
    else if 'Ѐ' <= c <= 'Џ' then (c as int + 80) as char
    else c
  }

  predicate IsRussianLower(c: char) { 'а' <= c <= 'я' || c == 'ё' }

  /** The transliteration table; a character it does not list stands for itself. */
  function Translit(c: char): (r: seq<char>)
    ensures IsRussianLower(c) ==> forall i :: 0 <= i < |r| ==> 'a' <= r[i] <= 'z'
    ensures !IsRussianLower(c) ==> r == [c]
    ensures r == [] <==> c == 'ь' || c == 'ъ'
  {
    match c
      case 'а' => "a"  case 'б' => "b"  case 'в' => "v"  case 'г' => "g"
      case 'д' => "d"  case 'е' => "e"  case 'ё' => "yo" case 'ж' => "zh"
      case 'з' => "z"  case 'и' => "i"  case 'й' => "y"  case 'к' => "k"
      case 'л' => "l"  case 'м' => "m"  case 'н' => "n"  case 'о' => "o"
      case 'п' => "p"  case 'р' => "r"  case 'с' => "s"  case 'т' => "t"
      case 'у' => "u"  case 'ф' => "f"  case 'х' => "h"  case 'ц' => "ts"
      case 'ч' => "ch" case 'ш' => "sh" case 'щ' => "sch" case 'ы' => "y"
      case 'э' => "e"  case 'ю' => "yu" case 'я' => "ya" case 'ь' => ""
      case 'ъ' => ""
      case _ => [c]
  }

  /** Lower-case, then replace each character by its transliteration. */
  function Transliterate(s: string): string
  {
    if s == [] then [] else Translit(Lower(s[0])) + Transliterate(s[1..])
  }

  /** The hard sign vanishes and "ё" becomes two letters: "объём" is "obyom". */
  lemma TransliterateSigns()
    ensures Transliterate("объём") == "obyom"
    ensures Transliterate("ь") == []
  {
    var w := "объём";
    assert Transliterate(w[4..]) == "m";
    assert w[3..] == [w[3]] + w[4..];
    assert Transliterate(w[3..]) == "yom";
    assert w[2..] == [w[2]] + w[3..];
    assert Transliterate(w[2..]) == "yom";
    assert w[1..] == [w[1]] + w[2..];
    assert Transliterate(w[1..]) == "byom";
  }

  predicate IsCombiningMark(c: char) { '̀' <= c <= 'ͯ' }

  /** `replace(/[̀-ͯ]/g, '')` */
  function StripMarks(s: string): (r: string)
    ensures |r| <= |s|
  {
    if s == [] then [] else (if IsCombiningMark(s[0]) then [] else [s[0]]) + StripMarks(s[1..])
  }

  /** The marks go and every other character stays. */
  lemma {:induction false} StripMarksMembers(s: string)
    ensures forall c :: c in StripMarks(s) <==> c in s && !IsCombiningMark(c)
  {
    if s != [] {
      StripMarksMembers(s[1..]);
    }
  }

  /** `replace(/[^a-z0-9]+/g, '-')`, scanning left to right; `inRun` says that the characters
      just before `s` were a run already replaced by its hyphen. */
  function CollapseFrom(s: string, inRun: bool): string
  {
    if s == [] then []
    else if IsAlnum(s[0]) then [s[0]] + CollapseFrom(s[1..], false)
    else if inRun then CollapseFrom(s[1..], true)
    else "-" + CollapseFrom(s[1..], true)
  }

  function Collapse(s: string): string { CollapseFrom(s, false) }

  /** The leading hyphens removed. */
  function TrimLeading(s: string): (r: string)
    ensures |r| <= |s| && r == s[|s| - |r|..]
    ensures r == [] || r[0] != '-'
    ensures forall i :: 0 <= i < |s| - |r| ==> s[i] == '-'
  {
    if s != [] && s[0] == '-' then TrimLeading(s[1..]) else s
  }

  /** The trailing hyphens removed: `replace(/-+$/g, '')`. */
  function TrimTrailing(s: string): (r: string)
    ensures |r| <= |s| && r == s[..|r|]
    ensures r == [] || r[|r| - 1] != '-'
    ensures forall i :: |r| <= i < |s| ==> s[i] == '-'
  {
    if s != [] && s[|s| - 1] == '-' then TrimTrailing(s[..|s| - 1]) else s
  }

  /** JavaScript's `s.slice(0, n)`: a negative `n` counts from the end. */
  function Slice(s: string, n: int): (r: string)
    ensures |r| <= |s| && r == s[..|r|]
    ensures n >= 0 ==> |r| == if n <= |s| then n else |s|
    ensures n < 0 ==> |r| == if |s| + n >= 0 then |s| + n else 0
  {
    var k := if n < 0 then (if |s| + n >= 0 then |s| + n else 0) else if n <= |s| then n else |s|;
    s[..k]
  }

  function GenerateSlug(input: string, maxLength: int): string
  {
    TrimTrailing(Slice(TrimTrailing(TrimLeading(Collapse(StripMarks(Transliterate(input))))), maxLength))
  }

  // ---------------------------------------------------------------------------
  // The shape of a slug
  // ---------------------------------------------------------------------------

  predicate SlugChars(s: string) { forall i :: 0 <= i < |s| ==> IsSlugChar(s[i]) }

  predicate NoDoubleHyphen(s: string) { forall i :: 0 < i < |s| ==> !(s[i - 1] == '-' && s[i] == '-') }

  predicate NoEdgeHyphen(s: string) { s == [] || (s[0] != '-' && s[|s| - 1] != '-') }

  /** Every character is in `a-z0-9-`, hyphens never touch, and none stands at either end. */
  predicate WellFormed(s: string) { SlugChars(s) && NoDoubleHyphen(s) && NoEdgeHyphen(s) }

  lemma {:induction false} CollapseShape(s: string, inRun: bool)
    ensures SlugChars(CollapseFrom(s, inRun)) && NoDoubleHyphen(CollapseFrom(s, inRun))
    ensures inRun && CollapseFrom(s, inRun) != [] ==> CollapseFrom(s, inRun)[0] != '-'
  {
    if s != [] {
      var next := !IsAlnum(s[0]);
      var rest := CollapseFrom(s[1..], next);
      CollapseShape(s[1..], next);
      var r := CollapseFrom(s, inRun);
      if IsAlnum(s[0]) || !inRun {
        assert r == [if IsAlnum(s[0]) then s[0] else '-'] + rest;
        forall i | 0 < i < |r| ensures !(r[i - 1] == '-' && r[i] == '-') {
          if i > 1 {
            assert r[i - 1] == rest[i - 2] && r[i] == rest[i - 1];
          }
        }
      }
    }
  }

  /** A prefix of `s` keeps what a slug needs, except perhaps a hyphen at its end. */
  lemma PrefixShape(s: string, k: nat)
    requires k <= |s|
    requires SlugChars(s) && NoDoubleHyphen(s) && (s == [] || s[0] != '-')
    ensures SlugChars(s[..k]) && NoDoubleHyphen(s[..k]) && (s[..k] == [] || s[..k][0] != '-')
  {
  }

  /** Every slug is well formed, whatever the input and the limit. */
  lemma SlugIsWellFormed(input: string, maxLength: int)
    ensures WellFormed(GenerateSlug(input, maxLength))
  {
    var c := Collapse(StripMarks(Transliterate(input)));
    CollapseShape(StripMarks(Transliterate(input)), false);
    var l := TrimLeading(c);
    assert SlugChars(l) && NoDoubleHyphen(l) by {
      var d := |c| - |l|;
      assert forall i :: 0 <= i < |l| ==> l[i] == c[d + i];
    }
    var t := TrimTrailing(l);
    PrefixShape(l, |t|);
    var sl := Slice(t, maxLength);
    PrefixShape(t, |sl|);
    var r := TrimTrailing(sl);
    PrefixShape(sl, |r|);
  }

  /** A non-negative limit bounds the length of the slug. */
  lemma SlugLength(input: string, maxLength: int)
    requires maxLength >= 0
    ensures |GenerateSlug(input, maxLength)| <= maxLength
  {
  }

  // ---------------------------------------------------------------------------
  // Idempotence
  // ---------------------------------------------------------------------------

  lemma {:induction false} TransliterateKeepsSlugChars(s: string)
    requires SlugChars(s)
    ensures Transliterate(s) == s
  {
    if s != [] {
      assert Translit(Lower(s[0])) == [s[0]];
      TransliterateKeepsSlugChars(s[1..]);
    }
  }

  lemma {:induction false} StripMarksKeepsSlugChars(s: string)
    requires SlugChars(s)
    ensures StripMarks(s) == s
  {
    if s != [] {
      StripMarksKeepsSlugChars(s[1..]);
    }
  }

  lemma {:induction false} CollapseKeepsWellFormed(s: string, inRun: bool)
    requires SlugChars(s) && NoDoubleHyphen(s) && (inRun ==> s == [] || s[0] != '-')
    ensures CollapseFrom(s, inRun) == s
  {
    if s != [] {
      var rest := s[1..];
      assert SlugChars(rest) && NoDoubleHyphen(rest) by {
        assert forall i :: 0 <= i < |rest| ==> rest[i] == s[i + 1];
      }
      CollapseKeepsWellFormed(rest, !IsAlnum(s[0]));
    }
  }

  /** A well-formed text no longer than the limit is its own slug. */
  lemma SlugOfWellFormed(s: string, maxLength: int)
    requires WellFormed(s) && |s| <= maxLength
    ensures GenerateSlug(s, maxLength) == s
  {
    TransliterateKeepsSlugChars(s);
    StripMarksKeepsSlugChars(s);
    CollapseKeepsWellFormed(s, false);
    assert TrimLeading(s) == s;
    assert TrimTrailing(s) == s;
    assert Slice(s, maxLength) == s;
  }

  /** With a non-negative limit, slugging a slug changes nothing. */
  lemma SlugIdempotent(input: string, maxLength: int)
    requires maxLength >= 0
    ensures GenerateSlug(GenerateSlug(input, maxLength), maxLength) == GenerateSlug(input, maxLength)
  {
    SlugIsWellFormed(input, maxLength);
    SlugLength(input, maxLength);
    SlugOfWellFormed(GenerateSlug(input, maxLength), maxLength);
  }

  // ---------------------------------------------------------------------------
  // Inputs without letters or digits
  // ---------------------------------------------------------------------------

  /** The letters the table transliterates, in either case. */
  predicate IsRussianLetter(c: char) { 'А' <= c <= 'я' || c == 'Ё' || c == 'ё' }

  predicate IsAsciiLetterOrDigit(c: char) { 'a' <= c <= 'z' || 'A' <= c <= 'Z' || '0' <= c <= '9' }

  lemma {:induction false} TransliterateWithoutLetters(s: string)
    requires forall c :: c in s ==> !IsAsciiLetterOrDigit(c) && !IsRussianLetter(c)
    ensures forall c :: c in Transliterate(s) ==> !IsAlnum(c)
  {
    if s != [] {
      var l := Lower(s[0]);
      assert s[0] in s;
      if 'Ѐ' <= s[0] <= 'Џ' {
        assert s[0] != 'Ё' && l as int == s[0] as int + 80;
      } else {
        assert l == s[0];
      }
      assert !IsRussianLower(l) && !IsAlnum(l);
      assert Transliterate(s) == [l] + Transliterate(s[1..]);
      assert forall c :: c in s[1..] ==> c in s;
      TransliterateWithoutLetters(s[1..]);
    }
  }

  lemma {:induction false} CollapseWithoutAlnum(s: string, inRun: bool)
    requires forall c :: c in s ==> !IsAlnum(c)
    ensures CollapseFrom(s, inRun) == [] || CollapseFrom(s, inRun) == "-"
    ensures inRun ==> CollapseFrom(s, inRun) == []
  {
    if s != [] {
      assert s[0] in s;
      assert forall c :: c in s[1..] ==> c in s;
      CollapseWithoutAlnum(s[1..], true);
    }
  }

  /** An input with no ASCII letter or digit and no Russian letter gives the empty slug. */
  lemma SlugWithoutLetters(input: string, maxLength: int)
    requires forall c :: c in input ==> !IsAsciiLetterOrDigit(c) && !IsRussianLetter(c)
    ensures GenerateSlug(input, maxLength) == ""
  {
    TransliterateWithoutLetters(input);
    var m := StripMarks(Transliterate(input));
    StripMarksMembers(Transliterate(input));
    assert forall c :: c in m ==> !IsAlnum(c);
    CollapseWithoutAlnum(m, false);
    var trimmed := TrimTrailing(TrimLeading(Collapse(m)));
    assert trimmed == [];
    assert Slice(trimmed, maxLength) == [];
  }

  // ---------------------------------------------------------------------------
  // Examples
  // ---------------------------------------------------------------------------

  lemma {:induction false} TransliterateAppend(a: string, b: string)
    ensures Transliterate(a + b) == Transliterate(a) + Transliterate(b)
  {
    if a != [] {
      assert (a + b)[0] == a[0] && (a + b)[1..] == a[1..] + b;
      TransliterateAppend(a[1..], b);
      assert Transliterate(a + b) == Translit(Lower(a[0])) + Transliterate(a[1..] + b);
    } else {
      assert a + b == b;
    }
  }

  lemma ExampleWord() ensures Transliterate("Эфир") == "efir" {}
  lemma ExampleNumber() ensures Transliterate(" №1") == " №1" {}
  lemma ExampleStripMarks() ensures StripMarks("efir №1") == "efir №1" {}
  lemma ExampleCollapse() ensures Collapse("efir №1") == "efir-1" {}

  lemma ExampleTransliteration()
    ensures Transliterate("Эфир №1") == "efir №1"
  {
    ExampleWord();
    ExampleNumber();
    TransliterateAppend("Эфир", " №1");
    assert "Эфир" + " №1" == "Эфир №1";
  }

  /** The program name "Эфир №1" ("On Air No. 1"): the space and the sign make one hyphen. */
  lemma SlugExample()
    ensures GenerateSlug("Эфир №1", DefaultMaxLength) == "efir-1"
  {
    var t := Transliterate("Эфир №1");
    ExampleTransliteration();
    var m := StripMarks(t);
    ExampleStripMarks();
    var c := Collapse(m);
    ExampleCollapse();
    assert c == "efir-1";
    assert TrimLeading(c) == c;
    assert TrimTrailing(c) == c;
    assert Slice(c, DefaultMaxLength) == c;
  }
}
