/** `formatDuration` from the recordings list: a duration in whole seconds shown as H:MM:SS,
    hours unpadded, minutes and seconds padded to two digits. The arithmetic is JavaScript's:
    `Math.floor` of a quotient and the remainder operator `%`, which keeps the sign of the
    dividend. */
module Duration {
  import opened Results
  import opened Text

  predicate IsDigit(c: char) { '0' <= c <= '9' }

  function DigitChar(n: nat): char
    requires n < 10
  {
    ('0' as int + n) as char
  }

  function DigitValue(c: char): nat
    requires IsDigit(c)
  {
    c as int - '0' as int
  }

  /** `n.toString()` for a non-negative integer: decimal, no leading zero. */
  function NatToString(n: nat): (s: string)
    ensures |s| >= 1 && forall i :: 0 <= i < |s| ==> IsDigit(s[i])
    ensures |s| > 1 ==> s[0] != '0'
  {
    if n < 10 then [DigitChar(n)] else NatToString(n / 10) + [DigitChar(n % 10)]
  }

  /** `n.toString()` for any integer. */
  function IntToString(n: int): string
  {
    if n < 0 then "-" + NatToString(-n) else NatToString(n)
  }

  /** The value of a string of decimal digits. */
  function ParseNat(s: string): nat
    requires forall i :: 0 <= i < |s| ==> IsDigit(s[i])
  {
    if s == [] then 0 else ParseNat(s[..|s| - 1]) * 10 + DigitValue(s[|s| - 1])
  }

  lemma {:induction false} ParseNatToString(n: nat)
    ensures ParseNat(NatToString(n)) == n
  {
    if n >= 10 {
      var s := NatToString(n);
      assert s[..|s| - 1] == NatToString(n / 10);
      ParseNatToString(n / 10);
    }
  }

  /** JavaScript's `a % b` for `b > 0`: the remainder has the sign of `a`. */
  function JsRem(a: int, b: int): (r: int)
    requires b > 0
    ensures a >= 0 ==> 0 <= r < b && r == a % b
    ensures a < 0 ==> -b < r <= 0
  {
    if a >= 0 then a % b else -((-a) % b)
  }

  function Hours(d: int): int { d / 3600 }
  function Minutes(d: int): int { JsRem(d, 3600) / 60 }
  function Seconds(d: int): int { JsRem(d, 60) }

  function FormatDuration(d: int): string
  {
    IntToString(Hours(d)) + ":" + PadStart2(IntToString(Minutes(d))) + ":"
      + PadStart2(IntToString(Seconds(d)))
  }

  /** For a non-negative duration, minutes and seconds are in 0..59 and the parts add up to it. */
  lemma PartsOfDuration(d: int)
    requires d >= 0
    ensures Hours(d) >= 0 && 0 <= Minutes(d) < 60 && 0 <= Seconds(d) < 60
    ensures Hours(d) * 3600 + Minutes(d) * 60 + Seconds(d) == d
  {
    var h, r := d / 3600, d % 3600;
    assert d == h * 3600 + r && 0 <= r < 3600;
    var m := r / 60;
    assert r == m * 60 + r % 60;
    assert Minutes(d) == m;
    assert Seconds(d) == r % 60;
  }

  /** A number below 60 padded to two digits. */
  lemma PaddedTwoDigits(n: nat)
    requires n < 60
    ensures |PadStart2(IntToString(n))| == 2
    ensures forall i :: 0 <= i < 2 ==> IsDigit(PadStart2(IntToString(n))[i])
    ensures ParseNat(PadStart2(IntToString(n))) == n
  {
    var p := PadStart2(IntToString(n));
    if n < 10 {
      assert p == ['0', DigitChar(n)];
      assert p[..1] == ['0'];
      assert ParseNat(p[..1]) == 0 by { assert p[..1][..0] == []; }
    } else {
      ParseNatToString(n);
    }
  }

  /** Reads "H:MM:SS" back: hours of any number of digits, then two digits and two digits. */
  function ParseDuration(s: string): Option<int>
  {
    if |s| < 7 || s[|s| - 6] != ':' || s[|s| - 3] != ':' then None
    else
      var h, m, sec := s[..|s| - 6], s[|s| - 5..|s| - 3], s[|s| - 2..];
      if (forall i :: 0 <= i < |h| ==> IsDigit(h[i])) && IsDigit(m[0]) && IsDigit(m[1])
        && IsDigit(sec[0]) && IsDigit(sec[1])
      then Some(ParseNat(h) * 3600 + ParseNat(m) * 60 + ParseNat(sec))
      else None
  }

  /** A non-negative duration is read back from its H:MM:SS form. */
  lemma ParseFormatDuration(d: int)
    requires d >= 0
    ensures ParseDuration(FormatDuration(d)) == Some(d)
  {
    PartsOfDuration(d);
    var h := IntToString(Hours(d));
    var m := PadStart2(IntToString(Minutes(d)));
    var sec := PadStart2(IntToString(Seconds(d)));
    PaddedTwoDigits(Minutes(d));
    PaddedTwoDigits(Seconds(d));
    ParseNatToString(Hours(d));
    var s := FormatDuration(d);
    assert s == h + ":" + m + ":" + sec;
    assert s[..|s| - 6] == h;
    assert s[|s| - 5..|s| - 3] == m;
    assert s[|s| - 2..] == sec;
  }

  lemma FormatDurationExample()
    ensures FormatDuration(3661) == "1:01:01"
  {
    assert Hours(3661) == 1 && Minutes(3661) == 1 && Seconds(3661) == 1;
  }

  /** The duration line is rendered for a present, non-zero duration. */
  predicate ShowsDuration(d: Option<int>)
  {
    d.Some? && d.value != 0
  }
}
