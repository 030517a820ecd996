/** The few Python `str` operations the backend relies on: `strip`, `lstrip`,
    `rstrip`, `split`, `lower`, `startswith`, `str(int)` and `int(str)`. */
module Text {
  import opened Outcomes

  /** The characters Python's `str.isspace()` accepts below U+0080. */
  const Whitespace: set<char> :=
    {' ', '\t', '\n', '\r', '\U{B}', '\U{C}', '\U{1C}', '\U{1D}', '\U{1E}', '\U{1F}'}

  /** `s.lstrip(cs)`: drops the longest prefix made of characters in `cs`. */
  function LStrip(s: string, cs: set<char>): (r: string)
    ensures |r| <= |s|
    ensures r != [] ==> r[0] !in cs
  {
    if s != [] && s[0] in cs then LStrip(s[1..], cs) else s
  }

  /** What `lstrip` leaves is a suffix of `s`. */
  lemma {:induction false} LStripIsSuffix(s: string, cs: set<char>)
    ensures LStrip(s, cs) == s[|s| - |LStrip(s, cs)|..]
  {
    if s != [] && s[0] in cs {
      LStripIsSuffix(s[1..], cs);
      assert s[1..][|s| - 1 - |LStrip(s, cs)|..] == s[|s| - |LStrip(s, cs)|..];
    }
  }

  /** Everything `lstrip` drops is in `cs`. */
  lemma {:induction false} LStripDropsOnly(s: string, cs: set<char>)
    ensures forall i :: 0 <= i < |s| - |LStrip(s, cs)| ==> s[i] in cs
  {
    if s != [] && s[0] in cs {
      LStripDropsOnly(s[1..], cs);
    }
  }

  /** `s.rstrip(cs)`: drops the longest suffix made of characters in `cs`. */
  function RStrip(s: string, cs: set<char>): (r: string)
    ensures |r| <= |s|
    ensures r != [] ==> r[|r| - 1] !in cs
  {
    if s != [] && s[|s| - 1] in cs then RStrip(s[..|s| - 1], cs) else s
  }

  /** What `rstrip` leaves is a prefix of `s`. */
  lemma {:induction false} RStripIsPrefix(s: string, cs: set<char>)
    ensures RStrip(s, cs) == s[..|RStrip(s, cs)|]
  {
    if s != [] && s[|s| - 1] in cs {
      RStripIsPrefix(s[..|s| - 1], cs);
    }
  }

  /** Everything `rstrip` drops is in `cs`. */
  lemma {:induction false} RStripDropsOnly(s: string, cs: set<char>)
    ensures forall i :: |RStrip(s, cs)| <= i < |s| ==> s[i] in cs
  {
    if s != [] && s[|s| - 1] in cs {
      RStripDropsOnly(s[..|s| - 1], cs);
    }
  }

  /** `s.strip(cs)`: both ends lose their characters in `cs`. */
  function StripChars(s: string, cs: set<char>): (r: string)
    ensures |r| <= |s|
    ensures r != [] ==> r[0] !in cs && r[|r| - 1] !in cs
  {
    var l := LStrip(s, cs);
    RStripIsPrefix(l, cs);
    RStrip(l, cs)
  }

  /** What `strip` leaves is the slice of `s` that starts where `lstrip` stops. */
  lemma StripCharsIsSlice(s: string, cs: set<char>)
    ensures var k := |s| - |LStrip(s, cs)|; var r := StripChars(s, cs);
            k + |r| <= |s| && r == s[k..k + |r|]
  {
    var l := LStrip(s, cs);
    var k := |s| - |l|;
    LStripIsSuffix(s, cs);
    RStripIsPrefix(l, cs);
    var r := RStrip(l, cs);
    assert r == l[..|r|];
    assert l[..|r|] == s[k..k + |r|];
  }

  /** `strip` leaves nothing exactly when every character is in `cs`. */
  lemma StripCharsEmpty(s: string, cs: set<char>)
    ensures StripChars(s, cs) == [] <==> forall i :: 0 <= i < |s| ==> s[i] in cs
  {
    var l := LStrip(s, cs);
    LStripIsSuffix(s, cs);
    LStripDropsOnly(s, cs);
    RStripDropsOnly(l, cs);
    if StripChars(s, cs) == [] {
      assert l == [];
    }
  }

  /** `s.strip()`: removes surrounding whitespace. */
  function Strip(s: string): (r: string)
    ensures |r| <= |s|
    ensures r != [] ==> r[0] !in Whitespace && r[|r| - 1] !in Whitespace
  {
    StripChars(s, Whitespace)
  }

  /** The parts of `s` separated by `sep`, joined back with `sep`. */
  function Join(parts: seq<string>, sep: char): string
    requires |parts| >= 1
  {
    if |parts| == 1 then parts[0] else parts[0] + [sep] + Join(parts[1..], sep)
  }

  /** `s.split(sep)` for a one-character separator: never empty, no part holds
      `sep`, and joining the parts with `sep` gives `s` back. */
  function Split(s: string, sep: char): (r: seq<string>)
    ensures |r| >= 1
    ensures forall i :: 0 <= i < |r| ==> sep !in r[i]
    ensures Join(r, sep) == s
  {
    if s == [] then [""]
    else
      var rest := Split(s[1..], sep);
      if s[0] == sep then [""] + rest
      else
        var r := [[s[0]] + rest[0]] + rest[1..];
        assert r[1..] == rest[1..];
        r
  }

  /** `s.split(sep)[-1]`: the text after the last `sep`, or all of `s` when it has none. */
  function LastPart(s: string, sep: char): (r: string)
    ensures sep !in r
    ensures |r| <= |s| && r == s[|s| - |r|..]
    ensures sep !in s ==> r == s
    ensures sep in s ==> |r| < |s| && s[|s| - |r| - 1] == sep
  {
    var parts := Split(s, sep);
    JoinEndsWithLast(parts, sep);
    SplitWithoutSep(s, sep);
    SplitWithSep(s, sep);
    parts[|parts| - 1]
  }

  /** Joining ends with the last part, and with `sep` just before it when there
      are several parts. */
  lemma {:induction false} JoinEndsWithLast(parts: seq<string>, sep: char)
    requires |parts| >= 1
    ensures var j := Join(parts, sep); var l := parts[|parts| - 1];
            |l| <= |j| && j[|j| - |l|..] == l &&
            (|parts| > 1 ==> |l| < |j| && j[|j| - |l| - 1] == sep)
  {
    if |parts| > 1 {
      JoinEndsWithLast(parts[1..], sep);
    }
  }

  /** A string holding `sep` splits into several parts. */
  lemma {:induction false} SplitWithSep(s: string, sep: char)
    ensures sep in s ==> |Split(s, sep)| > 1
  {
    if s != [] && sep in s && s[0] != sep {
      assert sep in s[1..];
      SplitWithSep(s[1..], sep);
    }
  }

  lemma {:induction false} SplitWithoutSep(s: string, sep: char)
    ensures sep !in s ==> Split(s, sep) == [s]
  {
    if s != [] && sep !in s {
      SplitWithoutSep(s[1..], sep);
    }
  }

  function LowerChar(c: char): char {
    if 'A' <= c <= 'Z' then (c as int + 32) as char else c
  }

  /** `s.lower()` on ASCII letters. */
  function Lower(s: string): (r: string)
    ensures |r| == |s|
    ensures forall i :: 0 <= i < |s| ==> r[i] == LowerChar(s[i])
  {
    seq(|s|, i requires 0 <= i < |s| => LowerChar(s[i]))
  }

  lemma LowerIdempotent(s: string)
    ensures Lower(Lower(s)) == Lower(s)
  {
    assert forall i :: 0 <= i < |s| ==> LowerChar(LowerChar(s[i])) == LowerChar(s[i]);
  }

  predicate StartsWith(s: string, c: char) {
    s != [] && s[0] == c
  }

  predicate IsDigit(c: char) {
    '0' <= c <= '9'
  }

  predicate AllDigits(s: string) {
    forall i :: 0 <= i < |s| ==> IsDigit(s[i])
  }

  function DigitChar(d: nat): (c: char)
    requires d < 10
    ensures IsDigit(c)
  {
    ('0' as int + d) as char
  }

  /** `str(n)` for a non-negative integer: its decimal digits, most significant first. */
  function NatToString(n: nat): (r: string)
    ensures r != []
    ensures AllDigits(r)
    decreases n
  {
    if n < 10 then [DigitChar(n)] else NatToString(n / 10) + [DigitChar(n % 10)]
  }

  /** `str(n)` for any integer. */
  function IntToString(n: int): string {
    if n < 0 then "-" + NatToString(-n) else NatToString(n)
  }

  function DigitValue(c: char): nat
    requires IsDigit(c)
  {
    c as int - '0' as int
  }

  /** The value of a string of decimal digits. */
  function DigitsValue(s: string): nat
    requires AllDigits(s)
  {
    if s == [] then 0 else DigitsValue(s[..|s| - 1]) * 10 + DigitValue(s[|s| - 1])
  }

  /** `int(t)` once surrounding whitespace is gone: an optional sign, then at least
      one ASCII digit and nothing else. */
  function ParseSigned(t: string): (r: Option<int>)
    ensures r.Some? ==> t != [] && IsDigit(t[|t| - 1])
  {
    var signed := t != [] && (t[0] == '-' || t[0] == '+');
    var digits := if signed then t[1..] else t;
    if digits == [] || !AllDigits(digits) then None
    else
      assert IsDigit(digits[|digits| - 1]);
      var v := DigitsValue(digits);
      Some(if signed && t[0] == '-' then -(v as int) else v)
  }

  /** `int(s)` on surrounding whitespace, an optional sign and ASCII digits; `None`
      where Python raises ValueError. */
  function ParseInt(s: string): (r: Option<int>)
    ensures r.Some? ==> exists i :: 0 <= i < |s| && IsDigit(s[i])
  {
    var t := Strip(s);
    var r := ParseSigned(t);
    StripCharsIsSlice(s, Whitespace);
    assert r.Some? ==> IsDigit(s[|s| - |LStrip(s, Whitespace)| + |t| - 1]);
    r
  }

  lemma {:induction false} NatToStringValue(n: nat)
    ensures DigitsValue(NatToString(n)) == n
    decreases n
  {
    if n >= 10 {
      NatToStringValue(n / 10);
      var s := NatToString(n);
      assert s[..|s| - 1] == NatToString(n / 10);
    }
  }

  lemma StripUnchanged(s: string)
    requires s != [] ==> s[0] !in Whitespace && s[|s| - 1] !in Whitespace
    ensures Strip(s) == s
  {
    assert LStrip(s, Whitespace) == s;
    assert RStrip(s, Whitespace) == s;
  }

  lemma DigitNotWhitespace(c: char)
    requires IsDigit(c) || c == '-'
    ensures c !in Whitespace
  {
  }

  /** `int` reads back a string of decimal digits. */
  lemma ParseIntDigits(digits: string)
    requires digits != [] && AllDigits(digits)
    ensures ParseInt(digits) == Some(DigitsValue(digits) as int)
  {
    assert Strip(digits) == digits by {
      assert IsDigit(digits[0]) && IsDigit(digits[|digits| - 1]);
      DigitNotWhitespace(digits[0]);
      DigitNotWhitespace(digits[|digits| - 1]);
      StripUnchanged(digits);
    }
    assert ParseSigned(digits) == Some(DigitsValue(digits) as int) by {
      assert IsDigit(digits[0]);
    }
  }

  /** A minus sign followed by digits has no surrounding whitespace. */
  lemma StripNegative(digits: string)
    requires digits != [] && AllDigits(digits)
    ensures Strip("-" + digits) == "-" + digits
  {
    var s := "-" + digits;
    assert s[|s| - 1] == digits[|digits| - 1];
    assert IsDigit(digits[|digits| - 1]);
    DigitNotWhitespace(s[0]);
    DigitNotWhitespace(s[|s| - 1]);
    StripUnchanged(s);
  }

  /** `int` reads back a minus sign followed by decimal digits. */
  lemma ParseIntNegative(digits: string)
    requires digits != [] && AllDigits(digits)
    ensures ParseInt("-" + digits) == Some(-(DigitsValue(digits) as int))
  {
    var s := "-" + digits;
    StripNegative(digits);
    assert s[0] == '-' && s[1..] == digits;
  }

  /** `int(str(n)) == n`. */
  lemma ParseIntRoundTrip(n: int)
    ensures ParseInt(IntToString(n)) == Some(n)
  {
    var m: nat := if n < 0 then -n else n;
    var d := NatToString(m);
    assert DigitsValue(d) == m by {
      NatToStringValue(m);
    }
    if n < 0 {
      assert ParseInt("-" + d) == Some(n) by {
        ParseIntNegative(d);
      }
      assert IntToString(n) == "-" + d;
    } else {
      assert ParseInt(d) == Some(n) by {
        ParseIntDigits(d);
      }
      assert IntToString(n) == d;
    }
  }
}
