/** `base64.b64decode(s, validate=True)` and its encoder: the standard alphabet of
    section 4 of RFC 4648, input in whole four-character quanta, at most two `=`
    pad characters and only at the end, as CPython's `strict_mode` decoder (the
    one `validate=True` selects since Python 3.11) accepts. Like it, the decoder
    ignores the unused low bits of the last quantum. */
module Base64 {
  import opened Outcomes

  /** The text of the error a rejected input raises. */
  const NonBase64Digit := "Non-base64 digit found"
  const IncorrectPadding := "Incorrect padding"

  predicate IsAlphabet(c: char) {
    'A' <= c <= 'Z' || 'a' <= c <= 'z' || '0' <= c <= '9' || c == '+' || c == '/'
  }

  /** The value of an alphabet character (Table 1 of RFC 4648). */
  function Sextet(c: char): (v: nat)
    requires IsAlphabet(c)
    ensures v < 64
  {
    if 'A' <= c <= 'Z' then c as int - 'A' as int
    else if 'a' <= c <= 'z' then c as int - 'a' as int + 26
    else if '0' <= c <= '9' then c as int - '0' as int + 52
    else if c == '+' then 62
    else 63
  }

  /** The alphabet character of a six-bit value. */
  function CharOf(v: nat): (c: char)
    requires v < 64
    ensures IsAlphabet(c) && Sextet(c) == v
  {
    if v < 26 then ('A' as int + v) as char
    else if v < 52 then ('a' as int + v - 26) as char
    else if v < 62 then ('0' as int + v - 52) as char
    else if v == 62 then '+'
    else '/'
  }

  /** How many `=` end `s`, counting at most two. */
  function PadLength(s: string): (n: nat)
    ensures n <= 2 && n <= |s|
  {
    if |s| >= 2 && s[|s| - 2] == '=' && s[|s| - 1] == '=' then 2
    else if |s| >= 1 && s[|s| - 1] == '=' then 1
    else 0
  }

  /** Input the strict decoder accepts: whole quanta, alphabet characters up to
      the padding, and no more than two pad characters. */
  predicate Canonical(s: string) {
    |s| % 4 == 0 && forall i :: 0 <= i < |s| - PadLength(s) ==> IsAlphabet(s[i])
  }

  /** Three bytes from four alphabet characters. */
  function DecodeFull(q: string): (r: Bytes)
    requires |q| == 4 && IsAlphabet(q[0]) && IsAlphabet(q[1]) && IsAlphabet(q[2]) && IsAlphabet(q[3])
    ensures |r| == 3
  {
    var c0, c1, c2, c3 := Sextet(q[0]), Sextet(q[1]), Sextet(q[2]), Sextet(q[3]);
    [c0 * 4 + c1 / 16, (c1 % 16) * 16 + c2 / 4, (c2 % 4) * 64 + c3]
  }

  /** The bytes of the final quantum, which may carry one or two pad characters. */
  function DecodeLast(q: string): (r: Bytes)
    requires |q| == 4 && forall i :: 0 <= i < 4 - PadLength(q) ==> IsAlphabet(q[i])
    ensures |r| == 3 - PadLength(q)
  {
    var pad := PadLength(q);
    assert pad <= 2;
    assert IsAlphabet(q[0]) && IsAlphabet(q[1]);
    var c0, c1 := Sextet(q[0]), Sextet(q[1]);
    if PadLength(q) == 2 then [c0 * 4 + c1 / 16]
    else if PadLength(q) == 1 then
      var c2 := Sextet(q[2]);
      [c0 * 4 + c1 / 16, (c1 % 16) * 16 + c2 / 4]
    else DecodeFull(q)
  }

  /** The bytes a canonical input stands for, quantum by quantum. */
  function DecodeCanonical(s: string): (r: Bytes)
    requires Canonical(s)
    ensures |r| == |s| / 4 * 3 - PadLength(s)
    decreases |s|
  {
    if s == [] then []
    else if |s| == 4 then DecodeLast(s)
    else
      assert PadLength(s[4..]) == PadLength(s);
      assert forall i :: 0 <= i < 4 ==> IsAlphabet(s[i]);
      DecodeFull(s[..4]) + DecodeCanonical(s[4..])
  }

  /** `base64.b64decode(s, validate=True)`. */
  function Decode(s: string): (r: Result<Bytes, string>)
    ensures r.Ok? <==> Canonical(s)
    ensures r.Ok? ==> |r.value| == |s| / 4 * 3 - PadLength(s)
    ensures r.Err? ==> r.error == (if |s| % 4 == 0 then NonBase64Digit else IncorrectPadding)
  {
    if |s| % 4 != 0 then Err(IncorrectPadding)
    else if !Canonical(s) then Err(NonBase64Digit)
    else Ok(DecodeCanonical(s))
  }

  /** Four alphabet characters: a quantum without padding. */
  predicate FullQuantum(q: string) {
    |q| == 4 && IsAlphabet(q[0]) && IsAlphabet(q[1]) && IsAlphabet(q[2]) && IsAlphabet(q[3])
  }

  /** A full quantum in front of `t` leaves the padding that of `t`. */
  lemma PadCons(q: string, t: string)
    requires FullQuantum(q)
    ensures PadLength(q + t) == PadLength(t)
  {
    var s := q + t;
    if t == [] {
      assert s == q;
    } else {
      assert s[|s| - 1] == t[|t| - 1];
      if |t| >= 2 {
        assert s[|s| - 2] == t[|t| - 2];
      } else {
        assert s[|s| - 2] == q[3];
      }
    }
  }

  /** A full quantum in front of canonical input keeps it canonical, and adds its
      three bytes in front of the decoded bytes. */
  lemma DecodeCons(q: string, t: string)
    requires FullQuantum(q) && Canonical(t)
    ensures Canonical(q + t)
    ensures DecodeCanonical(q + t) == DecodeFull(q) + DecodeCanonical(t)
  {
    var s := q + t;
    assert s[..4] == q && s[4..] == t;
    PadCons(q, t);
    forall i | 0 <= i < |s| - PadLength(s)
      ensures IsAlphabet(s[i])
    {
      if i >= 4 {
        assert s[i] == t[i - 4];
      }
    }
    if t == [] {
      assert PadLength(q) == 0;
    }
  }

  /** The four characters of three bytes. */
  function EncodeFull(b0: byte, b1: byte, b2: byte): (q: string)
    ensures FullQuantum(q)
  {
    [CharOf(b0 / 4), CharOf((b0 % 4) * 16 + b1 / 16), CharOf((b1 % 16) * 4 + b2 / 64), CharOf(b2 % 64)]
  }

  /** The last quantum of one or two bytes, padded with `=` for each byte missing. */
  function EncodeTail(b: Bytes): (q: string)
    requires 1 <= |b| <= 2
    ensures |q| == 4 && PadLength(q) == 3 - |b|
    ensures forall i :: 0 <= i < 4 - PadLength(q) ==> IsAlphabet(q[i])
  {
    if |b| == 1 then [CharOf(b[0] / 4), CharOf((b[0] % 4) * 16), '=', '=']
    else [CharOf(b[0] / 4), CharOf((b[0] % 4) * 16 + b[1] / 16), CharOf((b[1] % 16) * 4), '=']
  }

  /** `base64.b64encode(b)`: three bytes per quantum, the last one padded. */
  function Encode(b: Bytes): (s: string)
    ensures |s| % 4 == 0
    decreases |b|
  {
    if b == [] then []
    else if |b| <= 2 then EncodeTail(b)
    else EncodeFull(b[0], b[1], b[2]) + Encode(b[3..])
  }

  /** One full quantum decodes to the three bytes it encodes. */
  lemma FullRoundTrip(b0: byte, b1: byte, b2: byte)
    ensures DecodeFull(EncodeFull(b0, b1, b2)) == [b0, b1, b2]
  {
    var q := EncodeFull(b0, b1, b2);
    assert Sextet(q[1]) / 16 == b0 % 4;
    assert Sextet(q[2]) / 4 == b1 % 16;
    assert Sextet(q[1]) % 16 == b1 / 16;
    assert Sextet(q[2]) % 4 == b2 / 64;
  }

  /** A one-byte tail decodes to its byte. */
  lemma OneByteRoundTrip(b0: byte)
    ensures DecodeLast(EncodeTail([b0])) == [b0]
  {
    var q := EncodeTail([b0]);
    assert Sextet(q[1]) / 16 == b0 % 4;
  }

  /** A two-byte tail decodes to its bytes. */
  lemma TwoBytesRoundTrip(b0: byte, b1: byte)
    ensures DecodeLast(EncodeTail([b0, b1])) == [b0, b1]
  {
    var q := EncodeTail([b0, b1]);
    assert Sextet(q[1]) / 16 == b0 % 4;
    assert Sextet(q[1]) % 16 == b1 / 16;
    assert Sextet(q[2]) / 4 == b1 % 16;
  }

  /** A one- or two-byte tail decodes to the bytes it encodes. */
  lemma TailRoundTrip(b: Bytes)
    requires 1 <= |b| <= 2
    ensures DecodeLast(EncodeTail(b)) == b
  {
    if |b| == 1 {
      OneByteRoundTrip(b[0]);
      assert b == [b[0]];
    } else {
      TwoBytesRoundTrip(b[0], b[1]);
      assert b == [b[0], b[1]];
    }
  }

  /** The encoder pads its last quantum with one `=` per missing byte. */
  lemma {:induction false} EncodePadding(b: Bytes)
    ensures PadLength(Encode(b)) == (3 - |b| % 3) % 3
    decreases |b|
  {
    if |b| > 2 {
      EncodePadding(b[3..]);
      PadCons(EncodeFull(b[0], b[1], b[2]), Encode(b[3..]));
      assert |b[3..]| % 3 == |b| % 3;
    }
  }

  /** The encoder's output is canonical. */
  lemma {:induction false} EncodeCanonical(b: Bytes)
    ensures Canonical(Encode(b))
    decreases |b|
  {
    if |b| > 2 {
      EncodeCanonical(b[3..]);
      DecodeCons(EncodeFull(b[0], b[1], b[2]), Encode(b[3..]));
    } else {
      EncodePadding(b);
    }
  }

  /** Decoding the last quantum gives its bytes back. */
  lemma DecodeEncodeTail(b: Bytes)
    requires 1 <= |b| <= 2
    ensures Decode(Encode(b)) == Ok(b)
  {
    var q := EncodeTail(b);
    assert Encode(b) == q;
    assert Canonical(q);
    TailRoundTrip(b);
  }

  /** A full quantum in front of decodable input adds its three bytes in front. */
  lemma DecodeConsOk(q: string, t: string, rest: Bytes)
    requires FullQuantum(q) && Decode(t) == Ok(rest)
    ensures Decode(q + t) == Ok(DecodeFull(q) + rest)
  {
    DecodeCons(q, t);
  }

  /** Decoding three bytes in front of a decodable rest gives all the bytes back. */
  lemma DecodeEncodeCons(b0: byte, b1: byte, b2: byte, rest: Bytes)
    requires Decode(Encode(rest)) == Ok(rest)
    ensures Decode(Encode([b0, b1, b2] + rest)) == Ok([b0, b1, b2] + rest)
  {
    var b := [b0, b1, b2] + rest;
    assert b[3..] == rest;
    var q := EncodeFull(b0, b1, b2);
    assert Encode(b) == q + Encode(rest);
    DecodeConsOk(q, Encode(rest), rest);
    FullRoundTrip(b0, b1, b2);
  }

  /** Decoding what was encoded gives the bytes back. */
  lemma {:induction false} DecodeEncode(b: Bytes)
    ensures Decode(Encode(b)) == Ok(b)
    decreases |b|
  {
    if 1 <= |b| <= 2 {
      DecodeEncodeTail(b);
    } else if |b| > 2 {
      assert b == [b[0], b[1], b[2]] + b[3..];
      DecodeEncode(b[3..]);
      DecodeEncodeCons(b[0], b[1], b[2], b[3..]);
    }
  }

  /** An input whose length is not a multiple of four is rejected. */
  lemma PartialQuantumRejected(s: string)
    requires |s| % 4 != 0
    ensures Decode(s) == Err(IncorrectPadding)
  {
  }

  /** Pad characters after a whole quantum are rejected; whole quanta alone decode. */
  lemma SurplusPaddingRejected()
    ensures Decode("QUJD") == Ok([65, 66, 67])
    ensures Decode("QUJD=").Err? && Decode("QUJD==").Err? && Decode("QUJD====").Err?
  {
    assert !IsAlphabet("QUJD===="[4]);
  }

  /** Three pad characters, or a pad character before the last two places, are rejected. */
  lemma MisplacedPaddingRejected(s: string, i: nat)
    requires |s| % 4 == 0 && i < |s| - 2 && s[i] == '='
    ensures Decode(s).Err?
  {
    assert !IsAlphabet(s[i]);
  }
}
