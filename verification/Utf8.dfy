/** UTF-8 (RFC 3629): what Julia writes a string as, and what Python's strict decoder reads. */
module Utf8 {
  import opened Prelude
  import opened Decimal

  /** Section 3 of RFC 3629: one to four bytes for one Unicode scalar. */
  function EncodeChar(c: char): (s: seq<byte>)
    ensures 1 <= |s| <= 4
  {
    var u := c as int;
    if u < 0x80 then [u]
    else if u < 0x800 then [0xC0 + u / 64, 0x80 + u % 64]
    else
      var q := u / 64;
      if u < 0x10000 then [0xE0 + q / 64, 0x80 + q % 64, 0x80 + u % 64]
      else
        var p := q / 64;
        [0xF0 + p / 64, 0x80 + p % 64, 0x80 + q % 64, 0x80 + u % 64]
  }

  function Encode(s: string): seq<byte> {
    if s == "" then [] else EncodeChar(s[0]) + Encode(s[1..])
  }

  predicate Continues(b: byte) {
    0x80 <= b < 0xC0
  }

  /** The payload of a byte below its marker bits. */
  function Bits(b: byte, marker: int): int {
    b as int - marker
  }

  predicate IsScalar(u: int) {
    0 <= u < 0xD800 || 0xE000 <= u < 0x110000
  }

  /** The first scalar and its length in bytes; overlong forms, surrogates and stray bytes are errors. */
  function DecodeChar(s: seq<byte>): (r: Option<(char, nat)>)
    ensures r.Some? ==> 1 <= r.value.1 <= |s|
  {
    if s == [] then None
    else if s[0] < 0x80 then Some((s[0] as char, 1))
    else if 0xC2 <= s[0] < 0xE0 && |s| >= 2 && Continues(s[1]) then
      Some(((Bits(s[0], 0xC0) * 64 + Bits(s[1], 0x80)) as char, 2))
    else if 0xE0 <= s[0] < 0xF0 && |s| >= 3 && Continues(s[1]) && Continues(s[2]) then
      var u := (Bits(s[0], 0xE0) * 64 + Bits(s[1], 0x80)) * 64 + Bits(s[2], 0x80);
      if u >= 0x800 && IsScalar(u) then Some((u as char, 3)) else None
    else if 0xF0 <= s[0] < 0xF5 && |s| >= 4 && Continues(s[1]) && Continues(s[2]) && Continues(s[3]) then
      var u := ((Bits(s[0], 0xF0) * 64 + Bits(s[1], 0x80)) * 64 + Bits(s[2], 0x80)) * 64 + Bits(s[3], 0x80);
      if u >= 0x10000 && IsScalar(u) then Some((u as char, 4)) else None
    else None
  }

  function Decode(s: seq<byte>): Option<string>
    decreases |s|
  {
    if s == [] then Some("")
    else
      match DecodeChar(s)
      case None => None
      case Some((c, n)) =>
        match Decode(s[n..])
        case None => None
        case Some(rest) => Some([c] + rest)
  }

  lemma DecodeEncodeChar(c: char, rest: seq<byte>)
    ensures DecodeChar(EncodeChar(c) + rest) == Some((c, |EncodeChar(c)|))
  {
  }

  lemma {:induction false} DecodeEncode(s: string)
    ensures Decode(Encode(s)) == Some(s)
  {
    if s != "" {
      DecodeEncodeChar(s[0], Encode(s[1..]));
      DecodeEncode(s[1..]);
      assert (EncodeChar(s[0]) + Encode(s[1..]))[|EncodeChar(s[0])|..] == Encode(s[1..]);
      assert s == [s[0]] + s[1..];
    }
  }

  lemma Digits64(high: int, low: int)
    requires 0 <= low < 64
    ensures (high * 64 + low) / 64 == high && (high * 64 + low) % 64 == low
  {
  }

  lemma CanonicalTwo(a: byte, b: byte, u: int)
    requires 0xC2 <= a < 0xE0 && Continues(b) && u == Bits(a, 0xC0) * 64 + Bits(b, 0x80)
    ensures 0x80 <= u < 0x800 && EncodeChar(u as char) == [a, b]
  {
    Digits64(Bits(a, 0xC0), Bits(b, 0x80));
  }

  lemma CanonicalThree(a: byte, b: byte, c: byte, u: int)
    requires 0xE0 <= a < 0xF0 && Continues(b) && Continues(c)
    requires u == (Bits(a, 0xE0) * 64 + Bits(b, 0x80)) * 64 + Bits(c, 0x80) && u >= 0x800 && IsScalar(u)
    ensures EncodeChar(u as char) == [a, b, c]
  {
    Digits64(Bits(a, 0xE0), Bits(b, 0x80));
    Digits64(Bits(a, 0xE0) * 64 + Bits(b, 0x80), Bits(c, 0x80));
  }

  lemma CanonicalFour(a: byte, b: byte, c: byte, d: byte, u: int)
    requires 0xF0 <= a < 0xF5 && Continues(b) && Continues(c) && Continues(d)
    requires u == ((Bits(a, 0xF0) * 64 + Bits(b, 0x80)) * 64 + Bits(c, 0x80)) * 64 + Bits(d, 0x80)
    requires u >= 0x10000 && IsScalar(u)
    ensures EncodeChar(u as char) == [a, b, c, d]
  {
    var p := Bits(a, 0xF0) * 64 + Bits(b, 0x80);
    var q := p * 64 + Bits(c, 0x80);
    Digits64(Bits(a, 0xF0), Bits(b, 0x80));
    Digits64(p, Bits(c, 0x80));
    Digits64(q, Bits(d, 0x80));
  }

  /** The decoder accepts a character only as the encoder writes it. */
  lemma CanonicalChar(s: seq<byte>)
    requires DecodeChar(s).Some?
    ensures EncodeChar(DecodeChar(s).value.0) == s[..DecodeChar(s).value.1]
  {
    var (c, n) := DecodeChar(s).value;
    if n == 2 {
      CanonicalTwo(s[0], s[1], c as int);
    } else if n == 3 {
      CanonicalThree(s[0], s[1], s[2], c as int);
    } else if n == 4 {
      CanonicalFour(s[0], s[1], s[2], s[3], c as int);
    }
  }

  lemma EncodeCons(c: char, text: string)
    ensures Encode([c] + text) == EncodeChar(c) + Encode(text)
  {
    assert ([c] + text)[1..] == text;
  }

  lemma FirstDecoded(s: seq<byte>) returns (c: char, n: nat, text: string)
    requires s != [] && Decode(s).Some?
    ensures DecodeChar(s) == Some((c, n)) && n <= |s| && Decode(s[n..]) == Some(text)
    ensures Decode(s) == Some([c] + text)
  {
    c, n := DecodeChar(s).value.0, DecodeChar(s).value.1;
    text := Decode(s[n..]).value;
  }

  lemma FirstEncoded(s: seq<byte>) returns (c: char, text: string, tail: seq<byte>)
    requires s != [] && Decode(s).Some?
    ensures s == EncodeChar(c) + tail && |tail| < |s|
    ensures Decode(tail) == Some(text) && Decode(s) == Some([c] + text)
  {
    var n: nat;
    c, n, text := FirstDecoded(s);
    CanonicalChar(s);
    tail := s[n..];
    assert s == s[..n] + tail;
  }

  /** The decoder is strict: bytes that decode at all are the encoding of what they decode to. */
  lemma {:induction false} DecodeStrict(s: seq<byte>, t: string)
    requires Decode(s) == Some(t)
    ensures Encode(t) == s
    decreases |s|
  {
    if s != [] {
      var c, text, tail := FirstEncoded(s);
      DecodeStrict(tail, text);
      EncodeCons(c, text);
    }
  }

  /** A line feed byte comes only from a line feed. */
  lemma {:induction false} NoLineFeed(s: string)
    requires '\n' !in s
    ensures 10 !in Encode(s)
  {
    if s != "" {
      NoLineFeed(s[1..]);
      assert s[0] != '\n';
      assert 10 !in EncodeChar(s[0]);
    }
  }

  lemma {:induction false} EncodeConcat(s: string, t: string)
    ensures Encode(s + t) == Encode(s) + Encode(t)
  {
    if s == "" {
      assert s + t == t;
    } else {
      assert (s + t)[1..] == s[1..] + t;
      EncodeConcat(s[1..], t);
      Assoc(EncodeChar(s[0]), Encode(s[1..]), Encode(t));
    }
  }
}
