/** Numerals as ASCII bytes: Python's `str(n).encode()` and Julia's `parse(Int, ...)`. */
module Decimal {
  import opened Prelude

  type byte = b: int | 0 <= b < 256

  predicate IsDigit(b: byte) {
    48 <= b <= 57
  }

  function Show(n: nat): (s: seq<byte>)
    ensures s != [] && forall i :: 0 <= i < |s| ==> IsDigit(s[i])
  {
    if n < 10 then [48 + n] else Show(n / 10) + [48 + n % 10]
  }

  /** ASCII digits and letters as digits of a base up to 36. */
  function DigitValue(b: byte): (d: nat)
    ensures IsDigit(b) ==> d == b - 48
  {
    if IsDigit(b) then b - 48
    else if 97 <= b <= 122 then b - 87
    else if 65 <= b <= 90 then b - 55
    else 36
  }

  /** The value of a non-empty run of digits. */
  function Read(s: seq<byte>, base: nat): Option<nat> {
    if s == [] then None
    else
      var last := DigitValue(s[|s| - 1]);
      if last >= base then None
      else if |s| == 1 then Some(last)
      else
        match Read(s[..|s| - 1], base)
        case None => None
        case Some(high) => Some(high * base + last)
  }

  predicate IsBlank(b: byte) {
    9 <= b <= 13 || b == 32
  }

  function SkipBlanks(s: seq<byte>): seq<byte> {
    if s != [] && IsBlank(s[0]) then SkipBlanks(s[1..]) else s
  }

  function DropBlanks(s: seq<byte>): seq<byte> {
    if s != [] && IsBlank(s[|s| - 1]) then DropBlanks(s[..|s| - 1]) else s
  }

  /** A prefix 0b, 0o or 0x names the base, and the digits come after it. */
  function BaseOf(s: seq<byte>): (nat, seq<byte>) {
    if |s| < 2 || s[0] != 48 then (10, s)
    else if s[1] == 98 then (2, s[2..])
    else if s[1] == 111 then (8, s[2..])
    else if s[1] == 120 then (16, s[2..])
    else (10, s)
  }

  /** `parse(Int, s)`: blanks, a sign, blanks, digits in the base their prefix gives, blanks. */
  function ParseInt(s: seq<byte>): Option<int> {
    var s1 := SkipBlanks(s);
    var signed := s1 != [] && (s1[0] == 43 || s1[0] == 45);
    var (base, digits) := BaseOf(SkipBlanks(if signed then s1[1..] else s1));
    match Read(DropBlanks(digits), base)
    case None => None
    case Some(n) =>
      var value: int := n;
      Some(if signed && s1[0] == 45 then -value else value)
  }

  lemma {:induction false} ReadShow(n: nat)
    ensures Read(Show(n), 10) == Some(n)
  {
    if n >= 10 {
      ReadShow(n / 10);
      assert Show(n)[..|Show(n)| - 1] == Show(n / 10);
    }
  }

  /** A printed length is parsed back: it has no blanks, no sign and no prefix. */
  lemma {:induction false} ParseShow(n: nat)
    ensures ParseInt(Show(n)) == Some(n)
  {
    var s := Show(n);
    ReadShow(n);
    assert IsDigit(s[0]) && IsDigit(s[|s| - 1]) && (|s| > 1 ==> IsDigit(s[1]));
    assert SkipBlanks(s) == s && DropBlanks(s) == s && BaseOf(s) == (10, s);
  }

  lemma PlainDigits(n: nat)
    ensures var s := Show(n); SkipBlanks(s) == s && DropBlanks(s) == s && BaseOf(s) == (10, s)
    ensures IsDigit(Show(n)[0])
  {
    var s := Show(n);
    assert IsDigit(s[0]) && IsDigit(s[|s| - 1]) && (|s| > 1 ==> IsDigit(s[1]));
  }

  /** A sign before the digits counts. */
  lemma {:induction false} ParseSigned(n: nat, m: int)
    requires m + n == 0
    ensures ParseInt([45] + Show(n)) == Some(m) && ParseInt([43] + Show(n)) == Some(n)
  {
    PlainDigits(n);
    ReadShow(n);
    assert ([45] + Show(n))[1..] == Show(n) && ([43] + Show(n))[1..] == Show(n);
  }

  /** Blanks in front do not, whatever follows, and no more do blanks behind the digits. */
  lemma LeadingBlank(s: seq<byte>)
    ensures ParseInt([32] + s) == ParseInt(s)
  {
    assert ([32] + s)[1..] == s;
    assert SkipBlanks([32] + s) == SkipBlanks(s);
  }

  lemma BlankBehind(s: seq<byte>)
    requires s != [] && IsDigit(s[0]) && IsDigit(s[|s| - 1]) && (|s| > 1 ==> IsDigit(s[1]))
    ensures SkipBlanks(s + [32]) == s + [32] && BaseOf(s + [32]) == (10, s + [32])
    ensures DropBlanks(s + [32]) == s
  {
    var t := s + [32];
    assert t[0] == s[0] && (|s| > 1 ==> t[1] == s[1]);
    assert t[|t| - 1] == 32 && t[..|t| - 1] == s;
    assert DropBlanks(t) == DropBlanks(s);
  }

  lemma {:induction false} TrailingBlank(n: nat)
    ensures ParseInt(Show(n) + [32]) == Some(n)
  {
    var s := Show(n);
    assert IsDigit(s[0]) && IsDigit(s[|s| - 1]) && (|s| > 1 ==> IsDigit(s[1]));
    BlankBehind(s);
    ReadShow(n);
    assert (s + [32])[0] == s[0];
  }

  /** What else the parser takes: a sign that counts, and blanks that do not. */
  lemma ParseTolerates(n: nat, m: int)
    requires m + n == 0
    ensures ParseInt([45] + Show(n)) == Some(m) && ParseInt([43] + Show(n)) == Some(n)
    ensures ParseInt([32] + Show(n)) == ParseInt(Show(n) + [32]) == Some(n)
  {
    ParseShow(n);
    ParseSigned(n, m);
    LeadingBlank(Show(n));
    TrailingBlank(n);
  }

  lemma ShowInjective(m: nat, n: nat)
    requires Show(m) == Show(n)
    ensures m == n
  {
    ReadShow(m);
    ReadShow(n);
  }
}
