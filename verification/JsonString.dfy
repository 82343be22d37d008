/**
 JSON strings. `Escape` is what the boot script's `json_escape` writes; `DecodeString` reads
 a string by section 7 of RFC 8259, written without reference to the escaper.
 */
module JsonString {
  import opened Prelude

  // ---------------------------------------------------------------- the escaper

  /** Julia's `iscntrl`: C0 controls, DEL and C1 controls. */
  predicate IsControl(c: char) {
    c as int < 0x20 || 0x7F <= c as int <= 0x9F
  }

  function HexDigit(d: int): (c: char)
    requires 0 <= d < 16
  {
    if d < 10 then (48 + d) as char else (87 + d) as char
  }

  function HexDigits(u: nat): (s: string)
    ensures s != ""
  {
    if u < 16 then [HexDigit(u)] else HexDigits(u / 16) + [HexDigit(u % 16)]
  }

  function Zeros(n: nat): string {
    seq(n, _ => '0')
  }

  /** Julia's `string(u; base=16, pad=n)`: at least n digits, more if the number needs them. */
  function Hex(u: nat, n: nat): string {
    var digits := HexDigits(u);
    if |digits| < n then Zeros(n - |digits|) + digits else digits
  }

  function EscapeChar(c: char): string {
    if c == '"' then "\\\""
    else if c == '\\' then "\\\\"
    else if c == '\n' then "\\n"
    else if c == '\t' then "\\t"
    else if c == '\r' then "\\r"
    else if IsControl(c) then "\\u" + Hex(c as int, 4)
    else [c]
  }

  function EscapeBody(s: string): string {
    if s == "" then "" else EscapeChar(s[0]) + EscapeBody(s[1..])
  }

  function Escape(s: string): string {
    "\"" + EscapeBody(s) + "\""
  }

  lemma {:induction false} EscapeBodySnoc(s: string, c: char)
    ensures EscapeBody(s + [c]) == EscapeBody(s) + EscapeChar(c)
  {
    if s == "" {
      assert s + [c] == [c];
      assert EscapeBody([c]) == EscapeChar(c) + EscapeBody([c][1..]);
    } else {
      assert (s + [c])[1..] == s[1..] + [c];
      EscapeBodySnoc(s[1..], c);
      Assoc(EscapeChar(s[0]), EscapeBody(s[1..]), EscapeChar(c));
    }
  }

  method WriteEscaped(buffer: string, c: char) returns (buffer': string)
    ensures buffer' == buffer + EscapeChar(c)
  {
    if c == '"' {
      buffer' := buffer + "\\\"";
    } else if c == '\\' {
      buffer' := buffer + "\\\\";
    } else if c == '\n' {
      buffer' := buffer + "\\n";
    } else if c == '\t' {
      buffer' := buffer + "\\t";
    } else if c == '\r' {
      buffer' := buffer + "\\r";
    } else if IsControl(c) {
      buffer' := buffer + ("\\u" + Hex(c as int, 4));
    } else {
      buffer' := buffer + [c];
    }
  }

  /** The loop of `json_escape`, writing into its buffer. */
  method JsonEscape(s: string) returns (buffer: string)
    ensures buffer == Escape(s)
  {
    buffer := "\"";
    for i := 0 to |s|
      invariant buffer == "\"" + EscapeBody(s[..i])
    {
      buffer := WriteEscaped(buffer, s[i]);
      assert s[..i + 1] == s[..i] + [s[i]];
      EscapeBodySnoc(s[..i], s[i]);
      Assoc("\"", EscapeBody(s[..i]), EscapeChar(s[i]));
    }
    assert s[..|s|] == s;
    buffer := buffer + "\"";
  }

  // ---------------------------------------------------------------- RFC 8259

  predicate IsHex(c: char) {
    '0' <= c <= '9' || 'a' <= c <= 'f' || 'A' <= c <= 'F'
  }

  function HexValue(c: char): (d: int)
    requires IsHex(c)
    ensures 0 <= d < 16
  {
    if '0' <= c <= '9' then c as int - 48
    else if 'a' <= c <= 'f' then c as int - 87
    else c as int - 55
  }

  /** Four hexadecimal digits at the head of s. */
  function Unhex4(s: string): (u: Option<int>)
    ensures u.Some? ==> |s| >= 4 && 0 <= u.value < 0x10000
  {
    if |s| >= 4 && IsHex(s[0]) && IsHex(s[1]) && IsHex(s[2]) && IsHex(s[3]) then
      Some(((HexValue(s[0]) * 16 + HexValue(s[1])) * 16 + HexValue(s[2])) * 16 + HexValue(s[3]))
    else None
  }

  /** The unit after a backslash: its scalar, and how many characters it takes. A lone surrogate is no scalar. */
  function DecodeEscape(s: string): (r: Option<(char, nat)>)
    ensures r.Some? ==> 1 <= r.value.1 <= |s|
  {
    if s == "" then None
    else match s[0]
      case '"' => Some(('"', 1))
      case '\\' => Some(('\\', 1))
      case '/' => Some(('/', 1))
      case 'b' => Some((8 as char, 1))
      case 'f' => Some((12 as char, 1))
      case 'n' => Some(('\n', 1))
      case 'r' => Some(('\r', 1))
      case 't' => Some(('\t', 1))
      case 'u' =>
        (match Unhex4(s[1..])
         case None => None
         case Some(u) =>
           if u < 0xD800 || 0xE000 <= u then Some((u as char, 5))
           else if u < 0xDC00 && |s| >= 11 && s[5] == '\\' && s[6] == 'u' then
             (match Unhex4(s[7..])
              case None => None
              case Some(v) =>
                if 0xDC00 <= v < 0xE000 then Some(((0x10000 + (u - 0xD800) * 1024 + (v - 0xDC00)) as char, 11))
                else None)
           else None)
      case _ => None
  }

  /** The first character of a string's text and how many input characters spell it. */
  function DecodeUnit(s: string): (r: Option<(char, nat)>)
    ensures r.Some? ==> 1 <= r.value.1 <= |s|
  {
    if s == "" || s[0] == '"' || s[0] as int < 0x20 then None
    else if s[0] != '\\' then Some((s[0], 1))
    else
      match DecodeEscape(s[1..])
      case None => None
      case Some((c, n)) => Some((c, 1 + n))
  }

  /** The text up to the closing quote, and the input after it. */
  function DecodeBody(s: string): (r: Option<(string, string)>)
    ensures r.Some? ==> |r.value.1| < |s|
    decreases |s|
  {
    if s != "" && s[0] == '"' then Some(("", s[1..]))
    else
      match DecodeUnit(s)
      case None => None
      case Some((c, n)) =>
        match DecodeBody(s[n..])
        case None => None
        case Some((text, rest)) => Some(([c] + text, rest))
  }

  function DecodeString(s: string): (r: Option<(string, string)>)
    ensures r.Some? ==> |r.value.1| < |s|
  {
    if s != "" && s[0] == '"' then DecodeBody(s[1..]) else None
  }

  // ---------------------------------------------------------------- the round trip

  lemma HexDigitRoundTrip(d: int)
    requires 0 <= d < 16
    ensures IsHex(HexDigit(d)) && HexValue(HexDigit(d)) == d
  {
  }

  /** A number that fits in four digits is padded to exactly four. */
  lemma {:induction false} FourDigits(u: nat)
    requires u < 0x10000
    ensures Hex(u, 4) ==
      [HexDigit(u / 16 / 16 / 16), HexDigit(u / 16 / 16 % 16), HexDigit(u / 16 % 16), HexDigit(u % 16)]
  {
    var q := u / 16;
    var r := q / 16;
    assert HexDigits(r) == if r < 16 then [HexDigit(r)] else [HexDigit(r / 16), HexDigit(r % 16)];
    assert HexDigits(q) == if q < 16 then [HexDigit(q)] else HexDigits(r) + [HexDigit(q % 16)];
    assert HexDigits(u) == if u < 16 then [HexDigit(u)] else HexDigits(q) + [HexDigit(u % 16)];
  }

  lemma HexRoundTrip(u: nat, rest: string)
    requires u < 0x10000
    ensures Unhex4(Hex(u, 4) + rest) == Some(u)
  {
    var q := u / 16;
    var r := q / 16;
    FourDigits(u);
    HexDigitRoundTrip(r / 16);
    HexDigitRoundTrip(r % 16);
    HexDigitRoundTrip(q % 16);
    HexDigitRoundTrip(u % 16);
    var s := Hex(u, 4) + rest;
    assert s[0] == HexDigit(r / 16) && s[1] == HexDigit(r % 16) && s[2] == HexDigit(q % 16) && s[3] == HexDigit(u % 16);
  }

  /** A control character without a short escape becomes `\u` and exactly four hex digits that spell its code. */
  lemma ControlIsFourDigits(c: char)
    requires IsControl(c) && c != '\n' && c != '\t' && c != '\r'
    ensures |EscapeChar(c)| == 6 && EscapeChar(c)[..2] == "\\u"
    ensures forall i :: 2 <= i < 6 ==> IsHex(EscapeChar(c)[i])
    ensures Unhex4(EscapeChar(c)[2..]) == Some(c as int)
  {
    FourDigits(c as int);
    HexRoundTrip(c as int, "");
    assert EscapeChar(c)[2..] == Hex(c as int, 4) + "";
  }

  lemma UnitRoundTrip(c: char, tail: string)
    ensures DecodeUnit(EscapeChar(c) + tail) == Some((c, |EscapeChar(c)|))
    ensures EscapeChar(c)[0] != '"'
  {
    var input := EscapeChar(c) + tail;
    if IsControl(c) && c != '\n' && c != '\t' && c != '\r' {
      FourDigits(c as int);
      HexRoundTrip(c as int, tail);
      assert input[1..][1..] == Hex(c as int, 4) + tail;
    }
  }

  lemma DecodeBodyStep(unit: string, tail: string, c: char, text: string, rest: string)
    requires unit != "" && unit[0] != '"' && DecodeUnit(unit + tail) == Some((c, |unit|))
    requires DecodeBody(tail) == Some((text, rest))
    ensures DecodeBody(unit + tail) == Some(([c] + text, rest))
  {
  }

  lemma {:induction false} BodyRoundTrip(s: string, rest: string)
    ensures DecodeBody(EscapeBody(s) + ("\"" + rest)) == Some((s, rest))
  {
    var end := "\"" + rest;
    if s == "" {
      assert EscapeBody(s) + end == end && end[1..] == rest;
    } else {
      var tail := EscapeBody(s[1..]) + end;
      BodyRoundTrip(s[1..], rest);
      UnitRoundTrip(s[0], tail);
      DecodeBodyStep(EscapeChar(s[0]), tail, s[0], s[1..], rest);
      Assoc(EscapeChar(s[0]), EscapeBody(s[1..]), end);
      assert s == [s[0]] + s[1..];
    }
  }

  lemma DecodeStringStep(body: string)
    ensures DecodeString(['"'] + body) == DecodeBody(body)
  {
  }

  /** Every sequence of Unicode scalars is read back from its escaped form, leaving what follows. */
  lemma EscapeRoundTrip(s: string, rest: string)
    ensures DecodeString(Escape(s) + rest) == Some((s, rest))
  {
    var body := EscapeBody(s) + ("\"" + rest);
    BodyRoundTrip(s, rest);
    DecodeStringStep(body);
    Assoc("\"", EscapeBody(s), "\"");
    Assoc("\"", EscapeBody(s) + "\"", rest);
    Assoc(EscapeBody(s), "\"", rest);
  }

  /** An escaped character holds no control character, and no quote but the one that is escaped. */
  lemma EscapeCharIsClean(c: char)
    ensures forall i :: 0 <= i < |EscapeChar(c)| ==> !IsControl(EscapeChar(c)[i])
    ensures forall i :: 0 <= i < |EscapeChar(c)| && EscapeChar(c)[i] == '"' ==> i == 1 && EscapeChar(c)[0] == '\\'
  {
    if IsControl(c) && c != '\n' && c != '\t' && c != '\r' {
      FourDigits(c as int);
      ControlIsFourDigits(c);
    }
  }

  /** The short escapes of RFC 8259, those that the escaper never writes among them. */
  lemma ShortEscapes(tail: string)
    ensures DecodeUnit("\\\"" + tail) == Some(('"', 2)) && DecodeUnit("\\\\" + tail) == Some(('\\', 2))
    ensures DecodeUnit("\\/" + tail) == Some(('/', 2)) && DecodeUnit("\\b" + tail) == Some((8 as char, 2))
    ensures DecodeUnit("\\f" + tail) == Some((12 as char, 2)) && DecodeUnit("\\n" + tail) == Some(('\n', 2))
    ensures DecodeUnit("\\r" + tail) == Some(('\r', 2)) && DecodeUnit("\\t" + tail) == Some(('\t', 2))
  {
  }

  /** Two escapes that spell a surrogate pair are read as the one character beyond the first 65536. */
  lemma SurrogatePair(s: string, high: int, low: int)
    requires |s| >= 11 && s[0] == 'u' && s[5] == '\\' && s[6] == 'u'
    requires Unhex4(s[1..]) == Some(high) && Unhex4(s[7..]) == Some(low)
    requires 0xD800 <= high < 0xDC00 <= low < 0xE000
    ensures DecodeEscape(s) == Some(((0x10000 + 1024 * (high - 0xD800) + (low - 0xDC00)) as char, 11))
  {
  }

  /** The escaped text has no control character, so no line feed, anywhere. */
  lemma {:induction false} EscapedHasNoControl(s: string)
    ensures forall i :: 0 <= i < |EscapeBody(s)| ==> !IsControl(EscapeBody(s)[i])
  {
    if s != "" {
      EscapedHasNoControl(s[1..]);
      EscapeCharIsClean(s[0]);
    }
  }

  /** Position i is the start of a unit when a reader consuming units from the left stops there. */
  predicate UnitStart(s: string, i: nat)
    decreases |s|
  {
    if i == 0 then true
    else if s == "" then false
    else
      var n := |EscapeChar(s[0])|;
      i >= n && UnitStart(s[1..], i - n)
  }

  /**
   Every quote inside the escaped text is the second character of an escape: the text cannot
   end the string early.
   */
  lemma {:induction false} InnerQuotesEscaped(s: string, i: nat)
    requires i < |EscapeBody(s)| && EscapeBody(s)[i] == '"'
    ensures i > 0 && EscapeBody(s)[i - 1] == '\\' && UnitStart(s, i - 1) && !UnitStart(s, i)
  {
    var n := |EscapeChar(s[0])|;
    EscapeCharIsClean(s[0]);
    if i >= n {
      InnerQuotesEscaped(s[1..], i - n);
    }
  }
}
