/**
 The answer to one eval: the JSON line `doeval` builds, the three lines the boot script
 prints, and how `eval_in_session` reads them back.
 */
module ResultFrame {
  import opened Prelude
  import opened Decimal
  import opened JsonString
  import Utf8

  /** What an eval produced: success, the shown value or error, and captured output. */
  datatype Eval = Eval(ok: bool, value: string, printed: string)

  // ---------------------------------------------------------------- the JSON line

  function Literal(b: bool): string {
    if b then "true" else "false"
  }

  /** The concatenation of `doeval`, piece by piece from its end. */
  function PrintedPart(e: Eval): string {
    ",\"printed\":" + (Escape(e.printed) + "}")
  }

  function ValuePart(e: Eval): string {
    ",\"value\":" + (Escape(e.value) + PrintedPart(e))
  }

  function JsonLine(e: Eval): string {
    "{\"ok\":" + (Literal(e.ok) + ValuePart(e))
  }

  // ---------------------------------------------------------------- reading JSON (RFC 8259)

  /** A JSON value; a number is kept as it is spelled. */
  datatype Json =
    | Null
    | Bool(b: bool)
    | Number(digits: string)
    | Text(s: string)
    | List(items: seq<Json>)
    | Object(members: map<string, Json>)

  predicate StartsWith<T(==)>(s: seq<T>, prefix: seq<T>) {
    |prefix| <= |s| && s[..|prefix|] == prefix
  }

  predicate IsWs(c: char) {
    c == ' ' || c == '\t' || c == '\n' || c == '\r'
  }

  function SkipWs(s: string): (r: string)
    ensures |r| <= |s|
  {
    if s != "" && IsWs(s[0]) then SkipWs(s[1..]) else s
  }

  function Digits(s: string): (n: nat)
    ensures n <= |s|
  {
    if s != "" && '0' <= s[0] <= '9' then 1 + Digits(s[1..]) else 0
  }

  /** The length of the integer, fraction or exponent at the head of s, zero if there is none (section 6). */
  function IntLength(s: string): (n: nat)
    ensures n <= |s|
  {
    var m := if s != "" && s[0] == '-' then 1 else 0;
    if Digits(s[m..]) == 0 then 0
    else if s[m] == '0' then m + 1
    else m + Digits(s[m..])
  }

  function FractionLength(s: string): (n: nat)
    ensures n <= |s|
  {
    if s != "" && s[0] == '.' && Digits(s[1..]) > 0 then 1 + Digits(s[1..]) else 0
  }

  function ExponentLength(s: string): (n: nat)
    ensures n <= |s|
  {
    if s == "" || (s[0] != 'e' && s[0] != 'E') then 0
    else
      var m := if |s| > 1 && (s[1] == '+' || s[1] == '-') then 2 else 1;
      if Digits(s[m..]) > 0 then m + Digits(s[m..]) else 0
  }

  function NumberLength(s: string): (n: nat)
    ensures n <= |s|
  {
    var i := IntLength(s);
    if i == 0 then 0
    else
      var f := FractionLength(s[i..]);
      i + f + ExponentLength(s[i + f..])
  }

  /** The words that stand for a value; the last three are an extension of Python's reader. */
  function Word(s: string): Option<(Json, nat)> {
    if StartsWith(s, "true") then Some((Bool(true), 4))
    else if StartsWith(s, "false") then Some((Bool(false), 5))
    else if StartsWith(s, "null") then Some((Null, 4))
    else if StartsWith(s, "NaN") then Some((Number("NaN"), 3))
    else if StartsWith(s, "Infinity") then Some((Number("Infinity"), 8))
    else if StartsWith(s, "-Infinity") then Some((Number("-Infinity"), 9))
    else None
  }

  /** What is neither an object nor a list. */
  function ReadAtom(s: string): (r: Option<(Json, string)>)
    ensures r.Some? ==> |r.value.1| < |s|
  {
    if s != "" && s[0] == '"' then
      match DecodeString(s)
      case None => None
      case Some((text, rest)) => Some((Text(text), rest))
    else if Word(s).Some? then Some((Word(s).value.0, s[Word(s).value.1..]))
    else if NumberLength(s) > 0 then Some((Number(s[..NumberLength(s)]), s[NumberLength(s)..]))
    else None
  }

  function ReadValue(s: string): (r: Option<(Json, string)>)
    ensures r.Some? ==> |r.value.1| < |s|
    decreases |s|, 0
  {
    if s == "" then None
    else if s[0] == '{' then
      var s1 := SkipWs(s[1..]);
      if s1 != "" && s1[0] == '}' then Some((Object(map[]), s1[1..]))
      else
        match ReadMembers(s1)
        case None => None
        case Some((members, rest)) => Some((Object(members), rest))
    else if s[0] == '[' then
      var s1 := SkipWs(s[1..]);
      if s1 != "" && s1[0] == ']' then Some((List([]), s1[1..]))
      else
        match ReadItems(s1)
        case None => None
        case Some((items, rest)) => Some((List(items), rest))
    else ReadAtom(s)
  }

  /** One member of an object (section 4). */
  function ReadMember(s: string): (r: Option<((string, Json), string)>)
    ensures r.Some? ==> |r.value.1| < |s|
    decreases |s|, 0
  {
    match DecodeString(SkipWs(s))
    case None => None
    case Some((name, afterName)) =>
      var s1 := SkipWs(afterName);
      if s1 == "" || s1[0] != ':' then None
      else
        match ReadValue(SkipWs(s1[1..]))
        case None => None
        case Some((value, rest)) => Some(((name, value), SkipWs(rest)))
  }

  /** The members up to the closing brace; a repeated name keeps its last value. */
  function ReadMembers(s: string): (r: Option<(map<string, Json>, string)>)
    ensures r.Some? ==> |r.value.1| < |s|
    decreases |s|, 1
  {
    match ReadMember(s)
    case None => None
    case Some(((name, value), rest)) =>
      if rest == "" then None
      else if rest[0] == '}' then Some((map[name := value], rest[1..]))
      else if rest[0] != ',' then None
      else
        match ReadMembers(rest[1..])
        case None => None
        case Some((members, end)) => Some((map[name := value] + members, end))
  }

  /** The items of a list up to the closing bracket (section 5). */
  function ReadItems(s: string): (r: Option<(seq<Json>, string)>)
    ensures r.Some? ==> |r.value.1| < |s|
    decreases |s|, 1
  {
    match ReadValue(SkipWs(s))
    case None => None
    case Some((value, afterValue)) =>
      var rest := SkipWs(afterValue);
      if rest == "" then None
      else if rest[0] == ']' then Some(([value], rest[1..]))
      else if rest[0] != ',' then None
      else
        match ReadItems(rest[1..])
        case None => None
        case Some((items, end)) => Some(([value] + items, end))
  }

  /** A text that is one JSON value. */
  function ReadJson(s: string): Option<Json> {
    match ReadValue(SkipWs(s))
    case None => None
    case Some((value, rest)) => if SkipWs(rest) == "" then Some(value) else None
  }

  // ---------------------------------------------------------------- the round trip

  function Members(e: Eval): map<string, Json> {
    map["ok" := Bool(e.ok)] + (map["value" := Text(e.value)] + map["printed" := Text(e.printed)])
  }

  /** A result as the caller of the session gets it: a dictionary with three entries. */
  function JsonOf(e: Eval): Json {
    Object(Members(e))
  }

  predicate NoLeadingWs(s: string) {
    s != "" && !IsWs(s[0])
  }

  lemma MemberRoundTrip(name: string, valueText: string, value: Json, tail: string)
    requires NoLeadingWs(valueText + tail) && NoLeadingWs(tail)
    requires ReadValue(valueText + tail) == Some((value, tail))
    ensures ReadMember(Escape(name) + ([':'] + (valueText + tail))) == Some(((name, value), tail))
  {
    var afterName := [':'] + (valueText + tail);
    EscapeRoundTrip(name, afterName);
    assert afterName[1..] == valueText + tail;
  }

  lemma LastMember(name: string, valueText: string, value: Json, rest: string)
    requires NoLeadingWs(valueText)
    requires ReadValue(valueText + (['}'] + rest)) == Some((value, ['}'] + rest))
    ensures ReadMembers(Escape(name) + ([':'] + (valueText + (['}'] + rest)))) == Some((map[name := value], rest))
  {
    MemberRoundTrip(name, valueText, value, ['}'] + rest);
    assert (['}'] + rest)[1..] == rest;
  }

  lemma NextMember(
    name: string, valueText: string, value: Json, next: string, members: map<string, Json>, rest: string)
    requires NoLeadingWs(valueText)
    requires ReadValue(valueText + ([','] + next)) == Some((value, [','] + next))
    requires ReadMembers(next) == Some((members, rest))
    ensures ReadMembers(Escape(name) + ([':'] + (valueText + ([','] + next)))) ==
      Some((map[name := value] + members, rest))
  {
    MemberRoundTrip(name, valueText, value, [','] + next);
    assert ([','] + next)[1..] == next;
  }

  /** Lists are read item by item, to the bracket. */
  lemma ItemsRead(valueText: string, value: Json, next: string, items: seq<Json>, rest: string)
    requires NoLeadingWs(valueText)
    ensures ReadValue(valueText + ([']'] + rest)) == Some((value, [']'] + rest)) ==>
      ReadItems(valueText + ([']'] + rest)) == Some(([value], rest))
    ensures ReadValue(valueText + ([','] + next)) == Some((value, [','] + next)) ==>
      ReadItems(next) == Some((items, rest)) ==>
        ReadItems(valueText + ([','] + next)) == Some(([value] + items, rest))
  {
    assert ([']'] + rest)[1..] == rest && ([','] + next)[1..] == next;
    assert SkipWs(valueText + ([']'] + rest)) == valueText + ([']'] + rest);
    assert SkipWs(valueText + ([','] + next)) == valueText + ([','] + next);
  }

  lemma TextValue(s: string, tail: string)
    ensures ReadValue(Escape(s) + tail) == Some((Text(s), tail))
  {
    EscapeRoundTrip(s, tail);
    assert (Escape(s) + tail)[0] == '"';
  }

  lemma BoolValue(b: bool, tail: string)
    ensures ReadValue(Literal(b) + tail) == Some((Bool(b), tail))
  {
    var s := Literal(b) + tail;
    assert s[|Literal(b)|..] == tail && s[..|Literal(b)|] == Literal(b);
    assert s[0] == if b then 't' else 'f';
  }

  lemma ObjectOf(body: string, members: map<string, Json>, rest: string)
    requires body != "" && body[0] == '"' && ReadMembers(body) == Some((members, rest)) && SkipWs(rest) == ""
    ensures ReadJson(['{'] + body) == Some(Object(members))
  {
    var s := ['{'] + body;
    assert SkipWs(s) == s && s[1..] == body && SkipWs(body) == body;
  }

  lemma OkKey()
    ensures "{\"ok\":" == ['{'] + Escape("ok") + [':']
  {
  }

  lemma ValueKey()
    ensures ",\"value\":" == [','] + Escape("value") + [':']
  {
  }

  lemma PrintedKey()
    ensures ",\"printed\":" == [','] + Escape("printed") + [':']
  {
  }

  /** A key between its separator and its colon, with whatever follows. */
  lemma KeyText(key: string, separator: char, name: string, tail: string)
    requires key == [separator] + Escape(name) + [':']
    ensures key + tail == [separator] + (Escape(name) + ([':'] + tail))
  {
  }

  lemma PrintedPartReads(e: Eval, rest: string) returns (body: string)
    ensures PrintedPart(e) + rest == [','] + body
    ensures ReadMembers(body) == Some((map["printed" := Text(e.printed)], rest))
  {
    var tail := Escape(e.printed) + (['}'] + rest);
    Assoc(Escape(e.printed), "}", rest);
    Assoc(",\"printed\":", Escape(e.printed) + "}", rest);
    PrintedKey();
    KeyText(",\"printed\":", ',', "printed", tail);
    TextValue(e.printed, ['}'] + rest);
    LastMember("printed", Escape(e.printed), Text(e.printed), rest);
    body := Escape("printed") + ([':'] + tail);
  }

  lemma ValuePartReads(e: Eval, rest: string) returns (body: string)
    ensures ValuePart(e) + rest == [','] + body
    ensures ReadMembers(body) == Some((map["value" := Text(e.value)] + map["printed" := Text(e.printed)], rest))
  {
    var next := PrintedPartReads(e, rest);
    var tail := Escape(e.value) + ([','] + next);
    Assoc(Escape(e.value), PrintedPart(e), rest);
    Assoc(",\"value\":", Escape(e.value) + PrintedPart(e), rest);
    ValueKey();
    KeyText(",\"value\":", ',', "value", tail);
    TextValue(e.value, [','] + next);
    NextMember("value", Escape(e.value), Text(e.value), next, map["printed" := Text(e.printed)], rest);
    body := Escape("value") + ([':'] + tail);
  }

  lemma JsonLineReads(e: Eval, rest: string) returns (body: string)
    ensures JsonLine(e) + rest == ['{'] + body
    ensures body != "" && body[0] == '"'
    ensures ReadMembers(body) == Some((Members(e), rest))
  {
    var next := ValuePartReads(e, rest);
    var tail := Literal(e.ok) + ([','] + next);
    Assoc(Literal(e.ok), ValuePart(e), rest);
    Assoc("{\"ok\":", Literal(e.ok) + ValuePart(e), rest);
    OkKey();
    KeyText("{\"ok\":", '{', "ok", tail);
    BoolValue(e.ok, [','] + next);
    var others := map["value" := Text(e.value)] + map["printed" := Text(e.printed)];
    NextMember("ok", Literal(e.ok), Bool(e.ok), next, others, rest);
    body := Escape("ok") + ([':'] + tail);
  }

  /** Different results are different dictionaries. */
  lemma JsonOfInjective(e: Eval, f: Eval)
    requires JsonOf(e) == JsonOf(f)
    ensures e == f
  {
    MembersDiffer(e);
    MembersDiffer(f);
  }

  lemma MembersDiffer(e: Eval)
    ensures "ok" in Members(e) && "value" in Members(e) && "printed" in Members(e)
    ensures Members(e)["ok"] == Bool(e.ok)
    ensures Members(e)["value"] == Text(e.value) && Members(e)["printed"] == Text(e.printed)
  {
  }

  /**
   The JSON line of any result, also with its line feed still on, is read by a reader of JSON
   as the dictionary of that result.
   */
  lemma JsonLineRoundTrip(e: Eval)
    ensures ReadJson(JsonLine(e) + "\n") == Some(JsonOf(e))
  {
    var body := JsonLineReads(e, "\n");
    assert "\n"[1..] == "";
    ObjectOf(body, Members(e), "\n");
  }
}
