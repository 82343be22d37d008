/**
 The byte streams between the session manager and a Julia session: `EVAL n` frames one way,
 three-line results the other way, and the boot script's reader loop between them.
 */
module SessionStream {
  import opened Prelude
  import opened Decimal
  import opened ResultFrame
  import JsonString
  import Utf8

  const LF: byte := 10
  const CR: byte := 13
  /** "EVAL ", "QUIT", "RESULT", "ENDOFRESULT" and "READY" in ASCII. */
  const EVAL: seq<byte> := [69, 86, 65, 76, 32]
  const QUIT: seq<byte> := [81, 85, 73, 84]
  const RESULT: seq<byte> := [82, 69, 83, 85, 76, 84]
  const ENDOFRESULT: seq<byte> := [69, 78, 68, 79, 70, 82, 69, 83, 85, 76, 84]
  const READY: seq<byte> := [82, 69, 65, 68, 89]

  // ---------------------------------------------------------------- lines

  /** The position of the first line feed, or the length. */
  function LineEnd(s: seq<byte>): (n: nat)
    ensures n <= |s| && (n < |s| ==> s[n] == LF) && LF !in s[..n]
  {
    if s == [] || s[0] == LF then 0 else 1 + LineEnd(s[1..])
  }

  /** Python's `readline`: the line with its line feed, and the rest. */
  function PythonLine(s: seq<byte>): (seq<byte>, seq<byte>) {
    var n := LineEnd(s);
    if n < |s| then (s[..n + 1], s[n + 1..]) else (s, [])
  }

  /** Julia's `readline`: a terminated line loses its line feed and a carriage return before it. */
  function JuliaLine(s: seq<byte>): (r: (seq<byte>, seq<byte>))
    ensures s != [] ==> |r.1| < |s|
  {
    var n := LineEnd(s);
    if n < |s| then (if n > 0 && s[n - 1] == CR then s[..n - 1] else s[..n], s[n + 1..]) else (s, [])
  }

  /** A line without the carriage return at its end, if it has one. */
  function Chomped(line: seq<byte>): seq<byte> {
    if line != [] && line[|line| - 1] == CR then line[..|line| - 1] else line
  }

  lemma {:induction false} LineEndOf(line: seq<byte>, rest: seq<byte>)
    requires LF !in line
    ensures LineEnd(line + ([LF] + rest)) == |line|
  {
    if line == [] {
      assert line + ([LF] + rest) == [LF] + rest;
    } else {
      assert (line + ([LF] + rest))[1..] == line[1..] + ([LF] + rest);
      LineEndOf(line[1..], rest);
    }
  }

  lemma LinesSplit(line: seq<byte>, rest: seq<byte>)
    requires LF !in line
    ensures PythonLine(line + ([LF] + rest)) == (line + [LF], rest)
    ensures JuliaLine(line + ([LF] + rest)) == (Chomped(line), rest)
  {
    LineEndOf(line, rest);
    var s := line + ([LF] + rest);
    assert s[..|line|] == line && s[..|line| + 1] == line + [LF] && s[|line| + 1..] == rest;
    if line != [] {
      assert s[|line| - 1] == line[|line| - 1] && s[..|line| - 1] == line[..|line| - 1];
    }
  }

  // ---------------------------------------------------------------- what is written

  /** What `eval_in_session` writes for a code of |code| bytes. */
  function EvalFrame(code: seq<byte>): seq<byte> {
    (EVAL + Show(|code|)) + ([LF] + (code + [LF]))
  }

  function EvalFrames(codes: seq<seq<byte>>): seq<byte> {
    if codes == [] then [] else EvalFrame(codes[0]) + EvalFrames(codes[1..])
  }

  /** The three lines the boot script prints for a result. */
  function ResultLines(e: Eval): seq<byte> {
    RESULT + ([LF] + (Utf8.Encode(JsonLine(e)) + ([LF] + (ENDOFRESULT + [LF]))))
  }

  // ---------------------------------------------------------------- the boot loop

  /**
   How the loop leaves off: on QUIT, on an exception from a header that is no number or a
   negative one, or waiting for input that does not come.
   */
  datatype End = Quit | OutOfInput | BadHeader

  datatype Boot<S> = Boot(codes: seq<seq<byte>>, output: seq<byte>, rest: seq<byte>, state: S, end: End)

  /** Evaluation inside the Julia process, whose bindings persist from one code to the next. */
  type Evaluator<!S> = (S, seq<byte>) -> (S, Eval)

  function Min(a: nat, b: nat): nat {
    if a <= b then a else b
  }

  /** The boot script's loop on everything written to it. */
  function RunBoot<S>(eval: Evaluator<S>, st: S, input: seq<byte>): Boot<S>
    decreases |input|
  {
    if input == [] then Boot([], [], [], st, OutOfInput)
    else
      var (line, rest) := JuliaLine(input);
      if line == QUIT then Boot([], [], rest, st, Quit)
      else if StartsWith(line, EVAL) then
        match ParseInt(line[|EVAL|..])
        case None => Boot([], [], rest, st, BadHeader)
        case Some(n) =>
          if n < 0 then Boot([], [], rest, st, BadHeader)
          else
            var k := Min(n, |rest|);
            var after := if k < |rest| then rest[k + 1..] else [];
            var (st', e) := eval(st, rest[..k]);
            Prepend([rest[..k]], ResultLines(e), RunBoot(eval, st', after))
      else RunBoot(eval, st, rest)
  }

  function Prepend<S>(codes: seq<seq<byte>>, output: seq<byte>, b: Boot<S>): Boot<S> {
    b.(codes := codes + b.codes, output := output + b.output)
  }

  method BootLoop<S>(eval: Evaluator<S>, st: S, input: seq<byte>) returns (b: Boot<S>)
    ensures b == RunBoot(eval, st, input)
  {
    var codes: seq<seq<byte>> := [];
    var output: seq<byte> := [];
    var stdin, state := input, st;
    while stdin != []
      invariant RunBoot(eval, st, input) == Prepend(codes, output, RunBoot(eval, state, stdin))
      decreases |stdin|
    {
      ghost var before := RunBoot(eval, state, stdin);
      var (line, rest) := JuliaLine(stdin);
      stdin := rest;
      if line == QUIT {
        return Boot(codes, output, stdin, state, Quit);
      } else if StartsWith(line, EVAL) {
        var n := ParseInt(line[|EVAL|..]);
        if n.None? || n.value < 0 {
          return Boot(codes, output, stdin, state, BadHeader);
        }
        var k := Min(n.value, |stdin|);
        var code := stdin[..k];
        stdin := if k < |stdin| then stdin[k + 1..] else [];
        var (state', result) := eval(state, code);
        state := state';
        ghost var after := RunBoot(eval, state, stdin);
        Assoc(codes, [code], after.codes);
        Assoc(output, ResultLines(result), after.output);
        codes := codes + [code];
        output := output + ResultLines(result);
      }
    }
    return Boot(codes, output, [], state, OutOfInput);
  }

  /** The states and results of evaluating codes one after another. */
  function StateAfter<S>(eval: Evaluator<S>, st: S, codes: seq<seq<byte>>): S {
    if codes == [] then st else StateAfter(eval, eval(st, codes[0]).0, codes[1..])
  }

  function Results<S>(eval: Evaluator<S>, st: S, codes: seq<seq<byte>>): (r: seq<Eval>)
    ensures |r| == |codes|
  {
    if codes == [] then [] else [eval(st, codes[0]).1] + Results(eval, eval(st, codes[0]).0, codes[1..])
  }

  function Printed(results: seq<Eval>): seq<byte> {
    if results == [] then [] else ResultLines(results[0]) + Printed(results[1..])
  }

  /** One frame at the head of the stream is consumed exactly, whatever bytes its code holds. */
  lemma {:induction false} FrameConsumed<S>(eval: Evaluator<S>, st: S, code: seq<byte>, tail: seq<byte>)
    ensures RunBoot(eval, st, EvalFrame(code) + tail) ==
      Prepend([code], ResultLines(eval(st, code).1), RunBoot(eval, eval(st, code).0, tail))
  {
    var header := EVAL + Show(|code|);
    var body := code + ([LF] + tail);
    Assoc(header, [LF] + (code + [LF]), tail);
    Assoc([LF], code + [LF], tail);
    Assoc(code, [LF], tail);
    assert EvalFrame(code) + tail == header + ([LF] + body);
    assert LF !in header;
    LinesSplit(header, body);
    assert header[|EVAL|..] == Show(|code|) && header[..|EVAL|] == EVAL;
    ParseShow(|code|);
    assert body[..|code|] == code && body[|code| + 1..] == tail;
    assert header[0] != QUIT[0];
  }

  /** Any other line is skipped, with or without a carriage return, and the state stays as it is. */
  lemma OtherLineSkipped<S>(eval: Evaluator<S>, st: S, line: seq<byte>, tail: seq<byte>)
    requires LF !in line && Chomped(line) != QUIT && !StartsWith(Chomped(line), EVAL)
    ensures RunBoot(eval, st, line + ([LF] + tail)) == RunBoot(eval, st, tail)
  {
    LinesSplit(line, tail);
  }

  /** A header that is no number, or a negative one, ends the loop before anything is evaluated. */
  lemma BadHeaderEnds<S>(eval: Evaluator<S>, st: S, digits: seq<byte>, tail: seq<byte>)
    requires LF !in digits && (digits == [] || digits[|digits| - 1] != CR)
    requires ParseInt(digits).None? || ParseInt(digits).value < 0
    ensures RunBoot(eval, st, (EVAL + digits) + ([LF] + tail)) == Boot([], [], tail, st, BadHeader)
  {
    var header := EVAL + digits;
    LinesSplit(header, tail);
    assert header[|EVAL|..] == digits && header[..|EVAL|] == EVAL;
    assert header[0] != QUIT[0];
  }

  /** A frame cut short is evaluated as far as it came, and then there is no more input. */
  lemma CutFrame<S>(eval: Evaluator<S>, st: S, n: nat, part: seq<byte>)
    requires |part| <= n
    ensures RunBoot(eval, st, (EVAL + Show(n)) + ([LF] + part)) ==
      Boot([part], ResultLines(eval(st, part).1), [], eval(st, part).0, OutOfInput)
  {
    var header := EVAL + Show(n);
    assert LF !in header;
    LinesSplit(header, part);
    assert header[|EVAL|..] == Show(n) && header[..|EVAL|] == EVAL;
    ParseShow(n);
    assert part[..|part|] == part;
    assert header[0] != QUIT[0];
    AppendNothing(ResultLines(eval(st, part).1));
  }

  /**
   Framing: the loop takes the codes off the stream in order, evaluates each in the state the
   earlier ones left, and goes on with exactly the bytes after the last frame.
   */
  lemma {:induction false} FramesConsumed<S>(eval: Evaluator<S>, st: S, codes: seq<seq<byte>>, tail: seq<byte>)
    ensures RunBoot(eval, st, EvalFrames(codes) + tail) ==
      Prepend(codes, Printed(Results(eval, st, codes)), RunBoot(eval, StateAfter(eval, st, codes), tail))
  {
    if codes == [] {
      assert EvalFrames(codes) + tail == tail;
      var b := RunBoot(eval, st, tail);
      assert codes + b.codes == b.codes && [] + b.output == b.output;
    } else {
      var (st', e) := eval(st, codes[0]);
      Assoc(EvalFrame(codes[0]), EvalFrames(codes[1..]), tail);
      FrameConsumed(eval, st, codes[0], EvalFrames(codes[1..]) + tail);
      FramesConsumed(eval, st', codes[1..], tail);
      var b := RunBoot(eval, StateAfter(eval, st', codes[1..]), tail);
      var results := Results(eval, st', codes[1..]);
      assert Results(eval, st, codes)[1..] == results;
      Assoc([codes[0]], codes[1..], b.codes);
      Assoc(ResultLines(e), Printed(results), b.output);
      assert codes == [codes[0]] + codes[1..];
    }
  }

  /** With QUIT after them the loop ends having yielded exactly those codes; the rest of the stream stays unread. */
  lemma {:induction false} FramesThenQuit<S>(eval: Evaluator<S>, st: S, codes: seq<seq<byte>>, tail: seq<byte>)
    ensures RunBoot(eval, st, EvalFrames(codes) + (QUIT + ([LF] + tail))) ==
      Boot(codes, Printed(Results(eval, st, codes)), tail, StateAfter(eval, st, codes), Quit)
  {
    FramesConsumed(eval, st, codes, QUIT + ([LF] + tail));
    LinesSplit(QUIT, tail);
    assert codes + [] == codes && Printed(Results(eval, st, codes)) + [] == Printed(Results(eval, st, codes));
  }

  // ---------------------------------------------------------------- reading the answer

  /** What the caller gets: any JSON value the line holds, or an error. */
  datatype Reply = Reply(json: Json) | Malformed

  /** `eval_in_session` after writing: three line reads, then decoding; and what stays unread. */
  function ReadReply(s: seq<byte>): (Reply, seq<byte>) {
    var (header, afterHeader) := PythonLine(s);
    if !StartsWith(header, RESULT) then (Malformed, afterHeader)
    else
      var (json, afterJson) := PythonLine(afterHeader);
      var (trailer, rest) := PythonLine(afterJson);
      if !StartsWith(trailer, ENDOFRESULT) then (Malformed, rest)
      else
        (DecodeResult(json), rest)
  }

  function DecodeResult(json: seq<byte>): Reply {
    match Utf8.Decode(json)
    case None => Malformed
    case Some(text) =>
      match ReadJson(text)
      case None => Malformed
      case Some(json) => Reply(json)
  }

  lemma EscapedHasNoLineFeed(s: string)
    ensures '\n' !in JsonString.Escape(s)
  {
    JsonString.EscapedHasNoControl(s);
    assert JsonString.IsControl('\n');
  }

  lemma {:induction false} JsonLineIsOneLine(e: Eval)
    ensures '\n' !in JsonLine(e)
  {
    EscapedHasNoLineFeed(e.value);
    EscapedHasNoLineFeed(e.printed);
  }

  lemma EncodeLineFeed(s: string)
    ensures Utf8.Encode(s + "\n") == Utf8.Encode(s) + [LF]
  {
    Utf8.EncodeConcat(s, "\n");
    assert Utf8.Encode("\n") == Utf8.EncodeChar('\n') + Utf8.Encode("\n"[1..]);
  }

  lemma ResultDecodes(e: Eval)
    ensures DecodeResult(Utf8.Encode(JsonLine(e)) + [LF]) == Reply(JsonOf(e))
    ensures LF !in Utf8.Encode(JsonLine(e))
  {
    JsonLineIsOneLine(e);
    Utf8.NoLineFeed(JsonLine(e));
    EncodeLineFeed(JsonLine(e));
    Utf8.DecodeEncode(JsonLine(e) + "\n");
    JsonLineRoundTrip(e);
  }

  lemma ThreeLines(a: seq<byte>, b: seq<byte>, c: seq<byte>, rest: seq<byte>)
    ensures (a + ([LF] + (b + ([LF] + (c + [LF]))))) + rest == a + ([LF] + (b + ([LF] + (c + ([LF] + rest)))))
  {
  }

  lemma PrefixOfLine(line: seq<byte>)
    ensures StartsWith(line + [LF], line)
  {
  }

  /**
   What any three lines are read as: a first line that is no header is an error that costs that
   line alone; otherwise all three are read, a third that is no trailer is an error, and the
   middle one is decoded.
   */
  lemma AnyThreeLines(a: seq<byte>, b: seq<byte>, c: seq<byte>, rest: seq<byte>)
    requires LF !in a && LF !in b && LF !in c
    ensures ReadReply(a + ([LF] + (b + ([LF] + (c + ([LF] + rest)))))) ==
      if !StartsWith(a + [LF], RESULT) then (Malformed, b + ([LF] + (c + ([LF] + rest))))
      else if !StartsWith(c + [LF], ENDOFRESULT) then (Malformed, rest)
      else (DecodeResult(b + [LF]), rest)
  {
    LinesSplit(a, b + ([LF] + (c + ([LF] + rest))));
    LinesSplit(b, c + ([LF] + rest));
    LinesSplit(c, rest);
  }

  /** Three lines between which nothing is lost: the middle one is decoded, the rest stays. */
  lemma ReplyOfLines(json: seq<byte>, rest: seq<byte>)
    requires LF !in json
    ensures ReadReply(RESULT + ([LF] + (json + ([LF] + (ENDOFRESULT + ([LF] + rest)))))) ==
      (DecodeResult(json + [LF]), rest)
  {
    AnyThreeLines(RESULT, json, ENDOFRESULT, rest);
    PrefixOfLine(RESULT);
    PrefixOfLine(ENDOFRESULT);
  }

  /**
   The result frame round-trips: for every success flag, value and captured output, the three
   lines are split where they were joined and decode to the same result.
   */
  lemma {:induction false} ReplyRoundTrip(e: Eval, rest: seq<byte>)
    ensures ReadReply(ResultLines(e) + rest) == (Reply(JsonOf(e)), rest)
  {
    var json := Utf8.Encode(JsonLine(e));
    ThreeLines(RESULT, json, ENDOFRESULT, rest);
    ResultDecodes(e);
    ReplyOfLines(json, rest);
  }

  /**
   Frames are unambiguous: when two results are written and something follows each, equal
   streams mean equal results and equal remainders. No result can pass for another, and none
   for a longer or shorter one.
   */
  lemma FramesUnambiguous(e: Eval, rest: seq<byte>, f: Eval, more: seq<byte>)
    requires ResultLines(e) + rest == ResultLines(f) + more
    ensures e == f && rest == more
  {
    ReplyRoundTrip(e, rest);
    ReplyRoundTrip(f, more);
    JsonOfInjective(e, f);
  }

  // ---------------------------------------------------------------- the conversation

  /** Everything on the session's output once the codes have been written and answered. */
  function Output<S>(eval: Evaluator<S>, st: S, codes: seq<seq<byte>>): seq<byte> {
    READY + ([LF] + RunBoot(eval, st, EvalFrames(codes)).output)
  }

  lemma {:induction false} FramesSnoc(codes: seq<seq<byte>>, code: seq<byte>)
    ensures EvalFrames(codes + [code]) == EvalFrames(codes) + EvalFrame(code)
  {
    if codes == [] {
      assert codes + [code] == [code] && [code][1..] == [];
      assert EvalFrame(code) + [] == EvalFrame(code);
    } else {
      assert (codes + [code])[1..] == codes[1..] + [code];
      FramesSnoc(codes[1..], code);
      Assoc(EvalFrame(codes[0]), EvalFrames(codes[1..]), EvalFrame(code));
    }
  }

  /** One more code adds one result frame to what the boot loop has written. */
  lemma {:induction false} OutputGrows<S>(eval: Evaluator<S>, st: S, codes: seq<seq<byte>>, code: seq<byte>)
    ensures RunBoot(eval, st, EvalFrames(codes + [code])).output ==
      RunBoot(eval, st, EvalFrames(codes)).output + ResultLines(eval(StateAfter(eval, st, codes), code).1)
  {
    var mid := StateAfter(eval, st, codes);
    var lines := ResultLines(eval(mid, code).1);
    FramesSnoc(codes, code);
    FramesConsumed(eval, st, codes, EvalFrame(code));
    FramesConsumed(eval, st, codes, []);
    FrameConsumed(eval, mid, code, []);
    AppendNothing(EvalFrame(code));
    AppendNothing(EvalFrames(codes));
    AppendNothing(lines);
    AppendNothing(Printed(Results(eval, st, codes)));
  }

  lemma AfterReady(written: seq<byte>, more: seq<byte>)
    ensures READY + ([LF] + (written + more)) == (READY + ([LF] + written)) + more
  {
  }

  lemma Tail<T>(s: seq<T>, t: seq<T>)
    ensures (s + t)[..|s|] == s && (s + t)[|s|..] == t
  {
  }

  lemma AppendNothing<T>(s: seq<T>)
    ensures s + [] == s
  {
  }

  /**
   The k-th eval returns the k-th code's result: on a session driven one eval at a time and
   never timed out, writing the k-th code adds one result frame to the output, and the three
   line reads that follow return what that code evaluates to in the state the codes before it
   left, with nothing left unread.
   */
  lemma {:induction false} KthReplyIsKthResult<S>(eval: Evaluator<S>, st: S, codes: seq<seq<byte>>, k: nat)
    requires k < |codes|
    ensures var was, now := Output(eval, st, codes[..k]), Output(eval, st, codes[..k + 1]);
      && |was| <= |now| && now[..|was|] == was
      && ReadReply(now[|was|..]) == (Reply(JsonOf(eval(StateAfter(eval, st, codes[..k]), codes[k]).1)), [])
  {
    var was, now := Output(eval, st, codes[..k]), Output(eval, st, codes[..k + 1]);
    var result := eval(StateAfter(eval, st, codes[..k]), codes[k]).1;
    assert codes[..k + 1] == codes[..k] + [codes[k]];
    OutputGrows(eval, st, codes[..k], codes[k]);
    AfterReady(RunBoot(eval, st, EvalFrames(codes[..k])).output, ResultLines(result));
    Tail(was, ResultLines(result));
    ReplyRoundTrip(result, []);
    AppendNothing(ResultLines(result));
  }

  /** The pipes of one session as the manager holds them. */
  class SessionPipes {
    var stdin: seq<byte>
    var stdout: seq<byte>

    constructor (stdout: seq<byte>)
      ensures stdin == [] && this.stdout == stdout
    {
      stdin := [];
      this.stdout := stdout;
    }

    method WriteCode(code: string)
      modifies this`stdin
      ensures stdin == old(stdin) + EvalFrame(Utf8.Encode(code))
    {
      var data := Utf8.Encode(code);
      stdin := stdin + ((EVAL + Show(|data|)) + [LF]);
      stdin := stdin + data;
      stdin := stdin + [LF];
      Assoc(EVAL + Show(|data|), [LF], data + [LF]);
    }

    method ReadLine() returns (line: seq<byte>)
      modifies this`stdout
      ensures (line, stdout) == PythonLine(old(stdout))
    {
      var r := PythonLine(stdout);
      stdout := r.1;
      return r.0;
    }

    method ReadResult() returns (reply: Reply)
      modifies this`stdout
      ensures (reply, stdout) == ReadReply(old(stdout))
    {
      var header := ReadLine();
      if !StartsWith(header, RESULT) {
        return Malformed;
      }
      var json := ReadLine();
      var trailer := ReadLine();
      if !StartsWith(trailer, ENDOFRESULT) {
        return Malformed;
      }
      return DecodeResult(json);
    }
  }
}
