/** The command line that passes an exchange's settings from the manager to its subprocess. */
module CommandLine {
  import opened Prelude

  /** What the subprocess makes of its arguments. */
  datatype Options = Options(broker: string, apiKey: Option<string>, secret: Option<string>, sandbox: bool)

  datatype Parsed = Usage | Parsed(exchangeId: string, exchangeName: string, options: Options)

  const DEFAULT_BROKER := "tcp://127.0.0.1:5555"
  const DEFAULTS := Options(DEFAULT_BROKER, None, None, false)

  /** The arguments after `python -m ccxt_gateway.exchange.subprocess`. */
  function Flags(key: Option<string>, secret: Option<string>, sandbox: bool): seq<string> {
    (if Truthy(key) then ["--api-key", key.value] else [])
    + (if Truthy(secret) then ["--secret", secret.value] else [])
    + (if sandbox then ["--sandbox"] else [])
  }

  function Command(exchangeId: string, exchangeName: string, broker: string,
      apiKey: Option<string>, secret: Option<string>, sandbox: bool): seq<string>
  {
    [exchangeId, exchangeName, "--broker", broker] + Flags(apiKey, secret, sandbox)
  }

  method BuildCommand(exchangeId: string, exchangeName: string, broker: string,
      apiKey: Option<string>, secret: Option<string>, sandbox: bool) returns (cmd: seq<string>)
    ensures cmd == Command(exchangeId, exchangeName, broker, apiKey, secret, sandbox)
  {
    cmd := [exchangeId, exchangeName, "--broker", broker];
    ghost var head := cmd;
    if Truthy(apiKey) {
      cmd := cmd + ["--api-key", apiKey.value];
    }
    if Truthy(secret) {
      cmd := cmd + ["--secret", secret.value];
    }
    if sandbox {
      cmd := cmd + ["--sandbox"];
    }
    assert cmd == head + Flags(apiKey, secret, sandbox);
  }

  /** The options left by the arguments from some position on; a later flag overrides an earlier one. */
  function Scan(args: seq<string>, o: Options): Options
    decreases |args|
  {
    if args == [] then o
    else if args[0] == "--broker" && |args| > 1 then Scan(args[2..], o.(broker := args[1]))
    else if args[0] == "--api-key" && |args| > 1 then Scan(args[2..], o.(apiKey := Some(args[1])))
    else if args[0] == "--secret" && |args| > 1 then Scan(args[2..], o.(secret := Some(args[1])))
    else if args[0] == "--sandbox" then Scan(args[1..], o.(sandbox := true))
    else Scan(args[1..], o)
  }

  function Parse(args: seq<string>): Parsed {
    if |args| < 2 then Usage else Parsed(args[0], args[1], Scan(args[2..], DEFAULTS))
  }

  /** The loop of the subprocess's `main` over arbitrary arguments. */
  method ParseArguments(args: seq<string>) returns (p: Parsed)
    ensures p == Parse(args)
  {
    if |args| < 2 {
      return Usage;
    }
    var broker, sandbox := DEFAULT_BROKER, false;
    var apiKey: Option<string>, secret: Option<string> := None, None;
    var i := 2;
    while i < |args|
      invariant 2 <= i <= |args|
      invariant Scan(args[i..], Options(broker, apiKey, secret, sandbox)) == Scan(args[2..], DEFAULTS)
    {
      ghost var left := args[i..];
      assert left[1..] == args[i + 1..] && (|left| > 1 ==> left[1] == args[i + 1] && left[2..] == args[i + 2..]);
      if args[i] == "--broker" && i + 1 < |args| {
        broker := args[i + 1];
        i := i + 2;
      } else if args[i] == "--api-key" && i + 1 < |args| {
        apiKey := Some(args[i + 1]);
        i := i + 2;
      } else if args[i] == "--secret" && i + 1 < |args| {
        secret := Some(args[i + 1]);
        i := i + 2;
      } else if args[i] == "--sandbox" {
        sandbox := true;
        i := i + 1;
      } else {
        i := i + 1;
      }
    }
    return Parsed(args[0], args[1], Options(broker, apiKey, secret, sandbox));
  }

  // ---------------------------------------------------------------- arbitrary arguments

  predicate TakesValue(arg: string) {
    arg in {"--broker", "--api-key", "--secret"}
  }

  /** Where the scan goes from position i: past a flag and its value, or past one argument. */
  function Next(args: seq<string>, i: nat): (j: nat)
    requires i < |args|
    ensures i < j <= |args|
  {
    if TakesValue(args[i]) && i + 1 < |args| then i + 2 else i + 1
  }

  /** The scan that is at position `from` comes to position i, and so reads it as an argument and not as a value. */
  predicate Visits(args: seq<string>, from: nat, i: nat)
    decreases |args| - from
  {
    from < |args| && (from == i || Visits(args, Next(args, from), i))
  }

  /** From `from` on, the scan comes to the flag at position i, and a value follows. */
  predicate Gives(args: seq<string>, from: nat, i: nat, flag: string) {
    i + 1 < |args| && Visits(args, from, i) && args[i] == flag
  }

  predicate LastGives(args: seq<string>, from: nat, i: nat, flag: string) {
    Gives(args, from, i, flag) && forall j: nat :: i < j < |args| ==> !Gives(args, from, j, flag)
  }

  function Value(o: Options, flag: string): Option<string> {
    if flag == "--broker" then Some(o.broker)
    else if flag == "--api-key" then o.apiKey
    else o.secret
  }

  /** The options after one step of the scan from position `from`. */
  function Stepped(args: seq<string>, from: nat, o: Options): Options
    requires from < |args|
  {
    if from + 1 < |args| && args[from] == "--broker" then o.(broker := args[from + 1])
    else if from + 1 < |args| && args[from] == "--api-key" then o.(apiKey := Some(args[from + 1]))
    else if from + 1 < |args| && args[from] == "--secret" then o.(secret := Some(args[from + 1]))
    else if args[from] == "--sandbox" then o.(sandbox := true)
    else o
  }

  lemma ScanStep(args: seq<string>, from: nat, o: Options)
    requires from < |args|
    ensures Scan(args[from..], o) == Scan(args[Next(args, from)..], Stepped(args, from, o))
  {
    var rest := args[from..];
    assert rest[0] == args[from] && rest[1..] == args[from + 1..];
    if from + 1 < |args| {
      assert rest[1] == args[from + 1] && rest[2..] == args[from + 2..];
    }
  }

  lemma {:induction false} VisitsForward(args: seq<string>, from: nat, i: nat)
    requires Visits(args, from, i)
    ensures from <= i < |args|
    decreases |args| - from
  {
    if from != i {
      VisitsForward(args, Next(args, from), i);
    }
  }

  lemma VisitsSplit(args: seq<string>, from: nat)
    requires from < |args|
    ensures forall i: nat {:trigger Visits(args, from, i)} {:trigger Visits(args, Next(args, from), i)} ::
      Visits(args, from, i) <==> i == from || Visits(args, Next(args, from), i)
    ensures forall i: nat {:trigger Visits(args, Next(args, from), i)} ::
      Visits(args, Next(args, from), i) ==> from < i < |args|
  {
    forall i: nat | Visits(args, Next(args, from), i)
      ensures from < i < |args|
    {
      VisitsForward(args, Next(args, from), i);
    }
  }

  lemma {:induction false} NoneGiven(args: seq<string>, from: nat, o: Options, flag: string)
    requires from <= |args| && TakesValue(flag)
    requires forall i: nat :: !Gives(args, from, i, flag)
    ensures Value(Scan(args[from..], o), flag) == Value(o, flag)
    decreases |args| - from
  {
    if from < |args| {
      var next := Next(args, from);
      VisitsSplit(args, from);
      assert !Gives(args, from, from, flag);
      forall i: nat
        ensures !Gives(args, next, i, flag)
      {
        assert !Gives(args, from, i, flag);
      }
      ScanStep(args, from, o);
      NoneGiven(args, next, Stepped(args, from, o), flag);
    }
  }

  lemma {:induction false} LastCounts(args: seq<string>, from: nat, o: Options, flag: string, i: nat)
    requires from <= |args| && TakesValue(flag) && LastGives(args, from, i, flag)
    ensures Value(Scan(args[from..], o), flag) == Some(args[i + 1])
    decreases |args| - from
  {
    var next := Next(args, from);
    VisitsSplit(args, from);
    ScanStep(args, from, o);
    if i == from {
      forall j: nat
        ensures !Gives(args, next, j, flag)
      {
        assert from < j < |args| ==> !Gives(args, from, j, flag);
      }
      NoneGiven(args, next, Stepped(args, from, o), flag);
    } else {
      forall j: nat | i < j < |args|
        ensures !Gives(args, next, j, flag)
      {
        assert !Gives(args, from, j, flag);
      }
      LastCounts(args, next, Stepped(args, from, o), flag, i);
    }
  }

  lemma {:induction false} SandboxIffVisited(args: seq<string>, from: nat, o: Options)
    requires from <= |args|
    ensures Scan(args[from..], o).sandbox <==>
      o.sandbox || exists i: nat :: i < |args| && Visits(args, from, i) && args[i] == "--sandbox"
    decreases |args| - from
  {
    if from < |args| {
      VisitsSplit(args, from);
      ScanStep(args, from, o);
      SandboxIffVisited(args, Next(args, from), Stepped(args, from, o));
      if args[from] == "--sandbox" {
        assert Visits(args, from, from);
      }
    }
  }

  /**
   What the subprocess makes of any arguments at all: an option has the value that follows the
   last of its flags that the scan comes to with a value behind it, or its default if there is
   none; the sandbox is on exactly when the scan comes to its flag. Whatever else is there,
   unknown arguments or a flag at the very end, makes no difference.
   */
  lemma OptionsOf(args: seq<string>, flag: string)
    requires |args| >= 2 && TakesValue(flag)
    ensures Parse(args).Parsed? && Parse(args).exchangeId == args[0] && Parse(args).exchangeName == args[1]
    ensures (forall i: nat :: !Gives(args, 2, i, flag)) ==> Value(Parse(args).options, flag) == Value(DEFAULTS, flag)
    ensures forall i: nat :: LastGives(args, 2, i, flag) ==> Value(Parse(args).options, flag) == Some(args[i + 1])
    ensures Parse(args).options.sandbox <==> exists i: nat :: i < |args| && Visits(args, 2, i) && args[i] == "--sandbox"
  {
    if forall i: nat :: !Gives(args, 2, i, flag) {
      NoneGiven(args, 2, DEFAULTS, flag);
    }
    forall i: nat | LastGives(args, 2, i, flag)
      ensures Value(Parse(args).options, flag) == Some(args[i + 1])
    {
      LastCounts(args, 2, DEFAULTS, flag, i);
    }
    SandboxIffVisited(args, 2, DEFAULTS);
  }

  /** An empty string on the command line counts as no value. */
  function NonEmpty(s: Option<string>): Option<string> {
    if Truthy(s) then s else None
  }

  lemma FlagsRead(key: Option<string>, secret: Option<string>, sandbox: bool, broker: string)
    ensures Scan(Flags(key, secret, sandbox), Options(broker, None, None, false)) ==
      Options(broker, NonEmpty(key), NonEmpty(secret), sandbox)
  {
    var tail := if sandbox then ["--sandbox"] else [];
    var middle := (if Truthy(secret) then ["--secret", secret.value] else []) + tail;
    SandboxRead(sandbox, Options(broker, NonEmpty(key), NonEmpty(secret), false));
    if Truthy(secret) {
      PairRead("--secret", secret.value, tail, Options(broker, NonEmpty(key), None, false));
    } else {
      assert middle == tail;
    }
    assert Flags(key, secret, sandbox) == (if Truthy(key) then ["--api-key", key.value] else []) + middle;
    if Truthy(key) {
      PairRead("--api-key", key.value, middle, Options(broker, None, None, false));
    } else {
      assert Flags(key, secret, sandbox) == middle;
    }
  }

  lemma SandboxRead(sandbox: bool, o: Options)
    requires !o.sandbox
    ensures Scan(if sandbox then ["--sandbox"] else [], o) == o.(sandbox := sandbox)
  {
  }

  lemma PairRead(flag: string, value: string, tail: seq<string>, o: Options)
    requires flag in {"--broker", "--api-key", "--secret"}
    ensures Scan([flag, value] + tail, o) == Scan(tail,
      if flag == "--broker" then o.(broker := value)
      else if flag == "--api-key" then o.(apiKey := Some(value))
      else o.(secret := Some(value)))
  {
  }

  /**
   The round trip: for all strings, flag names among them, the subprocess recovers the id, the
   name, the broker address, the non-empty credentials and the sandbox flag.
   */
  lemma CommandRoundTrip(exchangeId: string, exchangeName: string, broker: string,
      apiKey: Option<string>, secret: Option<string>, sandbox: bool)
    ensures Parse(Command(exchangeId, exchangeName, broker, apiKey, secret, sandbox)) ==
      Parsed(exchangeId, exchangeName, Options(broker, NonEmpty(apiKey), NonEmpty(secret), sandbox))
  {
    var flags := Flags(apiKey, secret, sandbox);
    assert ([exchangeId, exchangeName, "--broker", broker] + flags)[2..] == ["--broker", broker] + flags;
    PairRead("--broker", broker, flags, DEFAULTS);
    FlagsRead(apiKey, secret, sandbox, broker);
  }
}
