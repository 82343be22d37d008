/**
 The exchange subprocess: its message loop, the dispatch of one request, and the call of an
 exchange method. What the exchange library does is given per request as an oracle: every
 lookup and call may return or raise anything.
 */
module Subprocess {
  import opened Prelude
  import opened BrokerSpec

  /** A Python exception: its type name and text. */
  datatype Exn = Exn(name: string, text: string)

  datatype Result = Returns(value: string) | Raises(exn: Exn)

  /**
   The `params` of a request. A dictionary has `_args`, `_timeout` and `symbolsAndTimeframes`
   set apart; of a list only the strings in it matter; the rest is null, numbers and booleans.
   */
  datatype Params =
    | Scalar
    | Text(text: string)
    | Items(texts: seq<string>)
    | Params(args: Option<seq<string>>, timeout: Option<real>, symbols: Option<string>, rest: map<string, string>)

  datatype Request = Request(
    id: Option<string>, operation: Option<string>, params: Params, subscription: Option<string>)

  /** What `getattr(exchange, method)` is. */
  datatype Attribute =
    | Callable(normalize: Result, call: Result, leavesTimeout: Option<int>)
    | Property(read: Result)
    | Absent(has: Result, inHas: bool)
    | LookupRaises(exn: Exn)

  /** The library's part in one request; `timeoutSet` is the timeout after one was set by request. */
  datatype Oracle = Oracle(attribute: Attribute, assign: Result, timeoutSet: Option<int>, names: string)

  /** One receive of the loop. */
  datatype Received =
    | Nothing | TooShort | NotUtf8 | NotJson
    | Other(kind: string)
    | Req(request: Request, oracle: Oracle)

  /**
   One turn of the loop: whether the parent is alive and a signal arrives, what was received,
   and the watch updates that background tasks sent meanwhile.
   */
  datatype Tick = Tick(parentAlive: bool, signalled: bool, received: Received, updates: seq<(string, string)>)

  function Ok(id: string, result: string): Message {
    Response(Some(id), result, None, "")
  }

  function Failed(id: string, e: Exn): Message {
    Response(Some(id), "null", Some(e.text), e.name)
  }

  function Answer(id: string, r: Result): Message {
    match r
    case Returns(v) => Ok(id, v)
    case Raises(e) => Failed(id, e)
  }

  const STATUS_OK := "{\"status\": \"ok\"}"
  const INVALID_JSON := Response(Some("unknown"), "null", Some("Invalid JSON"), "INVALID_JSON")

  /** The parameter that turns a settable property's name into a set operation. */
  function SettableKey(operation: string): Option<string> {
    if operation == "timeout" || operation == "rateLimit" then Some("value")
    else if operation == "enableRateLimit" then Some("flag")
    else None
  }

  predicate IsWatch(operation: string) {
    && |operation| >= 5 && operation[..5] == "watch"
    && (|operation| == 5 || operation[5] == '_' || 'A' <= operation[5] <= 'Z')
  }

  predicate WellFormed(r: Request) {
    Truthy(r.id) && Truthy(r.operation)
  }

  /** Python's `key in params`, which no scalar supports. */
  function Holds(p: Params, key: string): Option<bool> {
    match p
    case Scalar => None
    case Text(text) => Some(Includes(text, key))
    case Items(texts) => Some(key in texts)
    case Params(_, _, _, rest) => Some(key in rest)
  }

  /** Taking the reserved parameters out of what is no dictionary: only lists have a `pop`, of another kind. */
  function PopError(p: Params): Exn {
    Exn(if p.Items? then "TypeError" else "AttributeError", "pop")
  }

  function Confirmation(operation: string): string {
    "{\"status\": \"subscribed\", \"method\": " + operation + "}"
  }

  function Assigned(assign: Result): Result {
    if assign.Returns? then Returns(STATUS_OK) else assign
  }

  /** What each branch of the dispatch comes to: a result, or the exception it catches. */
  function Dispatch(initialized: bool, r: Request, o: Oracle): Result
    requires WellFormed(r)
  {
    var operation := r.operation.value;
    var key := SettableKey(operation);
    if !initialized then Raises(Exn("RuntimeError", "Exchange not initialized"))
    else if key.Some? && Holds(r.params, key.value).None? then Raises(Exn("TypeError", "in"))
    else if key.Some? && Holds(r.params, key.value).value then
      if r.params.Params? then Assigned(o.assign) else Raises(Exn("TypeError", "index"))
    else if operation == "set_api_key" then
      if r.params.Params? then Assigned(o.assign) else Raises(Exn("AttributeError", "get"))
    else match o.attribute
      case LookupRaises(e) => Raises(e)
      case Callable(normalize, call, _) =>
        if operation == "setSandboxMode" && normalize.Raises? then normalize
        else if !r.params.Params? then Raises(PopError(r.params))
        else if IsWatch(operation) && call.Returns? then Returns(Confirmation(operation))
        else call
      case Property(read) => read
      case Absent(has, inHas) =>
        if has.Raises? || inHas then has
        else if operation == "get_propertynames" then Returns(o.names)
        else Raises(Exn("AttributeError", "Method " + operation + " not found on exchange"))
  }

  /** The answer to a request, always under its id. */
  function AnswerTo(initialized: bool, r: Request, o: Oracle): (m: Message)
    requires WellFormed(r)
    ensures m.Response? && m.id == r.id
  {
    Answer(r.id.value, Dispatch(initialized, r, o))
  }

  function Answers(initialized: bool, received: Received): seq<Message> {
    match received
    case Req(r, o) => if WellFormed(r) then [AnswerTo(initialized, r, o)] else []
    case NotJson => [INVALID_JSON]
    case _ => []
  }

  function Updates(updates: seq<(string, string)>): seq<Message> {
    if updates == [] then []
    else Updates(updates[..|updates| - 1]) + [WatchUpdate(Some(updates[|updates| - 1].0), updates[|updates| - 1].1)]
  }

  /** What one turn puts on the socket: the updates that came up, then the answer if one is due. */
  function Said(initialized: bool): Tick -> seq<Message> {
    (t: Tick) => Updates(t.updates) + Answers(initialized, t.received)
  }

  /** What the first n turns give, one after the other. */
  function Flat<A>(given: Tick -> seq<A>, ticks: seq<Tick>, n: nat): seq<A>
    requires n <= |ticks|
  {
    if n == 0 then [] else Flat(given, ticks, n - 1) + given(ticks[n - 1])
  }

  /** The name a background task sends its updates under. */
  function TaskName(r: Request): string {
    if Truthy(r.subscription) then r.subscription.value else if r.id.Some? then r.id.value else ""
  }

  /** A watch method that is there, takes the parameters and gives a first batch starts a task. */
  predicate StartsTask(initialized: bool, r: Request, o: Oracle) {
    && initialized && WellFormed(r) && IsWatch(r.operation.value) && r.params.Params?
    && o.attribute.Callable? && o.attribute.call.Returns?
  }

  // ---------------------------------------------------------------- what is answered

  /** A dictionary that asks for one of the three settable properties to be set. */
  predicate SetsProperty(r: Request)
    requires WellFormed(r)
  {
    && r.params.Params?
    && (|| (r.operation.value in {"timeout", "rateLimit"} && "value" in r.params.rest)
        || (r.operation.value == "enableRateLimit" && "flag" in r.params.rest))
  }

  /** A request with a dictionary that is for the exchange library to answer. */
  predicate ForLibrary(r: Request)
    requires WellFormed(r)
  {
    r.params.Params? && !SetsProperty(r) && r.operation.value != "set_api_key"
  }

  /** A method of the library is called. */
  predicate Calls(initialized: bool, r: Request, o: Oracle)
    requires WellFormed(r)
  {
    && initialized && ForLibrary(r) && o.attribute.Callable?
    && !(r.operation.value == "setSandboxMode" && o.attribute.normalize.Raises?)
  }

  /** A method's result is the answer as it is; a watch method's is confirmed; an exception gives its text and type. */
  lemma CallAnswered(r: Request, o: Oracle)
    requires WellFormed(r) && Calls(true, r, o)
    ensures forall v :: o.attribute.call == Returns(v) && !IsWatch(r.operation.value) ==>
      Answers(true, Req(r, o)) == [Response(r.id, v, None, "")]
    ensures o.attribute.call.Returns? && IsWatch(r.operation.value) ==>
      Answers(true, Req(r, o)) ==
        [Response(r.id, "{\"status\": \"subscribed\", \"method\": " + r.operation.value + "}", None, "")]
    ensures forall e :: o.attribute.call == Raises(e) ==>
      Answers(true, Req(r, o)) == [Response(r.id, "null", Some(e.text), e.name)]
  {
  }

  /**
   A property is answered with the value read; a name the library lacks with its entry of
   `has`, with the names, or with an error.
   */
  lemma LookupAnswered(r: Request, o: Oracle)
    requires WellFormed(r) && ForLibrary(r)
    ensures forall v :: o.attribute == Property(Returns(v)) ==>
      Answers(true, Req(r, o)) == [Response(r.id, v, None, "")]
    ensures forall v :: o.attribute == Absent(Returns(v), true) ==>
      Answers(true, Req(r, o)) == [Response(r.id, v, None, "")]
    ensures o.attribute.Absent? && o.attribute.has.Returns? && !o.attribute.inHas ==>
      Answers(true, Req(r, o)) ==
        if r.operation.value == "get_propertynames" then [Response(r.id, o.names, None, "")]
        else [Response(r.id, "null", Some("Method " + r.operation.value + " not found on exchange"), "AttributeError")]
    ensures forall e ::
      o.attribute == Property(Raises(e)) || o.attribute == LookupRaises(e) ||
      (o.attribute.Absent? && o.attribute.has == Raises(e)) ==>
        Answers(true, Req(r, o)) == [Response(r.id, "null", Some(e.text), e.name)]
  {
  }

  /** Setting a property or the credentials is answered with a status; without an exchange nothing is. */
  lemma SetterAnswered(r: Request, o: Oracle)
    requires WellFormed(r) && r.params.Params? && !ForLibrary(r)
    ensures o.assign.Returns? ==> Answers(true, Req(r, o)) == [Response(r.id, "{\"status\": \"ok\"}", None, "")]
    ensures forall e :: o.assign == Raises(e) ==>
      Answers(true, Req(r, o)) == [Response(r.id, "null", Some(e.text), e.name)]
  {
  }

  /** Without an exchange, and without a dictionary where one is needed, a request is answered with an error. */
  lemma RefusalAnswered(initialized: bool, r: Request, o: Oracle)
    requires WellFormed(r)
    ensures !initialized ==>
      Answers(initialized, Req(r, o)) == [Response(r.id, "null", Some("Exchange not initialized"), "RuntimeError")]
    ensures !r.params.Params? && (r.operation.value == "set_api_key" || o.attribute.Callable?) ==>
      |Answers(initialized, Req(r, o))| == 1 && Answers(initialized, Req(r, o))[0].error.Some?
    ensures initialized && !r.params.Params? && r.operation.value == "set_api_key" ==>
      Answers(initialized, Req(r, o))[0].errorCode == "AttributeError"
    ensures initialized && r.params.Scalar? && r.operation.value in {"timeout", "rateLimit", "enableRateLimit"} ==>
      |Answers(initialized, Req(r, o))| == 1 && Answers(initialized, Req(r, o))[0].errorCode == "TypeError"
    ensures Answers(initialized, NotJson) == [Response(Some("unknown"), "null", Some("Invalid JSON"), "INVALID_JSON")]
  {
  }

  /** Which names are watch methods: `watch`, or `watch` before an underscore or a capital. */
  lemma WatchNames(operation: string, rest: string, c: char)
    ensures IsWatch(operation) ==> "watch" <= operation
    ensures IsWatch("watch") && (IsWatch("watch" + [c] + rest) <==> c == '_' || 'A' <= c <= 'Z')
  {
    assert ("watch" + [c] + rest)[..5] == "watch" && ("watch" + [c] + rest)[5] == c;
  }

  /** The updates of background tasks go out one for one, in order, each under its subscription. */
  lemma {:induction false} UpdatesInOrder(updates: seq<(string, string)>)
    ensures |Updates(updates)| == |updates|
    ensures forall k :: 0 <= k < |updates| ==> Updates(updates)[k] == WatchUpdate(Some(updates[k].0), updates[k].1)
  {
    if updates != [] {
      UpdatesInOrder(updates[..|updates| - 1]);
    }
  }

  /** A task is started by exactly the watch calls that gave a first batch, under the subscription's name if any. */
  lemma TaskStarted(initialized: bool, r: Request, o: Oracle)
    requires WellFormed(r)
    ensures StartsTask(initialized, r, o) <==>
      Calls(initialized, r, o) && IsWatch(r.operation.value) && o.attribute.call.Returns?
    ensures Truthy(r.subscription) ==> Some(TaskName(r)) == r.subscription
    ensures !Truthy(r.subscription) ==> Some(TaskName(r)) == r.id
  {
  }

  // ---------------------------------------------------------------- one answer per request

  /** The ids answered, in order. */
  function ResponseIds(messages: seq<Message>): seq<Option<string>> {
    if messages == [] then []
    else (if messages[0].Response? then [messages[0].id] else []) + ResponseIds(messages[1..])
  }

  /** The ids to answer: that of a well-formed request, and "unknown" for what is not JSON. */
  function Due(received: Received): seq<Option<string>> {
    if received.NotJson? then [Some("unknown")]
    else if received.Req? && WellFormed(received.request) then [received.request.id]
    else []
  }

  function Owed(): Tick -> seq<Option<string>> {
    (t: Tick) => Due(t.received)
  }

  lemma {:induction false} ResponseIdsConcat(a: seq<Message>, b: seq<Message>)
    ensures ResponseIds(a + b) == ResponseIds(a) + ResponseIds(b)
  {
    if a == [] {
      assert a + b == b;
    } else {
      assert (a + b)[0] == a[0] && (a + b)[1..] == a[1..] + b;
      ResponseIdsConcat(a[1..], b);
      Assoc(if a[0].Response? then [a[0].id] else [], ResponseIds(a[1..]), ResponseIds(b));
    }
  }

  lemma {:induction false} UpdatesAreNoResponses(updates: seq<(string, string)>)
    ensures ResponseIds(Updates(updates)) == []
  {
    if updates != [] {
      var last := WatchUpdate(Some(updates[|updates| - 1].0), updates[|updates| - 1].1);
      UpdatesAreNoResponses(updates[..|updates| - 1]);
      ResponseIdsConcat(Updates(updates[..|updates| - 1]), [last]);
      assert ResponseIds([last]) == ResponseIds([last][1..]);
    }
  }

  lemma AnswersDue(initialized: bool, t: Tick)
    ensures ResponseIds(Said(initialized)(t)) == Due(t.received)
  {
    ResponseIdsConcat(Updates(t.updates), Answers(initialized, t.received));
    UpdatesAreNoResponses(t.updates);
    assert ResponseIds(Answers(initialized, t.received)) == Due(t.received);
    assert [] + Due(t.received) == Due(t.received);
  }

  lemma {:induction false} FlatIds(
    said: Tick -> seq<Message>, owed: Tick -> seq<Option<string>>, ticks: seq<Tick>, n: nat)
    requires n <= |ticks|
    requires forall t {:trigger said(t)} :: ResponseIds(said(t)) == owed(t)
    ensures ResponseIds(Flat(said, ticks, n)) == Flat(owed, ticks, n)
  {
    if n > 0 {
      FlatIds(said, owed, ticks, n - 1);
      ResponseIdsConcat(Flat(said, ticks, n - 1), said(ticks[n - 1]));
    }
  }

  /**
   Over any run of the loop, in every branch of the dispatch and with watch updates in
   between, the responses on the socket answer the well-formed requests one for one, in
   order, each under its own id.
   */
  lemma OneAnswerPerRequest(initialized: bool, ticks: seq<Tick>, n: nat)
    requires n <= |ticks|
    ensures ResponseIds(Flat(Said(initialized), ticks, n)) == Flat(Owed(), ticks, n)
  {
    forall t
      ensures ResponseIds(Said(initialized)(t)) == Due(t.received)
    {
      AnswersDue(initialized, t);
    }
    FlatIds(Said(initialized), Owed(), ticks, n);
  }

  /** The request ended in an exception of a type of this name, with a text to report. */
  predicate RaisesNamed(initialized: bool, r: Request, o: Oracle, name: string)
    requires WellFormed(r)
  {
    var d := Dispatch(initialized, r, o);
    d.Raises? && d.exn.name == name && d.exn.text != ""
  }

  /** The library raised e in a part of its answer to some request. */
  predicate LibraryRaised(o: Oracle, e: Exn) {
    || o.assign == Raises(e)
    || match o.attribute
       case Callable(normalize, call, _) => normalize == Raises(e) || call == Raises(e)
       case Property(read) => read == Raises(e)
       case Absent(has, _) => has == Raises(e)
       case LookupRaises(e') => e' == e
  }

  /**
   Error codes are exception type names: an answer carries the code that is retried exactly
   when the dispatch ended in an exception of that name with a text, and then it was the
   library that raised it.
   */
  lemma SaysNotFoundIff(initialized: bool, r: Request, o: Oracle)
    requires WellFormed(r)
    ensures SaysNotFound(AnswerTo(initialized, r, o)) <==> RaisesNamed(initialized, r, o, EXCHANGE_NOT_FOUND)
    ensures RaisesNamed(initialized, r, o, EXCHANGE_NOT_FOUND) ==>
      LibraryRaised(o, Dispatch(initialized, r, o).exn)
  {
  }

  // ---------------------------------------------------------------- the timeout override

  function Millis(seconds: real): int {
    Truncate(seconds * 1000.0)
  }

  /** Seconds times a thousand, cut towards zero. */
  lemma MillisCut(seconds: real)
    ensures seconds >= 0.0 ==> 0.0 <= seconds * 1000.0 - Millis(seconds) as real < 1.0
    ensures seconds <= 0.0 ==> -1.0 < seconds * 1000.0 - Millis(seconds) as real <= 0.0
  {
    TruncateCuts(seconds * 1000.0);
  }

  /** The exchange's timeout after a call that leaves the attribute as `leaves`; None is absent. */
  function TimeoutAfter(before: Option<int>, caller: Option<real>, leaves: Option<int>): Option<int> {
    if caller.Some? && before.Some? then before else leaves
  }

  /** What the call sees. */
  function TimeoutDuring(before: Option<int>, caller: Option<real>): Option<int> {
    if caller.Some? then Some(Millis(caller.value)) else before
  }

  /**
   A call that does not itself touch the timeout gives it back exactly when no override was
   asked for or the exchange had a timeout to begin with.
   */
  lemma TimeoutRestoredIff(before: Option<int>, caller: Option<real>)
    ensures TimeoutAfter(before, caller, TimeoutDuring(before, caller)) == before <==> caller.None? || before.Some?
  {
  }

  /** The timeout after calls with these overrides, none of which touches it otherwise. */
  function TimeoutAfterAll(before: Option<int>, callers: seq<Option<real>>): Option<int> {
    if callers == [] then before
    else
      var left := TimeoutAfterAll(before, callers[..|callers| - 1]);
      var caller := callers[|callers| - 1];
      TimeoutAfter(left, caller, TimeoutDuring(left, caller))
  }

  /** The first override among the calls. */
  function FirstOverride(callers: seq<Option<real>>): Option<real> {
    if callers == [] then None
    else if callers[0].Some? then callers[0]
    else FirstOverride(callers[1..])
  }

  lemma {:induction false} FirstOverrideSnoc(callers: seq<Option<real>>, caller: Option<real>)
    ensures FirstOverride(callers + [caller]) ==
      if FirstOverride(callers).Some? then FirstOverride(callers) else caller
  {
    if callers == [] {
      assert [caller][1..] == [];
    } else {
      assert (callers + [caller])[1..] == callers[1..] + [caller];
      FirstOverrideSnoc(callers[1..], caller);
    }
  }

  /**
   What any number of calls leaves behind: an exchange that had a timeout still has it; one
   that had none is stuck with the first override anybody asked for, later ones are taken back.
   */
  lemma {:induction false} TimeoutAfterCalls(before: Option<int>, callers: seq<Option<real>>)
    ensures TimeoutAfterAll(before, callers) ==
      if before.Some? || FirstOverride(callers).None? then before
      else Some(Millis(FirstOverride(callers).value))
  {
    if callers != [] {
      var earlier, last := callers[..|callers| - 1], callers[|callers| - 1];
      assert callers == earlier + [last];
      TimeoutAfterCalls(before, earlier);
      TimeoutRestoredIff(TimeoutAfterAll(before, earlier), last);
      FirstOverrideSnoc(earlier, last);
    }
  }

  /** The timeout after one request: set by it, or what a call leaves of its override, or untouched. */
  function TimeoutLeft(initialized: bool, r: Request, o: Oracle, before: Option<int>): Option<int> {
    if !initialized || !WellFormed(r) then before
    else if SetsProperty(r) then
      if r.operation.value == "timeout" && o.assign.Returns? then o.timeoutSet else before
    else if Calls(initialized, r, o) then TimeoutAfter(before, r.params.timeout, o.attribute.leavesTimeout)
    else before
  }

  /** When a request changes the timeout, and to what. */
  lemma TimeoutChanges(r: Request, o: Oracle, before: Option<int>)
    requires WellFormed(r)
    ensures TimeoutLeft(false, r, o, before) == before
    ensures r.operation.value == "timeout" && SetsProperty(r) ==>
      TimeoutLeft(true, r, o, before) == if o.assign.Returns? then o.timeoutSet else before
    ensures Calls(true, r, o) && before.Some? && r.params.timeout.Some? ==> TimeoutLeft(true, r, o, before) == before
    ensures Calls(true, r, o) && (before.None? || r.params.timeout.None?) ==>
      TimeoutLeft(true, r, o, before) == o.attribute.leavesTimeout
    ensures !Calls(true, r, o) && !(r.operation.value == "timeout" && SetsProperty(r)) ==>
      TimeoutLeft(true, r, o, before) == before
  {
  }

  function TasksStarted(initialized: bool, received: Received): seq<string> {
    if received.Req? && StartsTask(initialized, received.request, received.oracle) then [TaskName(received.request)]
    else []
  }

  /** What the subprocess has done so far: messages on the socket, tasks started, and the exchange's timeout. */
  datatype Effects = Effects(sent: seq<Message>, tasks: seq<string>, timeout: Option<int>)

  function AfterTurn(initialized: bool, e: Effects, t: Tick): Effects {
    Effects(
      e.sent + Said(initialized)(t),
      e.tasks + TasksStarted(initialized, t.received),
      if t.received.Req? then TimeoutLeft(initialized, t.received.request, t.received.oracle, e.timeout)
      else e.timeout)
  }

  function Turns(initialized: bool): (Effects, Tick) -> Effects {
    (e, t) => AfterTurn(initialized, e, t)
  }

  lemma {:induction false} FoldSent(
    step: (Effects, Tick) -> Effects, said: Tick -> seq<Message>, e: Effects, ticks: seq<Tick>, n: nat)
    requires n <= |ticks|
    requires forall e', t {:trigger step(e', t)} :: step(e', t).sent == e'.sent + said(t)
    ensures Fold(step, e, ticks, n).sent == e.sent + Flat(said, ticks, n)
  {
    if n > 0 {
      FoldSent(step, said, e, ticks, n - 1);
      Assoc(e.sent, Flat(said, ticks, n - 1), said(ticks[n - 1]));
    }
  }

  lemma SentOver(initialized: bool, e: Effects, ticks: seq<Tick>, n: nat)
    requires n <= |ticks|
    ensures Fold(Turns(initialized), e, ticks, n).sent == e.sent + Flat(Said(initialized), ticks, n)
    ensures ResponseIds(Fold(Turns(initialized), e, ticks, n).sent) == ResponseIds(e.sent) + Flat(Owed(), ticks, n)
  {
    FoldSent(Turns(initialized), Said(initialized), e, ticks, n);
    OneAnswerPerRequest(initialized, ticks, n);
    ResponseIdsConcat(e.sent, Flat(Said(initialized), ticks, n));
  }

  /** The loop looks for its parent every fifth time round and gives up when it is gone. */
  predicate Orphaned(checks: nat, t: Tick) {
    checks % 5 == 0 && !t.parentAlive
  }

  /** The loop ends before turn n: it did not run, was told to stop in the turn before, or finds its parent gone. */
  predicate StopsBefore(running: bool, checks: nat, ticks: seq<Tick>, n: nat)
    requires n <= |ticks|
  {
    || !running
    || (n > 0 && ticks[n - 1].signalled)
    || (n < |ticks| && Orphaned(checks + n + 1, ticks[n]))
  }

  /** Nothing stops the loop before turn n: it runs, finds its parent, and is told nothing before turn n - 1 is over. */
  predicate GoesThrough(running: bool, checks: nat, ticks: seq<Tick>, n: nat)
    requires n <= |ticks|
  {
    n > 0 ==>
      && GoesThrough(running, checks, ticks, n - 1)
      && running && !Orphaned(checks + n, ticks[n - 1]) && (n > 1 ==> !ticks[n - 2].signalled)
  }

  // ---------------------------------------------------------------- the object

  class ExchangeSubprocess {
    const initialized: bool
    var running: bool
    var parentChecks: nat
    var timeout: Option<int>
    var sent: seq<Message>
    var tasks: seq<string>

    constructor (initialized: bool, timeout: Option<int>)
      ensures running && sent == [] && tasks == [] && parentChecks == 0
      ensures this.initialized == initialized && this.timeout == timeout
    {
      this.initialized := initialized;
      this.timeout := timeout;
      running, parentChecks, sent, tasks := true, 0, [], [];
    }

    function Done(): Effects
      reads this
    {
      Effects(sent, tasks, timeout)
    }

    /** `_call_method`: the reserved parameters are taken out, and the override put on and off. */
    method CallMethod(p: Params, call: Result, leavesTimeout: Option<int>)
      returns (result: Result, positional: seq<string>, kwargs: Params)
      requires p.Params?
      modifies this`timeout
      ensures result == call
      ensures positional ==
        (if p.symbols.Some? then [p.symbols.value] else []) + (if p.args.Some? then p.args.value else [])
      ensures kwargs == Params(None, None, None, p.rest)
      ensures timeout == if p.timeout.Some? && old(timeout).Some? then old(timeout) else leavesTimeout
    {
      positional := if p.args.Some? then p.args.value else [];
      kwargs := p.(args := None, timeout := None);
      if p.symbols.Some? {
        positional := [p.symbols.value] + positional;
        kwargs := kwargs.(symbols := None);
      }
      var original: Option<int> := None;
      if p.timeout.Some? {
        original := timeout;
        timeout := Some(Millis(p.timeout.value));
      }
      result, timeout := call, leavesTimeout;
      if original.Some? {
        timeout := original;
      }
    }

    /** `_handle_watch_method`: one confirmation or error, and a background task on success. */
    method HandleWatchMethod(operation: string, r: Request, call: Result, leavesTimeout: Option<int>)
      requires WellFormed(r)
      modifies this`timeout, this`sent, this`tasks
      ensures sent == old(sent) + [
        if !r.params.Params? then Failed(r.id.value, PopError(r.params))
        else if call.Returns? then Ok(r.id.value, Confirmation(operation))
        else Failed(r.id.value, call.exn)]
      ensures tasks == old(tasks) + if r.params.Params? && call.Returns? then [TaskName(r)] else []
      ensures timeout ==
        if r.params.Params? then TimeoutAfter(old(timeout), r.params.timeout, leavesTimeout) else old(timeout)
    {
      if !r.params.Params? {
        sent := sent + [Failed(r.id.value, PopError(r.params))];
        return;
      }
      var firstBatch, _, _ := CallMethod(r.params, call, leavesTimeout);
      if firstBatch.Raises? {
        sent := sent + [Failed(r.id.value, firstBatch.exn)];
        return;
      }
      sent := sent + [Ok(r.id.value, Confirmation(operation))];
      tasks := tasks + [TaskName(r)];
    }

    /** The part of the dispatch that asks the exchange library. */
    method HandleLookup(r: Request, o: Oracle)
      requires initialized && WellFormed(r) && r.operation.value != "set_api_key"
      requires var key := SettableKey(r.operation.value); key.Some? ==> Holds(r.params, key.value) == Some(false)
      modifies this`timeout, this`sent, this`tasks
      ensures sent == old(sent) + Answers(initialized, Req(r, o))
      ensures tasks == old(tasks) + TasksStarted(initialized, Req(r, o))
      ensures timeout == TimeoutLeft(initialized, r, o, old(timeout))
    {
      var id, operation := r.id.value, r.operation.value;
      var response: Message;
      match o.attribute {
        case LookupRaises(e) =>
          response := Failed(id, e);
        case Callable(normalize, call, leavesTimeout) =>
          if operation == "setSandboxMode" && normalize.Raises? {
            response := Failed(id, normalize.exn);
          } else if IsWatch(operation) {
            HandleWatchMethod(operation, r, call, leavesTimeout);
            return;
          } else if !r.params.Params? {
            response := Failed(id, PopError(r.params));
          } else {
            var result, _, _ := CallMethod(r.params, call, leavesTimeout);
            response := Answer(id, result);
          }
        case Property(read) =>
          response := Answer(id, read);
        case Absent(has, inHas) =>
          if has.Raises? {
            response := Failed(id, has.exn);
          } else if inHas {
            response := Answer(id, has);
          } else if operation == "get_propertynames" {
            response := Ok(id, o.names);
          } else {
            response := Failed(id, Exn("AttributeError", "Method " + operation + " not found on exchange"));
          }
      }
      sent := sent + [response];
    }

    method HandleRequest(r: Request, o: Oracle)
      modifies this`timeout, this`sent, this`tasks
      ensures sent == old(sent) + Answers(initialized, Req(r, o))
      ensures tasks == old(tasks) + TasksStarted(initialized, Req(r, o))
      ensures timeout == TimeoutLeft(initialized, r, o, old(timeout))
    {
      if !Truthy(r.id) || !Truthy(r.operation) {
        return;
      }
      var id, operation := r.id.value, r.operation.value;
      var response: Message;
      var key := SettableKey(operation);
      if !initialized {
        response := Failed(id, Exn("RuntimeError", "Exchange not initialized"));
      } else if key.Some? && Holds(r.params, key.value).None? {
        response := Failed(id, Exn("TypeError", "in"));
      } else if key.Some? && Holds(r.params, key.value).value {
        if r.params.Params? {
          response := Answer(id, Assigned(o.assign));
          if operation == "timeout" && o.assign.Returns? {
            timeout := o.timeoutSet;
          }
        } else {
          response := Failed(id, Exn("TypeError", "index"));
        }
      } else if operation == "set_api_key" {
        if r.params.Params? {
          response := Answer(id, Assigned(o.assign));
        } else {
          response := Failed(id, Exn("AttributeError", "get"));
        }
      } else {
        HandleLookup(r, o);
        return;
      }
      sent := sent + [response];
    }

    method HandleTick(tick: Tick)
      modifies this`timeout, this`sent, this`tasks
      ensures Done() == AfterTurn(initialized, old(Done()), tick)
    {
      sent := sent + Updates(tick.updates);
      match tick.received {
        case Req(request, oracle) => HandleRequest(request, oracle);
        case NotJson => sent := sent + [INVALID_JSON];
        case _ =>
      }
      Assoc(old(sent), Updates(tick.updates), Answers(initialized, tick.received));
    }

    /** `step` is the effect of a turn. */
    ghost predicate IsStep(step: (Effects, Tick) -> Effects) {
      forall e, t {:trigger AfterTurn(initialized, e, t)} :: step(e, t) == AfterTurn(initialized, e, t)
    }

    /** Once round the loop, for turn n after `before`; false when the parent is found gone. */
    method GoRound(ticks: seq<Tick>, n: nat, ghost before: Effects, ghost step: (Effects, Tick) -> Effects)
      returns (found: bool)
      requires IsStep(step) && n < |ticks| && Done() == Fold(step, before, ticks, n)
      modifies this
      ensures parentChecks == old(parentChecks) + 1
      ensures found <==> !Orphaned(parentChecks, ticks[n])
      ensures running <==> old(running) && found && !ticks[n].signalled
      ensures Done() == Fold(step, before, ticks, if found then n + 1 else n)
    {
      var tick := ticks[n];
      parentChecks := parentChecks + 1;
      if parentChecks % 5 == 0 && !tick.parentAlive {
        running := false;
        return false;
      }
      if tick.signalled {
        running := false;
      }
      HandleTick(tick);
      return true;
    }

    method LoopOver(ticks: seq<Tick>, ghost step: (Effects, Tick) -> Effects) returns (handled: nat)
      requires IsStep(step)
      modifies this
      ensures handled <= |ticks|
      ensures Done() == Fold(step, old(Done()), ticks, handled)
      ensures GoesThrough(old(running), old(parentChecks), ticks, handled)
      ensures handled < |ticks| ==> StopsBefore(old(running), old(parentChecks), ticks, handled)
    {
      ghost var before, was, checks := Done(), running, parentChecks;
      handled := 0;
      while running && handled < |ticks|
        invariant handled <= |ticks| && parentChecks == checks + handled
        invariant Done() == Fold(step, before, ticks, handled)
        invariant !running ==> StopsBefore(was, checks, ticks, handled)
        invariant running ==> was && (handled > 0 ==> !ticks[handled - 1].signalled)
        invariant GoesThrough(was, checks, ticks, handled)
        decreases |ticks| - handled
      {
        var found := GoRound(ticks, handled, before, step);
        if !found {
          break;
        }
        handled := handled + 1;
      }
    }

    /**
     The message loop, over any finite run of turns. It goes through all of them unless it is
     told to stop, which ends it after that turn, or finds its parent gone, which ends it before.
     */
    method MessageLoop(ticks: seq<Tick>) returns (handled: nat)
      modifies this
      ensures handled <= |ticks|
      ensures Done() == Fold(Turns(initialized), old(Done()), ticks, handled)
      ensures sent == old(sent) + Flat(Said(initialized), ticks, handled)
      ensures ResponseIds(sent) == ResponseIds(old(sent)) + Flat(Owed(), ticks, handled)
      ensures GoesThrough(old(running), old(parentChecks), ticks, handled)
      ensures handled < |ticks| ==> StopsBefore(old(running), old(parentChecks), ticks, handled)
    {
      handled := LoopOver(ticks, Turns(initialized));
      SentOver(initialized, old(Done()), ticks, handled);
    }
  }
}
