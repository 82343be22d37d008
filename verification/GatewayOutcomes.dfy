/**
 How a call ends: which step decides it, what it has sent and restarted by then, and what the
 queues between broker and subprocesses carry, in every run of the request/response system.
 */
module GatewayOutcomes {
  import opened Prelude
  import opened BrokerSpec
  import opened Gateway
  import opened GatewaySafety

  // ---------------------------------------------------------------- one step

  /** The caller is told to try again: nobody is registered, or the subprocess says so, on the first attempt. */
  predicate ToldToRetry(reqs: seq<Request>, s: State, a: Label, c: nat)
    requires Shape(reqs, s) && c < |reqs|
  {
    && OwnedBy(a, c) && s.callers[c].attempt == 0
    && match a.act
       case Call => reqs[c].exchange !in s.broker.identities
       case Take => FutureOf(s, c).Some? && FutureOf(s, c).value.Resolved? && SaysNotFound(FutureOf(s, c).value.reply)
       case _ => false
  }

  /**
   What a step decides about caller c: the answer it takes, whatever that says, unless it is
   told to retry; the end of its wait; a send that fails; a restart that fails; or an exchange
   nobody is registered for when it has been restarted already.
   */
  function Decides(reqs: seq<Request>, s: State, a: Label, c: nat): Option<Outcome>
    requires Shape(reqs, s) && c < |reqs|
  {
    if !OwnedBy(a, c) || ToldToRetry(reqs, s, a, c) then None
    else
      match a.act
      case Call => if reqs[c].exchange in s.broker.identities then None else Some(NotFound)
      case SendFails => Some(SendError)
      case TimesOut => Some(TimedOut)
      case Take =>
        if FutureOf(s, c).Some? && FutureOf(s, c).value.Resolved? then Some(Answer(FutureOf(s, c).value.reply))
        else None
      case RestartDone(ok) => if ok then None else Some(RestartFailed)
      case _ => None
  }

  lemma DecidesStep(reqs: seq<Request>, s: State, a: Label, c: nat)
    requires Shape(reqs, s) && Enabled(reqs, s, a) && c < |reqs|
    ensures var k, k' := s.callers[c], Apply(reqs, s, a).callers[c];
      && (k.phase.Done? ==> k' == k && Decides(reqs, s, a, c).None?)
      && (!k.phase.Done? ==>
            if Decides(reqs, s, a, c).Some? then k'.phase == Done(Decides(reqs, s, a, c).value)
            else !k'.phase.Done?)
      && (k'.phase.Restarting? && !k.phase.Restarting? <==> ToldToRetry(reqs, s, a, c))
  {
  }

  /** Where a step that decides nothing takes the caller, and that it moves nobody else. */
  lemma CallerMoves(reqs: seq<Request>, s: State, a: Label, c: nat)
    requires Shape(reqs, s) && Enabled(reqs, s, a) && c < |reqs|
    ensures var k, k' := s.callers[c], Apply(reqs, s, a).callers[c];
      && (!OwnedBy(a, c) ==> k' == k)
      && (a == Own(c, Call) && reqs[c].exchange in s.broker.identities ==>
            k' == k.(phase := Sending, target := s.broker.identities[reqs[c].exchange]))
      && (a == Own(c, Put) ==> k' == k.(phase := Waiting, puts := k.puts + 1))
      && (a == Own(c, TimerFires) ==> k' == k && FutureOf(Apply(reqs, s, a), c) == Some(Cancelled))
      && (ToldToRetry(reqs, s, a, c) ==> k' == k.(phase := Restarting, restarts := k.restarts + 1))
      && (a == Own(c, RestartDone(true)) ==> k' == k.(phase := Calling, attempt := k.attempt + 1))
  {
  }

  // ---------------------------------------------------------------- outcomes

  predicate DecidedAt(reqs: seq<Request>, states: seq<State>, labels: seq<Label>, j: nat, c: nat, o: Outcome) {
    && j < |labels| && j < |states| && c < |reqs| && Shape(reqs, states[j])
    && Decides(reqs, states[j], labels[j], c) == Some(o)
  }

  lemma DecidesInRun(reqs: seq<Request>, states: seq<State>, labels: seq<Label>, i: nat, c: nat)
    requires Run(reqs, states, labels) && i < |labels| && c < |reqs|
    ensures Shape(reqs, states[i]) && Shape(reqs, states[i + 1])
    ensures var k, k' := states[i].callers[c], states[i + 1].callers[c];
      && (k.phase.Done? ==> k' == k && Decides(reqs, states[i], labels[i], c).None?)
      && (!k.phase.Done? ==>
            if Decides(reqs, states[i], labels[i], c).Some? then
              k'.phase == Done(Decides(reqs, states[i], labels[i], c).value)
            else !k'.phase.Done?)
  {
    assert Step(reqs, states[i], labels[i], states[i + 1]);
    DecidesStep(reqs, states[i], labels[i], c);
  }

  /**
   The outcome of a call, in every run: a caller is done with an outcome if and only if one of
   its steps decided so. In particular an answer it takes is returned as it is, error or not,
   unless it asks for the retry; and a call never ends any other way.
   */
  lemma {:induction false} OutcomeIffDecided(
    reqs: seq<Request>, states: seq<State>, labels: seq<Label>, i: nat, c: nat, o: Outcome)
    requires Run(reqs, states, labels) && i < |states| && c < |reqs|
    ensures Shape(reqs, states[i])
    ensures states[i].callers[c].phase == Done(o) <==>
      exists j: nat :: j < i && DecidedAt(reqs, states, labels, j, c, o)
  {
    if i == 0 {
      var callback :| states[0] == Init(reqs, callback);
    } else {
      var last: nat := i - 1;
      OutcomeIffDecided(reqs, states, labels, last, c, o);
      DecidesInRun(reqs, states, labels, last, c);
      assert DecidedAt(reqs, states, labels, last, c, o) <==> Decides(reqs, states[last], labels[last], c) == Some(o);
    }
  }

  /** The answer a caller takes is the one it returns. */
  lemma TakenIsReturned(reqs: seq<Request>, states: seq<State>, labels: seq<Label>, i: nat, c: nat, m: Message)
    requires Run(reqs, states, labels) && i < |labels| && c < |reqs|
    requires Shape(reqs, states[i]) && labels[i] == Own(c, Take) && FutureOf(states[i], c) == Some(Resolved(m))
    requires !(SaysNotFound(m) && states[i].callers[c].attempt == 0)
    ensures Shape(reqs, states[i + 1]) && states[i + 1].callers[c].phase == Done(Answer(m))
  {
    assert DecidedAt(reqs, states, labels, i, c, Answer(m));
    OutcomeIffDecided(reqs, states, labels, i + 1, c, Answer(m));
  }

  // ---------------------------------------------------------------- what was done on the way

  datatype Deed = Sends | Restarts | Retries

  predicate Does(reqs: seq<Request>, s: State, a: Label, c: nat, d: Deed)
    requires Shape(reqs, s) && c < |reqs|
  {
    match d
    case Sends => a == Own(c, Put)
    case Restarts => ToldToRetry(reqs, s, a, c)
    case Retries => a == Own(c, RestartDone(true))
  }

  function Tally(reqs: seq<Request>, states: seq<State>, labels: seq<Label>, i: nat, c: nat, d: Deed): nat
    requires i <= |labels| && i <= |states| && c < |reqs|
  {
    if i == 0 then 0
    else
      Tally(reqs, states, labels, i - 1, c, d) +
        (if Shape(reqs, states[i - 1]) && Does(reqs, states[i - 1], labels[i - 1], c, d) then 1 else 0)
  }

  /** The books are right: sends, restarts and attempts are as many as the run has seen. */
  lemma {:induction false} BooksAreRight(reqs: seq<Request>, states: seq<State>, labels: seq<Label>, i: nat, c: nat)
    requires DistinctIds(reqs) && Run(reqs, states, labels) && i < |states| && c < |reqs|
    ensures Shape(reqs, states[i])
    ensures states[i].callers[c].puts == Tally(reqs, states, labels, i, c, Sends)
    ensures states[i].callers[c].restarts == Tally(reqs, states, labels, i, c, Restarts)
    ensures states[i].callers[c].attempt == Tally(reqs, states, labels, i, c, Retries)
  {
    RunInv(reqs, states, labels, i);
    if i > 0 {
      BooksAreRight(reqs, states, labels, i - 1, c);
      assert Step(reqs, states[i - 1], labels[i - 1], states[i]);
      CallerMoves(reqs, states[i - 1], labels[i - 1], c);
      BooksStep(reqs, states[i - 1], labels[i - 1], c);
    }
  }

  lemma BooksStep(reqs: seq<Request>, s: State, a: Label, c: nat)
    requires Shape(reqs, s) && Enabled(reqs, s, a) && c < |reqs|
    ensures var k, k' := s.callers[c], Apply(reqs, s, a).callers[c];
      && (!Does(reqs, s, a, c, Sends) ==> k'.puts == k.puts)
      && (!Does(reqs, s, a, c, Restarts) ==> k'.restarts == k.restarts)
      && (!Does(reqs, s, a, c, Retries) ==> k'.attempt == k.attempt)
  {
  }

  // ---------------------------------------------------------------- the queues

  /** The request that a step puts on the way to subprocess x, and the one that x takes in it. */
  function PutOn(reqs: seq<Request>, a: Label, x: string): seq<Request> {
    if a.Own? && a.act.Put? && a.c < |reqs| && reqs[a.c].exchange == x then [reqs[a.c]] else []
  }

  function Taken(s: State, a: Label, x: string): seq<Request> {
    if a.World? && a.event.Serve? && a.event.x == x && Queue(s.toSub, x) != [] then [s.toSub[x][0]] else []
  }

  function SentTo(reqs: seq<Request>, labels: seq<Label>, i: nat, x: string): seq<Request>
    requires i <= |labels|
  {
    if i == 0 then [] else SentTo(reqs, labels, i - 1, x) + PutOn(reqs, labels[i - 1], x)
  }

  function TakenBy(states: seq<State>, labels: seq<Label>, i: nat, x: string): seq<Request>
    requires i <= |labels| && i <= |states|
  {
    if i == 0 then [] else TakenBy(states, labels, i - 1, x) + Taken(states[i - 1], labels[i - 1], x)
  }

  lemma HeadAndRest<T>(q: seq<T>)
    requires q != []
    ensures [q[0]] + q[1..] == q
  {
  }

  lemma Nothing<T>(q: seq<T>)
    ensures [] + q == q && q + [] == q
  {
  }

  /** In one step: what x takes and what is then queued is what was queued and what is put. */
  lemma ToSubStep(reqs: seq<Request>, s: State, a: Label, x: string)
    requires Shape(reqs, s) && Enabled(reqs, s, a) && a != World(DropRequests(x))
    requires a.Own? ==> WaiterOk(reqs, s, a.c)
    ensures Taken(s, a, x) + Queue(Apply(reqs, s, a).toSub, x) == Queue(s.toSub, x) + PutOn(reqs, a, x)
  {
    var q := Queue(s.toSub, x);
    Nothing(q);
    Nothing(Queue(Apply(reqs, s, a).toSub, x));
    if q != [] {
      HeadAndRest(q);
    }
  }

  lemma ToSubInRun(reqs: seq<Request>, states: seq<State>, labels: seq<Label>, i: nat, x: string)
    requires DistinctIds(reqs) && Run(reqs, states, labels) && i < |labels| && labels[i] != World(DropRequests(x))
    ensures Taken(states[i], labels[i], x) + Queue(states[i + 1].toSub, x) ==
      Queue(states[i].toSub, x) + PutOn(reqs, labels[i], x)
  {
    RunInv(reqs, states, labels, i);
    assert Step(reqs, states[i], labels[i], states[i + 1]);
    ToSubStep(reqs, states[i], labels[i], x);
  }

  lemma Regroup<T>(done: seq<T>, now: seq<T>, after: seq<T>, before: seq<T>, more: seq<T>)
    requires now + after == before + more
    ensures (done + now) + after == (done + before) + more
  {
    Assoc(done, now, after);
    Assoc(done, before, more);
  }

  lemma {:induction false} RequestsAddUp(
    reqs: seq<Request>, states: seq<State>, labels: seq<Label>, i: nat, x: string)
    requires i <= |labels| && i < |states| && Queue(states[0].toSub, x) == []
    requires forall j {:trigger Taken(states[j], labels[j], x)} :: 0 <= j < i ==>
      Taken(states[j], labels[j], x) + Queue(states[j + 1].toSub, x) ==
        Queue(states[j].toSub, x) + PutOn(reqs, labels[j], x)
    ensures TakenBy(states, labels, i, x) + Queue(states[i].toSub, x) == SentTo(reqs, labels, i, x)
  {
    if i > 0 {
      RequestsAddUp(reqs, states, labels, i - 1, x);
      Regroup(TakenBy(states, labels, i - 1, x), Taken(states[i - 1], labels[i - 1], x), Queue(states[i].toSub, x),
        Queue(states[i - 1].toSub, x), PutOn(reqs, labels[i - 1], x));
    }
  }

  /**
   Requests travel in order and none is lost, doubled or made up: unless the transport drops
   the queue, what x has taken followed by what waits for it is exactly what was sent to it.
   */
  lemma RequestsInOrder(reqs: seq<Request>, states: seq<State>, labels: seq<Label>, i: nat, x: string)
    requires DistinctIds(reqs) && Run(reqs, states, labels) && i < |states|
    requires forall j :: 0 <= j < i ==> labels[j] != World(DropRequests(x))
    ensures TakenBy(states, labels, i, x) + Queue(states[i].toSub, x) == SentTo(reqs, labels, i, x)
  {
    var callback :| states[0] == Init(reqs, callback);
    forall j | 0 <= j < i
      ensures Taken(states[j], labels[j], x) + Queue(states[j + 1].toSub, x) ==
        Queue(states[j].toSub, x) + PutOn(reqs, labels[j], x)
    {
      ToSubInRun(reqs, states, labels, j, x);
    }
    RequestsAddUp(reqs, states, labels, i, x);
  }

  /** The message a step puts on the way from subprocess x to the broker, and the one the broker handles in it. */
  function PutBack(s: State, a: Label, x: string): seq<Message> {
    if a.World? then
      match a.event
      case Serve(y, m) =>
        if y == x && Queue(s.toSub, x) != [] && Answerable(s.toSub[x][0]) then [m] else []
      case Emit(y, m) => if y == x then [m] else []
      case Duplicate(copy) => if copy.exchange == x then [copy.reply] else []
      case _ => []
    else []
  }

  function Handled(s: State, a: Label, x: string): seq<Message> {
    if a == World(Deliver(x)) && Queue(s.fromSub, x) != [] then [s.fromSub[x][0]] else []
  }

  function SentBack(states: seq<State>, labels: seq<Label>, i: nat, x: string): seq<Message>
    requires i <= |labels| && i <= |states|
  {
    if i == 0 then [] else SentBack(states, labels, i - 1, x) + PutBack(states[i - 1], labels[i - 1], x)
  }

  function HandledFrom(states: seq<State>, labels: seq<Label>, i: nat, x: string): seq<Message>
    requires i <= |labels| && i <= |states|
  {
    if i == 0 then [] else HandledFrom(states, labels, i - 1, x) + Handled(states[i - 1], labels[i - 1], x)
  }

  lemma FromSubStep(reqs: seq<Request>, s: State, a: Label, x: string)
    requires Shape(reqs, s) && Enabled(reqs, s, a) && a != World(DropReplies(x))
    ensures Handled(s, a, x) + Queue(Apply(reqs, s, a).fromSub, x) == Queue(s.fromSub, x) + PutBack(s, a, x)
    ensures forall m :: Handled(s, a, x) == [m] ==> Apply(reqs, s, a).broker == OnMessage(s.broker, x, m)
  {
    var q := Queue(s.fromSub, x);
    Nothing(q);
    Nothing(Queue(Apply(reqs, s, a).fromSub, x));
    if q != [] {
      HeadAndRest(q);
    }
  }

  lemma FromSubInRun(reqs: seq<Request>, states: seq<State>, labels: seq<Label>, i: nat, x: string)
    requires Run(reqs, states, labels) && i < |labels| && labels[i] != World(DropReplies(x))
    ensures Handled(states[i], labels[i], x) + Queue(states[i + 1].fromSub, x) ==
      Queue(states[i].fromSub, x) + PutBack(states[i], labels[i], x)
  {
    assert Step(reqs, states[i], labels[i], states[i + 1]);
    FromSubStep(reqs, states[i], labels[i], x);
  }

  lemma {:induction false} RepliesAddUp(states: seq<State>, labels: seq<Label>, i: nat, x: string)
    requires i <= |labels| && i < |states| && Queue(states[0].fromSub, x) == []
    requires forall j {:trigger Handled(states[j], labels[j], x)} :: 0 <= j < i ==>
      Handled(states[j], labels[j], x) + Queue(states[j + 1].fromSub, x) ==
        Queue(states[j].fromSub, x) + PutBack(states[j], labels[j], x)
    ensures HandledFrom(states, labels, i, x) + Queue(states[i].fromSub, x) == SentBack(states, labels, i, x)
  {
    if i > 0 {
      RepliesAddUp(states, labels, i - 1, x);
      Regroup(HandledFrom(states, labels, i - 1, x), Handled(states[i - 1], labels[i - 1], x),
        Queue(states[i].fromSub, x), Queue(states[i - 1].fromSub, x), PutBack(states[i - 1], labels[i - 1], x));
    }
  }

  /** So do messages on the way back: the broker handles what x sent, in order, and the rest is still on its way. */
  lemma RepliesInOrder(reqs: seq<Request>, states: seq<State>, labels: seq<Label>, i: nat, x: string)
    requires Run(reqs, states, labels) && i < |states|
    requires forall j :: 0 <= j < i ==> labels[j] != World(DropReplies(x))
    ensures HandledFrom(states, labels, i, x) + Queue(states[i].fromSub, x) == SentBack(states, labels, i, x)
  {
    var callback :| states[0] == Init(reqs, callback);
    forall j | 0 <= j < i
      ensures Handled(states[j], labels[j], x) + Queue(states[j + 1].fromSub, x) ==
        Queue(states[j].fromSub, x) + PutBack(states[j], labels[j], x)
    {
      FromSubInRun(reqs, states, labels, j, x);
    }
    RepliesAddUp(states, labels, i, x);
  }
}
