/**
 The subprocess inside the system: what `Subprocess` proves about one turn of its loop is what
 the steps `Serve` and `Emit` of `Gateway` assume, and so the answers callers get are those its
 dispatch computes.
 */
module EndToEnd {
  import opened Prelude
  import opened BrokerSpec
  import opened Gateway
  import opened GatewaySafety
  import Subprocess

  /** How the rest of a message is read: its parameters and its subscription id. */
  type Decoder = string -> (Subprocess.Params, Option<string>)

  /** A request of the system as the subprocess sees it. */
  function Decoded(decode: Decoder, g: Request): Subprocess.Request {
    var (params, subscription) := decode(g.payload);
    Subprocess.Request(Some(g.id), Some(g.operation), params, subscription)
  }

  /** What the exchange library does in one turn: whether there is an exchange at all, and its part. */
  datatype Turn = Turn(initialized: bool, oracle: Subprocess.Oracle)

  /** The turn of the subprocess that each `Serve` step of a run stands for. */
  type Turns = nat -> Turn

  /** m is what the dispatch answers to g in this turn. */
  predicate ComputedIn(decode: Decoder, g: Request, m: Message, t: Turn) {
    Answerable(g) && m == Subprocess.AnswerTo(t.initialized, Decoded(decode, g), t.oracle)
  }

  /** Every reply in the run is what the dispatch computes in the turn of that very step. */
  ghost predicate AllComputed(
    decode: Decoder, turns: Turns, reqs: seq<Request>, states: seq<State>, labels: seq<Label>)
  {
    forall j: nat, c: nat, m :: ServesAt(reqs, states, labels, j, c, m) ==>
      ComputedIn(decode, reqs[c], m, turns(j))
  }

  // ---------------------------------------------------------------- one turn of the loop

  function PushAll<T>(q: map<string, seq<T>>, x: string, ms: seq<T>): map<string, seq<T>> {
    if ms == [] then q else Push(PushAll(q, x, ms[..|ms| - 1]), x, ms[|ms| - 1])
  }

  lemma {:induction false} PushAllQueue<T>(q: map<string, seq<T>>, x: string, ms: seq<T>)
    ensures Queue(PushAll(q, x, ms), x) == Queue(q, x) + ms
    ensures forall y :: y != x ==> Queue(PushAll(q, x, ms), y) == Queue(q, y)
  {
    if ms == [] {
      assert Queue(q, x) + ms == Queue(q, x);
    } else {
      PushAllQueue(q, x, ms[..|ms| - 1]);
      Assoc(Queue(q, x), ms[..|ms| - 1], [ms[|ms| - 1]]);
      assert ms == ms[..|ms| - 1] + [ms[|ms| - 1]];
    }
  }

  lemma {:induction false} UpdatesAreStray(reqs: seq<Request>, x: string, updates: seq<(string, string)>)
    ensures forall m :: m in Subprocess.Updates(updates) ==> Stray(reqs, x, m)
  {
    if updates != [] {
      UpdatesAreStray(reqs, x, updates[..|updates| - 1]);
    }
  }

  /** The turn receives nothing, or the request at the head of the queue to x: the broker sends nothing else. */
  predicate Takes(decode: Decoder, s: State, x: string, t: Subprocess.Tick) {
    match t.received
    case Nothing => true
    case Req(r, _) => Queue(s.toSub, x) != [] && r == Decoded(decode, s.toSub[x][0])
    case _ => false
  }

  /** One more step, computed in its turn if it serves a request, keeps replies computed. */
  lemma StillComputed(decode: Decoder, turns: Turns, turn: Turn,
    reqs: seq<Request>, states: seq<State>, labels: seq<Label>, a: Label, s': State) returns (turns': Turns)
    requires |states| == |labels| + 1 && AllComputed(decode, turns, reqs, states, labels)
    requires forall c: nat, m ::
      ServesAt(reqs, states + [s'], labels + [a], |labels|, c, m) ==> ComputedIn(decode, reqs[c], m, turn)
    ensures AllComputed(decode, turns', reqs, states + [s'], labels + [a])
  {
    turns' := (k: nat) => if k == |labels| then turn else turns(k);
    forall j: nat, c: nat, m | ServesAt(reqs, states + [s'], labels + [a], j, c, m)
      ensures ComputedIn(decode, reqs[c], m, turns'(j))
    {
      assert j < |labels| ==> ServesAt(reqs, states, labels, j, c, m);
    }
  }

  /** Watch updates are steps `Emit`. */
  lemma {:induction false} EmitAll(decode: Decoder, turns: Turns,
    reqs: seq<Request>, states: seq<State>, labels: seq<Label>, x: string, ms: seq<Message>)
    returns (states': seq<State>, labels': seq<Label>, turns': Turns)
    requires Run(reqs, states, labels) && Shape(reqs, Last(states)) && AllComputed(decode, turns, reqs, states, labels)
    requires forall m :: m in ms ==> Stray(reqs, x, m)
    ensures Run(reqs, states', labels') && AllComputed(decode, turns', reqs, states', labels')
    ensures Last(states') == Last(states).(fromSub := PushAll(Last(states).fromSub, x, ms))
  {
    if ms == [] {
      states', labels', turns' := states, labels, turns;
    } else {
      var last := World(Emit(x, ms[|ms| - 1]));
      states', labels', turns' := EmitAll(decode, turns, reqs, states, labels, x, ms[..|ms| - 1]);
      var s' := Apply(reqs, Last(states'), last);
      GoesOn(reqs, states', labels', last);
      turns' := StillComputed(decode, turns', turns(0), reqs, states', labels', last, s');
      states', labels' := states' + [s'], labels' + [last];
    }
  }

  /** Nothing has changed but the queues to and from x. */
  ghost predicate SameElsewhere(s: State, s': State, x: string) {
    && s'.broker == s.broker && s'.callers == s.callers
    && (forall y :: y != x ==> Queue(s'.toSub, y) == Queue(s.toSub, y) && Queue(s'.fromSub, y) == Queue(s.fromSub, y))
  }

  /** What a turn puts on the socket for a request, as the step `Serve` on the head of the queue. */
  lemma ServeIsDispatch(reqs: seq<Request>, s: State, x: string, decode: Decoder, t: Turn) returns (m: Message)
    requires Shape(reqs, s) && Queue(s.toSub, x) != []
    ensures EventEnabled(reqs, s, Serve(x, m))
    ensures var g, s' := s.toSub[x][0], ApplyEvent(reqs, s, Serve(x, m));
      && (Answerable(g) ==> ComputedIn(decode, g, m, t))
      && SameElsewhere(s, s', x)
      && Queue(s'.toSub, x) == Queue(s.toSub, x)[1..]
      && Queue(s'.fromSub, x) == Queue(s.fromSub, x) +
           Subprocess.Answers(t.initialized, Subprocess.Req(Decoded(decode, g), t.oracle))
  {
    var g := s.toSub[x][0];
    m := if Answerable(g) then Subprocess.AnswerTo(t.initialized, Decoded(decode, g), t.oracle) else Heartbeat;
    if !Answerable(g) {
      assert Queue(s.fromSub, x) + [] == Queue(s.fromSub, x);
    }
  }

  lemma ServeHead(decode: Decoder, turns: Turns, turn: Turn,
    reqs: seq<Request>, states: seq<State>, labels: seq<Label>, x: string)
    returns (states': seq<State>, labels': seq<Label>, turns': Turns)
    requires Run(reqs, states, labels) && Shape(reqs, Last(states)) && AllComputed(decode, turns, reqs, states, labels)
    requires Queue(Last(states).toSub, x) != []
    ensures Run(reqs, states', labels') && AllComputed(decode, turns', reqs, states', labels')
    ensures var s, s' := Last(states), Last(states');
      && SameElsewhere(s, s', x)
      && Queue(s'.toSub, x) == Queue(s.toSub, x)[1..]
      && Queue(s'.fromSub, x) == Queue(s.fromSub, x) + Subprocess.Answers(
           turn.initialized, Subprocess.Req(Decoded(decode, s.toSub[x][0]), turn.oracle))
  {
    var m := ServeIsDispatch(reqs, Last(states), x, decode, turn);
    var a := World(Serve(x, m));
    var s' := Apply(reqs, Last(states), a);
    GoesOn(reqs, states, labels, a);
    turns' := StillComputed(decode, turns, turn, reqs, states, labels, a, s');
    states', labels' := states + [s'], labels + [a];
  }

  /**
   The loop refines the system: whatever turn subprocess x takes on the request at the head of
   its queue, the system can do the same, as a step whose reply is computed in that turn.
   Afterwards the request is off the queue, and the queue to the broker is longer by exactly
   what the turn puts on the socket.
   */
  lemma TurnIsSteps(reqs: seq<Request>, states: seq<State>, labels: seq<Label>, x: string,
    decode: Decoder, turns: Turns, initialized: bool, t: Subprocess.Tick)
    returns (states': seq<State>, labels': seq<Label>, turns': Turns)
    requires Run(reqs, states, labels) && Shape(reqs, Last(states)) && Takes(decode, Last(states), x, t)
    requires AllComputed(decode, turns, reqs, states, labels)
    ensures Run(reqs, states', labels') && AllComputed(decode, turns', reqs, states', labels')
    ensures var s, s' := Last(states), Last(states');
      && SameElsewhere(s, s', x)
      && Queue(s'.toSub, x) == (if t.received.Req? then Queue(s.toSub, x)[1..] else Queue(s.toSub, x))
      && Queue(s'.fromSub, x) ==
           Queue(s.fromSub, x) + (Subprocess.Updates(t.updates) + Subprocess.Answers(initialized, t.received))
  {
    var s, updates := Last(states), Subprocess.Updates(t.updates);
    var answers := Subprocess.Answers(initialized, t.received);
    UpdatesAreStray(reqs, x, t.updates);
    states', labels', turns' := EmitAll(decode, turns, reqs, states, labels, x, updates);
    PushAllQueue(s.fromSub, x, updates);
    Assoc(Queue(s.fromSub, x), updates, answers);
    if t.received.Req? {
      states', labels', turns' :=
        ServeHead(decode, turns', Turn(initialized, t.received.oracle), reqs, states', labels', x);
    } else {
      assert updates + answers == updates;
    }
  }

  // ---------------------------------------------------------------- whole runs

  /**
   End to end: in any run of callers, broker and subprocesses, the answer a caller returns is
   what the dispatch computed for the caller's own request, in the very turn that served it.
   */
  lemma AnswerIsOwnDispatch(
    decode: Decoder, turns: Turns, reqs: seq<Request>, states: seq<State>, labels: seq<Label>, i: nat, c: nat)
    returns (j: nat)
    requires DistinctIds(reqs) && Run(reqs, states, labels) && AllComputed(decode, turns, reqs, states, labels)
    requires i < |states| && c < |reqs| && |states[i].callers| == |reqs|
    requires states[i].callers[c].phase.Done? && states[i].callers[c].phase.outcome.Answer?
    ensures Answerable(reqs[c])
    ensures var m := Subprocess.AnswerTo(turns(j).initialized, Decoded(decode, reqs[c]), turns(j).oracle);
      && j < i && ServesAt(reqs, states, labels, j, c, m)
      && states[i].callers[c].phase.outcome.reply == m
    ensures var r, o, reply := Decoded(decode, reqs[c]), turns(j).oracle, states[i].callers[c].phase.outcome.reply;
      Subprocess.Calls(turns(j).initialized, r, o) && !Subprocess.IsWatch(reqs[c].operation) ==>
        && (forall v :: o.attribute.call == Subprocess.Returns(v) ==>
              reply == Response(Some(reqs[c].id), v, None, ""))
        && (forall e :: o.attribute.call == Subprocess.Raises(e) ==>
              reply == Response(Some(reqs[c].id), "null", Some(e.text), e.name))
  {
    j := AnswerComputedForOwnRequest(reqs, states, labels, i, c);
    var r, o := Decoded(decode, reqs[c]), turns(j).oracle;
    if Subprocess.Calls(turns(j).initialized, r, o) {
      Subprocess.CallAnswered(r, o);
      assert Subprocess.Answers(true, Subprocess.Req(r, o)) == [states[i].callers[c].phase.outcome.reply];
    }
  }

  /** The dispatch of g in this turn ends in an exception named like the retried code, raised by the library. */
  predicate EndsInNotFound(decode: Decoder, g: Request, t: Turn)
    requires Answerable(g)
  {
    var r := Decoded(decode, g);
    && Subprocess.RaisesNamed(t.initialized, r, t.oracle, EXCHANGE_NOT_FOUND)
    && Subprocess.LibraryRaised(t.oracle, Subprocess.Dispatch(t.initialized, r, t.oracle).exn)
  }

  /** Step j served caller c's own request, in a turn that ended so. */
  ghost predicate NotFoundRaisedAt(decode: Decoder, turns: Turns,
    reqs: seq<Request>, states: seq<State>, labels: seq<Label>, j: nat, c: nat)
  {
    exists m :: ServesAt(reqs, states, labels, j, c, m) && EndsInNotFound(decode, reqs[c], turns(j))
  }

  /** A caller is told to retry by exactly the turns that end in such an exception. */
  lemma ToldIffRaised(decode: Decoder, turns: Turns,
    reqs: seq<Request>, states: seq<State>, labels: seq<Label>, i: nat, c: nat)
    requires AllComputed(decode, turns, reqs, states, labels)
    ensures ToldAt(reqs, states, labels, i, c) <==>
      exists j: nat :: j < i && NotFoundRaisedAt(decode, turns, reqs, states, labels, j, c)
  {
    forall j: nat, m | ServesAt(reqs, states, labels, j, c, m)
      ensures SaysNotFound(m) <==> EndsInNotFound(decode, reqs[c], turns(j))
    {
      Subprocess.SaysNotFoundIff(turns(j).initialized, Decoded(decode, reqs[c]), turns(j).oracle);
    }
    if ToldAt(reqs, states, labels, i, c) {
      var j: nat, m :| j < i && ServesAt(reqs, states, labels, j, c, m) && SaysNotFound(m);
      assert NotFoundRaisedAt(decode, turns, reqs, states, labels, j, c);
    }
  }

  /**
   The retry sends once: in any run of callers, broker and subprocesses, a request reaches the
   socket a second time only if in a turn that served this very request the dispatch ended in
   an exception type named EXCHANGE_NOT_FOUND, raised by the library. A caller whose served
   turns all end otherwise sends at most once.
   */
  lemma SecondSendOnlyAfterException(
    decode: Decoder, turns: Turns, reqs: seq<Request>, states: seq<State>, labels: seq<Label>, i: nat, c: nat)
    requires DistinctIds(reqs) && Run(reqs, states, labels) && AllComputed(decode, turns, reqs, states, labels)
    requires i < |states| && c < |reqs|
    ensures Shape(reqs, states[i])
    ensures states[i].callers[c].puts <= 2
    ensures states[i].callers[c].puts == 2 ==>
      exists j: nat :: j < i && NotFoundRaisedAt(decode, turns, reqs, states, labels, j, c)
  {
    RetrySendsAtMostOnce(reqs, states, labels, i, c);
    ToldIffRaised(decode, turns, reqs, states, labels, i, c);
  }
}
