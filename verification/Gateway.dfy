/**
 The request/response system: any number of REST callers inside `_send_via_broker`, the
 broker, and the exchange subprocesses, interleaved in every order. Code between two awaits
 is one step. Timers, send failures, lost queues, restarts, duplicated and stray messages are
 steps the environment may take at any time.

 A subprocess connects under its exchange id, so the id is also its socket identity.
 */
module Gateway {
  import opened Prelude
  import opened BrokerSpec

  datatype Request = Request(id: string, exchange: string, operation: string, payload: string)

  predicate Answerable(r: Request) {
    r.id != "" && r.operation != ""
  }

  /** History: subprocess `exchange` took `request` from its queue and computed `reply` for it. */
  datatype Served = Served(exchange: string, request: Request, reply: Message)

  datatype Outcome = Answer(reply: Message) | NotFound | TimedOut | SendError | RestartFailed

  datatype Phase = Calling | Sending | Waiting | Restarting | Done(outcome: Outcome)

  /** One `_send_via_broker`; `puts` and `restarts` count its socket sends and restart calls. */
  datatype Caller = Caller(phase: Phase, attempt: nat, target: string, puts: nat, restarts: nat)

  datatype State = State(
    broker: BrokerState,
    callers: seq<Caller>,
    toSub: map<string, seq<Request>>,
    fromSub: map<string, seq<Message>>,
    served: set<Served>)

  /** Steps of one caller's coroutine and of its timer. */
  datatype Act = Call | Put | SendFails | TimerFires | TimesOut | Take | RestartDone(ok: bool)

  /** Steps of the broker's loop, the subprocesses and the transport. */
  datatype Event =
    | Serve(x: string, reply: Message)
    | Emit(x: string, m: Message)
    | Duplicate(copy: Served)
    | Deliver(x: string)
    | DropRequests(x: string)
    | DropReplies(x: string)
    | Unregister(x: string)

  datatype Label = Own(c: nat, act: Act) | World(event: Event)

  /** Requests carry freshly generated ids. */
  ghost predicate DistinctIds(reqs: seq<Request>) {
    forall c, d :: 0 <= c < |reqs| && 0 <= d < |reqs| && reqs[c].id == reqs[d].id && reqs[c].id != "" ==> c == d
  }

  function Queue<T>(q: map<string, seq<T>>, x: string): seq<T> {
    if x in q then q[x] else []
  }

  function Push<T>(q: map<string, seq<T>>, x: string, m: T): map<string, seq<T>> {
    q[x := Queue(q, x) + [m]]
  }

  function Init(reqs: seq<Request>, callback: bool): State {
    State(EMPTY_BROKER.(callbackSet := callback), seq(|reqs|, _ => Caller(Calling, 0, "", 0, 0)), map[], map[], {})
  }

  /** Messages a subprocess may emit besides the answer to the request it is serving. */
  predicate Stray(reqs: seq<Request>, x: string, m: Message) {
    match m
    case Response(id, _, _, _) => Truthy(id) ==> forall r :: r in reqs ==> r.id != id.value
    case SubprocessReady(y) => y == Some(x) || y == None
    case _ => true
  }

  function FutureOf(s: State, c: nat): Option<Future>
    requires c < |s.callers|
  {
    var t := Ticket(c, s.callers[c].attempt);
    if t in s.broker.futures then Some(s.broker.futures[t]) else None
  }

  predicate ActEnabled(s: State, c: nat, act: Act)
    requires c < |s.callers|
  {
    match act
    case Call => s.callers[c].phase.Calling?
    case Put => s.callers[c].phase.Sending?
    case SendFails => s.callers[c].phase.Sending?
    case TimerFires => s.callers[c].phase.Waiting? && FutureOf(s, c) == Some(Pending)
    // the coroutine resumes with TimeoutError; a result that arrived after the timer is lost
    case TimesOut => s.callers[c].phase.Waiting? && FutureOf(s, c).Some? && !FutureOf(s, c).value.Pending?
    case Take => s.callers[c].phase.Waiting? && FutureOf(s, c).Some? && FutureOf(s, c).value.Resolved?
    case RestartDone(_) => s.callers[c].phase.Restarting?
  }

  predicate EventEnabled(reqs: seq<Request>, s: State, e: Event) {
    match e
    case Serve(x, m) =>
      && Queue(s.toSub, x) != []
      && (Answerable(s.toSub[x][0]) ==> m.Response? && m.id == Some(s.toSub[x][0].id))
    case Emit(x, m) => Stray(reqs, x, m)
    case Duplicate(copy) => copy in s.served
    case Deliver(x) => Queue(s.fromSub, x) != []
    case _ => true
  }

  predicate Enabled(reqs: seq<Request>, s: State, a: Label)
    requires Shape(reqs, s)
  {
    match a
    case Own(c, act) => c < |reqs| && ActEnabled(s, c, act)
    case World(e) => EventEnabled(reqs, s, e)
  }

  /** What `_send_via_broker` does with NOT_FOUND, whether the broker or a subprocess said so. */
  function AfterNotFound(k: Caller, outcome: Outcome): Caller {
    if k.attempt == 0 then k.(phase := Restarting, restarts := k.restarts + 1) else k.(phase := Done(outcome))
  }

  function CallerAfter(r: Request, s: State, c: nat, act: Act): Caller
    requires c < |s.callers| && ActEnabled(s, c, act)
  {
    var k := s.callers[c];
    match act
    case Call =>
      if r.exchange in s.broker.identities then k.(phase := Sending, target := s.broker.identities[r.exchange])
      else AfterNotFound(k, NotFound)
    case Put => k.(phase := Waiting, puts := k.puts + 1)
    case SendFails => k.(phase := Done(SendError))
    case TimerFires => k
    case TimesOut => k.(phase := Done(TimedOut))
    case Take =>
      var m := FutureOf(s, c).value.reply;
      if SaysNotFound(m) then AfterNotFound(k, Answer(m)) else k.(phase := Done(Answer(m)))
    case RestartDone(ok) =>
      if ok then k.(phase := Calling, attempt := k.attempt + 1) else k.(phase := Done(RestartFailed))
  }

  function BrokerAfter(r: Request, s: State, c: nat, act: Act): BrokerState
    requires c < |s.callers| && ActEnabled(s, c, act) && Wf(s.broker)
  {
    var t := Ticket(c, s.callers[c].attempt);
    match act
    case Call => if r.exchange in s.broker.identities then Open(s.broker, t, r.id) else s.broker
    case SendFails => Forget(s.broker, r.id)
    case TimerFires => Cancel(s.broker, t)
    case TimesOut => Forget(s.broker, r.id)
    case _ => s.broker
  }

  function ApplyAct(r: Request, s: State, c: nat, act: Act): State
    requires c < |s.callers| && ActEnabled(s, c, act) && Wf(s.broker)
  {
    s.(broker := BrokerAfter(r, s, c, act),
       callers := s.callers[c := CallerAfter(r, s, c, act)],
       toSub := if act.Put? then Push(s.toSub, s.callers[c].target, r) else s.toSub)
  }

  function ApplyEvent(reqs: seq<Request>, s: State, e: Event): State
    requires EventEnabled(reqs, s, e) && Wf(s.broker)
  {
    match e
    case Serve(x, m) =>
      var r := s.toSub[x][0];
      var s' := s.(toSub := s.toSub[x := s.toSub[x][1..]]);
      if Answerable(r) then
        s'.(fromSub := Push(s.fromSub, x, m), served := s.served + {Served(x, r, m)})
      else s'
    case Emit(x, m) => s.(fromSub := Push(s.fromSub, x, m))
    case Duplicate(copy) => s.(fromSub := Push(s.fromSub, copy.exchange, copy.reply))
    case Deliver(x) =>
      s.(fromSub := s.fromSub[x := s.fromSub[x][1..]], broker := OnMessage(s.broker, x, s.fromSub[x][0]))
    case DropRequests(x) => s.(toSub := s.toSub[x := []])
    case DropReplies(x) => s.(fromSub := s.fromSub[x := []])
    case Unregister(x) => s.(broker := BrokerSpec.Unregister(s.broker, x))
  }

  function Apply(reqs: seq<Request>, s: State, a: Label): State
    requires Shape(reqs, s) && Enabled(reqs, s, a)
  {
    match a
    case Own(c, act) => ApplyAct(reqs[c], s, c, act)
    case World(e) => ApplyEvent(reqs, s, e)
  }

  predicate Shape(reqs: seq<Request>, s: State) {
    |s.callers| == |reqs| && Wf(s.broker)
  }

  ghost predicate Step(reqs: seq<Request>, s: State, a: Label, s': State) {
    Shape(reqs, s) && Enabled(reqs, s, a) && s' == Apply(reqs, s, a)
  }

  /** `states` is a run of the system under the schedule `labels`. */
  ghost predicate Run(reqs: seq<Request>, states: seq<State>, labels: seq<Label>) {
    && |states| == |labels| + 1
    && (exists callback :: states[0] == Init(reqs, callback))
    && forall i :: 0 <= i < |labels| ==> Step(reqs, states[i], labels[i], states[i + 1])
  }

  // ---------------------------------------------------------------- invariant

  predicate InFlight(k: Caller) {
    k.phase.Sending? || k.phase.Waiting?
  }

  /** `m` was computed by the subprocess of caller c's exchange from caller c's own request. */
  ghost predicate Genuine(reqs: seq<Request>, s: State, c: nat, m: Message)
    requires c < |reqs|
  {
    m.Response? && m.id == Some(reqs[c].id) && Served(reqs[c].exchange, reqs[c], m) in s.served
  }

  /** A pending id belongs to a caller in flight, and points at that caller's current, unresolved future. */
  ghost predicate EntryOk(reqs: seq<Request>, s: State, r: string)
    requires Shape(reqs, s) && r in s.broker.pending
  {
    var t := s.broker.pending[r];
    && t.caller < |reqs|
    && reqs[t.caller].id == r != ""
    && InFlight(s.callers[t.caller])
    && t.attempt == s.callers[t.caller].attempt
    && !s.broker.futures[t].Resolved?
  }

  ghost predicate PendingOwned(reqs: seq<Request>, s: State)
    requires Shape(reqs, s)
  {
    forall r :: r in s.broker.pending ==> EntryOk(reqs, s, r)
  }

  /** A caller in flight has a future; while it is unsettled the broker can still find it. */
  ghost predicate WaiterOk(reqs: seq<Request>, s: State, c: nat)
    requires Shape(reqs, s) && c < |reqs|
  {
    InFlight(s.callers[c]) ==>
      var t := Ticket(c, s.callers[c].attempt);
      && t in s.broker.futures
      && (reqs[c].id != "" && s.broker.futures[t].Pending? ==>
            reqs[c].id in s.broker.pending && s.broker.pending[reqs[c].id] == t)
      && s.callers[c].target == reqs[c].exchange
  }

  ghost predicate WaitersReachable(reqs: seq<Request>, s: State)
    requires Shape(reqs, s)
  {
    forall c :: 0 <= c < |reqs| ==> WaiterOk(reqs, s, c)
  }

  /** A future belongs to an attempt already made, and holds only a genuine answer. */
  ghost predicate FutureOk(reqs: seq<Request>, s: State, t: Ticket)
    requires Shape(reqs, s) && t in s.broker.futures
  {
    && t.caller < |reqs|
    && (t.attempt < s.callers[t.caller].attempt ||
        (t.attempt == s.callers[t.caller].attempt && !s.callers[t.caller].phase.Calling?))
    && (s.broker.futures[t].Resolved? ==> Genuine(reqs, s, t.caller, s.broker.futures[t].reply))
  }

  ghost predicate FuturesGenuine(reqs: seq<Request>, s: State)
    requires Shape(reqs, s)
  {
    forall t :: t in s.broker.futures ==> FutureOk(reqs, s, t)
  }

  /** A message on its way from subprocess x is stray or was computed there for a request. */
  ghost predicate Traceable(reqs: seq<Request>, s: State, x: string, m: Message) {
    Stray(reqs, x, m) || exists v :: v in s.served && v.exchange == x && v.reply == m
  }

  ghost predicate QueuesGenuine(reqs: seq<Request>, s: State) {
    && (forall x, i :: x in s.toSub && 0 <= i < |s.toSub[x]| ==> s.toSub[x][i] in reqs && s.toSub[x][i].exchange == x)
    && (forall x, i :: x in s.fromSub && 0 <= i < |s.fromSub[x]| ==> Traceable(reqs, s, x, s.fromSub[x][i]))
    && (forall v :: v in s.served ==>
          && v.request in reqs && Answerable(v.request) && v.exchange == v.request.exchange
          && v.reply.Response? && v.reply.id == Some(v.request.id))
  }

  ghost predicate IdentitiesTrue(s: State) {
    forall x :: x in s.broker.identities ==> s.broker.identities[x] == x
  }

  ghost predicate AnswersGenuine(reqs: seq<Request>, s: State)
    requires Shape(reqs, s)
  {
    forall c :: 0 <= c < |reqs| && s.callers[c].phase.Done? && s.callers[c].phase.outcome.Answer? ==>
      Genuine(reqs, s, c, s.callers[c].phase.outcome.reply)
  }

  /** Some answer computed for caller c carries the code that is retried. */
  ghost predicate ToldNotFound(reqs: seq<Request>, s: State, c: nat)
    requires c < |reqs|
  {
    exists v :: v in s.served && v.request == reqs[c] && SaysNotFound(v.reply)
  }

  predicate BeforeSend(k: Caller) {
    k.phase.Calling? || k.phase.Sending?
  }

  /** Sends and restarts so far, as the attempt and phase account for them. */
  ghost predicate Accounted(k: Caller, told: bool) {
    && k.restarts <= 1
    && (k.attempt == 0 || (k.attempt == 1 && k.restarts == 1))
    && (k.phase.Restarting? ==> k.attempt == 0 && k.restarts == 1)
    && (k.attempt == 0 && (BeforeSend(k) || k.phase.Waiting?) ==> k.restarts == 0)
    && (k.attempt == 0 && BeforeSend(k) ==> k.puts == 0)
    && k.puts <= k.attempt + (if BeforeSend(k) then 0 else 1)
    && (k.puts > 0 && (k.phase.Restarting? || (k.attempt == 1 && BeforeSend(k))) ==> told)
    && (k.puts > 1 ==> told)
  }

  ghost predicate RetryAccounted(reqs: seq<Request>, s: State)
    requires Shape(reqs, s)
  {
    forall c :: 0 <= c < |reqs| ==> Accounted(s.callers[c], ToldNotFound(reqs, s, c))
  }

  ghost predicate Inv(reqs: seq<Request>, s: State) {
    && Shape(reqs, s)
    && PendingOwned(reqs, s)
    && WaitersReachable(reqs, s)
    && FuturesGenuine(reqs, s)
    && QueuesGenuine(reqs, s)
    && IdentitiesTrue(s)
    && AnswersGenuine(reqs, s)
    && RetryAccounted(reqs, s)
  }

  lemma InitInv(reqs: seq<Request>, callback: bool)
    ensures Inv(reqs, Init(reqs, callback))
  {
  }

  // One pair of lemmas per part of the invariant: steps of a caller, then steps of the world.

  lemma PendingOwnedAct(reqs: seq<Request>, s: State, c: nat, act: Act)
    requires Shape(reqs, s) && PendingOwned(reqs, s) && c < |reqs| && ActEnabled(s, c, act)
    ensures PendingOwned(reqs, ApplyAct(reqs[c], s, c, act))
  {
  }

  lemma PendingOwnedEvent(reqs: seq<Request>, s: State, e: Event)
    requires Shape(reqs, s) && PendingOwned(reqs, s) && EventEnabled(reqs, s, e)
    ensures PendingOwned(reqs, ApplyEvent(reqs, s, e))
  {
    var s' := ApplyEvent(reqs, s, e);
    forall r | r in s'.broker.pending
      ensures EntryOk(reqs, s', r)
    {
      assert EntryOk(reqs, s, r);
      if e.Deliver? {
        var m := s.fromSub[e.x][0];
        if m.Response? && Truthy(m.id) && m.id.value in s.broker.pending {
          assert EntryOk(reqs, s, m.id.value);
        }
      }
    }
  }

  lemma WaitersReachableAct(reqs: seq<Request>, s: State, c: nat, act: Act)
    requires DistinctIds(reqs) && Shape(reqs, s) && WaitersReachable(reqs, s) && IdentitiesTrue(s)
    requires c < |reqs| && ActEnabled(s, c, act)
    ensures WaitersReachable(reqs, ApplyAct(reqs[c], s, c, act))
  {
    var s' := ApplyAct(reqs[c], s, c, act);
    forall d | 0 <= d < |reqs|
      ensures WaiterOk(reqs, s', d)
    {
      assert WaiterOk(reqs, s, d);
    }
  }

  lemma WaitersReachableEvent(reqs: seq<Request>, s: State, e: Event)
    requires Shape(reqs, s) && PendingOwned(reqs, s) && WaitersReachable(reqs, s) && EventEnabled(reqs, s, e)
    ensures WaitersReachable(reqs, ApplyEvent(reqs, s, e))
  {
    var s' := ApplyEvent(reqs, s, e);
    forall d | 0 <= d < |reqs|
      ensures WaiterOk(reqs, s', d)
    {
      assert WaiterOk(reqs, s, d);
    }
  }

  /** A reply with caller c's id was computed for caller c. */
  lemma TraceableIsGenuine(reqs: seq<Request>, s: State, x: string, m: Message, c: nat)
    requires DistinctIds(reqs) && QueuesGenuine(reqs, s) && Traceable(reqs, s, x, m)
    requires c < |reqs| && reqs[c].id != "" && m.Response? && m.id == Some(reqs[c].id)
    ensures Genuine(reqs, s, c, m)
  {
  }

  lemma FuturesGenuineAct(reqs: seq<Request>, s: State, c: nat, act: Act)
    requires Shape(reqs, s) && FuturesGenuine(reqs, s) && c < |reqs| && ActEnabled(s, c, act)
    ensures FuturesGenuine(reqs, ApplyAct(reqs[c], s, c, act))
  {
  }

  lemma FuturesGenuineEvent(reqs: seq<Request>, s: State, e: Event)
    requires DistinctIds(reqs) && Shape(reqs, s) && PendingOwned(reqs, s) && FuturesGenuine(reqs, s)
    requires QueuesGenuine(reqs, s) && EventEnabled(reqs, s, e)
    ensures FuturesGenuine(reqs, ApplyEvent(reqs, s, e))
  {
    var s' := ApplyEvent(reqs, s, e);
    forall t | t in s'.broker.futures
      ensures FutureOk(reqs, s', t)
    {
      assert FutureOk(reqs, s, t);
      if s'.broker.futures[t] != s.broker.futures[t] {
        var m := s.fromSub[e.x][0];
        assert EntryOk(reqs, s, m.id.value);
        TraceableIsGenuine(reqs, s, e.x, m, t.caller);
      }
    }
  }

  lemma QueuesGenuineAct(reqs: seq<Request>, s: State, c: nat, act: Act)
    requires Shape(reqs, s) && QueuesGenuine(reqs, s) && WaitersReachable(reqs, s)
    requires c < |reqs| && ActEnabled(s, c, act)
    ensures QueuesGenuine(reqs, ApplyAct(reqs[c], s, c, act))
  {
    assert WaiterOk(reqs, s, c);
    var s' := ApplyAct(reqs[c], s, c, act);
    forall x, i | x in s'.fromSub && 0 <= i < |s'.fromSub[x]|
      ensures Traceable(reqs, s', x, s'.fromSub[x][i])
    {
      assert Traceable(reqs, s, x, s.fromSub[x][i]);
    }
  }

  lemma QueuesGenuineEvent(reqs: seq<Request>, s: State, e: Event)
    requires Shape(reqs, s) && QueuesGenuine(reqs, s) && EventEnabled(reqs, s, e)
    ensures QueuesGenuine(reqs, ApplyEvent(reqs, s, e))
  {
    var s' := ApplyEvent(reqs, s, e);
    forall x, i | x in s'.fromSub && 0 <= i < |s'.fromSub[x]|
      ensures Traceable(reqs, s', x, s'.fromSub[x][i])
    {
      var m := s'.fromSub[x][i];
      if x in s.fromSub && m in s.fromSub[x] {
        assert Traceable(reqs, s, x, m);
      }
    }
  }

  lemma AnswersGenuineAct(reqs: seq<Request>, s: State, c: nat, act: Act)
    requires Shape(reqs, s) && AnswersGenuine(reqs, s) && FuturesGenuine(reqs, s) && IdentitiesTrue(s)
    requires c < |reqs| && ActEnabled(s, c, act)
    ensures AnswersGenuine(reqs, ApplyAct(reqs[c], s, c, act)) && IdentitiesTrue(ApplyAct(reqs[c], s, c, act))
  {
  }

  lemma AnswersGenuineEvent(reqs: seq<Request>, s: State, e: Event)
    requires Shape(reqs, s) && AnswersGenuine(reqs, s) && IdentitiesTrue(s) && QueuesGenuine(reqs, s)
    requires EventEnabled(reqs, s, e)
    ensures AnswersGenuine(reqs, ApplyEvent(reqs, s, e)) && IdentitiesTrue(ApplyEvent(reqs, s, e))
  {
  }

  lemma RetryAccountedAct(reqs: seq<Request>, s: State, c: nat, act: Act)
    requires Shape(reqs, s) && RetryAccounted(reqs, s) && FuturesGenuine(reqs, s) && c < |reqs| && ActEnabled(s, c, act)
    ensures RetryAccounted(reqs, ApplyAct(reqs[c], s, c, act))
  {
  }

  lemma RetryAccountedEvent(reqs: seq<Request>, s: State, e: Event)
    requires Shape(reqs, s) && RetryAccounted(reqs, s) && EventEnabled(reqs, s, e)
    ensures RetryAccounted(reqs, ApplyEvent(reqs, s, e))
  {
  }

  lemma InvAct(reqs: seq<Request>, s: State, c: nat, act: Act)
    requires DistinctIds(reqs) && Inv(reqs, s) && c < |reqs| && ActEnabled(s, c, act)
    ensures Inv(reqs, ApplyAct(reqs[c], s, c, act))
  {
    PendingOwnedAct(reqs, s, c, act);
    WaitersReachableAct(reqs, s, c, act);
    FuturesGenuineAct(reqs, s, c, act);
    QueuesGenuineAct(reqs, s, c, act);
    AnswersGenuineAct(reqs, s, c, act);
    RetryAccountedAct(reqs, s, c, act);
  }

  lemma InvEvent(reqs: seq<Request>, s: State, e: Event)
    requires DistinctIds(reqs) && Inv(reqs, s) && EventEnabled(reqs, s, e)
    ensures Inv(reqs, ApplyEvent(reqs, s, e))
  {
    PendingOwnedEvent(reqs, s, e);
    WaitersReachableEvent(reqs, s, e);
    FuturesGenuineEvent(reqs, s, e);
    QueuesGenuineEvent(reqs, s, e);
    AnswersGenuineEvent(reqs, s, e);
    RetryAccountedEvent(reqs, s, e);
  }

  lemma InvStep(reqs: seq<Request>, s: State, a: Label)
    requires DistinctIds(reqs) && Inv(reqs, s) && Enabled(reqs, s, a)
    ensures Inv(reqs, Apply(reqs, s, a))
  {
    match a
    case Own(c, act) => InvAct(reqs, s, c, act);
    case World(e) => InvEvent(reqs, s, e);
  }

  lemma {:induction false} RunInv(reqs: seq<Request>, states: seq<State>, labels: seq<Label>, i: nat)
    requires DistinctIds(reqs) && Run(reqs, states, labels) && i < |states|
    ensures Inv(reqs, states[i])
  {
    if i == 0 {
      var callback :| states[0] == Init(reqs, callback);
      InitInv(reqs, callback);
    } else {
      RunInv(reqs, states, labels, i - 1);
      assert Step(reqs, states[i - 1], labels[i - 1], states[i]);
      InvStep(reqs, states[i - 1], labels[i - 1]);
    }
  }
}
