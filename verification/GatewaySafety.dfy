/** What holds in every run of the request/response system. */
module GatewaySafety {
  import opened Prelude
  import opened BrokerSpec
  import opened Gateway

  // ---------------------------------------------------------------- correlation

  /** The history of served requests records steps that happened: that request, at that subprocess, gave that reply. */
  lemma {:induction false} ServedHappened(reqs: seq<Request>, states: seq<State>, labels: seq<Label>, i: nat, v: Served)
    returns (j: nat)
    requires Run(reqs, states, labels) && i < |states| && v in states[i].served
    ensures j < i && labels[j] == World(Serve(v.exchange, v.reply))
    ensures Queue(states[j].toSub, v.exchange) != [] && states[j].toSub[v.exchange][0] == v.request
  {
    assert i > 0;
    assert Step(reqs, states[i - 1], labels[i - 1], states[i]);
    if v in states[i - 1].served {
      j := ServedHappened(reqs, states, labels, i - 1, v);
    } else {
      j := i - 1;
    }
  }

  /** Step j is the subprocess of caller c's exchange computing m from c's own request. */
  predicate ServesAt(reqs: seq<Request>, states: seq<State>, labels: seq<Label>, j: nat, c: nat, m: Message) {
    && c < |reqs| && Answerable(reqs[c])
    && j < |labels| && j < |states| && labels[j] == World(Serve(reqs[c].exchange, m))
    && Queue(states[j].toSub, reqs[c].exchange) != []
    && states[j].toSub[reqs[c].exchange][0] == reqs[c]
  }

  /**
   Correlation: whatever the interleaving, a caller that returns an answer returns one that
   the subprocess of its own exchange computed, earlier in the run, from the caller's own
   request taken off that subprocess's queue.
   */
  lemma AnswerComputedForOwnRequest(reqs: seq<Request>, states: seq<State>, labels: seq<Label>, i: nat, c: nat)
    returns (j: nat)
    requires DistinctIds(reqs) && Run(reqs, states, labels) && i < |states| && c < |reqs|
    requires |states[i].callers| == |reqs|
    requires states[i].callers[c].phase.Done? && states[i].callers[c].phase.outcome.Answer?
    ensures var m := states[i].callers[c].phase.outcome.reply;
      && m.Response? && m.id == Some(reqs[c].id)
      && j < i && ServesAt(reqs, states, labels, j, c, m)
  {
    RunInv(reqs, states, labels, i);
    var m := states[i].callers[c].phase.outcome.reply;
    assert Genuine(reqs, states[i], c, m);
    j := ServedHappened(reqs, states, labels, i, Served(reqs[c].exchange, reqs[c], m));
  }

  // ---------------------------------------------------------------- each waiter once

  lemma FuturesAdvanceAct(reqs: seq<Request>, s: State, c: nat, act: Act)
    requires Shape(reqs, s) && FuturesGenuine(reqs, s) && c < |reqs| && ActEnabled(s, c, act)
    ensures FuturesAdvance(s.broker.futures, BrokerAfter(reqs[c], s, c, act).futures)
  {
  }

  lemma FuturesAdvanceStep(reqs: seq<Request>, s: State, a: Label)
    requires Shape(reqs, s) && FuturesGenuine(reqs, s) && Enabled(reqs, s, a)
    ensures FuturesAdvance(s.broker.futures, Apply(reqs, s, a).broker.futures)
  {
    match a
    case Own(c, act) => FuturesAdvanceAct(reqs, s, c, act);
    case World(_) =>
  }

  lemma RunAdvances(reqs: seq<Request>, states: seq<State>, labels: seq<Label>, i: nat)
    requires DistinctIds(reqs) && Run(reqs, states, labels) && i < |labels|
    ensures FuturesAdvance(states[i].broker.futures, states[i + 1].broker.futures)
  {
    RunInv(reqs, states, labels, i);
    assert Step(reqs, states[i], labels[i], states[i + 1]);
    FuturesAdvanceStep(reqs, states[i], labels[i]);
  }

  lemma {:induction false} AdvancesChain(states: seq<State>, i: nat, j: nat)
    requires i <= j < |states|
    requires forall k {:trigger states[k].broker} :: i <= k < j ==>
      FuturesAdvance(states[k].broker.futures, states[k + 1].broker.futures)
    ensures FuturesAdvance(states[i].broker.futures, states[j].broker.futures)
  {
    if i < j {
      AdvancesChain(states, i, j - 1);
      assert FuturesAdvance(states[j - 1].broker.futures, states[j - 1 + 1].broker.futures);
    }
  }

  /** Once settled, a future keeps its value for the rest of the run. */
  lemma FuturesAdvanceInRun(reqs: seq<Request>, states: seq<State>, labels: seq<Label>, i: nat, j: nat)
    requires DistinctIds(reqs) && Run(reqs, states, labels) && i <= j < |states|
    ensures FuturesAdvance(states[i].broker.futures, states[j].broker.futures)
  {
    forall k | i <= k < j
      ensures FuturesAdvance(states[k].broker.futures, states[k + 1].broker.futures)
    {
      RunAdvances(reqs, states, labels, k);
    }
    AdvancesChain(states, i, j);
  }

  /** Step i of the run settles the future of ticket t. */
  predicate SettlesAt(states: seq<State>, i: nat, t: Ticket) {
    && i + 1 < |states|
    && t in states[i].broker.futures && states[i].broker.futures[t].Pending?
    && t in states[i + 1].broker.futures && !states[i + 1].broker.futures[t].Pending?
  }

  /** Each waiter is settled at most once, by a result or by its timer, never by both. */
  lemma SettledAtMostOnce(reqs: seq<Request>, states: seq<State>, labels: seq<Label>, i: nat, j: nat, t: Ticket)
    requires DistinctIds(reqs) && Run(reqs, states, labels)
    requires SettlesAt(states, i, t) && SettlesAt(states, j, t)
    ensures i == j
  {
    if i < j {
      FuturesAdvanceInRun(reqs, states, labels, i + 1, j);
    } else if j < i {
      FuturesAdvanceInRun(reqs, states, labels, j + 1, i);
    }
  }

  /** The message is a response that the caller is still waiting for. */
  predicate AwaitedBy(reqs: seq<Request>, s: State, m: Message, c: nat)
    requires Shape(reqs, s) && c < |reqs|
  {
    && m.Response? && reqs[c].id != "" && m.id == Some(reqs[c].id)
    && InFlight(s.callers[c]) && FutureOf(s, c) == Some(Pending)
  }

  /**
   Delivering a message settles exactly the future of a caller awaiting it. Anyone else, and
   so everyone when the message is late, duplicate or unknown, keeps the same phase, future
   and pending entry.
   */
  lemma DeliveryTouchesOnlyTheAwaiting(reqs: seq<Request>, states: seq<State>, labels: seq<Label>, i: nat, c: nat)
    requires DistinctIds(reqs) && Run(reqs, states, labels) && i < |labels| && c < |reqs|
    requires Shape(reqs, states[i]) && labels[i].World? && labels[i].event.Deliver?
    requires Queue(states[i].fromSub, labels[i].event.x) != []
    ensures states[i + 1].callers == states[i].callers
    ensures var m := states[i].fromSub[labels[i].event.x][0];
      if AwaitedBy(reqs, states[i], m, c) then
        && FutureOf(states[i + 1], c) == Some(Resolved(m))
        && reqs[c].id !in states[i + 1].broker.pending
      else
        && FutureOf(states[i + 1], c) == FutureOf(states[i], c)
        && (FutureOf(states[i], c) == Some(Pending) && InFlight(states[i].callers[c]) && reqs[c].id != "" ==>
              reqs[c].id in states[i + 1].broker.pending)
  {
    var s := states[i];
    RunInv(reqs, states, labels, i);
    assert Step(reqs, s, labels[i], states[i + 1]);
    assert WaiterOk(reqs, s, c);
    var m := s.fromSub[labels[i].event.x][0];
    if m.Response? && Truthy(m.id) && m.id.value in s.broker.pending {
      assert EntryOk(reqs, s, m.id.value);
    }
  }

  // ---------------------------------------------------------------- the pending map

  /**
   Conservation of the pending map: its keys are ids of callers inside `send_request`, a
   caller that waits on an unsettled future is in it, a caller that has left is not, and with
   nobody in flight it is empty.
   */
  lemma PendingConservation(reqs: seq<Request>, states: seq<State>, labels: seq<Label>, i: nat)
    requires DistinctIds(reqs) && Run(reqs, states, labels) && i < |states|
    ensures Shape(reqs, states[i])
    ensures forall r :: r in states[i].broker.pending ==>
      exists c :: 0 <= c < |reqs| && reqs[c].id == r && InFlight(states[i].callers[c])
    ensures forall c :: 0 <= c < |reqs| && InFlight(states[i].callers[c]) && reqs[c].id != "" ==>
      FutureOf(states[i], c) == Some(Pending) ==> reqs[c].id in states[i].broker.pending
    ensures forall c :: 0 <= c < |reqs| && !InFlight(states[i].callers[c]) ==> reqs[c].id !in states[i].broker.pending
    ensures (forall c :: 0 <= c < |reqs| ==> !InFlight(states[i].callers[c])) ==> states[i].broker.pending == map[]
  {
    var s := states[i];
    RunInv(reqs, states, labels, i);
    forall r | r in s.broker.pending
      ensures exists c :: 0 <= c < |reqs| && reqs[c].id == r && InFlight(s.callers[c])
    {
      assert EntryOk(reqs, s, r);
    }
    forall c | 0 <= c < |reqs| && InFlight(s.callers[c]) && reqs[c].id != "" && FutureOf(s, c) == Some(Pending)
      ensures reqs[c].id in s.broker.pending
    {
      assert WaiterOk(reqs, s, c);
    }
  }

  // ---------------------------------------------------------------- the retry

  /** No subprocess answers with the code that the broker itself uses for a missing registration. */
  predicate CodesDiffer(labels: seq<Label>) {
    forall i :: 0 <= i < |labels| && labels[i].World? && labels[i].event.Serve? ==>
      !SaysNotFound(labels[i].event.reply)
  }

  /** Before step i, caller c's own request was answered with the code that is retried. */
  ghost predicate ToldAt(reqs: seq<Request>, states: seq<State>, labels: seq<Label>, i: nat, c: nat) {
    exists j, m :: 0 <= j < i && ServesAt(reqs, states, labels, j, c, m) && SaysNotFound(m)
  }

  /**
   The retry of `_send_via_broker`: at most one restart, at most two attempts, and a second
   send only after the subprocess has answered this very request with the retried code; so
   none when subprocess codes differ from it. `EndToEnd` shows when a subprocess does that.
   */
  lemma RetrySendsAtMostOnce(reqs: seq<Request>, states: seq<State>, labels: seq<Label>, i: nat, c: nat)
    requires DistinctIds(reqs) && Run(reqs, states, labels) && i < |states| && c < |reqs|
    ensures Shape(reqs, states[i])
    ensures var k := states[i].callers[c]; k.restarts <= 1 && k.attempt <= 1 && k.puts <= 2
    ensures states[i].callers[c].puts == 2 ==> ToldAt(reqs, states, labels, i, c)
    ensures CodesDiffer(labels) ==> states[i].callers[c].puts <= 1
  {
    RunInv(reqs, states, labels, i);
    assert Accounted(states[i].callers[c], ToldNotFound(reqs, states[i], c));
    if states[i].callers[c].puts == 2 {
      var v :| v in states[i].served && v.request == reqs[c] && SaysNotFound(v.reply);
      var j := ServedHappened(reqs, states, labels, i, v);
      assert ServesAt(reqs, states, labels, j, c, v.reply);
    }
  }

  // ---------------------------------------------------------------- progress

  /** The next step a caller can always take by itself; a pending wait ends with its timer. */
  function NextAct(s: State, c: nat): Act
    requires c < |s.callers| && !s.callers[c].phase.Done?
  {
    match s.callers[c].phase
    case Calling => Call
    case Sending => Put
    case Restarting => RestartDone(true)
    case Waiting =>
      if FutureOf(s, c) == Some(Pending) then TimerFires
      else if FutureOf(s, c) == Some(Cancelled) then TimesOut
      else Take
  }

  /** How many steps a caller can still take. */
  function Rank(s: State, c: nat): nat
    requires c < |s.callers|
  {
    var k := s.callers[c];
    var later := if k.attempt == 0 then 5 else 0;
    match k.phase
    case Calling => 4 + later
    case Sending => 3 + later
    case Waiting => (if FutureOf(s, c) == Some(Pending) then 2 else 1) + later
    case Restarting => 5
    case Done(_) => 0
  }

  lemma RankAct(reqs: seq<Request>, s: State, c: nat, act: Act)
    requires Shape(reqs, s) && RetryAccounted(reqs, s) && WaitersReachable(reqs, s)
    requires c < |reqs| && ActEnabled(s, c, act)
    ensures Rank(ApplyAct(reqs[c], s, c, act), c) < Rank(s, c)
  {
  }

  lemma {:induction false} RankStep(reqs: seq<Request>, s: State, a: Label, c: nat)
    requires Shape(reqs, s) && RetryAccounted(reqs, s) && WaitersReachable(reqs, s) && FuturesGenuine(reqs, s)
    requires Enabled(reqs, s, a) && c < |reqs|
    ensures Shape(reqs, Apply(reqs, s, a))
    ensures Rank(Apply(reqs, s, a), c) + (if OwnedBy(a, c) then 1 else 0) <= Rank(s, c)
  {
    if OwnedBy(a, c) {
      RankAct(reqs, s, c, a.act);
    } else {
      assert WaiterOk(reqs, s, c);
      FuturesAdvanceStep(reqs, s, a);
    }
  }

  predicate OwnedBy(a: Label, c: nat) {
    a.Own? && a.c == c
  }

  function StepsOf(labels: seq<Label>, c: nat): nat {
    if labels == [] then 0
    else StepsOf(labels[..|labels| - 1], c) + (if OwnedBy(labels[|labels| - 1], c) then 1 else 0)
  }

  lemma {:induction false} RunRank(reqs: seq<Request>, states: seq<State>, labels: seq<Label>, c: nat, i: nat)
    requires DistinctIds(reqs) && Run(reqs, states, labels) && c < |reqs| && i < |labels|
    requires Shape(reqs, states[i])
    ensures Shape(reqs, states[i + 1])
    ensures Rank(states[i + 1], c) + (if OwnedBy(labels[i], c) then 1 else 0) <= Rank(states[i], c)
  {
    RunInv(reqs, states, labels, i);
    assert Step(reqs, states[i], labels[i], states[i + 1]);
    RankStep(reqs, states[i], labels[i], c);
  }

  /** No caller takes more than nine steps in a run. */
  lemma {:induction false} StepsBounded(reqs: seq<Request>, states: seq<State>, labels: seq<Label>, c: nat, i: nat)
    requires DistinctIds(reqs) && Run(reqs, states, labels) && c < |reqs| && i < |states|
    ensures Shape(reqs, states[i])
    ensures StepsOf(labels[..i], c) + Rank(states[i], c) <= 9
  {
    if i > 0 {
      StepsBounded(reqs, states, labels, c, i - 1);
      RunRank(reqs, states, labels, c, i - 1);
      assert labels[..i][..i - 1] == labels[..i - 1];
    }
  }

  /**
   No caller is ever stuck, whatever the others did: until it is done it has an enabled step
   of its own. With StepsBounded, every REST call ends under any schedule that keeps giving
   it a turn.
   */
  lemma NeverStuck(reqs: seq<Request>, states: seq<State>, labels: seq<Label>, c: nat, i: nat)
    requires DistinctIds(reqs) && Run(reqs, states, labels) && c < |reqs| && i < |states|
    ensures Shape(reqs, states[i])
    ensures !states[i].callers[c].phase.Done? ==> ActEnabled(states[i], c, NextAct(states[i], c))
  {
    RunInv(reqs, states, labels, i);
    assert WaiterOk(reqs, states[i], c);
  }

  // ---------------------------------------------------------------- a run with two sends

  function Last(states: seq<State>): State
    requires states != []
  {
    states[|states| - 1]
  }

  /** A run goes on with any enabled step. */
  lemma GoesOn(reqs: seq<Request>, states: seq<State>, labels: seq<Label>, a: Label)
    requires Run(reqs, states, labels) && Shape(reqs, Last(states)) && Enabled(reqs, Last(states), a)
    ensures Run(reqs, states + [Apply(reqs, Last(states), a)], labels + [a])
  {
    var states', labels' := states + [Apply(reqs, Last(states), a)], labels + [a];
    forall i | 0 <= i < |labels'|
      ensures Step(reqs, states'[i], labels'[i], states'[i + 1])
    {
      assert i < |labels| ==> Step(reqs, states[i], labels[i], states[i + 1]);
    }
  }

  lemma Extend(reqs: seq<Request>, states: seq<State>, labels: seq<Label>, a: Label)
    returns (states': seq<State>, labels': seq<Label>)
    requires Run(reqs, states, labels) && Shape(reqs, Last(states)) && Enabled(reqs, Last(states), a)
    ensures Run(reqs, states', labels') && Last(states') == Apply(reqs, Last(states), a)
  {
    GoesOn(reqs, states, labels, a);
    states', labels' := states + [Apply(reqs, Last(states), a)], labels + [a];
  }

  const SAMPLE: seq<Request> := [Request("r", "x", "fetch", "")]
  const GONE := Response(Some("r"), "null", Some("gone"), EXCHANGE_NOT_FOUND)

  lemma RegisterAndSend() returns (states: seq<State>, labels: seq<Label>)
    ensures Run(SAMPLE, states, labels) && Shape(SAMPLE, Last(states))
    ensures Last(states).callers == [Caller(Waiting, 0, "x", 1, 0)]
    ensures "x" in Last(states).broker.identities && Last(states).broker.identities["x"] == "x"
    ensures Queue(Last(states).toSub, "x") == SAMPLE && Queue(Last(states).fromSub, "x") == []
    ensures Last(states).broker.pending == map["r" := Ticket(0, 0)]
    ensures Last(states).broker.futures == map[Ticket(0, 0) := Pending]
  {
    states, labels := [Init(SAMPLE, false)], [];
    states, labels := Extend(SAMPLE, states, labels, World(Emit("x", SubprocessReady(Some("x")))));
    states, labels := Extend(SAMPLE, states, labels, World(Deliver("x")));
    states, labels := Extend(SAMPLE, states, labels, Own(0, Call));
    states, labels := Extend(SAMPLE, states, labels, Own(0, Put));
  }

  lemma AnswerGone() returns (states: seq<State>, labels: seq<Label>)
    ensures Run(SAMPLE, states, labels) && Shape(SAMPLE, Last(states))
    ensures Last(states).callers == [Caller(Restarting, 0, "x", 1, 1)]
    ensures "x" in Last(states).broker.identities && Last(states).broker.identities["x"] == "x"
  {
    states, labels := RegisterAndSend();
    states, labels := Extend(SAMPLE, states, labels, World(Serve("x", GONE)));
    states, labels := Extend(SAMPLE, states, labels, World(Deliver("x")));
    assert FutureOf(Last(states), 0) == Some(Resolved(GONE));
    states, labels := Extend(SAMPLE, states, labels, Own(0, Take));
  }

  /**
   The second send does happen: a subprocess that answers with EXCHANGE_NOT_FOUND makes the
   caller put its request on the socket again.
   */
  lemma TwoSendsHappen() returns (states: seq<State>, labels: seq<Label>)
    ensures DistinctIds(SAMPLE) && Run(SAMPLE, states, labels)
    ensures |Last(states).callers| == 1 && Last(states).callers[0].puts == 2
  {
    states, labels := AnswerGone();
    states, labels := Extend(SAMPLE, states, labels, Own(0, RestartDone(true)));
    states, labels := Extend(SAMPLE, states, labels, Own(0, Call));
    states, labels := Extend(SAMPLE, states, labels, Own(0, Put));
  }

  // ---------------------------------------------------------------- a run with a shared id

  const TWINS: seq<Request> := [Request("r", "x", "fetch", "first"), Request("r", "x", "fetch", "second")]
  const FIRST := Response(Some("r"), "1", None, "")

  lemma TwinsOpened() returns (states: seq<State>, labels: seq<Label>)
    ensures Run(TWINS, states, labels) && Shape(TWINS, Last(states))
    ensures Last(states).callers == [Caller(Waiting, 0, "x", 1, 0), Caller(Sending, 0, "x", 0, 0)]
    ensures Queue(Last(states).toSub, "x") == [TWINS[0]] && Queue(Last(states).fromSub, "x") == []
    ensures Last(states).broker.pending == map["r" := Ticket(1, 0)]
    ensures Last(states).broker.futures == map[Ticket(0, 0) := Pending, Ticket(1, 0) := Pending]
    ensures Last(states).served == {}
  {
    states, labels := [Init(TWINS, false)], [];
    states, labels := Extend(TWINS, states, labels, World(Emit("x", SubprocessReady(Some("x")))));
    states, labels := Extend(TWINS, states, labels, World(Deliver("x")));
    states, labels := Extend(TWINS, states, labels, Own(0, Call));
    states, labels := Extend(TWINS, states, labels, Own(1, Call));
    states, labels := Extend(TWINS, states, labels, Own(0, Put));
  }

  /**
   Distinct ids are needed: when two callers share one, the second takes over the pending
   entry and returns the answer computed for the first.
   */
  lemma SharedIdMixesAnswers() returns (states: seq<State>, labels: seq<Label>)
    ensures Run(TWINS, states, labels) && TWINS[0] != TWINS[1]
    ensures |Last(states).callers| == 2 && Last(states).callers[1].phase == Done(Answer(FIRST))
    ensures Last(states).served == {Served("x", TWINS[0], FIRST)}
  {
    states, labels := TwinsOpened();
    states, labels := Extend(TWINS, states, labels, World(Serve("x", FIRST)));
    states, labels := Extend(TWINS, states, labels, World(Deliver("x")));
    assert FutureOf(Last(states), 1) == Some(Resolved(FIRST));
    states, labels := Extend(TWINS, states, labels, Own(1, Put));
    states, labels := Extend(TWINS, states, labels, Own(1, Take));
    assert TWINS[0].payload != TWINS[1].payload;
  }
}
