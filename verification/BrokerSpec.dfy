/**
 The state of the ZeroMQ broker as a value, and what one stretch of code between two
 awaits does to it. `ZMQBroker` (Broker.dfy) is the imperative object proved against these
 functions; `Gateway` (Gateway.dfy) puts them into the whole request/response system.

 A future is named by a ticket: the caller that created it and the attempt it made.
 */
module BrokerSpec {
  import opened Prelude

  datatype Message =
    | SubprocessReady(exchangeId: Option<string>)
    | Response(id: Option<string>, result: string, error: Option<string>, errorCode: string)
    | WatchUpdate(subscriptionId: Option<string>, data: string)
    | Heartbeat
    | UnknownType
    | Unparsable

  const EXCHANGE_NOT_FOUND := "EXCHANGE_NOT_FOUND"

  /** An answer that carries the code `_send_via_broker` retries on. */
  predicate SaysNotFound(m: Message) {
    m.Response? && Truthy(m.error) && m.errorCode == EXCHANGE_NOT_FOUND
  }

  datatype Ticket = Ticket(caller: nat, attempt: nat)

  datatype Future = Pending | Resolved(reply: Message) | Cancelled

  datatype BrokerState = BrokerState(
    identities: map<string, string>,
    exchanges: map<string, string>,
    pending: map<string, Ticket>,
    futures: map<Ticket, Future>,
    callbackSet: bool,
    forwarded: seq<(string, string)>)

  /** Every pending entry refers to an existing future. */
  predicate Wf(b: BrokerState) {
    forall r :: r in b.pending ==> b.pending[r] in b.futures
  }

  const EMPTY_BROKER := BrokerState(map[], map[], map[], map[], false, [])

  function Settle(futures: map<Ticket, Future>, t: Ticket, m: Message): map<Ticket, Future>
    requires t in futures
  {
    if futures[t].Pending? then futures[t := Resolved(m)] else futures
  }

  /** One message taken from the router socket. */
  function OnMessage(b: BrokerState, identity: string, m: Message): (b': BrokerState)
    requires Wf(b)
    ensures Wf(b')
  {
    match m
    case SubprocessReady(x) =>
      if Truthy(x) then
        b.(identities := b.identities[x.value := identity], exchanges := b.exchanges[identity := x.value])
      else b
    case Response(id, _, _, _) =>
      if Truthy(id) && id.value in b.pending then
        b.(pending := b.pending - {id.value}, futures := Settle(b.futures, b.pending[id.value], m))
      else b
    case WatchUpdate(sub, data) =>
      if Truthy(sub) && b.callbackSet then b.(forwarded := b.forwarded + [(sub.value, data)]) else b
    case _ => b
  }

  function OnMessages(b: BrokerState, inbox: seq<(string, Message)>): (b': BrokerState)
    requires Wf(b)
    ensures Wf(b')
    decreases |inbox|
  {
    if inbox == [] then b
    else
      var rest := inbox[..|inbox| - 1];
      var last := inbox[|inbox| - 1];
      OnMessage(OnMessages(b, rest), last.0, last.1)
  }

  /** `send_request` up to its first await: create the future and register it. */
  function Open(b: BrokerState, t: Ticket, id: string): (b': BrokerState)
    requires Wf(b)
    ensures Wf(b')
  {
    b.(futures := b.futures[t := Pending],
       pending := if id != "" then b.pending[id := t] else b.pending)
  }

  /** Both exception handlers of `send_request`: drop the pending entry if it is still there. */
  function Forget(b: BrokerState, id: string): (b': BrokerState)
    requires Wf(b)
    ensures Wf(b')
  {
    b.(pending := b.pending - {id})
  }

  /** The timer of `wait_for` cancels the future it is waiting on. */
  function Cancel(b: BrokerState, t: Ticket): (b': BrokerState)
    requires Wf(b)
    ensures Wf(b')
  {
    if t in b.futures && b.futures[t].Pending? then b.(futures := b.futures[t := Cancelled]) else b
  }

  function Register(b: BrokerState, x: string, identity: string): (b': BrokerState)
    requires Wf(b)
    ensures Wf(b')
  {
    b.(identities := b.identities[x := identity], exchanges := b.exchanges[identity := x])
  }

  function Unregister(b: BrokerState, x: string): (b': BrokerState)
    requires Wf(b)
    ensures Wf(b')
  {
    if x in b.identities then
      b.(identities := b.identities - {x}, exchanges := b.exchanges - {b.identities[x]})
    else b
  }

  /** A future that is done never changes again, and one that exists never disappears. */
  predicate FuturesAdvance(f: map<Ticket, Future>, g: map<Ticket, Future>) {
    forall t :: t in f ==> t in g && (!f[t].Pending? ==> g[t] == f[t])
  }

  /**
   A delivered message touches one future at most: the one registered under its id. An
   unknown, late or duplicate response changes nothing at all.
   */
  lemma DeliveryTouchesOneWaiter(b: BrokerState, identity: string, m: Message)
    requires Wf(b)
    ensures var b' := OnMessage(b, identity, m);
      && FuturesAdvance(b.futures, b'.futures)
      && b'.futures.Keys == b.futures.Keys
      && (forall t :: t in b.futures && b'.futures[t] != b.futures[t] ==>
            && m.Response? && Truthy(m.id)
            && m.id.value in b.pending && b.pending[m.id.value] == t
            && b.futures[t].Pending? && b'.futures[t] == Resolved(m))
      && (forall r :: r in b.pending && !(m.Response? && m.id == Some(r)) ==>
            r in b'.pending && b'.pending[r] == b.pending[r])
      && b'.pending.Keys <= b.pending.Keys
    ensures m.Response? && !(Truthy(m.id) && m.id.value in b.pending) ==> OnMessage(b, identity, m) == b
    ensures m.Response? ==> OnMessage(OnMessage(b, identity, m), identity, m) == OnMessage(b, identity, m)
  {
  }

  // ---------------------------------------------------------------- forwarding

  /** The watch updates in an inbox that bear a subscription id, in order. */
  function UpdatesIn(inbox: seq<(string, Message)>): seq<(string, string)> {
    if inbox == [] then []
    else
      var m := inbox[|inbox| - 1].1;
      UpdatesIn(inbox[..|inbox| - 1]) +
        (if m.WatchUpdate? && Truthy(m.subscriptionId) then [(m.subscriptionId.value, m.data)] else [])
  }

  lemma ForwardStep(b: BrokerState, identity: string, m: Message)
    requires Wf(b)
    ensures OnMessage(b, identity, m).callbackSet == b.callbackSet
    ensures OnMessage(b, identity, m).forwarded ==
      b.forwarded + if b.callbackSet then UpdatesIn([(identity, m)]) else []
  {
    assert [(identity, m)][..0] == [];
    assert b.forwarded + [] == b.forwarded;
  }

  /**
   What reaches the callback: over any inbox exactly the watch updates that bear an id, in the
   order they came, if a callback is set, and otherwise none.
   */
  lemma {:induction false} ForwardedInOrder(b: BrokerState, inbox: seq<(string, Message)>)
    requires Wf(b)
    ensures OnMessages(b, inbox).callbackSet == b.callbackSet
    ensures OnMessages(b, inbox).forwarded == b.forwarded + if b.callbackSet then UpdatesIn(inbox) else []
  {
    if inbox == [] {
      assert b.forwarded + [] == b.forwarded;
    } else {
      var earlier, last := inbox[..|inbox| - 1], inbox[|inbox| - 1];
      ForwardedInOrder(b, earlier);
      ForwardStep(OnMessages(b, earlier), last.0, last.1);
      assert [last][..0] == [];
      assert UpdatesIn(inbox) == UpdatesIn(earlier) + UpdatesIn([last]);
      Assoc(b.forwarded, UpdatesIn(earlier), UpdatesIn([last]));
      assert b.forwarded + [] + [] == b.forwarded + [];
    }
  }

  // ---------------------------------------------------------------- a waiter and its inbox

  /** The message is a response to request r. */
  predicate BearsId(m: Message, r: string) {
    m.Response? && m.id == Some(r)
  }

  /** Ticket t waits, and is filed under r and nothing else. */
  predicate WaitsFor(b: BrokerState, r: string, t: Ticket) {
    && t in b.futures && b.futures[t].Pending?
    && r in b.pending && b.pending[r] == t
    && forall q :: q in b.pending && q != r ==> b.pending[q] != t
  }

  /** Ticket t has this result, and nothing is filed for it any more. */
  predicate SettledWith(b: BrokerState, r: string, t: Ticket, m: Message) {
    && t in b.futures && b.futures[t] == Resolved(m)
    && r !in b.pending
    && forall q :: q in b.pending ==> b.pending[q] != t
  }

  /** Message k of the inbox is the first that answers r. */
  predicate FirstAnswer(inbox: seq<(string, Message)>, k: nat, r: string) {
    k < |inbox| && BearsId(inbox[k].1, r) && forall j :: 0 <= j < k ==> !BearsId(inbox[j].1, r)
  }

  lemma WaiterStep(b: BrokerState, identity: string, m: Message, r: string, t: Ticket)
    requires Wf(b) && r != "" && WaitsFor(b, r, t)
    ensures !BearsId(m, r) ==> WaitsFor(OnMessage(b, identity, m), r, t)
    ensures BearsId(m, r) ==> SettledWith(OnMessage(b, identity, m), r, t, m)
  {
    DeliveryTouchesOneWaiter(b, identity, m);
  }

  lemma SettledStep(b: BrokerState, identity: string, m: Message, r: string, t: Ticket, result: Message)
    requires Wf(b) && SettledWith(b, r, t, result)
    ensures SettledWith(OnMessage(b, identity, m), r, t, result)
  {
    DeliveryTouchesOneWaiter(b, identity, m);
  }

  lemma {:induction false} KeepsWaiting(b: BrokerState, inbox: seq<(string, Message)>, r: string, t: Ticket)
    requires Wf(b) && r != "" && WaitsFor(b, r, t)
    requires forall k :: 0 <= k < |inbox| ==> !BearsId(inbox[k].1, r)
    ensures WaitsFor(OnMessages(b, inbox), r, t)
  {
    if inbox != [] {
      var earlier, last := inbox[..|inbox| - 1], inbox[|inbox| - 1];
      KeepsWaiting(b, earlier, r, t);
      WaiterStep(OnMessages(b, earlier), last.0, last.1, r, t);
    }
  }

  lemma {:induction false} SettledByFirst(b: BrokerState, inbox: seq<(string, Message)>, r: string, t: Ticket, k: nat)
    requires Wf(b) && r != "" && WaitsFor(b, r, t) && FirstAnswer(inbox, k, r)
    ensures SettledWith(OnMessages(b, inbox), r, t, inbox[k].1)
  {
    var earlier, last := inbox[..|inbox| - 1], inbox[|inbox| - 1];
    if k < |earlier| {
      SettledByFirst(b, earlier, r, t, k);
      SettledStep(OnMessages(b, earlier), last.0, last.1, r, t, inbox[k].1);
    } else {
      KeepsWaiting(b, earlier, r, t);
      WaiterStep(OnMessages(b, earlier), last.0, last.1, r, t);
    }
  }

  lemma {:induction false} FirstExists(inbox: seq<(string, Message)>, i: nat, r: string) returns (k: nat)
    requires i < |inbox| && BearsId(inbox[i].1, r)
    ensures FirstAnswer(inbox, k, r)
  {
    if j :| 0 <= j < i && BearsId(inbox[j].1, r) {
      k := FirstExists(inbox, j, r);
    } else {
      k := i;
    }
  }

  /**
   A waiter over any inbox: it goes on waiting exactly as long as no response bears its id, and
   is settled with the first that does; whatever comes before or after, duplicates of its own
   answer among them, makes no difference.
   */
  lemma FirstAnswerSettles(b: BrokerState, inbox: seq<(string, Message)>, r: string, t: Ticket)
    requires Wf(b) && r != "" && WaitsFor(b, r, t)
    ensures WaitsFor(OnMessages(b, inbox), r, t) <==> forall k :: 0 <= k < |inbox| ==> !BearsId(inbox[k].1, r)
    ensures forall k: nat :: FirstAnswer(inbox, k, r) ==> SettledWith(OnMessages(b, inbox), r, t, inbox[k].1)
  {
    forall k: nat | FirstAnswer(inbox, k, r)
      ensures SettledWith(OnMessages(b, inbox), r, t, inbox[k].1)
    {
      SettledByFirst(b, inbox, r, t, k);
    }
    if i :| 0 <= i < |inbox| && BearsId(inbox[i].1, r) {
      var k := FirstExists(inbox, i, r);
    } else {
      KeepsWaiting(b, inbox, r, t);
    }
  }
}
