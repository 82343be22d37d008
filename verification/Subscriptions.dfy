/**
 The two subscription tables of the WebSocket endpoint: which socket an id belongs to, and
 which ids are listed under an exchange. They decide who receives a watch update.
 */
module Subscriptions {
  import opened Prelude

  type Socket = nat

  datatype Tables = Tables(active: map<string, Socket>, listed: map<string, seq<string>>)

  const EMPTY := Tables(map[], map[])

  /** Python's `list.remove`: the first occurrence goes. */
  function RemoveFirst(s: seq<string>, id: string): seq<string> {
    if s == [] then []
    else if s[0] == id then s[1..]
    else [s[0]] + RemoveFirst(s[1..], id)
  }

  /** The comprehension of `cleanup_websocket`: what is not in `gone`, in order. */
  function Without(s: seq<string>, gone: set<string>): seq<string> {
    if s == [] then []
    else (if s[0] in gone then [] else [s[0]]) + Without(s[1..], gone)
  }

  function IdsOf(t: Tables, ws: Socket): set<string> {
    set id | id in t.active && t.active[id] == ws
  }

  function Subscribed(t: Tables, ws: Socket, id: string, x: string): Tables {
    Tables(t.active[id := ws], t.listed[x := (if x in t.listed then t.listed[x] else []) + [id]])
  }

  /** Unsubscribing an active id; x is the first exchange whose list holds it, if one does. */
  function Unsubscribed(t: Tables, id: string, x: string): Tables {
    Tables(
      t.active - {id},
      if x in t.listed && id in t.listed[x] then t.listed[x := RemoveFirst(t.listed[x], id)] else t.listed)
  }

  function Cleaned(t: Tables, ws: Socket): Tables {
    var gone := IdsOf(t, ws);
    Tables(t.active - gone, map x | x in t.listed && Without(t.listed[x], gone) != [] :: Without(t.listed[x], gone))
  }

  /** The socket a watch update for id goes to. */
  function Receiver(t: Tables, id: string): Option<Socket> {
    if id in t.active then Some(t.active[id]) else None
  }

  /**
   A handler run. Subscribing needs all three fields and a running exchange; x of an
   Unsubscribe is the list the handler's scan stops at.
   */
  datatype Step =
    | Subscribe(ws: Socket, id: string, exchange: string, operation: string, running: bool)
    | Unsubscribe(ws: Socket, id: string, x: string)
    | Disconnect(ws: Socket)

  predicate Accepted(a: Step) {
    a.Subscribe? && a.id != "" && a.exchange != "" && a.operation != "" && a.running
  }

  ghost predicate Holds(t: Tables, x: string, id: string) {
    x in t.listed && id in t.listed[x]
  }

  ghost predicate Enabled(t: Tables, a: Step) {
    a.Unsubscribe? ==> Holds(t, a.x, a.id) || forall x :: !Holds(t, x, a.id)
  }

  function Apply(t: Tables, a: Step): Tables {
    match a
    case Subscribe(ws, id, x, _, _) => if Accepted(a) then Subscribed(t, ws, id, x) else t
    case Unsubscribe(_, id, x) => if id != "" && id in t.active then Unsubscribed(t, id, x) else t
    case Disconnect(ws) => Cleaned(t, ws)
  }

  ghost predicate Run(states: seq<Tables>, steps: seq<Step>) {
    && |states| == |steps| + 1 && states[0] == EMPTY
    && forall i :: 0 <= i < |steps| ==> Enabled(states[i], steps[i]) && states[i + 1] == Apply(states[i], steps[i])
  }

  // ---------------------------------------------------------------- lists

  lemma {:induction false} RemoveFirstKeepsOthers(s: seq<string>, id: string, other: string)
    requires other != id
    ensures other in RemoveFirst(s, id) <==> other in s
  {
    if s != [] && s[0] != id {
      RemoveFirstKeepsOthers(s[1..], id, other);
    }
  }

  lemma {:induction false} RemoveFirstOfDistinct(s: seq<string>, id: string)
    requires NoDuplicates(s)
    ensures id !in RemoveFirst(s, id) && NoDuplicates(RemoveFirst(s, id))
    ensures forall y :: y in RemoveFirst(s, id) ==> y in s
  {
    if s != [] {
      assert s[0] !in s[1..];
      RemoveFirstOfDistinct(s[1..], id);
    }
  }

  lemma {:induction false} WithoutHolds(s: seq<string>, gone: set<string>)
    ensures forall y :: y in Without(s, gone) <==> y in s && y !in gone
    ensures NoDuplicates(s) ==> NoDuplicates(Without(s, gone))
  {
    if s != [] {
      WithoutHolds(s[1..], gone);
      if NoDuplicates(s) {
        assert s[0] !in s[1..];
      }
    }
  }

  /** The clean-up treats a list element by element, and so keeps its order and its repetitions. */
  lemma {:induction false} WithoutInOrder(a: seq<string>, b: seq<string>, gone: set<string>, id: string)
    ensures Without(a + b, gone) == Without(a, gone) + Without(b, gone)
    ensures Without([id], gone) == if id in gone then [] else [id]
  {
    assert [id][1..] == [] && [id] + [] == [id];
    if a == [] {
      assert a + b == b;
    } else {
      assert (a + b)[0] == a[0] && (a + b)[1..] == a[1..] + b;
      WithoutInOrder(a[1..], b, gone, id);
      Assoc(if a[0] in gone then [] else [a[0]], Without(a[1..], gone), Without(b, gone));
    }
  }

  lemma {:induction false} WithoutCounts(s: seq<string>, gone: set<string>, id: string)
    requires id !in gone
    ensures multiset(Without(s, gone))[id] == multiset(s)[id]
  {
    if s != [] {
      assert s == [s[0]] + s[1..];
      WithoutCounts(s[1..], gone, id);
    }
  }

  // ---------------------------------------------------------------- every run

  /** Every active id is listed under some exchange. */
  ghost predicate ActiveListed(t: Tables) {
    forall id :: id in t.active ==> exists x :: Holds(t, x, id)
  }

  lemma ListedAfter(t: Tables, a: Step, x: string, id: string)
    requires Enabled(t, a) && Holds(t, x, id) && id in Apply(t, a).active
    ensures Holds(Apply(t, a), x, id)
  {
    match a
    case Subscribe(_, _, _, _, _) =>
    case Unsubscribe(_, gone, _) =>
      if gone != id {
        RemoveFirstKeepsOthers(t.listed[x], gone, id);
      }
    case Disconnect(ws) =>
      WithoutHolds(t.listed[x], IdsOf(t, ws));
      assert Without(t.listed[x], IdsOf(t, ws)) != [];
  }

  lemma ActiveListedStep(t: Tables, a: Step)
    requires ActiveListed(t) && Enabled(t, a)
    ensures ActiveListed(Apply(t, a))
  {
    var t' := Apply(t, a);
    forall id | id in t'.active
      ensures exists x :: Holds(t', x, id)
    {
      if id in t.active {
        var x :| Holds(t, x, id);
        ListedAfter(t, a, x, id);
      } else {
        assert Holds(t', a.exchange, id);
      }
    }
  }

  /** In every run, every active subscription id stays listed under some exchange. */
  lemma {:induction false} ActiveAlwaysListed(states: seq<Tables>, steps: seq<Step>, i: nat)
    requires Run(states, steps) && i < |states|
    ensures ActiveListed(states[i])
  {
    if i > 0 {
      ActiveAlwaysListed(states, steps, i - 1);
      ActiveListedStep(states[i - 1], steps[i - 1]);
    }
  }

  // ---------------------------------------------------------------- the partition

  /** The lists split the active ids: no id twice, none under two exchanges, none inactive. */
  ghost predicate Partition(t: Tables) {
    && (forall x :: x in t.listed ==> NoDuplicates(t.listed[x]))
    && (forall x, y, id :: Holds(t, x, id) && Holds(t, y, id) ==> x == y)
    && (forall x, id :: Holds(t, x, id) ==> id in t.active)
    && ActiveListed(t)
  }

  /** The step subscribes an id that is active already. */
  predicate Resubscribes(t: Tables, a: Step) {
    Accepted(a) && a.id in t.active
  }

  /** Ids in the lists of the next tables were there before, or are the one just subscribed. */
  lemma HoldsBefore(t: Tables, a: Step, x: string, id: string)
    requires Enabled(t, a) && Holds(Apply(t, a), x, id)
    ensures Holds(t, x, id) || (Accepted(a) && id == a.id && x == a.exchange)
    ensures a.Disconnect? ==> id !in IdsOf(t, a.ws)
  {
    match a
    case Subscribe(_, _, _, _, _) =>
    case Unsubscribe(_, gone, _) =>
      if gone != id && x in t.listed {
        RemoveFirstKeepsOthers(t.listed[x], gone, id);
      }
    case Disconnect(ws) => WithoutHolds(t.listed[x], IdsOf(t, ws));
  }

  lemma DistinctAfter(t: Tables, a: Step, x: string)
    requires Partition(t) && Enabled(t, a) && !Resubscribes(t, a) && x in Apply(t, a).listed
    ensures NoDuplicates(Apply(t, a).listed[x])
    ensures a.Unsubscribe? && a.id != "" && a.id in t.active ==> a.id !in Apply(t, a).listed[x]
  {
    match a
    case Subscribe(_, id, e, _, _) =>
      if Accepted(a) && x in t.listed && id in t.listed[x] {
        assert Holds(t, x, id);
      }
    case Unsubscribe(_, id, _) =>
      RemoveFirstOfDistinct(t.listed[x], id);
      if id in t.listed[x] {
        assert Holds(t, x, id);
      }
    case Disconnect(ws) => WithoutHolds(t.listed[x], IdsOf(t, ws));
  }

  lemma PartitionStep(t: Tables, a: Step)
    requires Partition(t) && Enabled(t, a) && !Resubscribes(t, a)
    ensures Partition(Apply(t, a))
  {
    var t' := Apply(t, a);
    ActiveListedStep(t, a);
    forall x | x in t'.listed
      ensures NoDuplicates(t'.listed[x])
    {
      DistinctAfter(t, a, x);
    }
    forall x, y, id | Holds(t', x, id) && Holds(t', y, id)
      ensures x == y
    {
      HoldsBefore(t, a, x, id);
      HoldsBefore(t, a, y, id);
    }
    forall x, id | Holds(t', x, id)
      ensures id in t'.active
    {
      HoldsBefore(t, a, x, id);
      DistinctAfter(t, a, x);
    }
  }

  /** Subscribing an active id again always breaks the partition: it is then listed twice. */
  lemma ResubscribeBreaks(t: Tables, a: Step)
    requires Partition(t) && Resubscribes(t, a)
    ensures !Partition(Apply(t, a))
  {
    var t' := Apply(t, a);
    var x :| Holds(t, x, a.id);
    var list := t'.listed[a.exchange];
    assert Holds(t', a.exchange, a.id);
    if x == a.exchange {
      var i :| 0 <= i < |t.listed[x]| && t.listed[x][i] == a.id;
      assert list[i] == list[|list| - 1] && i < |list| - 1;
    } else {
      assert Holds(t', x, a.id);
    }
  }

  lemma {:induction false} PartitionUpTo(states: seq<Tables>, steps: seq<Step>, i: nat)
    requires Run(states, steps) && i < |states|
    requires forall j :: 0 <= j < i ==> !Resubscribes(states[j], steps[j])
    ensures Partition(states[i])
  {
    if i > 0 {
      PartitionUpTo(states, steps, i - 1);
      PartitionStep(states[i - 1], steps[i - 1]);
    }
  }

  /**
   The per-exchange lists are a duplicate-free partition of exactly the active ids throughout
   a run if and only if the run never subscribes an id that is active.
   */
  lemma PartitionIffNoResubscribe(states: seq<Tables>, steps: seq<Step>)
    requires Run(states, steps)
    ensures (forall i :: 0 <= i < |states| ==> Partition(states[i])) <==>
            (forall j :: 0 <= j < |steps| ==> !Resubscribes(states[j], steps[j]))
  {
    if forall j :: 0 <= j < |steps| ==> !Resubscribes(states[j], steps[j]) {
      forall i | 0 <= i < |states|
        ensures Partition(states[i])
      {
        PartitionUpTo(states, steps, i);
      }
    } else {
      var j :| 0 <= j < |steps| && Resubscribes(states[j], steps[j]);
      if Partition(states[j]) {
        ResubscribeBreaks(states[j], steps[j]);
        assert !Partition(states[j + 1]);
      }
    }
  }

  // ---------------------------------------------------------------- disconnecting

  /**
   After `cleanup_websocket` no id maps to the socket, the other sockets' ids are as before,
   every list is what it was without the removed ids, and no list is empty.
   */
  lemma CleanupExact(t: Tables, ws: Socket)
    ensures var t' := Cleaned(t, ws);
      && (forall id :: Receiver(t', id) == if Receiver(t, id) == Some(ws) then None else Receiver(t, id))
      && (forall x :: x in t'.listed ==> x in t.listed && t'.listed[x] != [])
      && (forall x, id :: Holds(t', x, id) <==> Holds(t, x, id) && Receiver(t, id) != Some(ws))
      && (forall x :: x in t'.listed ==>
            forall id :: Receiver(t, id) != Some(ws) ==> multiset(t'.listed[x])[id] == multiset(t.listed[x])[id])
  {
    var t' := Cleaned(t, ws);
    forall x, id | x in t'.listed && Receiver(t, id) != Some(ws)
      ensures multiset(t'.listed[x])[id] == multiset(t.listed[x])[id]
    {
      WithoutCounts(t.listed[x], IdsOf(t, ws), id);
    }
    forall x, id
      ensures Holds(t', x, id) <==> Holds(t, x, id) && Receiver(t, id) != Some(ws)
    {
      if x in t.listed {
        WithoutHolds(t.listed[x], IdsOf(t, ws));
      }
    }
  }

  // ---------------------------------------------------------------- subscribing and unsubscribing

  /** Subscribing gives the id to the socket and puts it at the end of one list, and does nothing else. */
  lemma SubscribeExact(t: Tables, a: Step)
    requires a.Subscribe?
    ensures !Accepted(a) ==> Apply(t, a) == t
    ensures Accepted(a) ==> var t' := Apply(t, a);
      && (forall id :: Receiver(t', id) == if id == a.id then Some(a.ws) else Receiver(t, id))
      && a.exchange in t'.listed
      && t'.listed[a.exchange] == (if a.exchange in t.listed then t.listed[a.exchange] else []) + [a.id]
      && (forall x :: x != a.exchange ==>
            (x in t'.listed <==> x in t.listed) && (x in t.listed ==> t'.listed[x] == t.listed[x]))
  {
  }

  lemma {:induction false} RemoveFirstAt(s: seq<string>, id: string) returns (k: nat)
    requires id in s
    ensures k < |s| && s[k] == id && id !in s[..k] && RemoveFirst(s, id) == s[..k] + s[k + 1..]
  {
    if s[0] == id {
      k := 0;
    } else {
      var m := RemoveFirstAt(s[1..], id);
      k := m + 1;
      assert s[..k] == [s[0]] + s[1..][..m] && s[k + 1..] == s[1..][m + 1..];
    }
  }

  /**
   Unsubscribing an active id takes it from its socket and takes its first place in one list,
   and does nothing else: every other id keeps its receiver, its places and their order.
   */
  lemma UnsubscribeExact(t: Tables, a: Step) returns (k: nat)
    requires a.Unsubscribe? && Enabled(t, a)
    ensures !(a.id != "" && a.id in t.active) ==> Apply(t, a) == t
    ensures a.id != "" && a.id in t.active ==> var t' := Apply(t, a);
      && (forall id :: Receiver(t', id) == if id == a.id then None else Receiver(t, id))
      && (forall x :: x in t'.listed <==> x in t.listed)
      && (forall x :: x in t.listed && !(x == a.x && Holds(t, x, a.id)) ==> t'.listed[x] == t.listed[x])
      && (Holds(t, a.x, a.id) ==>
            var s := t.listed[a.x];
            k < |s| && s[k] == a.id && a.id !in s[..k] && t'.listed[a.x] == s[..k] + s[k + 1..])
  {
    k := 0;
    if Holds(t, a.x, a.id) {
      k := RemoveFirstAt(t.listed[a.x], a.id);
    }
  }

  /** The step gives `id` to a socket, or takes it from whoever has it. */
  predicate Reassigns(a: Step, id: string, ws: Socket) {
    match a
    case Subscribe(_, id', _, _, _) => Accepted(a) && id' == id
    case Unsubscribe(_, id', _) => id' == id
    case Disconnect(ws') => ws' == ws
  }

  /** Step j is an accepted subscription of id by ws, and nothing has taken it back or over before step i. */
  predicate Standing(steps: seq<Step>, i: nat, j: nat, id: string, ws: Socket) {
    && j < i <= |steps|
    && Accepted(steps[j]) && steps[j].id == id && steps[j].ws == ws
    && forall k :: j < k < i ==> !Reassigns(steps[k], id, ws)
  }

  lemma ReceiverStep(t: Tables, a: Step, id: string, ws: Socket)
    requires Enabled(t, a) && id != ""
    ensures Accepted(a) && a.id == id ==> Receiver(Apply(t, a), id) == Some(a.ws)
    ensures !(Accepted(a) && a.id == id) && Reassigns(a, id, ws) ==> Receiver(Apply(t, a), id) != Some(ws)
    ensures !Reassigns(a, id, ws) ==> (Receiver(Apply(t, a), id) == Some(ws) <==> Receiver(t, id) == Some(ws))
  {
  }

  /**
   Who gets the updates, over any run: a socket receives those of an id if and only if some
   accepted subscription of the id by that socket stands, with no later one, no unsubscription
   of the id and no disconnect of the socket.
   */
  lemma {:induction false} ReceiverIffStanding(states: seq<Tables>, steps: seq<Step>, i: nat, id: string, ws: Socket)
    requires Run(states, steps) && i < |states|
    ensures Receiver(states[i], id) == Some(ws) <==> exists j: nat :: Standing(steps, i, j, id, ws)
  {
    if i > 0 {
      var last: nat := i - 1;
      var t, a := states[last], steps[last];
      ReceiverIffStanding(states, steps, i - 1, id, ws);
      assert states[i] == Apply(t, a);
      if j: nat :| Standing(steps, i, j, id, ws) {
        assert j < i - 1 ==> Standing(steps, last, j, id, ws);
      }
      NeverEmptyId(states, steps, i);
      if id != "" {
        ReceiverStep(t, a, id, ws);
        if Accepted(a) && a.id == id && a.ws == ws {
          assert Standing(steps, i, i - 1, id, ws);
        } else if !Reassigns(a, id, ws) {
          if j: nat :| Standing(steps, last, j, id, ws) {
            assert Standing(steps, i, j, id, ws);
          }
        }
      }
    }
  }

  lemma {:induction false} NeverEmptyId(states: seq<Tables>, steps: seq<Step>, i: nat)
    requires Run(states, steps) && i < |states|
    ensures "" !in states[i].active
  {
    if i > 0 {
      NeverEmptyId(states, steps, i - 1);
    }
  }

  /** Once a socket has disconnected no watch update goes to it, in any continuation, until it subscribes again. */
  lemma {:induction false} QuietAfterDisconnect(
    states: seq<Tables>, steps: seq<Step>, ws: Socket, i: nat, j: nat, id: string)
    requires Run(states, steps) && i < j < |states| && steps[i] == Disconnect(ws)
    requires forall k :: i < k < j ==> !(Accepted(steps[k]) && steps[k].ws == ws)
    ensures Receiver(states[j], id) != Some(ws)
  {
    if j > i + 1 {
      QuietAfterDisconnect(states, steps, ws, i, j - 1, id);
    }
  }

  // ---------------------------------------------------------------- the handlers

  /** The module-level dictionaries and the handlers that change them. */
  class Endpoint {
    var activeSubscriptions: map<string, Socket>
    var exchangeSubscriptions: map<string, seq<string>>

    constructor ()
      ensures View() == EMPTY
    {
      activeSubscriptions, exchangeSubscriptions := map[], map[];
    }

    function View(): Tables
      reads this
    {
      Tables(activeSubscriptions, exchangeSubscriptions)
    }

    method HandleSubscribe(ws: Socket, id: string, exchangeId: string, operation: string, running: bool)
      modifies this
      ensures View() == Apply(old(View()), Subscribe(ws, id, exchangeId, operation, running))
    {
      if id == "" || exchangeId == "" || operation == "" {
        return;
      }
      if !running {
        return;
      }
      activeSubscriptions := activeSubscriptions[id := ws];
      if exchangeId !in exchangeSubscriptions {
        exchangeSubscriptions := exchangeSubscriptions[exchangeId := []];
      }
      exchangeSubscriptions := exchangeSubscriptions[exchangeId := exchangeSubscriptions[exchangeId] + [id]];
    }

    /** The scan over the lists stops at the first that holds the id; any dictionary order is allowed. */
    method HandleUnsubscribe(ws: Socket, id: string) returns (ghost x: string)
      modifies this
      ensures Enabled(old(View()), Unsubscribe(ws, id, x))
      ensures View() == Apply(old(View()), Unsubscribe(ws, id, x))
    {
      x := "";
      if id == "" || id !in activeSubscriptions {
        if e :| Holds(View(), e, id) {
          x := e;
        }
        return;
      }
      activeSubscriptions := activeSubscriptions - {id};
      var todo := exchangeSubscriptions.Keys;
      while todo != {}
        invariant todo <= exchangeSubscriptions.Keys
        invariant activeSubscriptions == old(activeSubscriptions) - {id}
        invariant exchangeSubscriptions == old(exchangeSubscriptions)
        invariant forall e :: e in exchangeSubscriptions && e !in todo ==> id !in exchangeSubscriptions[e]
        decreases todo
      {
        var e :| e in todo;
        todo := todo - {e};
        if id in exchangeSubscriptions[e] {
          exchangeSubscriptions := exchangeSubscriptions[e := RemoveFirst(exchangeSubscriptions[e], id)];
          x := e;
          assert Holds(old(View()), x, id);
          return;
        }
      }
      assert forall e :: !Holds(old(View()), e, id);
    }

    method CleanupWebsocket(ws: Socket)
      modifies this
      ensures View() == Cleaned(old(View()), ws)
    {
      var toRemove := set id | id in activeSubscriptions && activeSubscriptions[id] == ws;
      activeSubscriptions := activeSubscriptions - toRemove;
      var todo := exchangeSubscriptions.Keys;
      while todo != {}
        invariant todo <= exchangeSubscriptions.Keys <= old(exchangeSubscriptions.Keys)
        invariant activeSubscriptions == old(activeSubscriptions) - toRemove
        invariant forall e :: e in todo ==> exchangeSubscriptions[e] == old(exchangeSubscriptions)[e]
        invariant forall e :: e in old(exchangeSubscriptions) && e !in todo ==>
          var kept := Without(old(exchangeSubscriptions)[e], toRemove);
          (e in exchangeSubscriptions <==> kept != []) && (kept != [] ==> exchangeSubscriptions[e] == kept)
        decreases todo
      {
        var e :| e in todo;
        todo := todo - {e};
        exchangeSubscriptions := exchangeSubscriptions[e := Without(exchangeSubscriptions[e], toRemove)];
        if exchangeSubscriptions[e] == [] {
          exchangeSubscriptions := exchangeSubscriptions - {e};
        }
      }
    }
  }
}
