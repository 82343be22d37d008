/** The broker object: dictionaries updated in place by its message loop and by `send_request`. */
module Broker {
  import opened Prelude
  import opened BrokerSpec

  /** What one iteration of the loop gets from the socket. */
  datatype Received = Idle | TooFewParts | Parts(identity: string, message: Message)

  function Delivered(inbox: seq<Received>): seq<(string, Message)> {
    if inbox == [] then []
    else
      var rest := Delivered(inbox[..|inbox| - 1]);
      match inbox[|inbox| - 1]
      case Parts(identity, message) => rest + [(identity, message)]
      case _ => rest
  }

  /** Every well-formed delivery counts once, in its place; idle polls and short ones do not. */
  lemma {:induction false} DeliveredInOrder(before: seq<Received>, after: seq<Received>, identity: string, m: Message)
    ensures Delivered(before + after) == Delivered(before) + Delivered(after)
    ensures Delivered([Parts(identity, m)]) == [(identity, m)]
    ensures Delivered([Idle]) == Delivered([TooFewParts]) == []
  {
    assert [Parts(identity, m)][..0] == [] && [Idle][..0] == [] && [TooFewParts][..0] == [];
    if after == [] {
      assert before + after == before;
    } else {
      var init, all := after[..|after| - 1], before + after;
      DeliveredInOrder(before, init, identity, m);
      assert all[..|all| - 1] == before + init && all[|all| - 1] == after[|after| - 1];
    }
  }

  class ZMQBroker {
    var exchangeIdentities: map<string, string>
    var identityExchanges: map<string, string>
    var pendingRequests: map<string, Ticket>
    var futures: map<Ticket, Future>
    var callbackSet: bool
    var forwarded: seq<(string, string)>

    function View(): BrokerState
      reads this
    {
      BrokerState(exchangeIdentities, identityExchanges, pendingRequests, futures, callbackSet, forwarded)
    }

    ghost predicate Valid()
      reads this
    {
      Wf(View())
    }

    constructor ()
      ensures Valid() && View() == EMPTY_BROKER
    {
      exchangeIdentities, identityExchanges := map[], map[];
      pendingRequests, futures := map[], map[];
      callbackSet, forwarded := false, [];
    }

    method HandleMessage(identity: string, message: Message)
      requires Valid()
      modifies this
      ensures Valid() && View() == OnMessage(old(View()), identity, message)
    {
      match message
      case SubprocessReady(exchangeId) =>
        if Truthy(exchangeId) {
          exchangeIdentities := exchangeIdentities[exchangeId.value := identity];
          identityExchanges := identityExchanges[identity := exchangeId.value];
        }
      case Response(requestId, _, _, _) =>
        if Truthy(requestId) && requestId.value in pendingRequests {
          var future := pendingRequests[requestId.value];
          pendingRequests := pendingRequests - {requestId.value};
          if futures[future].Pending? {
            futures := futures[future := Resolved(message)];
          }
        }
      case WatchUpdate(subscriptionId, data) =>
        if Truthy(subscriptionId) && callbackSet {
          forwarded := forwarded + [(subscriptionId.value, data)];
        }
      case _ =>
    }

    /** The message loop over any finite run of socket results. */
    method MessageLoop(inbox: seq<Received>)
      requires Valid()
      modifies this
      ensures Valid() && View() == OnMessages(old(View()), Delivered(inbox))
    {
      for i := 0 to |inbox|
        invariant Valid()
        invariant View() == OnMessages(old(View()), Delivered(inbox[..i]))
      {
        assert inbox[..i + 1][..i] == inbox[..i];
        match inbox[i]
        case Parts(identity, message) =>
          HandleMessage(identity, message);
          ghost var seen := Delivered(inbox[..i]);
          assert (seen + [(identity, message)])[..|seen|] == seen;
        case _ =>
      }
      assert inbox[..|inbox|] == inbox;
    }

    /** `send_request` before its first await; `found` is false for EXCHANGE_NOT_FOUND. */
    method BeginRequest(exchangeId: string, requestId: string, ticket: Ticket) returns (found: bool, identity: string)
      requires Valid()
      modifies this
      ensures Valid()
      ensures found == (exchangeId in old(exchangeIdentities))
      ensures found ==>
        identity == old(exchangeIdentities)[exchangeId] && View() == Open(old(View()), ticket, requestId)
      ensures !found ==> View() == old(View())
    {
      if exchangeId !in exchangeIdentities {
        return false, "";
      }
      found, identity := true, exchangeIdentities[exchangeId];
      futures := futures[ticket := Pending];
      if requestId != "" {
        pendingRequests := pendingRequests[requestId := ticket];
      }
    }

    /** The exception handlers of `send_request`. */
    method AbandonRequest(requestId: string)
      requires Valid()
      modifies this
      ensures Valid() && View() == Forget(old(View()), requestId)
    {
      pendingRequests := pendingRequests - {requestId};
    }

    method CancelFuture(ticket: Ticket)
      requires Valid()
      modifies this
      ensures Valid() && View() == Cancel(old(View()), ticket)
    {
      if ticket in futures && futures[ticket].Pending? {
        futures := futures[ticket := Cancelled];
      }
    }

    method RegisterExchange(exchangeId: string, identity: string)
      requires Valid()
      modifies this
      ensures Valid() && View() == Register(old(View()), exchangeId, identity)
    {
      exchangeIdentities := exchangeIdentities[exchangeId := identity];
      identityExchanges := identityExchanges[identity := exchangeId];
    }

    method UnregisterExchange(exchangeId: string)
      requires Valid()
      modifies this
      ensures Valid() && View() == Unregister(old(View()), exchangeId)
    {
      if exchangeId in exchangeIdentities {
        var identity := exchangeIdentities[exchangeId];
        exchangeIdentities := exchangeIdentities - {exchangeId};
        identityExchanges := identityExchanges - {identity};
      }
    }
  }
}
