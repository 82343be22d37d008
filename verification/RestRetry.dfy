/** The bounded retry loop of `_send_via_broker`, run by itself against two broker calls. */
module RestRetry {
  import opened Prelude
  import opened BrokerSpec

  /** One `send_request`: what it returned, and whether the message reached the socket. */
  datatype BrokerCall = BrokerCall(put: bool, response: Option<Message>)

  datatype RestResult = Reply(response: Message) | NoResponse504 | RestartFailed503

  /** The first call asks for a restart and a second try. */
  predicate Retried(first: BrokerCall) {
    first.response.Some? && SaysNotFound(first.response.value)
  }

  method SendViaBroker(calls: seq<BrokerCall>, restartSucceeds: bool)
    returns (result: RestResult, sends: nat, restarts: nat)
    requires |calls| == 2
    ensures restarts == if Retried(calls[0]) then 1 else 0
    ensures sends ==
      (if calls[0].put then 1 else 0) +
      (if Retried(calls[0]) && restartSucceeds && calls[1].put then 1 else 0)
    ensures sends == 2 <==> calls[0].put && Retried(calls[0]) && restartSucceeds && calls[1].put
    ensures result == RestartFailed503 <==> Retried(calls[0]) && !restartSucceeds
    ensures result == NoResponse504 <==>
      calls[0].response == None || (Retried(calls[0]) && restartSucceeds && calls[1].response == None)
    ensures result.Reply? ==>
      Some(result.response) == if Retried(calls[0]) then calls[1].response else calls[0].response
  {
    sends, restarts := 0, 0;
    for attempt := 0 to 2
      invariant attempt == 0 ==> sends == 0 && restarts == 0
      invariant attempt == 1 ==>
        Retried(calls[0]) && restartSucceeds && restarts == 1 && sends == if calls[0].put then 1 else 0
      invariant attempt <= 1
    {
      if calls[attempt].put {
        sends := sends + 1;
      }
      if calls[attempt].response.None? {
        return NoResponse504, sends, restarts;
      }
      var response := calls[attempt].response.value;
      if SaysNotFound(response) && attempt == 0 {
        restarts := restarts + 1;
        if !restartSucceeds {
          return RestartFailed503, sends, restarts;
        }
        continue;
      }
      return Reply(response), sends, restarts;
    }
    assert false;
    result := NoResponse504;
  }
}
