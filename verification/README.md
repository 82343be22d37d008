# ccxt-gateway: a verified model

This project models the Python gateway of Planar.jl and the search ranker of its
documentation, and proves what the gateway's protocols keep over whole runs.

| file | what it models |
|---|---|
| Prelude.dfy | options and small sequence helpers |
| BrokerSpec.dfy, Broker.dfy | the ZeroMQ broker: its state as a value, and the object with its message loop |
| Registrations.dfy | the broker's two registration tables over any run |
| Gateway.dfy, GatewaySafety.dfy, GatewayOutcomes.dfy | callers, broker and subprocesses interleaved; what holds in every run, and how calls end |
| RestRetry.dfy | the bounded retry loop of a REST call |
| Subprocess.dfy | the exchange subprocess: loop, dispatch, watch methods, timeout override |
| EndToEnd.dfy | the subprocess as part of the request/response system |
| OhlcvMax.dfy | the greatest timestamp in nested candle data |
| CommandLine.dfy | the command line between manager and subprocess |
| RestartBudget.dfy, Supervisor.dfy | the two-field restart budget, the process table and the monitor pass |
| Decimal.dfy, Utf8.dfy, JsonString.dfy, ResultFrame.dfy, SessionStream.dfy | the Julia session protocol, byte by byte |
| SessionRegistry.dfy | session ids, the session map, two-phase reaping |
| Subscriptions.dfy | the two subscription tables of the WebSocket endpoint |
| Relevance.dfy, Ranking.dfy | the documentation search |

`dafny verify dfyconfig.toml` checks everything.

## How the model is built

Code between two awaits is one step. In `Gateway` any number of callers run
`_send_via_broker`; timers, send failures, lost queues, lost registrations, restarts,
duplicated answers and stray messages are steps that may happen at any time, so every
interleaving is covered. `Broker.ZMQBroker` is proved against the functions of `BrokerSpec`
that `Gateway` is built from, and `EndToEnd` proves that a turn of the subprocess's loop is a
run of the steps `Emit` and `Serve` of `Gateway`. Request ids are assumed distinct (they are
fresh UUIDs) and a subprocess announces itself under its own id, which is also its socket
identity. That the first assumption is needed is proved: `SharedIdMixesAnswers`.

Clocks are real numbers. The operating system, the exchange library and the evaluation of
Julia code are parameters: every lookup, call, spawn or eval may have any outcome. Lower
casing is done before the ranker model starts. Python dictionaries are maps; where the
order of iteration could matter, every order is allowed.

## Where the code and its comments differ

The model follows the code.

- The comment at ccxt-gateway/src/ccxt_gateway/mcp_server.py:373-374 gives a
  length-prefixed result without a final line feed; the code prints three lines.
- The comment at ccxt-gateway/src/ccxt_gateway/core/process_manager.py:63 speaks of the
  first restart; the field holds the last. `max_restarts_per_hour` is also not exact: a
  setting of zero lets one crash restart through (`CeilingIsLeastBound`), and with any setting
  above one a restart can be refused although the last hour holds fewer
  (`RefusalUnderBudget`). `RefusalBackedIff` says exactly when a refusal is backed by a full
  hour.
- The comment at ccxt-gateway/src/ccxt_gateway/mcp_server.py:665-666 says an eval in flight
  is never reaped. `ReapedThoughJustTouched` is a run in which it is; `ReapableIff` says
  exactly what can be reaped when.
- A stored configuration holds the sandbox flag, but a restart does not pass it on:
  `RestartKeepsSettingsIff`.
- The timeout override of a call is taken back unless the exchange had no timeout; then the
  first override stays for good: `TimeoutAfterCalls`.

## Model

| member | source | states |
|---|---|---|
| BrokerSpec.FirstAnswerSettles | ccxt-gateway/src/ccxt_gateway/core/zmq_broker.py:73-111 | over any inbox, a waiter goes on waiting exactly as long as no response bears its id, and is settled with the first that does; duplicates and everything else leave it alone |
| BrokerSpec.ForwardedInOrder | ccxt-gateway/src/ccxt_gateway/core/zmq_broker.py:97-102 | over any inbox, exactly the watch updates that bear an id reach the callback, in order, if one is set; otherwise none |
| Broker.DeliveredInOrder | ccxt-gateway/src/ccxt_gateway/core/zmq_broker.py:59-73 | every well-formed delivery counts once, in its place; idle polls and short multiparts do not |
| Broker.ZMQBroker.constructor | ccxt-gateway/src/ccxt_gateway/core/zmq_broker.py:18-39 | a new broker knows nobody and waits for nothing |
| Broker.ZMQBroker.HandleMessage | ccxt-gateway/src/ccxt_gateway/core/zmq_broker.py:73-111 | the in-place handling of one message is the broker step of the system |
| Broker.ZMQBroker.MessageLoop | ccxt-gateway/src/ccxt_gateway/core/zmq_broker.py:59-116 | the loop handles the well-formed deliveries in order and skips idle polls and short multiparts |
| Broker.ZMQBroker.BeginRequest | ccxt-gateway/src/ccxt_gateway/core/zmq_broker.py:122-143 | an unregistered exchange leaves the broker untouched; otherwise a future is opened and filed under a non-empty id |
| Broker.ZMQBroker.AbandonRequest | ccxt-gateway/src/ccxt_gateway/core/zmq_broker.py:153-168 | both exception handlers drop the pending entry and nothing else |
| Broker.ZMQBroker.CancelFuture | ccxt-gateway/src/ccxt_gateway/core/zmq_broker.py:149-153 | the timer of the wait cancels a pending future and leaves a settled one alone |
| Registrations.RequestsGoToLastAnnounced | ccxt-gateway/src/ccxt_gateway/core/zmq_broker.py:122-180 | after any run of messages, registrations and removals, a request for an exchange goes to an identity if and only if some change announced the exchange there and no later one announced or removed it |
| Registrations.InverseIffNothingMoves | ccxt-gateway/src/ccxt_gateway/core/zmq_broker.py:170-180 | the two registration tables stay inverse to each other throughout a run if and only if no announcement moves a registered exchange to another identity or takes a registered identity over |
| Broker.ZMQBroker.UnregisterExchange | ccxt-gateway/src/ccxt_gateway/core/zmq_broker.py:175-180 | both directions are removed, and an unknown exchange is ignored |
| Gateway.InvAct | ccxt-gateway/src/ccxt_gateway/core/zmq_broker.py:118-168 | every step of a caller or its timer keeps the invariant tying pending map, futures, queues and callers together |
| Gateway.InvEvent | ccxt-gateway/src/ccxt_gateway/core/zmq_broker.py:59-116 | so does every step of the broker loop, the subprocesses and the transport |
| GatewaySafety.AnswerComputedForOwnRequest | ccxt-gateway/src/ccxt_gateway/core/zmq_broker.py:88-95 | in every run, an answer a caller returns was computed earlier, by its own exchange's subprocess, from its own request at the head of that queue |
| GatewaySafety.FuturesAdvanceInRun | ccxt-gateway/src/ccxt_gateway/core/zmq_broker.py:90-93 | a settled future keeps its value for the rest of the run |
| GatewaySafety.SettledAtMostOnce | ccxt-gateway/src/ccxt_gateway/core/zmq_broker.py:90-93 | each waiter is settled once, by a result or by its timer |
| GatewaySafety.DeliveryTouchesOnlyTheAwaiting | ccxt-gateway/src/ccxt_gateway/core/zmq_broker.py:88-95 | delivery settles exactly a caller awaiting that id; late, duplicate and unknown responses disturb nobody |
| GatewaySafety.PendingConservation | ccxt-gateway/src/ccxt_gateway/core/zmq_broker.py:139-168 | pending keys are ids of callers in flight, unsettled waiters are all there, callers that left are not, and with nobody in flight the map is empty |
| GatewaySafety.RetrySendsAtMostOnce | ccxt-gateway/src/ccxt_gateway/api/rest.py:25-37 | at most one restart and two attempts; a second send only after the subprocess answered this very request with the retried code, so at most one send when subprocess codes differ from it |
| GatewaySafety.TwoSendsHappen | ccxt-gateway/src/ccxt_gateway/api/rest.py:30-35 | a run with two sends, after such an answer |
| GatewaySafety.SharedIdMixesAnswers | ccxt-gateway/src/ccxt_gateway/core/zmq_broker.py:142-143 | distinct ids are needed: a run in which a caller returns another caller's answer |
| GatewaySafety.StepsBounded | ccxt-gateway/src/ccxt_gateway/api/rest.py:17-37 | no caller takes more than nine steps in any run |
| GatewaySafety.NeverStuck | ccxt-gateway/src/ccxt_gateway/core/zmq_broker.py:145-168 | a caller that is not done always has a step of its own to take |
| GatewayOutcomes.OutcomeIffDecided | ccxt-gateway/src/ccxt_gateway/core/zmq_broker.py:122-168 | in every run, a caller is done with an outcome if and only if one of its steps decided so: an answer taken, whatever it says, unless it asks for the retry; the end of the wait; a failed send; a failed restart; a second attempt with nobody registered |
| GatewayOutcomes.TakenIsReturned | ccxt-gateway/src/ccxt_gateway/api/rest.py:25-37 | an answer that is taken is returned as it is |
| GatewayOutcomes.BooksAreRight | ccxt-gateway/src/ccxt_gateway/api/rest.py:25-37 | in every run, the sends, restarts and attempts of a caller are as many as it made |
| GatewayOutcomes.RequestsInOrder | ccxt-gateway/src/ccxt_gateway/core/zmq_broker.py:145-148 | unless the transport drops them, the requests a subprocess has taken and those waiting for it are exactly those sent to it, in order |
| GatewayOutcomes.RepliesInOrder | ccxt-gateway/src/ccxt_gateway/core/zmq_broker.py:59-73 | so are the messages the broker has handled from a subprocess and those still on their way |
| RestRetry.SendViaBroker | ccxt-gateway/src/ccxt_gateway/api/rest.py:25-37 | the loop's result, restarts and exact number of sends; two sends if and only if the first call sent, was told NOT_FOUND, the restart worked and the second call sent |
| Subprocess.OneAnswerPerRequest | ccxt-gateway/src/ccxt_gateway/exchange/subprocess.py:178-228 | the responses on the socket answer the well-formed requests one for one, in order, each under its id; watch updates are none of them |
| Subprocess.CallAnswered | ccxt-gateway/src/ccxt_gateway/exchange/subprocess.py:303-316 | a method's result is the answer as it is, a watch method's is confirmed, an exception gives its text and its type name |
| Subprocess.LookupAnswered | ccxt-gateway/src/ccxt_gateway/exchange/subprocess.py:317-366 | a property is answered with its value, an entry of `has` with that entry, the names with the names, an unknown name with an AttributeError |
| Subprocess.SetterAnswered | ccxt-gateway/src/ccxt_gateway/exchange/subprocess.py:250-272 | setting a property or the credentials is answered with the status, or with what the library raised |
| Subprocess.RefusalAnswered | ccxt-gateway/src/ccxt_gateway/exchange/subprocess.py:244-252 | without an exchange, or without a dictionary where one is needed, the answer is an error; bad JSON is answered as such |
| Subprocess.WatchNames | ccxt-gateway/src/ccxt_gateway/exchange/subprocess.py:304-306 | the names that are dispatched as watch methods |
| Subprocess.UpdatesInOrder | ccxt-gateway/src/ccxt_gateway/exchange/subprocess.py:448-484 | watch updates go out one for one, in order, each under its subscription |
| Subprocess.TaskStarted | ccxt-gateway/src/ccxt_gateway/exchange/subprocess.py:418-434 | exactly a watch call with a first batch starts a task, named after the subscription or else the request |
| Subprocess.ExchangeSubprocess.MessageLoop | ccxt-gateway/src/ccxt_gateway/exchange/subprocess.py:178-231 | the loop goes through its turns one by one, with what each puts on the socket, starts and leaves as timeout, and stops early only after the turn in which it is told to, or before one in which it finds its parent gone |
| Subprocess.ExchangeSubprocess.HandleRequest | ccxt-gateway/src/ccxt_gateway/exchange/subprocess.py:233-376 | every branch of the dispatch puts its one answer on the socket, starts a task if it should, and leaves the timeout as it should |
| Subprocess.ExchangeSubprocess.HandleWatchMethod | ccxt-gateway/src/ccxt_gateway/exchange/subprocess.py:400-446 | one confirmation and one background task, or one error and none |
| Subprocess.ExchangeSubprocess.CallMethod | ccxt-gateway/src/ccxt_gateway/exchange/subprocess.py:486-519 | reserved parameters are removed, symbols come first among the positional arguments, and the exchange's own timeout is put back |
| Subprocess.TimeoutAfterCalls | ccxt-gateway/src/ccxt_gateway/exchange/subprocess.py:501-519 | after any number of calls the timeout is as it was; if there was none, it is the first override anybody asked for |
| Subprocess.TimeoutChanges | ccxt-gateway/src/ccxt_gateway/exchange/subprocess.py:253-255 | which requests change the exchange's timeout, and to what |
| Subprocess.MillisCut | ccxt-gateway/src/ccxt_gateway/exchange/subprocess.py:504 | seconds become milliseconds cut towards zero |
| EndToEnd.TurnIsSteps | ccxt-gateway/src/ccxt_gateway/exchange/subprocess.py:178-228 | a turn of the subprocess on the request at the head of its queue is a run of the system, its reply computed in that turn, that takes the request off and adds to the queue back exactly what the turn puts on the socket |
| EndToEnd.AnswerIsOwnDispatch | ccxt-gateway/src/ccxt_gateway/exchange/subprocess.py:233-376 | in every run whose replies are computed in turns of subprocesses, the answer a caller returns is what the dispatch computed for its own request in the turn that served it |
| EndToEnd.ToldIffRaised | ccxt-gateway/src/ccxt_gateway/exchange/subprocess.py:367-373 | in every such run, a request is answered with the retried code if and only if a turn that served it ended in an exception of a type of that name, with a text, raised by the exchange library |
| EndToEnd.SecondSendOnlyAfterException | ccxt-gateway/src/ccxt_gateway/api/rest.py:25-37 | in every such run, a request is sent a second time only after a turn that served it ended so |
| OhlcvMax.OhlcvMaxTs | ccxt-gateway/src/ccxt_gateway/exchange/subprocess.py:378-398 | the result is a reachable timestamp that bounds all reachable ones, and is absent exactly when there are none |
| OhlcvMax.RowTimes | ccxt-gateway/src/ccxt_gateway/exchange/subprocess.py:391-397 | a row's timestamp is its first cell, if that is a number, cut towards zero |
| CommandLine.BuildCommand | ccxt-gateway/src/ccxt_gateway/core/process_manager.py:150-166 | the arguments put on the command line |
| CommandLine.ParseArguments | ccxt-gateway/src/ccxt_gateway/exchange/subprocess.py:546-574 | the index loop ends on any arguments and computes the left-to-right scan |
| CommandLine.OptionsOf | ccxt-gateway/src/ccxt_gateway/exchange/subprocess.py:546-574 | on any arguments, an option is the value behind the last of its flags that the scan comes to, or the default; the sandbox is on exactly when the scan comes to its flag |
| CommandLine.CommandRoundTrip | ccxt-gateway/src/ccxt_gateway/exchange/subprocess.py:550-574 | for all strings the subprocess recovers id, name, broker address, non-empty credentials and sandbox flag |
| Supervisor.SubprocessReadsConfig | ccxt-gateway/src/ccxt_gateway/core/process_manager.py:136-166 | a subprocess reads back the stored configuration it was started with |
| Supervisor.RestartKeepsSettingsIff | ccxt-gateway/src/ccxt_gateway/core/process_manager.py:360-371 | a restarted subprocess has the same settings if and only if the sandbox was off |
| RestartBudget.CounterCoversWindow | ccxt-gateway/src/ccxt_gateway/core/process_manager.py:60-71 | inside an hour's window the counter is never below the number of restarts in it |
| RestartBudget.WindowBound | ccxt-gateway/src/ccxt_gateway/core/process_manager.py:60-71 | any half-open hour of a chain of successful restarts holds at most max_restarts_per_hour crash restarts (one, if the setting is below one), memory and manual restarts mixed in |
| RestartBudget.CeilingIsLeastBound | ccxt-gateway/src/ccxt_gateway/core/process_manager.py:293-380 | with restarts that take the pause of a second and passes check_interval apart, the least bound on crash restarts per hour: the setting (one, if below one) or what an hour has room for, whichever is less, and some chain reaches it |
| RestartBudget.RefusalBackedIff | ccxt-gateway/src/ccxt_gateway/core/process_manager.py:60-71 | with m the setting, or one if that is below one: the last hour holds m restarts if and only if a crash is refused and the m-th last restart is less than an hour old; so a full hour is always refused, and a refusal is backed by a full hour exactly then |
| RestartBudget.CountSinceRenewal | ccxt-gateway/src/ccxt_gateway/core/process_manager.py:60-71 | the counter is exactly the number of restarts since a crash was last let through by a full counter |
| RestartBudget.RenewsAfterQuietHour | ccxt-gateway/src/ccxt_gateway/core/process_manager.py:64-70 | which happens only after an hour without restarts |
| RestartBudget.WholeAfterRenewal | ccxt-gateway/src/ccxt_gateway/core/process_manager.py:68-71 | and then the counter starts again: crashes are restarted at any time until there are as many restarts as the setting |
| RestartBudget.RefusalUnderBudget | ccxt-gateway/src/ccxt_gateway/core/process_manager.py:63-68 | for every setting above one and every check interval, a refusal with a single restart in the last hour |
| Supervisor.ExchangeProcess.ShouldRestart | ccxt-gateway/src/ccxt_gateway/core/process_manager.py:60-71 | the two fields are read and reset as the budget says |
| Supervisor.ExchangeProcess.UpdateMemory | ccxt-gateway/src/ccxt_gateway/core/process_manager.py:47-58 | the reading, zero when it fails, nothing for a dead process |
| Supervisor.ProcessManager.StartExchange | ccxt-gateway/src/ccxt_gateway/core/process_manager.py:118-208 | refused for an id in the table; otherwise the command is spawned and a fresh object with a fresh counter is filed, or the table is as before |
| Supervisor.ProcessManager.StopExchange | ccxt-gateway/src/ccxt_gateway/core/process_manager.py:270-287 | exactly that entry goes, however termination ends |
| Supervisor.ProcessManager.RestartExchange | ccxt-gateway/src/ccxt_gateway/core/process_manager.py:343-380 | the entry is gone or holds a fresh object with the old count plus one and the time; other entries are untouched |
| Supervisor.ProcessManager.CheckProcess | ccxt-gateway/src/ccxt_gateway/core/process_manager.py:309-331 | one entry meets its fate and no other entry changes |
| Supervisor.ProcessManager.CheckAllProcesses | ccxt-gateway/src/ccxt_gateway/core/process_manager.py:306-331 | an undisturbed pass, in whatever order: which entries of the starting table keep their object, hold a new one or go, as conditions in both directions, and with what contents; a replacement carries the counter its restart is charged to, and no id is added |
| Supervisor.MonitorKeepsBudget | ccxt-gateway/src/ccxt_gateway/core/process_manager.py:306-380 | over any history of one id (passes that keep, replace or remove the entry, manual restarts, starts, stops) the entry holds the counter of the restarts since the last start, these form a chain that keeps the window bound, and any hour of the whole history holds at most that many crash restarts, and that many more per start within the hour |
| Decimal.ParseShow | ccxt-gateway/src/ccxt_gateway/mcp_server.py:437 | the printed length is parsed back, by a parser that also takes blanks, signs and base prefixes |
| Decimal.ParseTolerates | ccxt-gateway/src/ccxt_gateway/mcp_server.py:437 | a sign counts and blanks do not |
| Utf8.DecodeEncode | ccxt-gateway/src/ccxt_gateway/mcp_server.py:687 | every string of Unicode scalars is decoded from its UTF-8 bytes |
| Utf8.DecodeStrict | ccxt-gateway/src/ccxt_gateway/mcp_server.py:687 | bytes that decode at all are the encoding of what they decode to |
| JsonString.JsonEscape | ccxt-gateway/src/ccxt_gateway/mcp_server.py:383-405 | the buffer-writing loop computes the escaped string |
| JsonString.EscapeRoundTrip | ccxt-gateway/src/ccxt_gateway/mcp_server.py:383-405 | decoding by section 7 of RFC 8259 gives back every sequence of Unicode scalars and leaves what follows the closing quote |
| JsonString.ControlIsFourDigits | ccxt-gateway/src/ccxt_gateway/mcp_server.py:397-398 | a control character without a short escape becomes exactly four hex digits after a backslash and a u, and they spell its code |
| JsonString.EscapedHasNoControl | ccxt-gateway/src/ccxt_gateway/mcp_server.py:391-401 | the escaped text holds no control character, so no line feed |
| JsonString.InnerQuotesEscaped | ccxt-gateway/src/ccxt_gateway/mcp_server.py:387-390 | every quote inside the escaped text is the second half of an escape |
| JsonString.ShortEscapes | ccxt-gateway/src/ccxt_gateway/mcp_server.py:687 | the reader of results takes every short escape of RFC 8259 |
| JsonString.SurrogatePair | ccxt-gateway/src/ccxt_gateway/mcp_server.py:687 | and a surrogate pair as one character |
| ResultFrame.JsonLineRoundTrip | ccxt-gateway/src/ccxt_gateway/mcp_server.py:425-426 | the JSON line of any result is read, by a reader of all of JSON, as the dictionary of that result |
| ResultFrame.ItemsRead | ccxt-gateway/src/ccxt_gateway/mcp_server.py:687 | lists are read item by item, to the bracket |
| SessionStream.BootLoop | ccxt-gateway/src/ccxt_gateway/mcp_server.py:432-446 | the reader loop with its line reads, byte reads and evaluation |
| SessionStream.FrameConsumed | ccxt-gateway/src/ccxt_gateway/mcp_server.py:436-444 | one frame is consumed exactly, whatever bytes its code holds |
| SessionStream.OtherLineSkipped | ccxt-gateway/src/ccxt_gateway/mcp_server.py:432-436 | a line that is neither QUIT nor a header changes nothing |
| SessionStream.BadHeaderEnds | ccxt-gateway/src/ccxt_gateway/mcp_server.py:437 | a header that is no length ends the loop before anything is evaluated |
| SessionStream.CutFrame | ccxt-gateway/src/ccxt_gateway/mcp_server.py:438-444 | a frame cut short is evaluated as far as it came |
| SessionStream.FramesConsumed | ccxt-gateway/src/ccxt_gateway/mcp_server.py:432-446 | any sequence of codes is taken off the stream in order, each evaluated in the state the earlier ones left, going on right after the last frame |
| SessionStream.FramesThenQuit | ccxt-gateway/src/ccxt_gateway/mcp_server.py:432-446 | with QUIT after them the loop ends having yielded exactly those codes, and the rest of the stream stays unread |
| SessionStream.ReplyRoundTrip | ccxt-gateway/src/ccxt_gateway/mcp_server.py:674-687 | the three printed lines are split by line reads and decode to the result, with nothing taken from what follows |
| SessionStream.AnyThreeLines | ccxt-gateway/src/ccxt_gateway/mcp_server.py:674-687 | what any three lines are read as, which of them make an error, and how much each costs |
| SessionStream.FramesUnambiguous | ccxt-gateway/src/ccxt_gateway/mcp_server.py:425-444 | two results written with anything after them give the same stream only if they are the same result followed by the same bytes |
| SessionStream.KthReplyIsKthResult | ccxt-gateway/src/ccxt_gateway/mcp_server.py:655-687 | without timeouts the k-th eval returns what the k-th code evaluates to after the codes before it, and leaves nothing unread |
| SessionStream.SessionPipes.WriteCode | ccxt-gateway/src/ccxt_gateway/mcp_server.py:670-673 | the three writes append one frame |
| SessionStream.SessionPipes.ReadResult | ccxt-gateway/src/ccxt_gateway/mcp_server.py:674-687 | the reads and checks of one reply, and what they leave unread |
| SessionRegistry.RegistrySound | ccxt-gateway/src/ccxt_gateway/mcp_server.py:589-613 | under any interleaving no id is handed out twice or stopped twice, and the map is exactly the started ids not stopped |
| SessionRegistry.NameInjective | ccxt-gateway/src/ccxt_gateway/mcp_server.py:591 | different counters give different ids |
| SessionRegistry.SessionIffActive | ccxt-gateway/src/ccxt_gateway/mcp_server.py:589-668 | in every run, a session is there with an activity time if and only if it was last started or touched then and has been neither stopped nor reaped since |
| SessionRegistry.ListedIffIdle | ccxt-gateway/src/ccxt_gateway/mcp_server.py:637-643 | a reaper lists exactly the sessions whose last start or touch is further back than the timeout |
| SessionRegistry.ReapableIff | ccxt-gateway/src/ccxt_gateway/mcp_server.py:637-646 | in every run, a reaper may stop a session at some point if and only if its latest look saw it idle beyond the timeout and it has not come to it since, whatever touches came between; a session still there is then gone and counted once |
| SessionRegistry.ReapedThoughJustTouched | ccxt-gateway/src/ccxt_gateway/mcp_server.py:665-668 | a run in which a session touched after the snapshot is reaped all the same |
| SessionRegistry.SessionManager.RegisterSession | ccxt-gateway/src/ccxt_gateway/mcp_server.py:589-595 | the start step on the real map, with a fresh session object under a new id |
| SessionRegistry.SessionManager.StopSession | ccxt-gateway/src/ccxt_gateway/mcp_server.py:597-613 | the stop step; successful exactly for a registered id |
| SessionRegistry.SessionManager.TouchSession | ccxt-gateway/src/ccxt_gateway/mcp_server.py:664-668 | the touch step |
| SessionRegistry.SessionManager.ReapIdleSessions | ccxt-gateway/src/ccxt_gateway/mcp_server.py:628-646 | an uninterrupted reap removes exactly the sessions idle beyond the timeout |
| Subscriptions.ActiveAlwaysListed | ccxt-gateway/src/ccxt_gateway/api/websocket.py:104-198 | in every run every active id is listed under some exchange |
| Subscriptions.PartitionIffNoResubscribe | ccxt-gateway/src/ccxt_gateway/api/websocket.py:104-198 | the lists are a duplicate-free partition of exactly the active ids throughout a run if and only if no active id is subscribed again |
| Subscriptions.SubscribeExact | ccxt-gateway/src/ccxt_gateway/api/websocket.py:104-108 | subscribing gives the id to the socket and puts it at the end of one list, and does nothing else |
| Subscriptions.UnsubscribeExact | ccxt-gateway/src/ccxt_gateway/api/websocket.py:159-167 | unsubscribing takes the id from its socket and its first place from one list; every other id keeps its receiver, its places and their order |
| Subscriptions.ReceiverIffStanding | ccxt-gateway/src/ccxt_gateway/api/websocket.py:104-209 | in every run, a socket receives the updates of an id if and only if an accepted subscription by it stands, with no later one, no unsubscription and no disconnect |
| Subscriptions.CleanupExact | ccxt-gateway/src/ccxt_gateway/api/websocket.py:182-198 | after cleanup no id maps to the socket, other sockets keep theirs, exactly the socket's ids are gone from the lists, and no list is empty |
| Subscriptions.WithoutInOrder | ccxt-gateway/src/ccxt_gateway/api/websocket.py:191-195 | the clean-up keeps the order and the repetitions of what stays in a list |
| Subscriptions.QuietAfterDisconnect | ccxt-gateway/src/ccxt_gateway/api/websocket.py:182-209 | after a disconnect no update goes to the socket until it subscribes again |
| Subscriptions.Endpoint.HandleSubscribe | ccxt-gateway/src/ccxt_gateway/api/websocket.py:74-108 | the tables after a subscribe, unchanged when a field is missing or the exchange is not running |
| Subscriptions.Endpoint.HandleUnsubscribe | ccxt-gateway/src/ccxt_gateway/api/websocket.py:155-179 | the tables after an unsubscribe, for whichever list the scan meets first |
| Subscriptions.Endpoint.CleanupWebsocket | ccxt-gateway/src/ccxt_gateway/api/websocket.py:182-198 | the in-place clean-up of both tables |
| Relevance.CalculateRelevanceScore | docs/src/assets/search.js:202-243 | the accumulating loops compute the sum of the term scores |
| Relevance.ScoreAdditive | docs/src/assets/search.js:209-240 | scores add up over concatenated term lists |
| Relevance.ScorePermuted | docs/src/assets/search.js:209-240 | reordering terms, headings, keywords or topics does not matter |
| Relevance.ScorePositive | docs/src/assets/search.js:209-242 | positive exactly when some term occurs in some field |
| Relevance.ScoreBound | docs/src/assets/search.js:209-240 | at most 110 + 40 per heading + 30 per keyword + 5 per topic, for each term |
| Relevance.TermScoreExtremes | docs/src/assets/search.js:211-239 | the bound is met when every text is the term, and the score when every text merely contains it |
| Relevance.FieldShares | docs/src/assets/search.js:209-240 | what each field is worth by itself, for an exact and a partial match |
| Relevance.SharesAddUp | docs/src/assets/search.js:209-240 | and that a score is the sum of what its texts are worth |
| Ranking.SearchDocuments | docs/src/assets/search.js:172-200 | the results are the qualifying documents, best first with ties in index order, cut at the maximum, and whatever is left out is behind a full list |
| Ranking.ResultsMean | docs/src/assets/search.js:176-194 | results pass both filters and match some term; while there is room, every document that does is among them |
| Ranking.TopUnique | docs/src/assets/search.js:196-199 | that description has exactly one solution, so any stable sort gives it |
| Ranking.StableSort | docs/src/assets/search.js:196-197 | descending scores, ties in arrival order, nothing lost or added |

## Left out

- Sockets, process spawning, memory readings, HTTP and WebSocket transport: each is an outcome the environment chooses.
- Outer task cancellation and exceptions after the table insert in `start_exchange`; `ZMQBroker.stop` and the cancelling of its futures.
- Supervisor.ProcessManager.CheckAllProcesses: a pass during which another task changes the table, where the original can fail on a vanished id, is not covered.
- RestartBudget.WindowBound: restarts of one exchange that overlap in time are not chains; `Supervisor.MonitorKeepsBudget` has the same condition on a history.
- The liveness check with its own restart before `_send_via_broker` in `call_exchange_method`, and the choice of its timeout; the HTTP status of error answers.
- Adjustments of the system clock: time does not run back, and where the length of a sleep matters (`RestartBudget.Paced`) the clock keeps pace with it.
- Futures are entries of a table named by tickets rather than heap objects; the aliasing this leaves out is the pending map and the waiting coroutine sharing one future, which the ticket stands for.
- Inside the exchange library: what lazy loading and hotfixes do, the renaming of the sandbox parameter (it only may raise), serialisation of results. Upper case after `watch` is the ASCII one.
- The background watch loops: the updates they send may appear at any turn, but their own calls are not modelled.
- Float timestamps that are infinite or not a number.
- Evals that time out or run at once on one session, READY during start-up, output large enough to fill the pipe inside `doeval`, codes that read the session's input.
- SessionStream.BootLoop: at the end of the input the original keeps polling; the model stops there. Header numbers that do not fit a machine word, and blanks outside ASCII, are read as if integers were unbounded and only ASCII had blanks.
- Surrogate halves and invalid UTF-8 in Julia strings: results are sequences of Unicode scalars.
- SessionStream.SessionPipes.ReadResult: the deadline of each line read; Python's limits on the length of a number and the depth of nesting in JSON.
- What setting a property or the credentials changes on the exchange, except the timeout.
- The texts of errors the interpreter itself raises, such as those for parameters that are no dictionary.
- Lower casing and splitting of the query, highlights, the page's user interface; the library sort is modelled by an insertion sort, which `TopUnique` shows to be immaterial.
- Strategy files, TOML registration, configuration loading, the admin routes, the documentation scripts.
