# SpartanRPC: what its protocols keep

A Dafny model of the RPC framework's client, wire, server, registry and load balancers, with
proofs about every run. Each section that runs under a mutex, each channel operation and each encode
or decode is one step; any goroutine may take the next step. Assignments to memory that several
goroutines share (the request header of the client, the header of a request once worker and watcher
have met) are steps of their own; an assignment to a call by the one goroutine that holds it, or of
the timeout text by the watcher whose timer has fired, goes with the step it follows.

| file | models |
|---|---|
| `Coder.dfy` | the framing of headers and bodies: histories of encodes, the buffered writer, alternating decodes |
| `ClientTables.dfy`, `Client.dfy` | the client's tables and what each section under `entityMutex` does to them; the `Client` and `Call` objects, with `sendCall` and the `receiveCall` loop |
| `CallProtocol.dfy` | any number of callers, the receiver and `terminateCalls` on one client, interleaved |
| `Services.dfy` | looking up `Service.Method` |
| `Connection.dfy` | one server connection: the request loop, and a worker and a watcher for every request |
| `EndToEnd.dfy` | a client and a server joined by their two wires |
| `Answers.dfy`, `Quiescence.dfy`, `Termination.dfy` | over every run of these: which answer belongs to which call, that nobody waits forever, that every run ends |
| `MissingMethod.dfy`, `Misread.dfy` | which requests crash the server's reader, and when a caller is told of an error that is not its own |
| `Runs.dfy`, `OneCall.dfy`, `EmptyErrorText.dfy`, `JsonShutdown.dfy` | concrete runs, and what they are built with |
| `Strings.dfy` | sorting, joining, splitting and trimming of address lists |
| `Registry.dfy`, `Heartbeat.dfy` | the lazily evicting registry against a record that never forgets; the heartbeat loop |
| `LoadBalancer.dfy`, `RegistryBalancer.dfy` | selection; the balancer that caches the registry's list |
| `LoadBalancedClient.dfy` | the cache of one client per address; the merge of a broadcast |

The two protocols are state machines (`Enabled`, `Apply`, `CanRun`, `Run`, `Reachable`). Their
histories (`asked`, `finishes`, `withdrawn`, `frames`, `origins`, `rejected`, `requestsRead`) are
written by steps and never read by a guard. On the client's side `attempts`, the history of encodes,
also stands for its coder: `Coder.EncodeAll` of it is the writer's state and the outgoing wire.
The objects whose methods update
fields are classes, proved against the same specification functions that the machines use
(`ClientTables`, `Coder.Encode`, `Registry.Evict`, `RegistryBalancer.Refreshed`); what their
contracts promise is also written out on the fields.

## What the proofs found

- **A failure can be reported as a success.** A method that fails with an empty error text produces
  a response header that looks like that of a success (server/server.go:232-235), and the client
  takes the success branch (client/client.go:349-364). `EndToEnd.CarriesResultExactly` gives the
  exact condition under which a call without an error carries its method's result;
  `EmptyErrorText.FailureReportedAsSuccess` is a run that reaches the bad state.
- **With no processing limit a connection on which anything was dispatched is never closed by the
  server.** `request_handle` returns before `waitGroup.Done` is deferred (server/server.go:243-258),
  and no limit is the default (server/server.go:45-49). `Connection.ClosesExactly` is the exact
  condition, `Connection.ZeroLimitLeaks` a concrete connection.
- **A body that cannot be encoded breaks the stream for the next success, and a flush that fails is
  reported as a success.** The flush is deferred only after both encodes and its error is dropped
  (coder/json_coder.go:43-57). `Coder.FramingRoundTrip` is the exact condition under which the peer
  reads what was reported as sent, for every way in which the buffered writer can flush by itself or
  fail; `Coder.FramingCounterexample` and `Coder.LostFlushCounterexample` are concrete histories for
  the two halves of it. `Coder.LoneHeader` is a failure that is reported and still leaves a header
  without its body on the wire; it does the peer's reading no harm.
- **With JSON one reply can end the client.** `Decode(nil)` always reports an error with JSON
  (coder/json_coder.go:36-38), and the receiver decodes into nil when a reply carries an error, when
  it claims nothing, and when its call has a nil output (client/client.go:346-357).
  `CallProtocol.JsonReceiverSurvivesExactly` says which replies the receiver survives: those without
  an error that claim a pending call with an output, and no others. `JsonShutdown` has a run for
  each: one method's error, and one success for a call without an output, each terminates another
  call whose method would have succeeded. A call without an output never succeeds
  (`CallProtocol.NilOutputNeverSucceeds`), so a broadcast without an output
  (client/load_balanced_client.go:95-106), which is meant to need no reply, always returns an error
  if it reaches any server, and ends every client that hears an answer. Elsewhere the model leaves
  the outcome of those decodes free, so the safety results hold for coders that can discard a body.
- **A missing method crashes the server's reader.** `search_service` builds the error but returns nil
  (server/server.go:207-211). `MissingMethod.CrashesExactly` says which requests do it, and
  `MissingMethod.OneCallCrashesTheServer` is a run with one call. On a connection from
  `LaunchAndAccept` the panic ends the process, and the run ends there. Over HTTP net/http recovers
  the handler's panic: this connection's reader is gone, its workers and watchers go on, and the
  model lets them.
- **An unregistered service misaligns the stream.** Its body is left unread (server/server.go:156-160)
  and taken for the next header. If bodies can be shaped like headers, the errors that callers are
  told of are their own in every run if and only if the names are those of registered services
  (`Misread.ErrorsAreOwnExactly`). This needs a coder that can discard a body; with JSON the first
  rejection ends the client before the misdirected one is read.
- The registry's comment says five minutes (registry/registry.go:31); the constant is two
  (registry/registry.go:37). The model follows the constant.

## Model

| member | source | states |
|---|---|---|
| Coder.FramingRoundTrip | coder/json_coder.go:31-58 | Alternating header/body decodes give exactly the frames whose encode reported success, if and only if no success was reported after an encode whose body has no text, and every one that was reported arrived; automatic flushes and writes that fail at any point are covered |
| Coder.PeerReadsAPrefix | coder/json_coder.go:41-58 | With writes that fail alone the peer reads exactly what arrived, a prefix of what was reported, and all of it if and only if nothing reported was lost |
| Coder.FramingCounterexample | coder/json_coder.go:41-58 | A body that has no text, then one that has: two headers in a row, and the success is not read |
| Coder.LostFlushCounterexample | coder/json_coder.go:51-57 | One success whose flush failed: nothing is on the wire, and every later encode fails at its header |
| Coder.LoneHeader | coder/json_coder.go:43-50 | A body cut off by a failing write after an automatic flush: the failure is reported, its header alone is on the wire, and the peer reads nothing |
| Coder.ReadTokens | coder/json_coder.go:31-39 | Decoding the tokens of any frames gives those frames back and goes on with what follows |
| Coder.CleanStream | coder/json_coder.go:41-58 | If every body has a text, the wire is the tokens of the frames begun, cut off where a write failed |
| Coder.EncodeMeaning | coder/json_coder.go:41-58 | Whatever an encode was given, however it ends: a success has written everything; what was handed over is on the wire or in the buffer, in order, the header included when its body has no text; and the writer keeps every error but that of the text |
| Coder.TokenAt | coder/json_coder.go:31-58 | Frame i occupies tokens 2i and 2i+1 |
| Coder.OrphanIsSeen | coder/json_coder.go:43-56 | Once a success has followed a failed body the peer reads fewer frames than were reported, and never gets further |
| Coder.JsonCoder.EncodeMessageHeaderAndBody | coder/json_coder.go:41-58 | However the encode ends, wire, buffer and the kept error become what the stream function of the framing lemmas says; after a failed write, or once the connection is closed, the wire gains nothing |
| Coder.JsonCoder.OutcomeOf | coder/json_coder.go:41-58 | A writer that has failed refuses the header; over a closed connection an encode that would have succeeded still reports success although nothing arrives, and whatever ends otherwise has written nothing |
| Client.Client.Close | client/client.go:57-68 | Closes once; a second close is refused; the tables change only in `isClosed` |
| Client.Client.AddCall | client/client.go:81-98 | A closed client refuses with its own error, and one that is only shut down with the other, handing out no number and changing nothing; otherwise the call takes the old counter as its number and is filed under it. Keys stay equal to their calls' numbers and below the counter |
| Client.Client.DeleteCall | client/client.go:101-109 | Returns the call under the number, or nothing, and removes exactly that key |
| Client.Client.TerminateCalls | client/client.go:112-124 | Every pending call is finished once with the error, and all of them stay in the map |
| Client.Client.SendCall | client/client.go:308-333 | Undisturbed: a call on a closed or shut down client is finished with the respective error, and nothing is numbered, filed or written; a failed encode finishes the call and leaves the map as it was but the counter advanced; a reported success leaves the call pending and its own header and inputs with the coder |
| Client.Client.Retract | client/client.go:327-332 | The call that a failed encode finds under its number is removed and finished with the encode's error |
| Client.Client.HandleReply | client/client.go:345-365 | One turn of the loop removes exactly the call under the reply's number and finishes it: with the remote error and its old output, or with the body as its output and no error, or with the decode error and its old output. A reply under no number touches no call; the loop stops exactly when a body does not decode |
| Client.Client.Turn | client/client.go:338-366 | One turn of the loop keeps the loop's account: calls that have left the map are settled by the replies so far, the others are to be settled by the rest |
| Client.Client.ReceiveReplies | client/client.go:338-366 | At the end of the loop every call that left the map is settled, and every other is due the termination error |
| Client.Client.ReceiveAll | client/client.go:336-368 | The loop and then `terminateCalls`: every pending call is finished exactly once with what the replies settle |
| Client.SettledMeaning | client/client.go:338-367 | What settles a call: the first reply under its number if every body before it decodes, and the termination error otherwise |
| Client.Client.ReceiveCall | client/client.go:336-368 | For any sequence of replies, every call that was pending is finished exactly once. If a reply carries its number and every body before the first such reply decodes, that reply decides: its error, its body, or the decode error. Otherwise the call has the termination error and its old output |
| CallProtocol.StepKeepsInv | client/client.go:81-368 | Every step of every party keeps the protocol's invariant |
| CallProtocol.Conservation | client/client.go:81-130 | In every reachable state a started call is in exactly one place: unregistered, pending, claimed by the receiver, claimed by a sender, finished once, or withdrawn by its caller |
| CallProtocol.PendingKeys | client/client.go:91-93 | Every key of `pendingCalls` is its call's number and lies in [1, next) |
| CallProtocol.WithdrawRemovesOnlyItself | client/client.go:272-284 | The `deleteCall` step of a caller that gives up takes exactly its own entry out of `pendingCalls`, nothing at all if it was never registered, and then the caller returns; counter and flags stay |
| CallProtocol.AbandonedIsNotPending | client/client.go:275-278 | In every run, once a caller has given up and returned, no number leads to its call |
| CallProtocol.AtMostOnce | client/client.go:81-130 | Across all interleavings a call is put on its channel, of capacity one, at most once |
| CallProtocol.OnlyTheHolderWrites | client/client.go:308-368 | A step that changes a call's name, inputs, number, output or error is that of the one goroutine that holds the call, and then the call was neither finished nor withdrawn |
| CallProtocol.FinishedIsFinal | client/client.go:308-368 | What a finished call holds is the same in every continuation, whatever the peer, other callers or the shutdown do |
| CallProtocol.FinishNeverBlocks | client/client.go:112-130 | Whoever is about to run `finishCall` finds room, also `terminateCalls` holding both mutexes |
| CallProtocol.HolderNeverStuck | client/client.go:112-124 | The holder of `requestMutex` always has an enabled next step, so the two mutexes cannot deadlock |
| CallProtocol.FirstFailedDecodeIsLast | client/client.go:336-367 | After the first decode that fails, no reply is read, matched or decoded in any continuation |
| CallProtocol.JsonReceiverSurvivesExactly | client/client.go:346-365 | With a coder that cannot decode into nil, the receiver can get back to reading after a reply if and only if the reply carries no error and claims a pending call that has an output |
| CallProtocol.NilOutputNeverSucceeds | client/client.go:357-360 | With such a coder a call without an output that is finished has an error, in every run |
| CallProtocol.ShutdownAdvances | client/client.go:112-124 | While the receiver is shutting down, some step is enabled that brings the end of `terminateCalls` nearer in a well-founded order |
| CallProtocol.ShutdownCompletes | client/client.go:112-124 | From every state in which shutdown has begun, some run brings `terminateCalls` to its end without help from callers, contexts or the peer |
| CallProtocol.ShutdownFinishesIfRunToTheEnd | client/client.go:112-124 | Every run that is left with no step of the holder of `requestMutex` or of the receiver has brought `terminateCalls` to its end |
| CallProtocol.NoCallStranded | client/client.go:112-124 | Once `terminateCalls` has returned, every registered call is finished or was withdrawn by its caller, who has returned; every waiting caller has its result, and `addCall` refuses |
| CallProtocol.TerminateFinishes | client/client.go:117-123 | Each call that `terminateCalls` reaches was unfinished, is finished once with the termination error, and keeps its output; no other call and no table changes |
| CallProtocol.LateCallsAreRefused | client/client.go:85-90 | However a run goes on after the shutdown, a call made or registered too late never gets a number, no table gains an entry, and if it is finished its error is the refusal |
| CallProtocol.LateCallFails | client/client.go:308-317 | Such a call can run straight to its return with the refusal |
| CallProtocol.ClosedRefusesCalls | client/client.go:85-87 | However a run goes on after `Close`: no number is handed out, nobody is asked, and a call that had no number gets none; if it is finished its error is that of a closed client |
| CallProtocol.UndisturbedSend | client/client.go:308-333 | The protocol's steps of a send that nothing disturbs have the effect that the contract of `Client.Client.SendCall` states, for each outcome the coder can give |
| CallProtocol.UndisturbedReply | client/client.go:345-365 | The receiver's steps with a reply that nothing disturbs have the effect that the contract of `Client.Client.HandleReply` states: output, remote error or decode error for the call under the number, and nothing for any other |
| CallProtocol.RequestBelongsToItsCall | client/client.go:319-326 | Every request begun on the wire carries its own call's name, number and inputs, although all senders share one header |
| CallProtocol.RequestsOnTheWire | client/client.go:308-333 | Sequence numbers on the wire strictly increase; the peer reads exactly the requests reported as sent if and only if none was reported after a body without text and all that were reported arrived, and otherwise, if every body has a text, a prefix of them |
| Services.LastDot | server/server.go:194-195 | The last dot, or nothing exactly when there is none |
| Services.SplitIsUnique | server/server.go:194-199 | Every reading of a name as service, dot, method without a dot is the split that the lookup makes |
| Services.SearchServiceMeaning | server/server.go:193-212 | A method is found, or a nil method returned without an error, or the name refused for having no dot, each if and only if the registered services say so |
| Connection.StepKeepsInv | server/server.go:125-259 | Every step of the reader, of any worker and of any watcher keeps the connection's invariant |
| Connection.OneResponsePerRequest | server/server.go:224-259 | A dispatched request has at most one response attempt and at most one frame begun on the wire; that frame is the timeout if the timer won and otherwise the method's outcome, never a mixture |
| Connection.LoserStaysOut | server/server.go:224-259 | A worker that lost the rendezvous never reaches `send_response` and never touches the header, in any continuation |
| Connection.ResponsesOnTheWire | server/server.go:214-222 | The peer reads exactly the responses reported as written, unmixed and in `sendMutex` order, if and only if none was reported after a body without text and all that were reported arrived, and otherwise, if every body has a text, a prefix of them |
| Connection.DrainBeforeClose | server/server.go:125-146 | When the connection has been closed, every request whose header was read, dispatched or rejected, has had exactly one response attempt, and nobody holds or wants `sendMutex` |
| Connection.DrainStepDecreases | server/server.go:224-259 | Once reading has stopped every step, failed writes included, decreases the measure |
| Connection.DrainIsBounded | server/server.go:144-145 | Once reading has stopped, every continuation has at most as many steps as the measure |
| Connection.DrainNeverStuck | server/server.go:144-145 | Until the connection is closed some step is possible that needs no method to return, if the limit is positive or nothing was dispatched |
| Connection.DrainCanFinish | server/server.go:144-145 | Under that condition some run closes the connection |
| Connection.DrainAlwaysEnds | server/server.go:144-145 | Under that condition every run is bounded by the measure, and one that is left with no step has closed the connection |
| Connection.ZeroLimitNeverCloses | server/server.go:243-258 | With no limit and something dispatched, no run closes it |
| Connection.ClosesExactly | server/server.go:125-146 | A connection that stopped reading can be closed if and only if the limit is positive or nothing was dispatched |
| Connection.ZeroLimitLeaks | server/server.go:243-258 | A concrete reachable connection, one request and no limit, that no continuation closes |
| EndToEnd.ClientStepKeepsInv | client/client.go:308-368 | A client step keeps the invariant that relates both sides and both wires |
| EndToEnd.ServerStepKeepsInv | server/server.go:125-259 | So does a server step |
| EndToEnd.Correlation | client/client.go:336-368 | In every run, a call that returns without an error holds what its own method produced from its own inputs, or the method failed with an empty text |
| EndToEnd.CarriesResultExactly | client/client.go:349-364 | Such a call carries its method's successful result if and only if the method does not fail with an empty text on its inputs |
| EndToEnd.LateReplyIsDropped | client/client.go:346-349 | A reply can only claim the call that sent its request, and claims nothing if that call's caller has given up and returned, or if the call is finished |
| Answers.RemoteErrorIsOwn | client/client.go:350-354 | If names are registered, a remote error came with a response to the call's own name and number, and that response has the call's own cause: its inputs were rejected, its timer won, or its method failed on its inputs with that text |
| Answers.OneAnswerPerNumber | server/server.go:125-259 | In every run the requests dispatched have strictly increasing numbers, so a method runs at most once for a call, and no two responses carry the same number |
| Quiescence.EveryCallReturns | client/client.go:272-284 | If the server reads on, every write is flushed and every call names a method that exists, a run left with no step but new calls, `Close`, contexts and failing reads has brought every call back to its caller, even if no timer fires; methods may have failed, inputs been rejected, and the client may have failed to read or decode anything at any moment |
| Termination.EveryRunEnds | client/client.go:272-368 | From any state of any run, with any names and any failures, every continuation without new calls and `Close` is finite, with a bound that depends on the state alone |
| Termination.EveryEndHasReturned | client/client.go:272-284 | Whichever way a run as in `EveryCallReturns` goes on, it ends within a bound, and there every call has returned |
| Termination.EveryCallCanReturn | client/client.go:272-284 | Every such run can go on to a state in which every call has returned |
| Misread.ErrorIsMisdirected | server/server.go:156-160 | A run in which a call of a registered service is told of an error that is not its own, because the body of a call of an unregistered one was read as a header |
| Misread.ErrorsAreOwnExactly | server/server.go:148-178 | Where bodies can be shaped like headers, remote errors are the callers' own in every run of calls of a name and of a registered one if and only if that name is registered too |
| MissingMethod.CrashesExactly | server/server.go:193-212 | The reader has crashed if and only if one of the requests it has searched a method for, its header alone included, names a registered service without that method |
| MissingMethod.OneCallCrashesTheServer | server/server.go:207-211 | A concrete run in which one call of a method that does not exist crashes the server |
| EmptyErrorText.FailureReportedAsSuccess | server/server.go:232-235 | A concrete reachable state in which a call returned without an error although its method failed |
| JsonShutdown.OneErrorEndsTheClient | client/client.go:349-367 | A concrete JSON run in which one method's error ends the client and a second call, sent and valid, returns with the termination error |
| JsonShutdown.OneNilOutputEndsTheClient | client/client.go:354-367 | A concrete JSON run in which a call without an output, whose method succeeds, is told of a decode error and ends the client, and a second call, sent and valid, returns with the termination error |
| Strings.ListIsUnique | registry/registry.go:97-97 | A set has one sorted list without duplicates, whatever order its members were collected in |
| Strings.SortLists | registry/registry.go:97-97 | Sorting a list without duplicates gives the sorted list of the same set |
| Strings.ListRoundTrip | loadBalancer/load_balancer_registry_side.go:53-59 | Joining a list and then splitting, trimming and dropping empties gives it back if and only if every address is non-empty, without comma and without outer space; the empty list included |
| Strings.LeqMeaning | registry/registry.go:97-97 | The order of the answer: a string comes before those it is a prefix of, and otherwise the first character that differs decides, upwards |
| Strings.JoinMeaning | registry/registry.go:109-109 | The joined list is its addresses with one comma between neighbours |
| Strings.SplitMeaning | loadBalancer/load_balancer_registry_side.go:53-53 | Splitting gives the pieces between commas: none holds a comma, and joined they are the header again |
| Strings.TrimMeaning | loadBalancer/load_balancer_registry_side.go:56-57 | Trimming cuts off white space at both ends and nothing else |
| Strings.TrimSpace | loadBalancer/load_balancer_registry_side.go:56-57 | No white space is left at either end |
| Strings.SpaceCharacters | loadBalancer/load_balancer_registry_side.go:56-57 | Which characters are white space |
| Strings.KeptMeaning | loadBalancer/load_balancer_registry_side.go:54-59 | Each piece of the header is trimmed, and kept unless nothing is left of it, in order |
| Registry.Registry.GetAliveServerList | registry/registry.go:83-100 | The answer is the sorted list of exactly the entries whose last heartbeat plus the timeout lies after the time each is judged, or of all if the timeout is zero; exactly the others are deleted, and the kept ones keep their times |
| Registry.Registry.ServeHTTP | registry/registry.go:103-124 | GET answers the joined list, POST registers or rejects an empty address, anything else changes nothing |
| Registry.MapAgreesWithRecord | registry/registry.go:69-100 | The map holds each server's latest heartbeat, and what it has forgotten was dead by the end of the history |
| Registry.LazyEvictionUnobservable | registry/registry.go:69-100 | After any history, a GET answers with exactly the servers that a record which never deletes anything counts as alive at the time each is judged |
| Registry.HeartbeatContinuity | registry/registry.go:69-100 | Heartbeats closer together than the timeout, or any with no timeout, keep a server in every GET answer from the first until the timeout after the last |
| Heartbeat.Sent | server/server.go:322-329 | The heartbeats sent are those up to and including the first failure |
| Heartbeat.Heartbeat | server/server.go:314-330 | At the given rate, or at the default if it is zero, one heartbeat at once and then the arrivals of the schedule that the lemmas below bound from both sides, up to and including the first failure |
| Heartbeat.NextTick | server/server.go:324-326 | The tick taken next comes after the last one taken and at most one period later |
| Heartbeat.TicksOnTheGrid | server/server.go:324-326 | Every tick lies a whole number of periods after the ticker was made, and never before the one that is due |
| Heartbeat.SendsInTurn | server/server.go:322-328 | No heartbeat is sent while the exchange before it is open, nor the k-th of the loop before k periods have passed; the first is sent at once |
| Heartbeat.ArrivalGap | server/server.go:324-328 | Two successive arrivals lie at most a period apart, plus what exchange and scheduling add |
| Heartbeat.ArrivalAt | server/server.go:322-328 | The k-th arrival is the k-th heartbeat sent, after its latency |
| Heartbeat.DefaultPeriodKeepsAlive | server/server.go:315-319 | With the default period and timeout, the loop's own arrivals keep the server in every GET answer if each exchange adds less than a minute |
| LoadBalancer.LoadBalancerClientSide.GetServer | loadBalancer/load_balancer_client_side.go:34-53 | Round robin returns the server at the index modulo the length and moves the index to the position after it; random returns the drawn server, any other mode an error, and neither moves the index; an empty list gives its own error; `serverIndex + 1` stays within 32 bits |
| LoadBalancer.LoadBalancerClientSide.UpdateServerList | loadBalancer/load_balancer_client_side.go:72-78 | The list is replaced and the index kept, even if it now lies beyond the list |
| LoadBalancer.StepMeaning | loadBalancer/load_balancer_client_side.go:34-53 | In the runs that the balance is about, a pick in round-robin mode and no other action moves the index, by one modulo the length |
| LoadBalancer.PositionsFollow | loadBalancer/load_balancer_client_side.go:45-49 | The k-th pick in round-robin mode takes (index + k) mod n, with picks in other modes and same-length updates in between |
| LoadBalancer.CountExactly | loadBalancer/load_balancer_client_side.go:45-49 | How often consecutive positions hit p, as a closed formula |
| LoadBalancer.RoundRobinBalance | loadBalancer/load_balancer_client_side.go:34-53 | Any m picks take every position floor(m/n) or ceil(m/n) times, from any initial index, and exactly which of the two |
| RegistryBalancer.LoadBalancerRegistrySide.UpdateServerList | loadBalancer/load_balancer_registry_side.go:32-39 | The list is replaced, the index kept, and the cache counts as fresh from now |
| RegistryBalancer.LoadBalancerRegistrySide.RefreshServerList | loadBalancer/load_balancer_registry_side.go:41-62 | While the last update plus the timeout lies ahead, the list is served unchanged and without an error, even if the registry is down; after that the header's pieces replace the list, stamped when the answer is back, or a failed request is an error that changes nothing |
| RegistryBalancer.LoadBalancerRegistrySide.GetServer | loadBalancer/load_balancer_registry_side.go:64-70 | Refreshes, then selects in a second section from whatever other goroutines have left in between; a failed refresh selects nothing and moves no index |
| RegistryBalancer.LoadBalancerRegistrySide.GetServerList | loadBalancer/load_balancer_registry_side.go:72-78 | Refreshes, then copies in a second section whatever other goroutines have left in between; nothing if the refresh failed |
| RegistryBalancer.FetchedAreRecent | loadBalancer/load_balancer_registry_side.go:48-60 | Every server parsed from an answer has a heartbeat younger than the registry's timeout plus the latency |
| RegistryBalancer.RefreshTakesTheAnswer | loadBalancer/load_balancer_registry_side.go:48-60 | After a refresh that asked, the cache holds the registry's list, and with it exactly the servers that a record which never deletes anything counts as alive when each was judged |
| RegistryBalancer.OtherwiseTheCacheStays | loadBalancer/load_balancer_registry_side.go:44-52 | A fresh cache, or a registry that is down, leaves the cache as it is; it is accepted if and only if it is fresh or an answer came |
| RegistryBalancer.StepKeepsInv | loadBalancer/load_balancer_registry_side.go:41-62 | Heartbeats, evicting GETs and refreshes keep the bound on the age of the cached servers |
| RegistryBalancer.StalenessBound | loadBalancer/load_balancer_registry_side.go:41-70 | In every run, with heartbeats and GETs reaching the registry at any time, also while an answer is under way, a server in a list accepted at time t has a heartbeat h with t - h below the registry's timeout plus the balancer's plus the latency |
| LoadBalancedClient.LoadBalancedClient.Drop | client/load_balanced_client.go:50-52 | The cached client is closed and its entry removed; the accounting is kept |
| LoadBalancedClient.LoadBalancedClient.Cache | client/load_balanced_client.go:62-62 | A newly dialed client becomes the one entry of its address; the accounting is kept |
| LoadBalancedClient.LoadBalancedClient.Dial | client/load_balanced_client.go:45-65 | A hit is a cached client that is neither closed nor shut down; it is returned, and nothing changes. Otherwise the cached client is closed and replaced by the newly made one, or forgotten if dialing failed. Every client ever dialed is its address's one entry or closed, never both |
| LoadBalancedClient.LoadBalancedClient.Close | client/load_balanced_client.go:34-43 | Every client ever dialed is closed and the cache is empty |
| LoadBalancedClient.FirstErrorMeaning | client/load_balanced_client.go:108-112 | No error exactly when all succeeded; otherwise the first failure in completion order |
| LoadBalancedClient.FirstSuccessMeaning | client/load_balanced_client.go:113-119 | No reply exactly when all failed; otherwise the first success in completion order |
| LoadBalancedClient.Broadcast.Finish | client/load_balanced_client.go:107-120 | One goroutine's section under the mutex: the first failure sets the error and cancels, a later one changes nothing; the first success sets a wanted output, once; and with this the merge is that of one more result |
| LoadBalancedClient.BroadcastCall | client/load_balanced_client.go:86-129 | For every completion order: nil exactly when all calls succeeded, otherwise the first error; a wanted output is assigned at most once, to the first reply, and untouched exactly when all failed |

## Assumptions

- `EndToEnd` assumes that every body has a JSON text. The results about its reachable states are about
  runs whose calls name a registered service; `Termination` and `Misread` do without that. Missing
  methods, writes and flushes that fail anywhere, bodies that do not decode, read failures, timeouts,
  abandonment and `Close` at any moment are all in.
- After a write to the connection has failed, the `bufio.Writer` keeps the error and refuses every
  further write (`Coder.CanEnd`). A JSON text of which only a part was written does not decode, as
  is so for objects, arrays and strings; a bare number could be cut to another number.
- `Registry.Timed` is a clock that never runs backwards; each GET may judge every entry at another
  time within the GET.
- `Heartbeat.NextTick` is a ticker whose ticks are on time and which keeps one tick; how late the loop
  takes a tick is free.
- `RegistryBalancer` runs post only addresses without comma and outer space, and a refresh sees
  what `Registry.Registry.GetAliveServerList` promises.
- Nothing but the other side's answers, the services and the wires restricts when a decode, a timer,
  a context, `Close` or a new call may come: `CallProtocol.EnvironmentIsFree`,
  `Connection.EnvironmentIsFree` and `EndToEnd.OtherStepsAreAllowed` say so.
- Random draws lie in the range that the source asks for. Nothing else is assumed about them.

## Left out

- Sockets, HTTP serving and hijacking, dialing and its timeout: what `XMakeDial`, the HTTP GET of a
  refresh and `sendHeartbeat` return is a parameter.
- Reflection and method filtering in service/service.go: a method is a total function from an input
  to an output or an error text.
- JSON text: a header or a body is one opaque token, and a decode that reports success replaces the
  whole output, where JSON would merge into what is there.
- Logging, the HTML info page, deployment programs and benchmarks. The log line in `BroadcastCall`
  reads the client cache without its mutex; that lookup is assumed to succeed.
- `ParseConnectionInfo`, the splitting of `protocol@address` and the handshake before `serveCoder`.
- Weighted and consistent-hash selection, which the repository declares but answers with an error.
- Wrap-around of the 64-bit sequence number: the counter is unbounded.
- The moment of an automatic flush of a full `bufio.Writer`: what it writes is accounted for when its
  encode ends. In between nobody else writes, so the peer could only see a header sooner.
- Error wording: the processing limit's and the rejections' texts are short constants, and
  `fmt.Errorf` applied to a remote text is taken to keep that text.
- `startCall`'s branches for a nil or an unbuffered channel, which `Call` never takes.
- `Output` after an abandoned return: the receiver may still be writing it, and nothing is claimed.
- The effect of cancelling the shared context on calls of a broadcast that are still running: each
  call's result is a parameter, and cancellation may be the reason for an error.
- The two protocols' interleavings are modelled on values. The classes in `Client.dfy` and
  `LoadBalancedClient.dfy` have each section under a mutex as one method; `Client.Client.SendCall`
  and `Client.Client.ReceiveCall` string such sections together without interference.
- `terminateCalls` releases its two mutexes in one step; nothing runs between the two releases that
  could tell.
- `ServerInfo` records are the times they hold; no other code keeps a reference to one.
- Client.Client.SendCall: excludes steps of other goroutines between its sections; `CallProtocol` has
  them, and `CallProtocol.UndisturbedSend` ties the two together.
- Client.Client.ReceiveCall: takes the replies as a given sequence and excludes callers that
  register or withdraw meanwhile; `CallProtocol` and `EndToEnd` have that interference, and
  `CallProtocol.UndisturbedReply` ties one turn of the loop to them.
- Client.Client.ReceiveReplies: has the same limits as `Client.Client.ReceiveCall`, whose loop it is.
- Client.Client.ReceiveAll: has the same limits as `Client.Client.ReceiveCall`, which it proves.
- CallProtocol.ShutdownCompletes: shows that the shutdown can finish from every such state. Every run
  taken to its end has finished it, but an endless run may starve it, for example by new callers
  that always get `requestMutex` first; the model has no fairness.
- CallProtocol.LateCallFails: shows one schedule; `CallProtocol.LateCallsAreRefused` is about all.
- Heartbeat.DefaultPeriodKeepsAlive: takes a server's heartbeats from one run of its loop; a server
  that starts a second loop is covered only by `Registry.HeartbeatContinuity`.
