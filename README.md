# Query metric client: reliable batch delivery

This project models the message path of datawave's `QueryMetricClient` and proves
properties of that model. The client hands query metric updates to a message
transport. It tags every send with a fresh correlation id. When confirm acks are
enabled and the transport accepts the send, it registers a count-of-one latch for
the id in a static correlation registry and remembers the update under the id.
Producer confirm acks count these latches down. If every send of a round was
accepted, the client then waits once per remembered id; it retries what failed
to send and what was not confirmed. It stops when a round succeeds, when the time
budget is spent, when the attempt budget is spent, or when a wait dereferences a
missing latch and throws `NullPointerException`. The project also models
`submit`'s request checks, the checks and endpoint choice of the REST path, and
the `QueryMetricClientProperties` / `Retry` configuration beans.

The project has three modules:

- `ClientConfig` (`properties.dfy`) holds the two configuration beans. They are
  classes with their defaults, getters and setters. Each class has a `Snapshot`
  value so that "a setter changes only its own field" can be stated.
- `Delivery` (`delivery.dfy`) is the protocol as values:
  - one ack (`ProcessAck`);
  - the send phase (`SendOne` folded by `SendAll`, and `Retain` for `retainAll`);
  - the await phase (`AwaitOne` folded by `AwaitAll`);
  - one do-while round (`Round`) and a run of rounds (`Run`).

  The lemmas give each fold in closed form and prove what a round does. Over a
  whole run, `RunDelivers` proves what a successful loop promises (`Delivered`):
  every update of the batch had an accepted send in some round, and with confirm
  acks its confirmation had arrived by the last round's waits.
- `QueryMetric` (`client.dfy`) is the client itself:
  - the shared `CorrelationRegistry` object (the latch map, plus a counter that
    stands in for random UUIDs);
  - the `QueryMetricClient` class, whose methods update the registry step by step
    with the same loops as the source. Each method is proved equal to the
    corresponding `Delivery` fold, or, for the retry loop, to a `Run` of `Round`s.
    Every method that changes the registry keeps its `Valid` invariant: each
    registered id was handed out by the id source.
  - `DeliverAcks`, which has no loop of its own in the source. It stands for the
    messaging framework calling `processConfirmAck` once per delivered ack.

The client cannot see some of what drives it. These are the fields of an
`Environment` parameter:

- `accept(id)`: the transport's verdict on the send made under `id`.
- `acks(k)`: the confirm-ack headers delivered during round `k`, between its sends
  and its waits.
- `interrupted(id)`: whether the wait for `id` is interrupted.
- `clock(k)`: the clock read after round `k`; `clock(0)` is the start time.

The iteration order of the `HashSet` copy of the id keys is left open. The method
`IterationOrder` picks an order, and every await result holds for all orders.

A latch is `true` once counted down. A wait is confirmed when the latch of its id
is registered and counted down and the wait is not interrupted. This also models
the timeout, because a wait that times out sees a latch still at one.

Dereferencing a removed latch is not assumed away. It is the outcome
`Thrown(NullPointer)`, which propagates out of `updateMetrics` and `submit` as the
Java exception does.

## Model

Source paths are relative to the repository root.

| member | source | states |
|---|---|---|
| ClientConfig.Retry.constructor | src/main/java/datawave/microservice/querymetric/config/QueryMetricClientProperties.java:105-113 | defaults are maxAttempts 10, failTimeoutMillis 300000 (five minutes), backoffIntervalMillis 5000 (five seconds), and they meet the `@PositiveOrZero` constraints |
| ClientConfig.Retry.SetMaxAttempts | src/main/java/datawave/microservice/querymetric/config/QueryMetricClientProperties.java:115-121 | the getter returns the value set; no other field changes; a non-negative value keeps the record valid |
| ClientConfig.Retry.SetFailTimeoutMillis | src/main/java/datawave/microservice/querymetric/config/QueryMetricClientProperties.java:123-129 | the getter returns the value set; no other field changes; a non-negative value keeps the record valid |
| ClientConfig.Retry.SetBackoffIntervalMillis | src/main/java/datawave/microservice/querymetric/config/QueryMetricClientProperties.java:131-137 | the getter returns the value set; no other field changes; a non-negative value keeps the record valid |
| ClientConfig.QueryMetricClientProperties.constructor | src/main/java/datawave/microservice/querymetric/config/QueryMetricClientProperties.java:12-22 | defaults: disabled, transport MESSAGE, endpoint https://localhost:8443 with the two update paths, confirm acks on with a 500 ms timeout, and a fresh Retry holding its own defaults |
| ClientConfig.QueryMetricClientProperties.SetEnabled | src/main/java/datawave/microservice/querymetric/config/QueryMetricClientProperties.java:24-30 | the getter returns the value set and no other field changes |
| ClientConfig.QueryMetricClientProperties.SetTransport | src/main/java/datawave/microservice/querymetric/config/QueryMetricClientProperties.java:32-38 | the getter returns the value set and no other field changes |
| ClientConfig.QueryMetricClientProperties.SetScheme | src/main/java/datawave/microservice/querymetric/config/QueryMetricClientProperties.java:40-46 | the getter returns the value set and no other field changes |
| ClientConfig.QueryMetricClientProperties.SetHost | src/main/java/datawave/microservice/querymetric/config/QueryMetricClientProperties.java:48-54 | the getter returns the value set and no other field changes |
| ClientConfig.QueryMetricClientProperties.SetPort | src/main/java/datawave/microservice/querymetric/config/QueryMetricClientProperties.java:56-62 | the getter returns the value set and no other field changes |
| ClientConfig.QueryMetricClientProperties.SetUpdateMetricUrl | src/main/java/datawave/microservice/querymetric/config/QueryMetricClientProperties.java:64-70 | the getter returns the value set and no other field changes |
| ClientConfig.QueryMetricClientProperties.SetUpdateMetricsUrl | src/main/java/datawave/microservice/querymetric/config/QueryMetricClientProperties.java:72-78 | the getter returns the value set and no other field changes |
| ClientConfig.QueryMetricClientProperties.SetConfirmAckEnabled | src/main/java/datawave/microservice/querymetric/config/QueryMetricClientProperties.java:80-86 | the getter returns the value set and no other field changes |
| ClientConfig.QueryMetricClientProperties.SetConfirmAckTimeoutMillis | src/main/java/datawave/microservice/querymetric/config/QueryMetricClientProperties.java:88-94 | the getter returns the value set and no other field changes |
| ClientConfig.QueryMetricClientProperties.SetRetry | src/main/java/datawave/microservice/querymetric/config/QueryMetricClientProperties.java:96-102 | the getter returns the very object passed in, and no other field changes |
| Delivery.ProcessAck | src/main/java/datawave/microservice/querymetric/QueryMetricClient.java:112-128 | one ack keeps the registered ids; it counts down only the latch its header names; disabled acks, a missing header and an unregistered id change nothing |
| Delivery.ProcessAcks | src/main/java/datawave/microservice/querymetric/QueryMetricClient.java:112-128 | the acks delivered to `processConfirmAck`, in order; characterised by `ProcessAcksSignals` |
| Delivery.ProcessAcksSignals | src/main/java/datawave/microservice/querymetric/QueryMetricClient.java:112-128 | after a run of acks the registry holds the same ids; a latch is counted down iff it was before or some ack named it (with acks enabled); disabled acks change nothing |
| Delivery.Retain | src/main/java/datawave/microservice/querymetric/QueryMetricClient.java:204 | `retainAll` keeps exactly the elements that occur in the kept list, and never grows the list; `RetainCounts` gives the exact occurrence counts |
| Delivery.RetainCounts | src/main/java/datawave/microservice/querymetric/QueryMetricClient.java:204 | `retainAll` keeps every occurrence of an element of the kept list and drops every occurrence of any other element |
| Delivery.Rejected | src/main/java/datawave/microservice/querymetric/QueryMetricClient.java:191-202 | the failed sends come from the working list, and there are none iff every send was accepted; `RejectedContains` adds that every rejected update is among them, and `RejectedOnly` that every listed update had a rejected send |
| Delivery.RejectedContains | src/main/java/datawave/microservice/querymetric/QueryMetricClient.java:191-202 | every update whose send the transport rejected is among the failed sends |
| Delivery.RejectedOnly | src/main/java/datawave/microservice/querymetric/QueryMetricClient.java:191-202 | every failed send is an update of the working list whose own send, under its id, the transport rejected |
| Delivery.SendOne | src/main/java/datawave/microservice/querymetric/QueryMetricClient.java:191-201 | one send with `sendMessage`: it mints the next id; characterised by `SendOneMaps` and by the `SendAll` fold it is the step of |
| Delivery.SendOneMaps | src/main/java/datawave/microservice/querymetric/QueryMetricClient.java:209-218 | one send registers an uncounted latch and remembers the update under its id iff acks are enabled and the transport accepted it; otherwise registry and id map are unchanged |
| Delivery.SendAllPrefix | src/main/java/datawave/microservice/querymetric/QueryMetricClient.java:191-202 | the send loop's next iteration is one more `SendOne` on the prefix already sent |
| Delivery.SendAll | src/main/java/datawave/microservice/querymetric/QueryMetricClient.java:185-207 | every update is attempted exactly once with one fresh id each; the failed sends are the rejected updates in order; the round's verdict is true iff no send was rejected |
| Delivery.SendAllRemembers | src/main/java/datawave/microservice/querymetric/QueryMetricClient.java:191-196 | with confirm acks the id map gains exactly the accepted updates under their ids; without them it is unchanged |
| Delivery.SendAllRegisters | src/main/java/datawave/microservice/querymetric/QueryMetricClient.java:209-218 | with confirm acks the registry gains a fresh uncounted latch for exactly the accepted ids; without them it is unchanged |
| Delivery.RetainRejected | src/main/java/datawave/microservice/querymetric/QueryMetricClient.java:204 | with no update listed twice, the working list after `retainAll` is exactly the rejected updates, in order |
| Delivery.RetainKeepsAcceptedDuplicate | src/main/java/datawave/microservice/querymetric/QueryMetricClient.java:204 | with update equality taken as structural equality, an equal copy of a rejected update is kept even when its own send was accepted |
| Delivery.AwaitOne | src/main/java/datawave/microservice/querymetric/QueryMetricClient.java:235-238 | one wait with `awaitConfirmAck`; characterised by `AwaitOneKeeps`, `AwaitOneFailure` and the `AwaitAll` fold it is the step of |
| Delivery.AwaitOneKeeps | src/main/java/datawave/microservice/querymetric/QueryMetricClient.java:235-238 | one wait keeps the id-map membership of every other id; its own id stays iff it was confirmed and confirmed ids are not dropped |
| Delivery.AwaitOneFailure | src/main/java/datawave/microservice/querymetric/QueryMetricClient.java:235-238 | one wait on a registered id appends the id's update to the failed confirm acks iff the wait was not confirmed |
| Delivery.AwaitAll | src/main/java/datawave/microservice/querymetric/QueryMetricClient.java:230-256 | the waits never invent or alter id-map entries, keep the entries of ids they do not visit, and never alter a surviving latch |
| Delivery.AwaitPhase | src/main/java/datawave/microservice/querymetric/QueryMetricClient.java:230-242 | waiting over the whole id map throws iff some remembered id has no latch. Otherwise: the verdict stays true iff every wait is confirmed; failed updates are appended in waiting order; exactly the confirmed ids stay in the map; exactly the map's latches are unregistered |
| Delivery.AwaitAllStaysThrown | src/main/java/datawave/microservice/querymetric/QueryMetricClient.java:234-238 | once a wait has thrown, no further wait runs |
| Delivery.AwaitAllThrowsAt | src/main/java/datawave/microservice/querymetric/QueryMetricClient.java:234-238 | a wait that throws is the last wait of the phase |
| Delivery.Unconfirmed | src/main/java/datawave/microservice/querymetric/QueryMetricClient.java:235 | an id is listed iff it is waited for and its wait is not confirmed |
| Delivery.AwaitAllLatches | src/main/java/datawave/microservice/querymetric/QueryMetricClient.java:244-253 | the waits throw iff some awaited id has no latch; otherwise the `finally` has unregistered exactly the awaited latches |
| Delivery.AwaitAllKeepsConfirmed | src/main/java/datawave/microservice/querymetric/QueryMetricClient.java:234-238 | after the waits an awaited id is still in the id map iff its wait was confirmed (none is, in the corrected variant) |
| Delivery.AwaitAllFailures | src/main/java/datawave/microservice/querymetric/QueryMetricClient.java:234-238 | the failed confirm acks gain the updates of the unconfirmed ids, in waiting order |
| Delivery.AwaitAllSuccess | src/main/java/datawave/microservice/querymetric/QueryMetricClient.java:231-241 | the await verdict stays true iff no wait failed |
| Delivery.Working | src/main/java/datawave/microservice/querymetric/QueryMetricClient.java:142-152 | the list a round sends: from the second round on, the failed confirm acks are appended; characterised by `RoundCarriesFailures` |
| Delivery.Pending | src/main/java/datawave/microservice/querymetric/QueryMetricClient.java:142-152 | the failed confirm acks a round's waits append to, emptied from the second round on; characterised by `RoundCarriesFailures` |
| Delivery.Round | src/main/java/datawave/microservice/querymetric/QueryMetricClient.java:141-159 | one pass of the do-while body; characterised by `RoundCarriesFailures`, `RoundSuccess`, `RoundThrows`, `RoundIssues` and `RoundWithoutConfirmAcks` |
| Delivery.Step | src/main/java/datawave/microservice/querymetric/QueryMetricClient.java:141-159 | a state and its successor under one round of the as-written loop, waiting in an enumeration of the id map |
| Delivery.Continues | src/main/java/datawave/microservice/querymetric/QueryMetricClient.java:161 | the do-while condition: the round failed without throwing, and neither the time nor the attempt budget is spent; `UpdateMetrics` ensures it fails after the last round |
| Delivery.Run | src/main/java/datawave/microservice/querymetric/QueryMetricClient.java:141-161 | a run of the loop: each state is a `Step` from the one before, and the loop condition held after every round but the last; extended by `RunSnoc` and preserved by `RunIssues` |
| Delivery.RunSnoc | src/main/java/datawave/microservice/querymetric/QueryMetricClient.java:141-159 | a run extended by one more round, taken after a round the loop went on from, is again a run |
| Delivery.AwaitInputSpec | src/main/java/datawave/microservice/querymetric/QueryMetricClient.java:185-218 | what the waits find, in closed form: with confirm acks the latches are the acks applied to the registry plus one uncounted latch per accepted id of the round, and the id map gains the accepted updates under their ids, all drawn from the round's fresh range |
| Delivery.RoundIssues | src/main/java/datawave/microservice/querymetric/QueryMetricClient.java:141-159 | a round draws one fresh id per update of its working list and keeps every registered or remembered id below the id source |
| Delivery.RunIssues | src/main/java/datawave/microservice/querymetric/QueryMetricClient.java:141-161 | over a whole run, every registered or remembered id stays below the id source |
| Delivery.RetainResends | src/main/java/datawave/microservice/querymetric/QueryMetricClient.java:191-204 | after `retainAll` of the failed sends, each update of the working list is kept or had an accepted send |
| Delivery.RetainOrRemember | src/main/java/datawave/microservice/querymetric/QueryMetricClient.java:191-204 | with confirm acks, each update of the working list or of the id map is afterwards kept for resending or remembered under some id |
| Delivery.RoundSends | src/main/java/datawave/microservice/querymetric/QueryMetricClient.java:141-159 | the list a round leaves to send is `retainAll` of its working list by its rejected updates, and the next round sends that list followed by the failed confirm acks |
| Delivery.RoundResends | src/main/java/datawave/microservice/querymetric/QueryMetricClient.java:141-159 | each update a round sends had an accepted send in that round or is sent again by the next round |
| Delivery.AwaitAllAccounts | src/main/java/datawave/microservice/querymetric/QueryMetricClient.java:230-242 | waiting over distinct ids of the id map loses no update: each one either stays remembered or is appended to the failed confirm acks |
| Delivery.RoundKeepsRemembered | src/main/java/datawave/microservice/querymetric/QueryMetricClient.java:141-159 | every update remembered when the waits start is afterwards still remembered or sent again by the next round |
| Delivery.RoundAccounts | src/main/java/datawave/microservice/querymetric/QueryMetricClient.java:141-159 | with confirm acks, every update a round sends or starts out remembering is afterwards still to be sent or still remembered |
| Delivery.AccountedStep | src/main/java/datawave/microservice/querymetric/QueryMetricClient.java:141-161 | one round keeps the accounting of a run: every update of the batch is still to be sent or had an accepted send in some round so far, and with confirm acks is still to be sent or remembered |
| Delivery.RunStepAt | src/main/java/datawave/microservice/querymetric/QueryMetricClient.java:141-161 | every round of a run is a `Step` from the state before it |
| Delivery.RunAccounts | src/main/java/datawave/microservice/querymetric/QueryMetricClient.java:141-161 | the accounting holds after every round of a run from the batch |
| Delivery.RoundEmpties | src/main/java/datawave/microservice/querymetric/QueryMetricClient.java:159 | a round that succeeds without throwing leaves nothing to send: neither rejected updates nor failed confirm acks |
| Delivery.RoundKeepsOnlyConfirmed | src/main/java/datawave/microservice/querymetric/QueryMetricClient.java:234-238 | with confirm acks, after a round that succeeds without throwing, every id left in the id map was confirmed by that round's wait |
| Delivery.AccountedDelivered | src/main/java/datawave/microservice/querymetric/QueryMetricClient.java:141-161 | a run whose accounting ends with nothing to send and only confirmed ids remembered has delivered its batch |
| Delivery.RunDelivers | src/main/java/datawave/microservice/querymetric/QueryMetricClient.java:130-170 | when the loop's last round succeeds without throwing, every update of the batch had an accepted send in some round, and with confirm acks it is remembered under an id whose wait in the last round was confirmed |
| Delivery.RetainNone | src/main/java/datawave/microservice/querymetric/QueryMetricClient.java:204 | `retainAll` by an empty list leaves nothing |
| Delivery.RoundThrows | src/main/java/datawave/microservice/querymetric/QueryMetricClient.java:159 | a round throws iff its waits run (all sends accepted, acks enabled) and the id map it starts from holds an id with no latch |
| Delivery.RoundWithoutConfirmAcks | src/main/java/datawave/microservice/querymetric/QueryMetricClient.java:159 | with confirm acks disabled a round never throws, leaves registry and id map alone, and succeeds iff every send was accepted |
| Delivery.RoundCarriesFailures | src/main/java/datawave/microservice/querymetric/QueryMetricClient.java:145-159 | given no update listed twice in the working list, the next round sends this round's rejected updates, then the updates whose wait failed in waiting order, and starts with the failed confirm acks emptied |
| Delivery.RoundSuccess | src/main/java/datawave/microservice/querymetric/QueryMetricClient.java:159 | a round that does not throw succeeds iff every send was accepted and, with acks enabled, every wait was confirmed |
| Delivery.RoundSkipsWaits | src/main/java/datawave/microservice/querymetric/QueryMetricClient.java:159 | a rejected send skips the waits: the round fails, and the accepted ids stay registered and remembered |
| Delivery.RoundAllConfirmed | src/main/java/datawave/microservice/querymetric/QueryMetricClient.java:159 | a first round that is accepted and acked throughout (no interrupts) succeeds without throwing |
| Delivery.RetryAfterConfirmThrows | src/main/java/datawave/microservice/querymetric/QueryMetricClient.java:234-252 | as written: an id confirmed in one round keeps its id-map entry but loses its latch, so the round right after it, if its waits run, throws |
| Delivery.TwoUpdatesOneAckSends | src/main/java/datawave/microservice/querymetric/QueryMetricClient.java:185-218 | two accepted sends register ids 0 and 1 with uncounted latches and remember both updates |
| Delivery.TwoUpdatesOneAckInput | src/main/java/datawave/microservice/querymetric/QueryMetricClient.java:112-128 | with one ack for id 0, the first round's waits find latch 0 counted down and latch 1 not |
| Delivery.FirstRoundOneUnconfirmed | src/main/java/datawave/microservice/querymetric/QueryMetricClient.java:141-159 | a first round with one confirmed and one unconfirmed id fails without throwing, and the next round resends exactly the unconfirmed update |
| Delivery.TwoUpdatesOneAckFirstRound | src/main/java/datawave/microservice/querymetric/QueryMetricClient.java:141-159 | in that batch, round 1 fails and round 2 sends only the second update, and its waits run |
| Delivery.TwoUpdatesOneAckThrows | src/main/java/datawave/microservice/querymetric/QueryMetricClient.java:248 | in that batch, round 2 throws whatever the hash-set iteration orders |
| Delivery.FixedRoundNeverThrows | src/main/java/datawave/microservice/querymetric/QueryMetricClient.java:234-252 | corrected (every awaited id leaves the id map): a round keeps every remembered id registered, so no round ever throws |
| QueryMetric.CorrelationRegistry.constructor | src/main/java/datawave/microservice/querymetric/QueryMetricClient.java:69 | the registry starts empty |
| QueryMetric.CorrelationRegistry.FreshId | src/main/java/datawave/microservice/querymetric/QueryMetricClient.java:192 | a new id differs from every id handed out before, so none is registered under it yet |
| QueryMetric.CheckRequest | src/main/java/datawave/microservice/querymetric/QueryMetricClient.java:86-92 | a request passes iff it has a non-empty metric list and a metric type; otherwise the metric-list error comes first, then the metric-type error |
| QueryMetric.RestSubmission | src/main/java/datawave/microservice/querymetric/QueryMetricClient.java:258-278 | the REST path refuses a request with neither user nor trusted user, then a client without a JWT handler (naming the configured transport). Otherwise it posts to the configured endpoint with the request's type: one metric goes alone to the single-update path, any other count as a list to the batch path |
| QueryMetric.UpdatesOf | src/main/java/datawave/microservice/querymetric/QueryMetricClient.java:100-101 | one update per metric, in order, each with the request's metric type |
| QueryMetric.MessageOutcome | src/main/java/datawave/microservice/querymetric/QueryMetricClient.java:100-103 | the message path completes normally, and only as `SentAsMessages`, iff the loop succeeded without throwing; a loop that ends without success becomes a runtime exception; a loop that threw propagates the null-latch exception |
| QueryMetric.QueryMetricClient.constructor | src/main/java/datawave/microservice/querymetric/QueryMetricClient.java:71-79 | the client keeps its configuration, the shared registry and whether it has a JWT handler |
| QueryMetric.QueryMetricClient.ProcessConfirmAck | src/main/java/datawave/microservice/querymetric/QueryMetricClient.java:112-128 | the registry after one ack is `ProcessAck` of the registry before it, and `Valid` is kept |
| QueryMetric.QueryMetricClient.DeliverAcks | src/main/java/datawave/microservice/querymetric/QueryMetricClient.java:112-128 | stands for the framework calling `processConfirmAck` once per delivered ack: the registry after them is `ProcessAcks` of the registry before, and `Valid` is kept |
| QueryMetric.QueryMetricClient.SendMessage | src/main/java/datawave/microservice/querymetric/QueryMetricClient.java:209-218 | returns the transport's verdict; an accepted send with acks enabled registers an uncounted latch under the id, which was handed out before, so `Valid` is kept; otherwise the registry is unchanged |
| QueryMetric.QueryMetricClient.SendMessages | src/main/java/datawave/microservice/querymetric/QueryMetricClient.java:185-207 | equals `SendAll`. It draws one id per update and returns true iff every send was accepted. The working list becomes the rejected updates in order (given no duplicates). With acks enabled, exactly the accepted ids are registered and remembered; without them nothing is. `Valid` is kept |
| QueryMetric.QueryMetricClient.AwaitConfirmAck | src/main/java/datawave/microservice/querymetric/QueryMetricClient.java:244-256 | disabled: false, nothing touched. Enabled: the id's latch is unregistered whatever the outcome, and the result is whether the wait was confirmed. An id without a latch throws the null-latch exception |
| QueryMetric.QueryMetricClient.AwaitConfirmAcks | src/main/java/datawave/microservice/querymetric/QueryMetricClient.java:230-242 | disabled: true, nothing changed. Enabled: it waits over an enumeration of the id map's keys, and registry, id map, failed confirm acks, verdict and throw equal `AwaitAll` over that order. `Valid` is kept |
| QueryMetric.QueryMetricClient.Attempt | src/main/java/datawave/microservice/querymetric/QueryMetricClient.java:141-159 | one pass of the do-while body is the `Round` of the state it starts from. Upkeep runs from the second pass on; the waits run only after all sends succeed; a throw carries the null-latch exception. Every registered or remembered id stays below the id source |
| QueryMetric.QueryMetricClient.UpdateMetrics | src/main/java/datawave/microservice/querymetric/QueryMetricClient.java:130-170 | the loop is a `Run` of rounds from the whole batch. It runs at least one and at most max(1, maxAttempts) rounds. It stops only when a round succeeded, threw, spent the time budget or spent the attempt budget. Result and registry are those of the last round, and without confirm acks it never throws. Every registered or remembered id stays below the id source, so the registry is `Valid` again. These postconditions are the premises of `RunDelivers`, which `UpdateMetric` and `SubmitViaMessage` apply |
| QueryMetric.QueryMetricClient.UpdateMetric | src/main/java/datawave/microservice/querymetric/QueryMetricClient.java:172-174 | the retry loop on a batch of one update: a `Run` of one to max(1, maxAttempts) rounds that stops only when the loop condition fails or a round throws; `Valid` is kept; a `true` result means the update was delivered (`Delivered`) |
| QueryMetric.QueryMetricClient.SubmitViaMessage | src/main/java/datawave/microservice/querymetric/QueryMetricClient.java:100-104 | the retry loop runs on one update per metric, and its last round decides the outcome; a failed delivery is a runtime exception; a normal completion means every update was delivered (`Delivered`) |
| QueryMetric.QueryMetricClient.SubmitWithTransport | src/main/java/datawave/microservice/querymetric/QueryMetricClient.java:86-98 | a bad request throws the check's exception before any send; MESSAGE takes the message path; any other transport takes the REST path and leaves the registry alone |
| QueryMetric.QueryMetricClient.Submit | src/main/java/datawave/microservice/querymetric/QueryMetricClient.java:82-84 | `submit` with the configured transport |
| QueryMetric.IterationOrder | src/main/java/datawave/microservice/querymetric/QueryMetricClient.java:234 | an iteration order of a hash set lists each of its ids exactly once |

## Left out

- The REST POST itself: `createRequestEntity`, the JWT token, the headers, Jackson
  serialisation and `RestTemplate`. They are foreign library calls, so the REST path
  ends at the `RestPost` value it would issue.
- `QueryMetricSupplier.send` is the `accept` oracle. The case where no supplier was
  injected, which makes `sendMessage` dereference null, is not modelled.
- The Spring configuration classes are not modelled. That includes the starter's
  call to a constructor and setter the client does not have.
- `Thread.sleep` before each retry is not modelled, because only the clock
  readings matter to the loop.
- Real time, the latch wait timeout and `InterruptedException` are not modelled
  directly:
  - Acks arrive between the sends and the waits of a round (`acks(k)`). An ack that
    arrives during the waits, before its own id's wait ends, has the same effect as
    one delivered before them. An ack after its latch was removed is ignored, as
    an unknown id is. So every interleaving is one choice of `acks`.
  - A timed-out wait sees an uncounted latch, and an interrupted wait is `interrupted(id)`.
- Threading is not modelled: the concurrent map and ack delivery on another
  thread. Each method runs atomically against the shared registry.
- Logging, `Request.toString` and `Request.Builder` are not modelled.
- Random UUIDs are replaced by the registry's id counter, which gives the same
  freshness.
- QueryMetric.QueryMetricClient.UpdateMetrics: elapsed time is computed on
  unbounded integers, so a `long` overflow of `currentTime - updateStartTime` is
  not modelled. The clock is not assumed monotonic; the contract holds for any
  readings.
- `QueryMetricUpdate.equals` and `BaseQueryMetric.equals` are not part of this
  model. Update equality, which decides `retainAll`, is taken to be structural:
  two updates are equal iff they have the same metric type and their metrics have
  the same query id and the same `contents`, which stands for all their other fields.
- `updateMetrics` mutates the working list it receives in place. The list is
  always a fresh one built by the caller, so the model passes it by value.
- QueryMetric.QueryMetricClient.SubmitViaMessage requires a metric list and a metric
  type. Its only caller checks both first. A Java call with a null type would build
  updates with a null type, which `QueryMetricUpdate` here cannot hold.
- The getters have no contracts of their own. Each is the field it reads, and the
  setters' contracts state the getter after the set.
- `Retry.Validated` models the `@PositiveOrZero` constraints. Bean validation
  applies them when the record is bound, not when a setter is called, so the
  setters keep them only for non-negative values.
- The `enabled` flag is carried but not consulted, as in the client.

## Findings

| source | as written | input that shows it | evidently intended | confidence | as-written member | corrected member |
|---|---|---|---|---|---|---|
| src/main/java/datawave/microservice/querymetric/QueryMetricClient.java:248 | a confirmed wait removes the latch (line 252) but leaves the id in `updatesById` (only failures are removed, line 236); the next round whose waits run awaits it again and `correlationLatchMap.get` returns null | a batch of two distinct updates, every send accepted, confirm acks enabled, only the ack for the first update's id delivered in round 1: round 2 resends the second update, waits for the first id again and throws `NullPointerException` | a confirmed id leaves `updatesById` too, so that every remembered id has a registered latch and no round throws | not executed | Delivery.TwoUpdatesOneAckThrows | Delivery.FixedRoundNeverThrows |

The client methods keep the behaviour as written. Their contracts therefore
carry the `Thrown(NullPointer)` outcome. `Delivery.RetryAfterConfirmThrows`
states the general case: any confirmed id followed by a round whose waits run.
The corrected behaviour is the same `Round` with `dropConfirmed` set.
`Delivery.FixedRoundNeverThrows` proves that every remembered id then stays
registered, so no round throws.
