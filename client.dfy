/**
  The query metric client: the shared correlation registry, and the client whose
  message path delivers a batch of metric updates reliably (send, collect the
  producer confirm acks, wait, retry), plus the request checks of `submit` and
  the endpoint choice of the REST path.

  Every method that runs the delivery protocol is proved against the value model
  in `Delivery`: what it leaves in the registry and returns is the corresponding
  fold (`SendAll`, `ProcessAcks`, `AwaitAll`) or, for the retry loop, a `Run` of
  `Round`s.
 */
module QueryMetric {
  import opened Delivery
  import ClientConfig

  /**
    The correlation registry (`correlationLatchMap`, a static map shared by every
    client), with the source of fresh correlation ids that replaces random UUIDs.
   */
  class CorrelationRegistry {
    var latches: Latches
    var nextId: nat

    /** Every registered id was handed out before. */
    predicate Valid()
      reads this
    {
      forall id :: id in latches ==> id < nextId
    }

    constructor ()
      ensures latches == map[] && nextId == 0
      ensures Valid()
    {
      latches := map[];
      nextId := 0;
    }

    /** A correlation id no earlier call returned, and so not registered yet. */
    method FreshId() returns (id: CorrelationId)
      modifies this
      ensures id == old(nextId) && nextId == id + 1
      ensures latches == old(latches)
      ensures old(Valid()) ==> id !in latches && Valid()
    {
      id := nextId;
      nextId := nextId + 1;
    }
  }

  /** The caller's identity; only its presence matters here. */
  datatype DatawaveUserDetails = DatawaveUserDetails(username: string)

  /** A metric update request; a Java `null` is `None`. */
  datatype Request = Request(
    metrics: Option<seq<BaseQueryMetric>>,
    metricType: Option<QueryMetricType>,
    user: Option<DatawaveUserDetails>,
    trustedUser: Option<DatawaveUserDetails>)

  /** The body of a REST update: one metric, or the whole list. */
  datatype MetricBody = Single(metric: BaseQueryMetric) | Batch(metrics: seq<BaseQueryMetric>)

  /** The metrics a body carries. */
  function BodyMetrics(body: MetricBody): seq<BaseQueryMetric> {
    match body
    case Single(m) => [m]
    case Batch(ms) => ms
  }

  /** The POST the REST path issues: endpoint, `metricType` query parameter and body. */
  datatype RestPost = RestPost(
    scheme: string,
    host: string,
    port: ClientConfig.int32,
    path: string,
    metricType: QueryMetricType,
    body: MetricBody)

  /** How a request that passed its checks was submitted. */
  datatype Submission = SentAsMessages | Posted(post: RestPost)

  const NO_METRIC_MESSAGE := "Request must contain a query metric"
  const NO_METRIC_TYPE_MESSAGE := "Request must contain a query metric type"
  const NO_USER_MESSAGE := "Request must contain either user or trustedUser to use HTTP/HTTPS transport"
  const NO_JWT_HANDLER_MESSAGE := "jwtTokenHandler can not be null with transportType "
  const UNABLE_MESSAGE := "Unable to process query metric update"

  /** A request `submit` accepts: a non-empty metric list and a metric type. */
  predicate WellFormed(request: Request) {
    request.metrics.Some? && request.metrics.value != [] && request.metricType.Some?
  }

  /**
    The checks `submit` makes before anything is sent: the metric list first, then
    the metric type.
   */
  function CheckRequest(request: Request): (r: Option<Exception>)
    ensures r.None? <==> WellFormed(request)
    ensures request.metrics.None? || request.metrics == Some([]) ==> r == Some(IllegalArgument(NO_METRIC_MESSAGE))
    ensures request.metrics.Some? && request.metrics != Some([]) && request.metricType.None? ==>
      r == Some(IllegalArgument(NO_METRIC_TYPE_MESSAGE))
  {
    if request.metrics.None? || request.metrics.value == [] then Some(IllegalArgument(NO_METRIC_MESSAGE))
    else if request.metricType.None? then Some(IllegalArgument(NO_METRIC_TYPE_MESSAGE))
    else None
  }

  /** `Enum.toString` of a transport type. */
  function TransportName(t: ClientConfig.QueryMetricTransportType): string {
    match t
    case MESSAGE => "MESSAGE"
    case HTTP => "HTTP"
    case HTTPS => "HTTPS"
  }

  /**
    The REST path up to the POST itself: a request with neither user nor trusted
    user is refused, then a client without a JWT token handler (naming the
    configured transport); otherwise a single metric goes to the single-update
    endpoint and any other number to the batch endpoint.
   */
  function RestSubmission(p: ClientConfig.PropertiesValue, hasJwtTokenHandler: bool, request: Request): (r: Outcome<RestPost>)
    requires WellFormed(request)
    ensures r.Thrown? <==> (request.user.None? && request.trustedUser.None?) || !hasJwtTokenHandler
    ensures request.user.None? && request.trustedUser.None? ==> r == Thrown(IllegalArgument(NO_USER_MESSAGE))
    ensures (request.user.Some? || request.trustedUser.Some?) && !hasJwtTokenHandler ==>
      r == Thrown(IllegalArgument(NO_JWT_HANDLER_MESSAGE + TransportName(p.transport)))
    ensures r.Normal? ==>
      && BodyMetrics(r.value.body) == request.metrics.value
      && r.value.metricType == request.metricType.value
      && (r.value.scheme, r.value.host, r.value.port) == (p.scheme, p.host, p.port)
      && (r.value.body.Single? ==> r.value.path == p.updateMetricUrl)
      && (r.value.body.Batch? ==> r.value.path == p.updateMetricsUrl)
      && (r.value.body.Single? <==> |request.metrics.value| == 1)
  {
    if request.user.None? && request.trustedUser.None? then
      Thrown(IllegalArgument(NO_USER_MESSAGE))
    else if !hasJwtTokenHandler then
      Thrown(IllegalArgument(NO_JWT_HANDLER_MESSAGE + TransportName(p.transport)))
    else
      var metrics := request.metrics.value;
      if |metrics| == 1 then
        Normal(RestPost(p.scheme, p.host, p.port, p.updateMetricUrl, request.metricType.value, Single(metrics[0])))
      else
        Normal(RestPost(p.scheme, p.host, p.port, p.updateMetricsUrl, request.metricType.value, Batch(metrics)))
  }

  /** The updates `submitViaMessage` builds: each metric paired with the request's type, in order. */
  function UpdatesOf(metrics: seq<BaseQueryMetric>, metricType: QueryMetricType): (r: seq<QueryMetricUpdate>)
    ensures |r| == |metrics|
    ensures forall i :: 0 <= i < |r| ==> r[i].metric == metrics[i] && r[i].metricType == metricType
    decreases |metrics|
  {
    if metrics == [] then []
    else UpdatesOf(metrics[..|metrics| - 1], metricType) + [QueryMetricUpdate(metrics[|metrics| - 1], metricType)]
  }

  /**
    How the message path ends after the run whose last state is `last`: the null
    latch surfaces as it is, and a run without success becomes a runtime
    exception.
   */
  function MessageOutcome(last: LoopState): (r: Outcome<Submission>)
    ensures r == Normal(SentAsMessages) <==> !last.thrown && last.success
    ensures r.Thrown? && r.error.Runtime? <==> !last.thrown && !last.success
    ensures last.thrown ==> r == Thrown(NullPointer)
    ensures r.Normal? ==> r == Normal(SentAsMessages)
  {
    if last.thrown then Thrown(NullPointer)
    else if last.success then Normal(SentAsMessages)
    else Thrown(Runtime(UNABLE_MESSAGE))
  }

  /** A REST outcome as a submission: the POST issued, or the check that refused it. */
  function RestOutcome(o: Outcome<RestPost>): Outcome<Submission> {
    match o
    case Normal(post) => Normal(Posted(post))
    case Thrown(e) => Thrown(e)
  }

  function Max(a: int, b: int): int {
    if a < b then b else a
  }

  class QueryMetricClient {
    const properties: ClientConfig.QueryMetricClientProperties
    /** The registry every client shares. */
    const registry: CorrelationRegistry
    /** Whether the optional `JWTTokenHandler` was supplied. */
    const hasJwtTokenHandler: bool

    constructor (properties: ClientConfig.QueryMetricClientProperties, registry: CorrelationRegistry, hasJwtTokenHandler: bool)
      ensures this.properties == properties && this.registry == registry
      ensures this.hasJwtTokenHandler == hasJwtTokenHandler
    {
      this.properties := properties;
      this.registry := registry;
      this.hasJwtTokenHandler := hasJwtTokenHandler;
    }

    /**
      A producer confirm ack whose correlation header is `header`: counts down the
      latch of a registered id, and ignores a missing header or an unknown id.
     */
    method ProcessConfirmAck(header: Option<CorrelationId>)
      requires registry.Valid()
      modifies registry
      ensures registry.Valid()
      ensures registry.latches == ProcessAck(old(registry.latches), properties.confirmAckEnabled, header)
      ensures registry.nextId == old(registry.nextId)
    {
      if properties.IsConfirmAckEnabled() {
        if header.Some? {
          var correlationId := header.value;
          if correlationId in registry.latches {
            registry.latches := registry.latches[correlationId := true];
          }
        }
      }
    }

    /** The acks the environment delivers between the sends and the waits of a round, in order. */
    method DeliverAcks(headers: seq<Option<CorrelationId>>)
      requires registry.Valid()
      modifies registry
      ensures registry.Valid()
      ensures registry.latches == ProcessAcks(old(registry.latches), properties.confirmAckEnabled, headers)
      ensures registry.nextId == old(registry.nextId)
    {
      for i := 0 to |headers|
        invariant registry.latches == ProcessAcks(old(registry.latches), properties.confirmAckEnabled, headers[..i])
        invariant registry.nextId == old(registry.nextId)
        invariant registry.Valid()
      {
        ProcessConfirmAck(headers[i]);
        assert headers[..i + 1][..i] == headers[..i];
      }
      assert headers[..|headers|] == headers;
    }

    /**
      Hands one update to the transport under `correlationId`; `accept` is the
      transport's verdict.  An accepted send registers a fresh latch when confirm
      acks are enabled.
     */
    method SendMessage(correlationId: CorrelationId, update: QueryMetricUpdate, accept: CorrelationId -> bool) returns (success: bool)
      requires registry.Valid() && correlationId < registry.nextId
      modifies registry
      ensures registry.Valid()
      ensures success == accept(correlationId)
      ensures registry.latches ==
        if success && properties.confirmAckEnabled then old(registry.latches)[correlationId := false] else old(registry.latches)
      ensures registry.nextId == old(registry.nextId)
    {
      success := false;
      if accept(correlationId) {
        success := true;
        if properties.IsConfirmAckEnabled() {
          registry.latches := registry.latches[correlationId := false];
        }
      }
    }

    /**
      Sends every update of the working list once, each under a fresh id; remembers
      the accepted ones by id (with confirm acks enabled); and returns the working
      list cut down by `retainAll` to the failed sends.
     */
    method SendMessages(updates: seq<QueryMetricUpdate>, updatesById: UpdatesById, accept: CorrelationId -> bool)
      returns (remaining: seq<QueryMetricUpdate>, updatesById': UpdatesById, success: bool)
      requires registry.Valid()
      modifies registry
      ensures registry.Valid()
      ensures var snd := SendAll(SendState(old(registry.latches), old(registry.nextId), updatesById, [], true),
                                 updates, properties.confirmAckEnabled, accept);
        && registry.latches == snd.latches && registry.nextId == snd.nextId
        && updatesById' == snd.updatesById && success == snd.success
        && remaining == Retain(updates, snd.failedSend)
      ensures registry.nextId == old(registry.nextId) + |updates|
      ensures success <==> AllAccepted(old(registry.nextId), |updates|, accept)
      ensures NoDuplicates(updates) ==> remaining == Rejected(updates, old(registry.nextId), accept)
      ensures properties.confirmAckEnabled ==>
        && registry.latches == old(registry.latches) + Registered(old(registry.nextId), |updates|, accept)
        && updatesById' == updatesById + Accepted(updates, old(registry.nextId), accept)
      ensures !properties.confirmAckEnabled ==> registry.latches == old(registry.latches) && updatesById' == updatesById
    {
      ghost var s0 := SendState(registry.latches, registry.nextId, updatesById, [], true);
      var failedSend := [];
      success := true;
      updatesById' := updatesById;
      for i := 0 to |updates|
        invariant SendAll(s0, updates[..i], properties.confirmAckEnabled, accept) ==
          SendState(registry.latches, registry.nextId, updatesById', failedSend, success)
        invariant registry.Valid()
      {
        var update := updates[i];
        ghost var before := SendState(registry.latches, registry.nextId, updatesById', failedSend, success);
        SendAllPrefix(s0, updates, i, properties.confirmAckEnabled, accept);
        var correlationId := registry.FreshId();
        var sent := SendMessage(correlationId, update, accept);
        if sent {
          if properties.IsConfirmAckEnabled() {
            updatesById' := updatesById'[correlationId := update];
          }
        } else {
          failedSend := failedSend + [update];
          success := false;
        }
      }
      assert updates[..|updates|] == updates;
      assert failedSend == Rejected(updates, s0.nextId, accept) by {
        assert [] + Rejected(updates, s0.nextId, accept) == Rejected(updates, s0.nextId, accept);
      }
      remaining := Retain(updates, failedSend);
      SendAllRegisters(s0, updates, properties.confirmAckEnabled, accept);
      SendAllRemembers(s0, updates, properties.confirmAckEnabled, accept);
      if NoDuplicates(updates) {
        RetainRejected(updates, s0.nextId, accept);
      }
    }

    /**
      Waits for the ack of one id and unregisters its latch whatever happens.  The
      wait succeeds iff the latch was counted down and the wait not interrupted; an
      id with no latch dereferences a null latch and throws.  Without confirm acks
      it reports failure and touches nothing.
     */
    method AwaitConfirmAck(correlationId: CorrelationId, interrupted: CorrelationId -> bool) returns (r: Outcome<bool>)
      modifies registry
      ensures old(registry.Valid()) ==> registry.Valid()
      ensures !properties.confirmAckEnabled ==> r == Normal(false) && registry.latches == old(registry.latches)
      ensures properties.confirmAckEnabled ==> registry.latches == old(registry.latches) - {correlationId}
      ensures properties.confirmAckEnabled && correlationId !in old(registry.latches) ==>
        r == Thrown(NullPointer) && registry.latches == old(registry.latches)
      ensures properties.confirmAckEnabled && correlationId in old(registry.latches) ==>
        r == Normal(Confirmed(old(registry.latches), correlationId, interrupted))
      ensures registry.nextId == old(registry.nextId)
    {
      r := Normal(false);
      if properties.IsConfirmAckEnabled() {
        if correlationId !in registry.latches {
          r := Thrown(NullPointer);
          assert registry.latches - {correlationId} == registry.latches;
        } else if !interrupted(correlationId) {
          r := Normal(registry.latches[correlationId]);
        }
        registry.latches := registry.latches - {correlationId};
      }
    }

    /**
      With confirm acks enabled, waits once for every id of the id map, in the
      iteration order of a copy of its key set (returned as `order`); an id whose
      wait fails leaves the id map and its update is appended to the failed confirm
      acks.  A throwing wait ends the phase.
     */
    method AwaitConfirmAcks(updatesById: UpdatesById, failedConfirmAck: seq<QueryMetricUpdate>, interrupted: CorrelationId -> bool)
      returns (r: Outcome<bool>, updatesById': UpdatesById, failedConfirmAck': seq<QueryMetricUpdate>, ghost order: seq<CorrelationId>)
      requires registry.Valid()
      modifies registry
      ensures registry.Valid()
      ensures registry.nextId == old(registry.nextId)
      ensures !properties.confirmAckEnabled ==>
        && r == Normal(true) && order == []
        && updatesById' == updatesById && failedConfirmAck' == failedConfirmAck
        && registry.latches == old(registry.latches)
      ensures properties.confirmAckEnabled ==>
        && Enumerates(order, updatesById.Keys)
        && var a := AwaitAll(AckState(old(registry.latches), updatesById, failedConfirmAck, true, false), order, interrupted, false);
        && registry.latches == a.latches
        && (r.Thrown? <==> a.thrown)
        && (r.Thrown? ==> r.error == NullPointer)
        && (r.Normal? ==> r.value == a.success && updatesById' == a.updatesById && failedConfirmAck' == a.failedConfirmAck)
    {
      r := Normal(true);
      updatesById', failedConfirmAck' := updatesById, failedConfirmAck;
      order := [];
      if !properties.IsConfirmAckEnabled() {
        return;
      }
      ghost var s0 := AckState(registry.latches, updatesById, failedConfirmAck, true, false);
      var success := true;
      var ids := IterationOrder(updatesById.Keys);
      order := ids;
      for i := 0 to |ids|
        invariant AwaitAll(s0, ids[..i], interrupted, false) ==
          AckState(registry.latches, updatesById', failedConfirmAck', success, false)
        invariant registry.nextId == old(registry.nextId)
      {
        var correlationId := ids[i];
        ghost var prior := AwaitAll(s0, ids[..i], interrupted, false);
        var confirmed := AwaitConfirmAck(correlationId, interrupted);
        assert ids[..i + 1][..i] == ids[..i];
        assert AwaitAll(s0, ids[..i + 1], interrupted, false) == AwaitOne(prior, correlationId, interrupted, false);
        if confirmed.Thrown? {
          AwaitAllThrowsAt(s0, ids, i, interrupted, false);
          r := confirmed;
          return;
        }
        if !confirmed.value {
          failedConfirmAck' := failedConfirmAck' + [updatesById'[correlationId]];
          updatesById' := updatesById' - {correlationId};
          success := false;
        }
      }
      assert ids[..|ids|] == ids;
      r := Normal(success);
    }
    /**
      One pass of the do-while body of the retry loop, the `attempt`-th: retry
      upkeep from the second pass on (the failed confirm acks rejoin the working
      list and are cleared), the sends, the acks the environment delivers
      meanwhile, and the waits when every send was accepted.  `next` is the
      `Round` this pass performs from `s`; a throwing wait ends the pass with the
      registry as the round leaves it.
     */
    method Attempt(ghost s: LoopState, attempt: nat, updates: seq<QueryMetricUpdate>, updatesById: UpdatesById,
                   failedConfirmAck: seq<QueryMetricUpdate>, env: Environment)
      returns (r: Outcome<bool>, updates': seq<QueryMetricUpdate>, updatesById': UpdatesById,
               failedConfirmAck': seq<QueryMetricUpdate>, ghost order: seq<CorrelationId>, ghost next: LoopState)
      requires attempt >= 1
      requires s.latches == registry.latches && s.nextId == registry.nextId
      requires s.updates == updates && s.updatesById == updatesById && s.failedConfirmAck == failedConfirmAck
      requires Issued(s.latches, s.updatesById, s.nextId)
      modifies registry
      ensures Issued(next.latches, next.updatesById, next.nextId)
      ensures Step(s, next, properties.confirmAckEnabled, env, attempt, order)
      ensures registry.latches == next.latches && registry.nextId == next.nextId
      ensures r.Thrown? <==> next.thrown
      ensures r.Thrown? ==> r.error == NullPointer
      ensures r.Normal? ==>
        r.value == next.success && updates' == next.updates
        && updatesById' == next.updatesById && failedConfirmAck' == next.failedConfirmAck
      ensures !properties.confirmAckEnabled ==> r.Normal?
    {
      var enabled := properties.IsConfirmAckEnabled();
      var work, pending := updates, failedConfirmAck;
      if attempt > 1 {
        work := work + pending;
        pending := [];
      }
      assert work == Working(s, attempt) && pending == Pending(s, attempt);
      ghost var snd := SendPhase(s, enabled, env, attempt);
      var sent;
      updates', updatesById', sent := SendMessages(work, updatesById, env.accept);
      assert registry.latches == snd.latches && updatesById' == snd.updatesById && sent == snd.success;
      assert registry.nextId == snd.nextId && updates' == Retain(work, snd.failedSend);
      DeliverAcks(env.acks(attempt));
      ghost var input := AwaitInput(s, enabled, env, attempt);
      assert input == AckState(registry.latches, updatesById', pending, true, false);
      failedConfirmAck' := pending;
      order := [];
      r := Normal(sent);
      if sent {
        r, updatesById', failedConfirmAck', order := AwaitConfirmAcks(updatesById', pending, env.interrupted);
      }
      ghost var acked := if Awaits(s, enabled, env, attempt) then AwaitAll(input, order, env.interrupted, false) else input;
      next := LoopState(acked.latches, snd.nextId, updates', acked.updatesById, acked.failedConfirmAck,
                        snd.success && acked.success, acked.thrown);
      assert WaitOrder(s, enabled, env, attempt, order);
      assert next.updates == Retain(Working(s, attempt), snd.failedSend);
      RoundIssues(s, enabled, env, attempt, order, false);
    }

    /**
      The retry loop of the message path: rounds run until one succeeds, one
      throws, the time budget is spent or the attempt budget is spent, and at least
      one round runs.  The run is the `Run` of rounds starting from the whole
      batch; the ghost `orders` are the iteration orders of the waits, and
      `|orders|` is the attempt count.  The registry's `Valid` is stated here over
      its fields, as `Issued` with nothing remembered, and it holds again at the end.
     */
    method UpdateMetrics(updates: seq<QueryMetricUpdate>, env: Environment)
      returns (r: Outcome<bool>, ghost states: seq<LoopState>, ghost orders: seq<seq<CorrelationId>>)
      requires Issued(registry.latches, map[], registry.nextId)
      modifies registry
      ensures Run(states, orders, properties.confirmAckEnabled, env,
                  properties.retry.maxAttempts as int, properties.retry.failTimeoutMillis as int)
      ensures states[0] == Start(old(registry.latches), old(registry.nextId), updates)
      ensures Issued(states[|orders|].latches, states[|orders|].updatesById, states[|orders|].nextId)
      ensures registry.latches == states[|orders|].latches && registry.nextId == states[|orders|].nextId
      ensures r.Thrown? <==> states[|orders|].thrown
      ensures r.Thrown? ==> r.error == NullPointer
      ensures r.Normal? ==> r.value == states[|orders|].success
      ensures !properties.confirmAckEnabled ==> r.Normal?
      ensures 1 <= |orders| <= Max(1, properties.retry.maxAttempts as int)
      ensures !Continues(states[|orders|], env, |orders|, properties.retry.maxAttempts as int, properties.retry.failTimeoutMillis as int)
      ensures r == Normal(false) ==>
        env.clock(|orders|) - env.clock(0) >= properties.retry.failTimeoutMillis as int || |orders| >= properties.retry.maxAttempts as int
    {
      ghost var enabled := properties.confirmAckEnabled;
      var retry := properties.GetRetry();
      var maxAttempts := retry.GetMaxAttempts() as int;
      var failTimeoutMillis := retry.GetFailTimeoutMillis() as int;
      var updateStartTime := env.clock(0);
      var work := updates;
      var updatesById: UpdatesById := map[];
      var failedConfirmAck: seq<QueryMetricUpdate> := [];
      var attempts := 0;
      var success := false;
      states := [Start(registry.latches, registry.nextId, updates)];
      orders := [];
      while true
        invariant attempts == |orders| && |states| == attempts + 1
        invariant maxAttempts == properties.retry.maxAttempts as int
        invariant failTimeoutMillis == properties.retry.failTimeoutMillis as int
        invariant states[0] == Start(old(registry.latches), old(registry.nextId), updates)
        invariant enabled == properties.confirmAckEnabled
        invariant Run(states, orders, enabled, env, maxAttempts, failTimeoutMillis)
        invariant states[attempts] ==
          LoopState(registry.latches, registry.nextId, work, updatesById, failedConfirmAck, success, false)
        invariant attempts >= 1 ==> Continues(states[attempts], env, attempts, maxAttempts, failTimeoutMillis)
        invariant Issued(registry.latches, updatesById, registry.nextId)
        decreases Max(0, maxAttempts - attempts)
      {
        ghost var s := states[attempts];
        attempts := attempts + 1;
        var acked;
        ghost var order, next;
        acked, work, updatesById, failedConfirmAck, order, next := Attempt(s, attempts, work, updatesById, failedConfirmAck, env);
        assert enabled == properties.confirmAckEnabled;
        assert maxAttempts == properties.retry.maxAttempts as int && failTimeoutMillis == properties.retry.failTimeoutMillis as int;
        RunSnoc(states, orders, enabled, env, maxAttempts, failTimeoutMillis, order, next);
        states, orders := states + [next], orders + [order];
        if acked.Thrown? {
          r := acked;
          break;
        }
        success := acked.value;
        var currentTime := env.clock(attempts);
        if !(!success && currentTime - updateStartTime < failTimeoutMillis && attempts < maxAttempts) {
          r := Normal(success);
          break;
        }
      }
    }

    /** `updateMetrics` on a batch of one update. */
    method UpdateMetric(update: QueryMetricUpdate, env: Environment)
      returns (r: Outcome<bool>, ghost states: seq<LoopState>, ghost orders: seq<seq<CorrelationId>>)
      requires registry.Valid()
      modifies registry
      ensures registry.Valid()
      ensures Run(states, orders, properties.confirmAckEnabled, env,
                  properties.retry.maxAttempts as int, properties.retry.failTimeoutMillis as int)
      ensures states[0] == Start(old(registry.latches), old(registry.nextId), [update])
      ensures 1 <= |orders| <= Max(1, properties.retry.maxAttempts as int)
      ensures !Continues(states[|orders|], env, |orders|, properties.retry.maxAttempts as int, properties.retry.failTimeoutMillis as int)
      ensures registry.latches == states[|orders|].latches && registry.nextId == states[|orders|].nextId
      ensures r == if states[|orders|].thrown then Thrown(NullPointer) else Normal(states[|orders|].success)
      ensures r == Normal(true) ==> Delivered(states, properties.confirmAckEnabled, env)
    {
      r, states, orders := UpdateMetrics([update], env);
      RunDelivers(states, orders, properties.confirmAckEnabled, env, properties.retry.maxAttempts as int,
                  properties.retry.failTimeoutMillis as int, old(registry.latches), old(registry.nextId), [update]);
    }

    /**
      The message path of `submit` after its checks: one update per metric, in
      order, delivered by the retry loop; a delivery that ends without success is
      reported as a runtime exception.
     */
    method SubmitViaMessage(request: Request, env: Environment)
      returns (r: Outcome<Submission>, ghost states: seq<LoopState>, ghost orders: seq<seq<CorrelationId>>)
      requires request.metrics.Some? && request.metricType.Some?
      requires registry.Valid()
      modifies registry
      ensures registry.Valid()
      ensures MessageRun(request, env, r, states, orders, old(registry.latches), old(registry.nextId), registry.latches, registry.nextId)
      ensures r.Normal? ==> Delivered(states, properties.confirmAckEnabled, env)
    {
      var updates := UpdatesOf(request.metrics.value, request.metricType.value);
      var delivered;
      delivered, states, orders := UpdateMetrics(updates, env);
      RunDelivers(states, orders, properties.confirmAckEnabled, env, properties.retry.maxAttempts as int,
                  properties.retry.failTimeoutMillis as int, old(registry.latches), old(registry.nextId), updates);
      if delivered.Thrown? {
        r := Thrown(delivered.error);
      } else if !delivered.value {
        r := Thrown(Runtime(UNABLE_MESSAGE));
      } else {
        r := Normal(SentAsMessages);
      }
    }

    /**
      A message delivery of `request`: a run of the retry loop from the whole
      batch, at least one round and at most `max(1, maxAttempts)`, whose last state
      is the registry afterwards and decides the outcome.
     */
    ghost predicate MessageRun(request: Request, env: Environment, r: Outcome<Submission>,
                               states: seq<LoopState>, orders: seq<seq<CorrelationId>>,
                               latches0: Latches, nextId0: nat, latches: Latches, nextId: nat)
      requires request.metrics.Some? && request.metricType.Some?
      reads this, properties, properties.retry
    {
      var maxAttempts, failTimeoutMillis := properties.retry.maxAttempts as int, properties.retry.failTimeoutMillis as int;
      && |states| == |orders| + 1
      && Run(states, orders, properties.confirmAckEnabled, env, maxAttempts, failTimeoutMillis)
      && states[0] == Start(latches0, nextId0, UpdatesOf(request.metrics.value, request.metricType.value))
      && 1 <= |orders| <= Max(1, maxAttempts)
      && !Continues(states[|orders|], env, |orders|, maxAttempts, failTimeoutMillis)
      && latches == states[|orders|].latches && nextId == states[|orders|].nextId
      && Issued(latches, states[|orders|].updatesById, nextId)
      && r == MessageOutcome(states[|orders|])
    }

    /**
      `submit` with an explicit transport: the request checks first (nothing is
      sent for a bad request); then the message path, or the REST path, which
      leaves the registry alone.
     */
    method SubmitWithTransport(request: Request, transportType: ClientConfig.QueryMetricTransportType, env: Environment)
      returns (r: Outcome<Submission>, ghost states: seq<LoopState>, ghost orders: seq<seq<CorrelationId>>)
      requires registry.Valid()
      modifies registry
      ensures registry.Valid()
      ensures CheckRequest(request).Some? ==>
        r == Thrown(CheckRequest(request).value) && orders == []
        && registry.latches == old(registry.latches) && registry.nextId == old(registry.nextId)
      ensures CheckRequest(request).None? && transportType == ClientConfig.MESSAGE ==>
        MessageRun(request, env, r, states, orders, old(registry.latches), old(registry.nextId), registry.latches, registry.nextId)
      ensures CheckRequest(request).None? && transportType != ClientConfig.MESSAGE ==>
        && r == RestOutcome(RestSubmission(properties.Snapshot(), hasJwtTokenHandler, request)) && orders == []
        && registry.latches == old(registry.latches) && registry.nextId == old(registry.nextId)
    {
      states, orders := [], [];
      var invalid := CheckRequest(request);
      if invalid.Some? {
        r := Thrown(invalid.value);
      } else if transportType == ClientConfig.MESSAGE {
        r, states, orders := SubmitViaMessage(request, env);
      } else {
        r := RestOutcome(RestSubmission(properties.Snapshot(), hasJwtTokenHandler, request));
      }
    }

    /** `submit` over the configured transport. */
    method Submit(request: Request, env: Environment)
      returns (r: Outcome<Submission>, ghost states: seq<LoopState>, ghost orders: seq<seq<CorrelationId>>)
      requires registry.Valid()
      modifies registry
      ensures registry.Valid()
      ensures CheckRequest(request).Some? ==>
        r == Thrown(CheckRequest(request).value) && orders == []
        && registry.latches == old(registry.latches) && registry.nextId == old(registry.nextId)
      ensures CheckRequest(request).None? && properties.transport == ClientConfig.MESSAGE ==>
        MessageRun(request, env, r, states, orders, old(registry.latches), old(registry.nextId), registry.latches, registry.nextId)
      ensures CheckRequest(request).None? && properties.transport != ClientConfig.MESSAGE ==>
        && r == RestOutcome(RestSubmission(properties.Snapshot(), hasJwtTokenHandler, request)) && orders == []
        && registry.latches == old(registry.latches) && registry.nextId == old(registry.nextId)
    {
      r, states, orders := SubmitWithTransport(request, properties.GetTransport(), env);
    }
  }

  /** The iteration order of a hash set of ids: every id once, in an order the model leaves open. */
  method IterationOrder(ids: set<CorrelationId>) returns (order: seq<CorrelationId>)
    ensures Enumerates(order, ids)
  {
    order := [];
    var pending := ids;
    while pending != {}
      invariant NoDuplicates(order)
      invariant forall id :: id in order ==> id in ids && id !in pending
      invariant forall id :: id in ids ==> id in order || id in pending
      invariant pending <= ids
      decreases pending
    {
      var id :| id in pending;
      NoDuplicatesAppend(order, [id]);
      order := order + [id];
      pending := pending - {id};
    }
  }
}
