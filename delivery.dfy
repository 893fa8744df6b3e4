/**
  The reliable batch-delivery protocol of the query metric client, as values.

  One round of the retry loop has three phases: the send phase hands every update
  of the working list to the message transport under a fresh correlation id; the
  environment then delivers producer confirm acks, each of which counts down the
  latch registered for its id; the await phase (only when every send of the round
  was accepted) waits once per id remembered in `updatesById` and unregisters the
  latch.  Each phase is a fold of one step over its input, and the lemmas give the
  closed form of each fold.

  The transport, the ack stream, thread interrupts and the clock are parameters
  (`Environment`): `accept(id)` is the transport's verdict for the send made under
  `id`, which is unique to that send.
 */
module Delivery {

  /** A correlation id; fresh ids are drawn from a counter. */
  type CorrelationId = nat

  datatype Option<+T> = None | Some(value: T)

  /**
    A query metric: the query it describes, and `contents`, which stands for the
    rest of its fields.  Two metrics of one query that differ anywhere else have
    different `contents`, so they are distinct values.
   */
  datatype BaseQueryMetric = BaseQueryMetric(queryId: string, contents: nat)

  /** The classification tag sent with every update. */
  datatype QueryMetricType = QueryMetricType(name: string)

  /** One record to deliver. */
  datatype QueryMetricUpdate = QueryMetricUpdate(metric: BaseQueryMetric, metricType: QueryMetricType)

  /** The exceptions that leave the client. */
  datatype Exception =
    | IllegalArgument(message: string)
    | NullPointer
    | Runtime(message: string)

  /** Normal completion with a value, or an exception thrown. */
  datatype Outcome<+T> = Normal(value: T) | Thrown(error: Exception)

  /** The correlation registry: for every registered id, whether its count-of-one latch has reached zero. */
  type Latches = map<CorrelationId, bool>

  type UpdatesById = map<CorrelationId, QueryMetricUpdate>

  predicate NoDuplicates<T(==)>(s: seq<T>) {
    forall i, j :: 0 <= i < j < |s| ==> s[i] != s[j]
  }

  /** Every id the registry or the id map mentions was issued before `nextId`. */
  predicate Issued(latches: Latches, updatesById: UpdatesById, nextId: nat) {
    && (forall id :: id in latches ==> id < nextId)
    && (forall id :: id in updatesById ==> id < nextId)
  }

  // ---------------------------------------------------------------------------
  // Confirm acks
  // ---------------------------------------------------------------------------

  /**
    One confirm ack carrying the correlation header `header`: counts down the latch
    of a registered id; a missing header, an unregistered id or disabled confirm
    acks leave the registry as it is.
   */
  function ProcessAck(latches: Latches, confirmAckEnabled: bool, header: Option<CorrelationId>): (r: Latches)
    ensures r.Keys == latches.Keys
    ensures !confirmAckEnabled || header.None? || header.value !in latches ==> r == latches
    ensures forall id :: id in latches && header != Some(id) ==> r[id] == latches[id]
    ensures confirmAckEnabled && header.Some? && header.value in latches ==> r[header.value]
  {
    if confirmAckEnabled && header.Some? && header.value in latches then
      latches[header.value := true]
    else
      latches
  }

  /** The acks in `headers`, in order. */
  function ProcessAcks(latches: Latches, confirmAckEnabled: bool, headers: seq<Option<CorrelationId>>): Latches
    decreases |headers|
  {
    if headers == [] then latches
    else ProcessAck(ProcessAcks(latches, confirmAckEnabled, headers[..|headers| - 1]), confirmAckEnabled, headers[|headers| - 1])
  }

  /**
    After a run of acks the registry holds the same ids, and a latch has reached
    zero exactly when it had before or (with confirm acks enabled) some ack named it;
    acks for other ids never touch it.
   */
  lemma {:induction false} ProcessAcksSignals(latches: Latches, confirmAckEnabled: bool, headers: seq<Option<CorrelationId>>)
    ensures ProcessAcks(latches, confirmAckEnabled, headers).Keys == latches.Keys
    ensures !confirmAckEnabled ==> ProcessAcks(latches, confirmAckEnabled, headers) == latches
    ensures forall id :: id in latches ==>
      (ProcessAcks(latches, confirmAckEnabled, headers)[id] <==> latches[id] || (confirmAckEnabled && Some(id) in headers))
    decreases |headers|
  {
    if headers != [] {
      var init := headers[..|headers| - 1];
      ProcessAcksSignals(latches, confirmAckEnabled, init);
      assert headers == init + [headers[|headers| - 1]];
    }
  }

  // ---------------------------------------------------------------------------
  // Send phase
  // ---------------------------------------------------------------------------

  /** `List.retainAll`: the elements of `s` that occur in `keep`, in the order of `s`. */
  function Retain(s: seq<QueryMetricUpdate>, keep: seq<QueryMetricUpdate>): (r: seq<QueryMetricUpdate>)
    ensures forall x :: x in r <==> x in s && x in keep
    ensures |r| <= |s|
    decreases |s|
  {
    if s == [] then []
    else Retain(s[..|s| - 1], keep) + (if s[|s| - 1] in keep then [s[|s| - 1]] else [])
  }

  /** The updates whose send under id `first + i` the transport rejected, in order. */
  function Rejected(updates: seq<QueryMetricUpdate>, first: nat, accept: CorrelationId -> bool): (r: seq<QueryMetricUpdate>)
    ensures |r| <= |updates|
    ensures forall x :: x in r ==> x in updates
    ensures r == [] <==> AllAccepted(first, |updates|, accept)
    decreases |updates|
  {
    if updates == [] then []
    else
      var n := |updates| - 1;
      Rejected(updates[..n], first, accept) + (if accept(first + n) then [] else [updates[n]])
  }

  /** `retainAll` of an empty list empties the list. */
  lemma {:induction false} RetainNone(s: seq<QueryMetricUpdate>)
    ensures Retain(s, []) == []
    decreases |s|
  {
    if s != [] {
      RetainNone(s[..|s| - 1]);
    }
  }

  /** Every update whose send the transport rejected is among the failed sends. */
  lemma {:induction false} RejectedContains(updates: seq<QueryMetricUpdate>, first: nat, accept: CorrelationId -> bool)
    ensures forall i :: 0 <= i < |updates| && !accept(first + i) ==> updates[i] in Rejected(updates, first, accept)
    decreases |updates|
  {
    if updates != [] {
      var n := |updates| - 1;
      RejectedContains(updates[..n], first, accept);
      forall i | 0 <= i < n && !accept(first + i)
        ensures updates[i] in Rejected(updates, first, accept)
      {
        assert updates[i] == updates[..n][i];
      }
    }
  }

  /** Only updates whose send the transport rejected are among the failed sends. */
  lemma {:induction false} RejectedOnly(updates: seq<QueryMetricUpdate>, first: nat, accept: CorrelationId -> bool)
    ensures forall x :: x in Rejected(updates, first, accept) ==>
      exists i :: 0 <= i < |updates| && updates[i] == x && !accept(first + i)
    decreases |updates|
  {
    if updates != [] {
      var n := |updates| - 1;
      RejectedOnly(updates[..n], first, accept);
      forall x | x in Rejected(updates, first, accept)
        ensures exists i :: 0 <= i < |updates| && updates[i] == x && !accept(first + i)
      {
        if x in Rejected(updates[..n], first, accept) {
          var i :| 0 <= i < n && updates[..n][i] == x && !accept(first + i);
          assert updates[i] == x;
        } else {
          assert updates[n] == x && !accept(first + n);
        }
      }
    }
  }

  /** The transport accepted every send under the ids `first .. first + count - 1`. */
  predicate AllAccepted(first: nat, count: nat, accept: CorrelationId -> bool) {
    forall id :: first <= id < first + count ==> accept(id)
  }

  /** The id-to-update association of the accepted sends among ids `first .. first + |updates| - 1`. */
  function Accepted(updates: seq<QueryMetricUpdate>, first: nat, accept: CorrelationId -> bool): UpdatesById {
    map id | first <= id < first + |updates| && accept(id) :: updates[id - first]
  }

  /** A fresh count-of-one latch for every accepted id among `first .. first + count - 1`. */
  function Registered(first: nat, count: nat, accept: CorrelationId -> bool): Latches {
    map id | first <= id < first + count && accept(id) :: false
  }

  /** The state the send phase touches: registry, id source, id map, failed sends and the round's verdict. */
  datatype SendState = SendState(
    latches: Latches,
    nextId: nat,
    updatesById: UpdatesById,
    failedSend: seq<QueryMetricUpdate>,
    success: bool)

  /**
    One send: mint the next id; if the transport accepts, register a latch and
    remember the update under that id (both only with confirm acks enabled);
    otherwise record the update as a failed send.
   */
  function SendOne(s: SendState, update: QueryMetricUpdate, confirmAckEnabled: bool, accept: CorrelationId -> bool): SendState {
    var id := s.nextId;
    if accept(id) then
      if confirmAckEnabled then
        s.(nextId := id + 1, latches := s.latches[id := false], updatesById := s.updatesById[id := update])
      else
        s.(nextId := id + 1)
    else
      s.(nextId := id + 1, failedSend := s.failedSend + [update], success := false)
  }

  /**
    The send phase over a working list: every update is attempted exactly once
    (one id each), the failed sends are exactly the rejected ones in order, and the
    round succeeds iff no send was rejected.
   */
  function SendAll(s: SendState, updates: seq<QueryMetricUpdate>, confirmAckEnabled: bool, accept: CorrelationId -> bool): (r: SendState)
    ensures r.nextId == s.nextId + |updates|
    ensures r.failedSend == s.failedSend + Rejected(updates, s.nextId, accept)
    ensures r.success <==> s.success && AllAccepted(s.nextId, |updates|, accept)
    decreases |updates|
  {
    if updates == [] then s
    else
      var n := |updates| - 1;
      SendOne(SendAll(s, updates[..n], confirmAckEnabled, accept), updates[n], confirmAckEnabled, accept)
  }

  /** Sending one more update of the working list is one more `SendOne`. */
  lemma SendAllPrefix(s: SendState, updates: seq<QueryMetricUpdate>, i: nat, confirmAckEnabled: bool, accept: CorrelationId -> bool)
    requires i < |updates|
    ensures SendAll(s, updates[..i + 1], confirmAckEnabled, accept) ==
      SendOne(SendAll(s, updates[..i], confirmAckEnabled, accept), updates[i], confirmAckEnabled, accept)
  {
    assert updates[..i + 1][..i] == updates[..i];
  }

  /** Extending the working list by one update extends the accepted association by at most that update's id. */
  lemma AcceptedSnoc(updates: seq<QueryMetricUpdate>, first: nat, accept: CorrelationId -> bool)
    requires updates != []
    ensures var n := |updates| - 1;
      Accepted(updates, first, accept) ==
        if accept(first + n) then Accepted(updates[..n], first, accept)[first + n := updates[n]]
        else Accepted(updates[..n], first, accept)
  {
    var n := |updates| - 1;
    var a, a' := Accepted(updates, first, accept), Accepted(updates[..n], first, accept);
    var b := if accept(first + n) then a'[first + n := updates[n]] else a';
    assert a.Keys == b.Keys;
    forall id | id in a ensures a[id] == b[id] {
      if id < first + n {
        assert updates[..n][id - first] == updates[id - first];
      }
    }
  }

  /** Updating a key of a union is updating it in the right operand. */
  lemma UnionUpdate<V>(x: map<CorrelationId, V>, y: map<CorrelationId, V>, k: CorrelationId, v: V)
    ensures (x + y)[k := v] == x + y[k := v]
  {
  }

  /**
    The send phase remembers exactly the accepted updates under their ids when
    confirm acks are enabled, and leaves the id map alone otherwise.
   */
  lemma {:induction false} SendAllRemembers(s: SendState, updates: seq<QueryMetricUpdate>, confirmAckEnabled: bool, accept: CorrelationId -> bool)
    ensures confirmAckEnabled ==>
      SendAll(s, updates, confirmAckEnabled, accept).updatesById == s.updatesById + Accepted(updates, s.nextId, accept)
    ensures !confirmAckEnabled ==> SendAll(s, updates, confirmAckEnabled, accept).updatesById == s.updatesById
    decreases |updates|
  {
    if updates == [] {
      assert Accepted(updates, s.nextId, accept) == map[];
    } else {
      var n := |updates| - 1;
      var p := SendAll(s, updates[..n], confirmAckEnabled, accept);
      assert SendAll(s, updates, confirmAckEnabled, accept) == SendOne(p, updates[n], confirmAckEnabled, accept);
      SendAllRemembers(s, updates[..n], confirmAckEnabled, accept);
      SendOneMaps(p, updates[n], confirmAckEnabled, accept);
      if confirmAckEnabled {
        AcceptedSnoc(updates, s.nextId, accept);
        assert p.nextId == s.nextId + n;
        UnionStep(s.updatesById, p.updatesById, SendOne(p, updates[n], confirmAckEnabled, accept).updatesById,
          Accepted(updates[..n], s.nextId, accept), Accepted(updates, s.nextId, accept),
          accept(p.nextId), p.nextId, updates[n]);
      }
    }
  }

  /** One step of `SendAllRemembers` and `SendAllRegisters`, on the maps alone. */
  lemma UnionStep<V>(base: map<CorrelationId, V>, before: map<CorrelationId, V>, after: map<CorrelationId, V>,
                     added: map<CorrelationId, V>, added': map<CorrelationId, V>, accepted: bool, id: CorrelationId, v: V)
    requires before == base + added
    requires after == if accepted then before[id := v] else before
    requires added' == if accepted then added[id := v] else added
    ensures after == base + added'
  {
    if accepted {
      UnionUpdate(base, added, id, v);
    }
  }

  /** One send changes the registry and the id map only under its own id, and only for an accepted send with confirm acks enabled. */
  lemma SendOneMaps(s: SendState, update: QueryMetricUpdate, confirmAckEnabled: bool, accept: CorrelationId -> bool)
    ensures SendOne(s, update, confirmAckEnabled, accept).latches ==
      if confirmAckEnabled && accept(s.nextId) then s.latches[s.nextId := false] else s.latches
    ensures SendOne(s, update, confirmAckEnabled, accept).updatesById ==
      if confirmAckEnabled && accept(s.nextId) then s.updatesById[s.nextId := update] else s.updatesById
  {
  }

  lemma RegisteredSnoc(first: nat, n: nat, accept: CorrelationId -> bool)
    ensures Registered(first, n + 1, accept) ==
      if accept(first + n) then Registered(first, n, accept)[first + n := false] else Registered(first, n, accept)
  {
  }

  /**
    The send phase registers a fresh latch for exactly the accepted ids when confirm
    acks are enabled, and leaves the registry alone otherwise.
   */
  lemma {:induction false} SendAllRegisters(s: SendState, updates: seq<QueryMetricUpdate>, confirmAckEnabled: bool, accept: CorrelationId -> bool)
    ensures confirmAckEnabled ==>
      SendAll(s, updates, confirmAckEnabled, accept).latches == s.latches + Registered(s.nextId, |updates|, accept)
    ensures !confirmAckEnabled ==> SendAll(s, updates, confirmAckEnabled, accept).latches == s.latches
    decreases |updates|
  {
    if updates == [] {
      assert Registered(s.nextId, 0, accept) == map[];
    } else {
      var n := |updates| - 1;
      var p := SendAll(s, updates[..n], confirmAckEnabled, accept);
      assert SendAll(s, updates, confirmAckEnabled, accept) == SendOne(p, updates[n], confirmAckEnabled, accept);
      SendAllRegisters(s, updates[..n], confirmAckEnabled, accept);
      SendOneMaps(p, updates[n], confirmAckEnabled, accept);
      if confirmAckEnabled {
        RegisteredSnoc(s.nextId, n, accept);
        assert p.nextId == s.nextId + n;
        UnionStep(s.latches, p.latches, SendOne(p, updates[n], confirmAckEnabled, accept).latches,
          Registered(s.nextId, n, accept), Registered(s.nextId, n + 1, accept),
          accept(p.nextId), p.nextId, false);
      }
    }
  }

  /**
    With no update listed twice, `retainAll` of the rejected updates leaves exactly
    the rejected updates, in order.
   */
  lemma {:induction false} RetainRejected(updates: seq<QueryMetricUpdate>, first: nat, accept: CorrelationId -> bool)
    requires NoDuplicates(updates)
    ensures Retain(updates, Rejected(updates, first, accept)) == Rejected(updates, first, accept)
    decreases |updates|
  {
    if updates != [] {
      var n := |updates| - 1;
      var init := updates[..n];
      assert NoDuplicates(init);
      RetainRejected(init, first, accept);
      assert updates[n] !in init;
      RetainAgrees(init, Rejected(updates, first, accept), Rejected(init, first, accept));
    }
  }

  /** `retainAll` keeps every occurrence of a kept element and drops every occurrence of any other. */
  lemma {:induction false} RetainCounts(s: seq<QueryMetricUpdate>, keep: seq<QueryMetricUpdate>)
    ensures forall x :: multiset(Retain(s, keep))[x] == if x in keep then multiset(s)[x] else 0
    decreases |s|
  {
    if s != [] {
      RetainCounts(s[..|s| - 1], keep);
      assert s == s[..|s| - 1] + [s[|s| - 1]];
    }
  }

  /** `Retain(s, _)` depends only on which elements of `s` the kept list contains. */
  lemma {:induction false} RetainAgrees(s: seq<QueryMetricUpdate>, k1: seq<QueryMetricUpdate>, k2: seq<QueryMetricUpdate>)
    requires forall x :: x in s ==> (x in k1 <==> x in k2)
    ensures Retain(s, k1) == Retain(s, k2)
    decreases |s|
  {
    if s != [] {
      RetainAgrees(s[..|s| - 1], k1, k2);
    }
  }

  /**
    With duplicates, `retainAll` keeps every copy of a rejected update, also the
    copies whose own send was accepted: two equal updates, the first rejected and
    the second accepted, are both kept.
   */
  lemma RetainKeepsAcceptedDuplicate(u: QueryMetricUpdate, first: nat, accept: CorrelationId -> bool)
    requires !accept(first) && accept(first + 1)
    ensures Rejected([u, u], first, accept) == [u]
    ensures Retain([u, u], Rejected([u, u], first, accept)) == [u, u]
  {
    assert [u, u][..1] == [u];
    assert [u][..0] == [];
  }
  // ---------------------------------------------------------------------------
  // Await phase
  // ---------------------------------------------------------------------------

  /** The latch of `id` is registered and has reached zero, and the wait for it was not interrupted. */
  predicate Confirmed(latches: Latches, id: CorrelationId, interrupted: CorrelationId -> bool) {
    id in latches && latches[id] && !interrupted(id)
  }

  /** The state the await phase touches; `thrown` records that a wait hit an id with no latch. */
  datatype AckState = AckState(
    latches: Latches,
    updatesById: UpdatesById,
    failedConfirmAck: seq<QueryMetricUpdate>,
    success: bool,
    thrown: bool)

  /**
    One wait: an id with no registered latch throws (the null latch is dereferenced);
    otherwise the latch is unregistered whatever the outcome, and an unconfirmed id
    is dropped from the id map with its update appended to the failed confirm acks.
    A confirmed id stays in the id map, unless `dropConfirmed` (the corrected
    variant, see `FixedRoundNeverThrows`).  After a throw, nothing further happens.
   */
  function AwaitOne(s: AckState, id: CorrelationId, interrupted: CorrelationId -> bool, dropConfirmed: bool): AckState
    requires id in s.updatesById
  {
    if s.thrown then s
    else if id !in s.latches then s.(thrown := true)
    else if Confirmed(s.latches, id, interrupted) then
      s.(latches := s.latches - {id}, updatesById := if dropConfirmed then s.updatesById - {id} else s.updatesById)
    else
      s.(latches := s.latches - {id},
         updatesById := s.updatesById - {id},
         failedConfirmAck := s.failedConfirmAck + [s.updatesById[id]],
         success := false)
  }

  /**
    The waits for the ids of `order`, one after another.  Ids not in `order` keep
    their updates, and surviving latches keep their state.
   */
  function AwaitAll(s: AckState, order: seq<CorrelationId>, interrupted: CorrelationId -> bool, dropConfirmed: bool): (r: AckState)
    requires NoDuplicates(order)
    requires forall id :: id in order ==> id in s.updatesById
    ensures forall id :: id in r.updatesById ==> id in s.updatesById && r.updatesById[id] == s.updatesById[id]
    ensures forall id :: id in s.updatesById && id !in order ==> id in r.updatesById
    ensures forall id :: id in r.latches ==> id in s.latches && r.latches[id] == s.latches[id]
    decreases |order|
  {
    if order == [] then s
    else
      var n := |order| - 1;
      assert NoDuplicates(order[..n]);
      assert order[n] !in order[..n];
      AwaitOne(AwaitAll(s, order[..n], interrupted, dropConfirmed), order[n], interrupted, dropConfirmed)
  }

  lemma NoDuplicatesAppend(a: seq<CorrelationId>, b: seq<CorrelationId>)
    requires NoDuplicates(a) && NoDuplicates(b)
    requires forall id :: id in a ==> id !in b
    ensures NoDuplicates(a + b)
  {
    forall i, j | 0 <= i < j < |a + b| ensures (a + b)[i] != (a + b)[j] {
      if i < |a| && |a| <= j {
        assert (a + b)[i] in a && (a + b)[j] == b[j - |a|];
      }
    }
  }

  /**
    The await phase as written, waiting once for every id of the id map: it throws
    exactly when some id of the id map has no registered latch.  Otherwise it keeps
    its verdict iff every wait is confirmed, appends the updates of the failed waits
    in waiting order, keeps exactly the confirmed ids in the id map, and unregisters
    exactly the latches of the id map.
   */
  lemma AwaitPhase(s: AckState, order: seq<CorrelationId>, interrupted: CorrelationId -> bool)
    requires !s.thrown
    requires Enumerates(order, s.updatesById.Keys)
    ensures var r := AwaitAll(s, order, interrupted, false);
      && (r.thrown <==> !Tracked(s.updatesById, s.latches))
      && (!r.thrown ==>
            && (r.success <==> s.success && forall id :: id in s.updatesById ==> Confirmed(s.latches, id, interrupted))
            && r.failedConfirmAck == s.failedConfirmAck + Lookup(s.updatesById, Unconfirmed(order, s.latches, interrupted))
            && (forall id :: id in r.updatesById <==> id in s.updatesById && Confirmed(s.latches, id, interrupted))
            && (forall id :: id in r.latches <==> id in s.latches && id !in s.updatesById))
  {
    AwaitAllLatches(s, order, interrupted, false);
    assert AllRegistered(order, s.latches) <==> Tracked(s.updatesById, s.latches);
    if AllRegistered(order, s.latches) {
      AwaitAllKeepsConfirmed(s, order, interrupted, false);
      AwaitAllFailures(s, order, interrupted, false);
      AwaitAllSuccess(s, order, interrupted, false);
      if forall id :: id in order ==> Confirmed(s.latches, id, interrupted) {
        AllConfirmedNoneUnconfirmed(order, s.latches, interrupted);
      }
    }
  }

  /** Once a wait has thrown, the remaining waits do not run. */
  lemma {:induction false} AwaitAllStaysThrown(s: AckState, p: seq<CorrelationId>, q: seq<CorrelationId>, interrupted: CorrelationId -> bool, dropConfirmed: bool)
    requires NoDuplicates(p + q)
    requires forall id :: id in p + q ==> id in s.updatesById
    requires NoDuplicates(p) && (forall id :: id in p ==> id in s.updatesById)
    requires AwaitAll(s, p, interrupted, dropConfirmed).thrown
    ensures AwaitAll(s, p + q, interrupted, dropConfirmed) == AwaitAll(s, p, interrupted, dropConfirmed)
    decreases |q|
  {
    if q == [] {
      assert p + q == p;
    } else {
      var n := |q| - 1;
      assert (p + q)[..|p + q| - 1] == p + q[..n];
      assert (p + q)[|p + q| - 1] == q[n];
      assert NoDuplicates(p + q[..n]);
      AwaitAllStaysThrown(s, p, q[..n], interrupted, dropConfirmed);
      var t := AwaitAll(s, p + q[..n], interrupted, dropConfirmed);
      assert AwaitAll(s, p + q, interrupted, dropConfirmed) == AwaitOne(t, q[n], interrupted, dropConfirmed);
    }
  }

  /** A wait that throws at position `i` is the last one that runs. */
  lemma AwaitAllThrowsAt(s: AckState, order: seq<CorrelationId>, i: nat, interrupted: CorrelationId -> bool, dropConfirmed: bool)
    requires NoDuplicates(order)
    requires forall id :: id in order ==> id in s.updatesById
    requires i < |order|
    requires NoDuplicates(order[..i + 1]) && (forall id :: id in order[..i + 1] ==> id in s.updatesById)
    requires AwaitAll(s, order[..i + 1], interrupted, dropConfirmed).thrown
    ensures AwaitAll(s, order, interrupted, dropConfirmed) == AwaitAll(s, order[..i + 1], interrupted, dropConfirmed)
  {
    assert order[..i + 1] + order[i + 1..] == order;
    AwaitAllStaysThrown(s, order[..i + 1], order[i + 1..], interrupted, dropConfirmed);
  }

  /** The ids of `order` whose wait fails, in order. */
  function Unconfirmed(order: seq<CorrelationId>, latches: Latches, interrupted: CorrelationId -> bool): (r: seq<CorrelationId>)
    ensures forall id :: id in r <==> id in order && !Confirmed(latches, id, interrupted)
    decreases |order|
  {
    if order == [] then []
    else
      var n := |order| - 1;
      Unconfirmed(order[..n], latches, interrupted) + (if Confirmed(latches, order[n], interrupted) then [] else [order[n]])
  }

  lemma {:induction false} AllConfirmedNoneUnconfirmed(order: seq<CorrelationId>, latches: Latches, interrupted: CorrelationId -> bool)
    requires forall id :: id in order ==> Confirmed(latches, id, interrupted)
    ensures Unconfirmed(order, latches, interrupted) == []
    decreases |order|
  {
    if order != [] {
      AllConfirmedNoneUnconfirmed(order[..|order| - 1], latches, interrupted);
    }
  }

  /** The updates stored under `ids`, in order. */
  function Lookup(m: UpdatesById, ids: seq<CorrelationId>): (r: seq<QueryMetricUpdate>)
    requires forall id :: id in ids ==> id in m
    ensures |r| == |ids|
    ensures forall i :: 0 <= i < |ids| ==> r[i] == m[ids[i]]
    decreases |ids|
  {
    if ids == [] then [] else Lookup(m, ids[..|ids| - 1]) + [m[ids[|ids| - 1]]]
  }

  /** Every id of `order` has a registered latch. */
  predicate AllRegistered(order: seq<CorrelationId>, latches: Latches) {
    forall id :: id in order ==> id in latches
  }

  /**
    The await phase throws exactly when some id of `order` has no registered latch;
    when it does not throw, it has unregistered exactly the latches of `order`.
   */
  lemma {:induction false} AwaitAllLatches(s: AckState, order: seq<CorrelationId>, interrupted: CorrelationId -> bool, dropConfirmed: bool)
    requires !s.thrown
    requires NoDuplicates(order)
    requires forall id :: id in order ==> id in s.updatesById
    ensures AwaitAll(s, order, interrupted, dropConfirmed).thrown <==> !AllRegistered(order, s.latches)
    ensures !AwaitAll(s, order, interrupted, dropConfirmed).thrown ==>
      forall id :: id in AwaitAll(s, order, interrupted, dropConfirmed).latches <==> id in s.latches && id !in order
    decreases |order|
  {
    if order != [] {
      var n := |order| - 1;
      var p := order[..n];
      assert NoDuplicates(p);
      assert order[n] !in p;
      assert order == p + [order[n]];
      AwaitAllLatches(s, p, interrupted, dropConfirmed);
      var q := AwaitAll(s, p, interrupted, dropConfirmed);
      assert AwaitAll(s, order, interrupted, dropConfirmed) == AwaitOne(q, order[n], interrupted, dropConfirmed);
      assert AllRegistered(order, s.latches) <==> AllRegistered(p, s.latches) && order[n] in s.latches;
      if !q.thrown {
        assert order[n] in q.latches <==> order[n] in s.latches;
      }
    }
  }

  /** The last wait of a non-throwing await phase, in terms of the state the earlier waits left. */
  lemma AwaitAllSnoc(s: AckState, order: seq<CorrelationId>, interrupted: CorrelationId -> bool, dropConfirmed: bool)
    requires !s.thrown
    requires NoDuplicates(order)
    requires forall id :: id in order ==> id in s.updatesById
    requires AllRegistered(order, s.latches)
    requires order != []
    ensures var p, x := order[..|order| - 1], order[|order| - 1];
      && NoDuplicates(p) && (forall id :: id in p ==> id in s.updatesById) && AllRegistered(p, s.latches)
      && var q := AwaitAll(s, p, interrupted, dropConfirmed);
      && !q.thrown
      && x in q.latches && q.latches[x] == s.latches[x]
      && x in q.updatesById && q.updatesById[x] == s.updatesById[x]
      && AwaitAll(s, order, interrupted, dropConfirmed) == AwaitOne(q, x, interrupted, dropConfirmed)
  {
    var n := |order| - 1;
    var p, x := order[..n], order[n];
    assert NoDuplicates(p);
    assert x !in p;
    AwaitAllLatches(s, p, interrupted, dropConfirmed);
  }

  /**
    A non-throwing await phase drops every id whose wait fails from the id map and
    keeps every confirmed one (unless `dropConfirmed`).  Whether an id is confirmed
    depends only on its own latch as it was before the phase.
   */
  lemma {:induction false} AwaitAllKeepsConfirmed(s: AckState, order: seq<CorrelationId>, interrupted: CorrelationId -> bool, dropConfirmed: bool)
    requires !s.thrown
    requires NoDuplicates(order)
    requires forall id :: id in order ==> id in s.updatesById
    requires AllRegistered(order, s.latches)
    ensures var r := AwaitAll(s, order, interrupted, dropConfirmed);
      forall id :: id in order ==> (id in r.updatesById <==> !dropConfirmed && Confirmed(s.latches, id, interrupted))
    decreases |order|
  {
    if order != [] {
      var n := |order| - 1;
      var p, x := order[..n], order[n];
      AwaitAllSnoc(s, order, interrupted, dropConfirmed);
      AwaitAllKeepsConfirmed(s, p, interrupted, dropConfirmed);
      var q := AwaitAll(s, p, interrupted, dropConfirmed);
      AwaitOneKeeps(q, x, interrupted, dropConfirmed);
      assert Confirmed(q.latches, x, interrupted) == Confirmed(s.latches, x, interrupted);
      forall id | id in order
        ensures id in AwaitOne(q, x, interrupted, dropConfirmed).updatesById <==>
          !dropConfirmed && Confirmed(s.latches, id, interrupted)
      {
        if id != x {
          var k :| 0 <= k < |order| && order[k] == id;
          assert p[k] == id;
        }
      }
    }
  }

  /** A wait that does not throw removes at most its own id from the id map, and keeps it exactly when it is confirmed (and not `dropConfirmed`). */
  lemma AwaitOneKeeps(s: AckState, id: CorrelationId, interrupted: CorrelationId -> bool, dropConfirmed: bool)
    requires !s.thrown && id in s.latches && id in s.updatesById
    ensures forall other :: other != id ==> (other in AwaitOne(s, id, interrupted, dropConfirmed).updatesById <==> other in s.updatesById)
    ensures id in AwaitOne(s, id, interrupted, dropConfirmed).updatesById <==> !dropConfirmed && Confirmed(s.latches, id, interrupted)
  {
  }

  /**
    A non-throwing await phase appends the updates of the ids whose wait fails to
    the failed confirm acks, in waiting order.
   */
  lemma {:induction false} AwaitAllFailures(s: AckState, order: seq<CorrelationId>, interrupted: CorrelationId -> bool, dropConfirmed: bool)
    requires !s.thrown
    requires NoDuplicates(order)
    requires forall id :: id in order ==> id in s.updatesById
    requires AllRegistered(order, s.latches)
    ensures AwaitAll(s, order, interrupted, dropConfirmed).failedConfirmAck ==
      s.failedConfirmAck + Lookup(s.updatesById, Unconfirmed(order, s.latches, interrupted))
    decreases |order|
  {
    if order != [] {
      var n := |order| - 1;
      var p, x := order[..n], order[n];
      AwaitAllSnoc(s, order, interrupted, dropConfirmed);
      AwaitAllFailures(s, p, interrupted, dropConfirmed);
      var q := AwaitAll(s, p, interrupted, dropConfirmed);
      AwaitOneFailure(q, x, interrupted, dropConfirmed);
      LookupUnconfirmedSnoc(s.updatesById, order, s.latches, interrupted);
      assert Confirmed(q.latches, x, interrupted) == Confirmed(s.latches, x, interrupted);
      FailuresStep(s.failedConfirmAck, q.failedConfirmAck, AwaitOne(q, x, interrupted, dropConfirmed).failedConfirmAck,
        Lookup(s.updatesById, Unconfirmed(p, s.latches, interrupted)),
        Lookup(s.updatesById, Unconfirmed(order, s.latches, interrupted)),
        !Confirmed(s.latches, x, interrupted), s.updatesById[x]);
    }
  }

  /** A wait that does not throw appends the update of its id exactly when the id is unconfirmed. */
  lemma AwaitOneFailure(s: AckState, id: CorrelationId, interrupted: CorrelationId -> bool, dropConfirmed: bool)
    requires !s.thrown && id in s.latches && id in s.updatesById
    ensures AwaitOne(s, id, interrupted, dropConfirmed).failedConfirmAck ==
      if Confirmed(s.latches, id, interrupted) then s.failedConfirmAck else s.failedConfirmAck + [s.updatesById[id]]
  {
  }

  /** The updates of the unconfirmed ids grow by the update of the last id exactly when it is unconfirmed. */
  lemma LookupUnconfirmedSnoc(m: UpdatesById, order: seq<CorrelationId>, latches: Latches, interrupted: CorrelationId -> bool)
    requires order != [] && forall id :: id in order ==> id in m
    ensures var n := |order| - 1;
      forall id :: id in order[..n] ==> id in m
    ensures var n := |order| - 1;
      Lookup(m, Unconfirmed(order, latches, interrupted)) ==
        if Confirmed(latches, order[n], interrupted) then Lookup(m, Unconfirmed(order[..n], latches, interrupted))
        else Lookup(m, Unconfirmed(order[..n], latches, interrupted)) + [m[order[n]]]
  {
    var n := |order| - 1;
    var u' := Unconfirmed(order[..n], latches, interrupted);
    assert forall id :: id in order[..n] ==> id in order;
    if !Confirmed(latches, order[n], interrupted) {
      LookupSnoc(m, u', order[n]);
    }
  }

  /** One step of `AwaitAllFailures`, on the sequences alone. */
  lemma FailuresStep(base: seq<QueryMetricUpdate>, before: seq<QueryMetricUpdate>, after: seq<QueryMetricUpdate>,
                     looked: seq<QueryMetricUpdate>, looked': seq<QueryMetricUpdate>, failed: bool, update: QueryMetricUpdate)
    requires before == base + looked
    requires after == if failed then before + [update] else before
    requires looked' == if failed then looked + [update] else looked
    ensures after == base + looked'
  {
  }

  lemma LookupSnoc(m: UpdatesById, ids: seq<CorrelationId>, x: CorrelationId)
    requires forall id :: id in ids ==> id in m
    requires x in m
    ensures Lookup(m, ids + [x]) == Lookup(m, ids) + [m[x]]
  {
    assert (ids + [x])[..|ids|] == ids;
  }

  /**
    A non-throwing await phase keeps its verdict iff every wait was confirmed, and
    turns it false otherwise.
   */
  lemma {:induction false} AwaitAllSuccess(s: AckState, order: seq<CorrelationId>, interrupted: CorrelationId -> bool, dropConfirmed: bool)
    requires !s.thrown
    requires NoDuplicates(order)
    requires forall id :: id in order ==> id in s.updatesById
    requires AllRegistered(order, s.latches)
    ensures AwaitAll(s, order, interrupted, dropConfirmed).success <==>
      s.success && Unconfirmed(order, s.latches, interrupted) == []
    decreases |order|
  {
    if order != [] {
      var n := |order| - 1;
      AwaitAllSnoc(s, order, interrupted, dropConfirmed);
      AwaitAllSuccess(s, order[..n], interrupted, dropConfirmed);
    }
  }
  /**
    No wait loses an update: an id of the id map either stays in it, with its
    update, or its update joins the failed confirm acks.  This holds also when a
    wait throws, since a throw leaves the id map alone.
   */
  lemma {:induction false} AwaitAllAccounts(s: AckState, order: seq<CorrelationId>, interrupted: CorrelationId -> bool)
    requires NoDuplicates(order)
    requires forall id :: id in order ==> id in s.updatesById
    ensures var r := AwaitAll(s, order, interrupted, false);
      forall id :: id in s.updatesById ==> id in r.updatesById || s.updatesById[id] in r.failedConfirmAck
    decreases |order|
  {
    if order != [] {
      var n := |order| - 1;
      var p, x := order[..n], order[n];
      assert NoDuplicates(p);
      assert x !in p;
      AwaitAllAccounts(s, p, interrupted);
      var q := AwaitAll(s, p, interrupted, false);
      assert AwaitAll(s, order, interrupted, false) == AwaitOne(q, x, interrupted, false);
      forall id | id in s.updatesById
        ensures id in AwaitOne(q, x, interrupted, false).updatesById ||
                s.updatesById[id] in AwaitOne(q, x, interrupted, false).failedConfirmAck
      {
        if id in q.updatesById {
          assert q.updatesById[id] == s.updatesById[id];
        }
      }
    }
  }

  // ---------------------------------------------------------------------------
  // One round of the retry loop
  // ---------------------------------------------------------------------------

  /**
    What the client cannot see, as parameters: the transport's verdict for the send
    made under each id; the confirm acks (their correlation headers) that arrive
    while round `k` runs; which waits are interrupted; and the clock reading taken
    after round `k` (`clock(0)` is the start time).
   */
  datatype Environment = Environment(
    accept: CorrelationId -> bool,
    acks: nat -> seq<Option<CorrelationId>>,
    interrupted: CorrelationId -> bool,
    clock: nat -> int)

  /** The registry and id source, and the loop's working list, id map, failed confirm acks and verdict. */
  datatype LoopState = LoopState(
    latches: Latches,
    nextId: nat,
    updates: seq<QueryMetricUpdate>,
    updatesById: UpdatesById,
    failedConfirmAck: seq<QueryMetricUpdate>,
    success: bool,
    thrown: bool)

  /** The loop state before the first round: the whole batch, and nothing remembered or failed. */
  function Start(latches: Latches, nextId: nat, updates: seq<QueryMetricUpdate>): LoopState {
    LoopState(latches, nextId, updates, map[], [], false, false)
  }

  /** The list round `attempt` sends: from the second round on, the failed confirm acks are appended. */
  function Working(s: LoopState, attempt: nat): seq<QueryMetricUpdate> {
    if attempt > 1 then s.updates + s.failedConfirmAck else s.updates
  }

  /** The failed confirm acks the waits of round `attempt` append to: emptied from the second round on. */
  function Pending(s: LoopState, attempt: nat): seq<QueryMetricUpdate> {
    if attempt > 1 then [] else s.failedConfirmAck
  }

  function SendPhase(s: LoopState, confirmAckEnabled: bool, env: Environment, attempt: nat): SendState {
    SendAll(SendState(s.latches, s.nextId, s.updatesById, [], true), Working(s, attempt), confirmAckEnabled, env.accept)
  }

  /** What the waits of round `attempt` find: the state after the sends and the acks delivered meanwhile. */
  function AwaitInput(s: LoopState, confirmAckEnabled: bool, env: Environment, attempt: nat): AckState {
    var snd := SendPhase(s, confirmAckEnabled, env, attempt);
    AckState(ProcessAcks(snd.latches, confirmAckEnabled, env.acks(attempt)), snd.updatesById, Pending(s, attempt), true, false)
  }

  /** The waits run only with confirm acks enabled and when every send of the round was accepted. */
  predicate Awaits(s: LoopState, confirmAckEnabled: bool, env: Environment, attempt: nat) {
    confirmAckEnabled && SendPhase(s, confirmAckEnabled, env, attempt).success
  }

  /** `order` lists every id of `ids` exactly once: one iteration order of a hash set. */
  predicate Enumerates(order: seq<CorrelationId>, ids: set<CorrelationId>) {
    && NoDuplicates(order)
    && (forall id :: id in order ==> id in ids)
    && (forall id :: id in ids ==> id in order)
  }

  /** The order of the waits of round `attempt`: an enumeration of the id map when the waits run. */
  predicate WaitOrder(s: LoopState, confirmAckEnabled: bool, env: Environment, attempt: nat, order: seq<CorrelationId>) {
    if Awaits(s, confirmAckEnabled, env, attempt) then
      Enumerates(order, AwaitInput(s, confirmAckEnabled, env, attempt).updatesById.Keys)
    else
      order == []
  }

  /**
    Round `attempt` of the loop (the body of the do-while): retry upkeep from the
    second round on, the send phase with `retainAll` of the failed sends, the acks
    of the round, and the waits in `order` when they run.
   */
  function Round(s: LoopState, confirmAckEnabled: bool, env: Environment, attempt: nat, order: seq<CorrelationId>, dropConfirmed: bool): LoopState
    requires WaitOrder(s, confirmAckEnabled, env, attempt, order)
  {
    var w := Working(s, attempt);
    var snd := SendPhase(s, confirmAckEnabled, env, attempt);
    var input := AwaitInput(s, confirmAckEnabled, env, attempt);
    var acked := if Awaits(s, confirmAckEnabled, env, attempt) then AwaitAll(input, order, env.interrupted, dropConfirmed) else input;
    LoopState(acked.latches, snd.nextId, Retain(w, snd.failedSend), acked.updatesById, acked.failedConfirmAck,
              snd.success && acked.success, acked.thrown)
  }

  /** `next` is round `attempt` applied to `s`, waiting in the order `order`. */
  ghost predicate Step(s: LoopState, next: LoopState, confirmAckEnabled: bool, env: Environment, attempt: nat, order: seq<CorrelationId>) {
    && WaitOrder(s, confirmAckEnabled, env, attempt, order)
    && next == Round(s, confirmAckEnabled, env, attempt, order, false)
  }

  /** The loop goes on after round `attempt`: it failed without throwing, and neither budget is spent. */
  predicate Continues(s: LoopState, env: Environment, attempt: nat, maxAttempts: int, failTimeoutMillis: int) {
    && !s.success && !s.thrown
    && env.clock(attempt) - env.clock(0) < failTimeoutMillis
    && attempt < maxAttempts
  }

  /**
    A run of the retry loop: `states[k]` is round `k` applied to `states[k - 1]`,
    waiting in the order `orders[k - 1]`, and the loop went on after every round
    but the last.
   */
  ghost predicate Run(states: seq<LoopState>, orders: seq<seq<CorrelationId>>, confirmAckEnabled: bool, env: Environment,
                      maxAttempts: int, failTimeoutMillis: int)
    decreases |orders|
  {
    && |states| == |orders| + 1
    && (orders != [] ==>
          var n := |orders|;
          && Run(states[..n], orders[..n - 1], confirmAckEnabled, env, maxAttempts, failTimeoutMillis)
          && Step(states[n - 1], states[n], confirmAckEnabled, env, n, orders[n - 1])
          && (n > 1 ==> Continues(states[n - 1], env, n - 1, maxAttempts, failTimeoutMillis)))
  }

  /** A run extended by one more round, after a round the loop went on from. */
  lemma RunSnoc(states: seq<LoopState>, orders: seq<seq<CorrelationId>>, confirmAckEnabled: bool, env: Environment,
                maxAttempts: int, failTimeoutMillis: int, order: seq<CorrelationId>, next: LoopState)
    requires Run(states, orders, confirmAckEnabled, env, maxAttempts, failTimeoutMillis)
    requires Step(states[|orders|], next, confirmAckEnabled, env, |orders| + 1, order)
    requires orders != [] ==> Continues(states[|orders|], env, |orders|, maxAttempts, failTimeoutMillis)
    ensures Run(states + [next], orders + [order], confirmAckEnabled, env, maxAttempts, failTimeoutMillis)
  {
    assert (states + [next])[..|orders| + 1] == states;
    assert (orders + [order])[..|orders|] == orders;
  }

  /** Round `k` of a run is a `Step` from the state before it. */
  lemma {:induction false} RunStepAt(states: seq<LoopState>, orders: seq<seq<CorrelationId>>, confirmAckEnabled: bool, env: Environment,
                                     maxAttempts: int, failTimeoutMillis: int, k: nat)
    requires Run(states, orders, confirmAckEnabled, env, maxAttempts, failTimeoutMillis)
    requires 1 <= k <= |orders|
    ensures Step(states[k - 1], states[k], confirmAckEnabled, env, k, orders[k - 1])
    decreases |orders|
  {
    var n := |orders|;
    if k < n {
      var st, os := states[..n], orders[..n - 1];
      assert Run(st, os, confirmAckEnabled, env, maxAttempts, failTimeoutMillis);
      RunStepAt(st, os, confirmAckEnabled, env, maxAttempts, failTimeoutMillis, k);
      assert st[k - 1] == states[k - 1];
      assert st[k] == states[k];
      assert os[k - 1] == orders[k - 1];
    } else {
      assert k == n;
    }
  }

  /** Every id in the id map still has a registered latch. */
  predicate Tracked(updatesById: UpdatesById, latches: Latches) {
    forall id :: id in updatesById ==> id in latches
  }

  /** The registry and id map after the sends and acks of a round, in closed form. */
  lemma AwaitInputSpec(s: LoopState, confirmAckEnabled: bool, env: Environment, attempt: nat)
    ensures var input := AwaitInput(s, confirmAckEnabled, env, attempt);
      var added := Accepted(Working(s, attempt), s.nextId, env.accept);
      && input.latches.Keys == (if confirmAckEnabled then s.latches.Keys + added.Keys else s.latches.Keys)
      && input.updatesById == (if confirmAckEnabled then s.updatesById + added else s.updatesById)
      && (forall id :: id in added ==> s.nextId <= id < s.nextId + |Working(s, attempt)|)
      && (!confirmAckEnabled ==> input.latches == s.latches)
      && (confirmAckEnabled ==>
            input.latches == ProcessAcks(s.latches + Registered(s.nextId, |Working(s, attempt)|, env.accept), true, env.acks(attempt)))
  {
    var w := Working(s, attempt);
    var s0 := SendState(s.latches, s.nextId, s.updatesById, [], true);
    SendAllRegisters(s0, w, confirmAckEnabled, env.accept);
    SendAllRemembers(s0, w, confirmAckEnabled, env.accept);
    var snd := SendAll(s0, w, confirmAckEnabled, env.accept);
    ProcessAcksSignals(snd.latches, confirmAckEnabled, env.acks(attempt));
    var added := Accepted(w, s.nextId, env.accept);
    assert Registered(s.nextId, |w|, env.accept).Keys == added.Keys;
  }

  /**
    A round mints one added id per update of its working list and keeps every id of
    the registry and the id map below the id source.
   */
  lemma RoundIssues(s: LoopState, confirmAckEnabled: bool, env: Environment, attempt: nat, order: seq<CorrelationId>, dropConfirmed: bool)
    requires WaitOrder(s, confirmAckEnabled, env, attempt, order)
    requires Issued(s.latches, s.updatesById, s.nextId)
    ensures var r := Round(s, confirmAckEnabled, env, attempt, order, dropConfirmed);
      && r.nextId == s.nextId + |Working(s, attempt)|
      && Issued(r.latches, r.updatesById, r.nextId)
  {
    AwaitInputSpec(s, confirmAckEnabled, env, attempt);
  }

  /** Along a whole run, the registry and the id map mention only ids issued so far. */
  lemma {:induction false} RunIssues(states: seq<LoopState>, orders: seq<seq<CorrelationId>>, confirmAckEnabled: bool, env: Environment,
                                     maxAttempts: int, failTimeoutMillis: int)
    requires Run(states, orders, confirmAckEnabled, env, maxAttempts, failTimeoutMillis)
    requires Issued(states[0].latches, states[0].updatesById, states[0].nextId)
    ensures Issued(states[|orders|].latches, states[|orders|].updatesById, states[|orders|].nextId)
    decreases |orders|
  {
    if orders != [] {
      var n := |orders|;
      RunIssues(states[..n], orders[..n - 1], confirmAckEnabled, env, maxAttempts, failTimeoutMillis);
      RoundIssues(states[n - 1], confirmAckEnabled, env, n, orders[n - 1], false);
    }
  }

  /**
    A round throws exactly when its waits run and the id map holds an id whose latch
    is no longer registered; the sends of the round cannot cause that, only the
    state the round starts from.
   */
  lemma RoundThrows(s: LoopState, confirmAckEnabled: bool, env: Environment, attempt: nat, order: seq<CorrelationId>, dropConfirmed: bool)
    requires WaitOrder(s, confirmAckEnabled, env, attempt, order)
    requires Issued(s.latches, s.updatesById, s.nextId)
    ensures Round(s, confirmAckEnabled, env, attempt, order, dropConfirmed).thrown <==>
      Awaits(s, confirmAckEnabled, env, attempt) && !Tracked(s.updatesById, s.latches)
  {
    AwaitInputSpec(s, confirmAckEnabled, env, attempt);
    var input := AwaitInput(s, confirmAckEnabled, env, attempt);
    if Awaits(s, confirmAckEnabled, env, attempt) {
      AwaitAllLatches(input, order, env.interrupted, dropConfirmed);
      assert AllRegistered(order, input.latches) <==> Tracked(input.updatesById, input.latches);
      assert Tracked(input.updatesById, input.latches) <==> Tracked(s.updatesById, s.latches);
    }
  }

  /**
    With confirm acks disabled a round never throws and never waits: registry and id
    map are left alone, and the round succeeds iff every send was accepted.
   */
  lemma RoundWithoutConfirmAcks(s: LoopState, env: Environment, attempt: nat, order: seq<CorrelationId>, dropConfirmed: bool)
    requires WaitOrder(s, false, env, attempt, order)
    ensures var r := Round(s, false, env, attempt, order, dropConfirmed);
      && !r.thrown
      && r.latches == s.latches
      && r.updatesById == s.updatesById
      && r.failedConfirmAck == Pending(s, attempt)
      && (r.success <==> AllAccepted(s.nextId, |Working(s, attempt)|, env.accept))
  {
    AwaitInputSpec(s, false, env, attempt);
  }

  /**
    The working list of the next round: the failed sends of this round, in order
    (given no update is listed twice), followed by the updates whose wait failed, in
    waiting order, after which the failed confirm acks are empty again.
   */
  lemma RoundCarriesFailures(s: LoopState, confirmAckEnabled: bool, env: Environment, attempt: nat, order: seq<CorrelationId>, dropConfirmed: bool)
    requires attempt >= 1
    requires WaitOrder(s, confirmAckEnabled, env, attempt, order)
    requires NoDuplicates(Working(s, attempt))
    requires !Round(s, confirmAckEnabled, env, attempt, order, dropConfirmed).thrown
    ensures var r := Round(s, confirmAckEnabled, env, attempt, order, dropConfirmed);
      var input := AwaitInput(s, confirmAckEnabled, env, attempt);
      && Working(r, attempt + 1) == r.updates + r.failedConfirmAck
      && Pending(r, attempt + 1) == []
      && r.updates == Rejected(Working(s, attempt), s.nextId, env.accept)
      && r.failedConfirmAck == Pending(s, attempt) +
           (if Awaits(s, confirmAckEnabled, env, attempt)
            then Lookup(input.updatesById, Unconfirmed(order, input.latches, env.interrupted))
            else [])
  {
    var w := Working(s, attempt);
    var s0 := SendState(s.latches, s.nextId, s.updatesById, [], true);
    RetainRejected(w, s.nextId, env.accept);
    assert [] + Rejected(w, s.nextId, env.accept) == Rejected(w, s.nextId, env.accept);
    assert SendPhase(s, confirmAckEnabled, env, attempt).failedSend == Rejected(w, s.nextId, env.accept);
    var input := AwaitInput(s, confirmAckEnabled, env, attempt);
    if Awaits(s, confirmAckEnabled, env, attempt) {
      AwaitAllLatches(input, order, env.interrupted, dropConfirmed);
      AwaitAllFailures(input, order, env.interrupted, dropConfirmed);
    }
  }

  /**
    A round that does not throw succeeds iff every send was accepted and, with
    confirm acks enabled, every wait was confirmed.
   */
  lemma RoundSuccess(s: LoopState, confirmAckEnabled: bool, env: Environment, attempt: nat, order: seq<CorrelationId>, dropConfirmed: bool)
    requires WaitOrder(s, confirmAckEnabled, env, attempt, order)
    requires !Round(s, confirmAckEnabled, env, attempt, order, dropConfirmed).thrown
    ensures var input := AwaitInput(s, confirmAckEnabled, env, attempt);
      Round(s, confirmAckEnabled, env, attempt, order, dropConfirmed).success <==>
        && AllAccepted(s.nextId, |Working(s, attempt)|, env.accept)
        && (confirmAckEnabled ==> Unconfirmed(order, input.latches, env.interrupted) == [])
  {
    var input := AwaitInput(s, confirmAckEnabled, env, attempt);
    if Awaits(s, confirmAckEnabled, env, attempt) {
      AwaitAllLatches(input, order, env.interrupted, dropConfirmed);
      AwaitAllSuccess(input, order, env.interrupted, dropConfirmed);
    }
  }

  /**
    When a send of the round is rejected the waits are skipped: the latches of the
    accepted sends stay registered and their ids stay in the id map, so a later
    round waits for them, or, if the loop stops here, they are never unregistered.
   */
  lemma RoundSkipsWaits(s: LoopState, env: Environment, attempt: nat, order: seq<CorrelationId>, dropConfirmed: bool)
    requires WaitOrder(s, true, env, attempt, order)
    requires !AllAccepted(s.nextId, |Working(s, attempt)|, env.accept)
    ensures var r := Round(s, true, env, attempt, order, dropConfirmed);
      var added := Accepted(Working(s, attempt), s.nextId, env.accept);
      && !r.success && !r.thrown
      && r.latches.Keys == s.latches.Keys + added.Keys
      && r.updatesById == s.updatesById + added
  {
    AwaitInputSpec(s, true, env, attempt);
  }
  /**
    A round whose sends were all accepted and whose every new id was acked (and not
    interrupted) succeeds, provided it starts with an empty id map, as the first
    round does.
   */
  lemma RoundAllConfirmed(s: LoopState, confirmAckEnabled: bool, env: Environment, attempt: nat, order: seq<CorrelationId>, dropConfirmed: bool)
    requires WaitOrder(s, confirmAckEnabled, env, attempt, order)
    requires Issued(s.latches, s.updatesById, s.nextId)
    requires s.updatesById == map[]
    requires AllAccepted(s.nextId, |Working(s, attempt)|, env.accept)
    requires confirmAckEnabled ==> forall id :: s.nextId <= id < s.nextId + |Working(s, attempt)| ==>
      Some(id) in env.acks(attempt) && !env.interrupted(id)
    ensures var r := Round(s, confirmAckEnabled, env, attempt, order, dropConfirmed);
      r.success && !r.thrown
  {
    RoundThrows(s, confirmAckEnabled, env, attempt, order, dropConfirmed);
    RoundSuccess(s, confirmAckEnabled, env, attempt, order, dropConfirmed);
    if confirmAckEnabled {
      var w := Working(s, attempt);
      var s0 := SendState(s.latches, s.nextId, s.updatesById, [], true);
      SendAllRegisters(s0, w, true, env.accept);
      var snd := SendAll(s0, w, true, env.accept);
      ProcessAcksSignals(snd.latches, true, env.acks(attempt));
      AwaitInputSpec(s, true, env, attempt);
      var input := AwaitInput(s, true, env, attempt);
      forall id | id in order ensures Confirmed(input.latches, id, env.interrupted) {
        assert id in Accepted(w, s.nextId, env.accept);
        assert id in snd.latches;
      }
      AllConfirmedNoneUnconfirmed(order, input.latches, env.interrupted);
    }
  }

  // ---------------------------------------------------------------------------
  // What a successful run delivered
  // ---------------------------------------------------------------------------

  /** Some send of `u` among the sends under ids `first ..` was accepted by the transport. */
  predicate AcceptedAmong(updates: seq<QueryMetricUpdate>, first: nat, u: QueryMetricUpdate, accept: CorrelationId -> bool) {
    exists i :: 0 <= i < |updates| && updates[i] == u && accept(first + i)
  }

  /** Round `k` of the run `states` sent `u`, and the transport accepted that send. */
  predicate AcceptedIn(states: seq<LoopState>, k: nat, u: QueryMetricUpdate, accept: CorrelationId -> bool) {
    && 1 <= k < |states|
    && AcceptedAmong(Working(states[k - 1], k), states[k - 1].nextId, u, accept)
  }

  /**
    After round `k` no update of the batch is lost: each is still to be sent, or
    was accepted in one of the first `k` rounds; with confirm acks, each is still
    to be sent or remembered in the id map, waiting for its confirmation.
   */
  predicate Accounted(states: seq<LoopState>, k: nat, confirmAckEnabled: bool, accept: CorrelationId -> bool)
    requires k < |states|
  {
    forall u :: u in states[0].updates ==>
      && (u in Working(states[k], k + 1) || exists j :: 1 <= j <= k && AcceptedIn(states, j, u, accept))
      && (confirmAckEnabled ==> u in Working(states[k], k + 1) || u in states[k].updatesById.Values)
  }

  /**
    A successful run delivered the batch: every update had a send the transport
    accepted, and, with confirm acks, every update is remembered under an id whose
    wait in the last round was confirmed.
   */
  predicate Delivered(states: seq<LoopState>, confirmAckEnabled: bool, env: Environment) {
    && |states| >= 2
    && var n := |states| - 1;
       forall u :: u in states[0].updates ==>
         && (exists j :: 1 <= j <= n && AcceptedIn(states, j, u, env.accept))
         && (confirmAckEnabled ==>
               exists id :: id in states[n].updatesById && states[n].updatesById[id] == u &&
                 Confirmed(AwaitInput(states[n - 1], confirmAckEnabled, env, n).latches, id, env.interrupted))
  }

  /** An update remembered under an id when the waits start is afterwards still to be sent, or still remembered. */
  lemma RoundKeepsRemembered(s: LoopState, confirmAckEnabled: bool, env: Environment, attempt: nat, order: seq<CorrelationId>)
    requires attempt >= 1
    requires WaitOrder(s, confirmAckEnabled, env, attempt, order)
    ensures var input, r := AwaitInput(s, confirmAckEnabled, env, attempt), Round(s, confirmAckEnabled, env, attempt, order, false);
      forall id :: id in input.updatesById ==>
        input.updatesById[id] in Working(r, attempt + 1) || input.updatesById[id] in r.updatesById.Values
  {
    var input := AwaitInput(s, confirmAckEnabled, env, attempt);
    var r := Round(s, confirmAckEnabled, env, attempt, order, false);
    if Awaits(s, confirmAckEnabled, env, attempt) {
      AwaitAllAccounts(input, order, env.interrupted);
    }
    forall id | id in input.updatesById
      ensures input.updatesById[id] in Working(r, attempt + 1) || input.updatesById[id] in r.updatesById.Values
    {
      if id in r.updatesById {
        assert r.updatesById[id] == input.updatesById[id];
      }
    }
  }

  /** After `retainAll` of the failed sends, each update of the working list is either kept or had an accepted send. */
  lemma RetainResends(w: seq<QueryMetricUpdate>, first: nat, accept: CorrelationId -> bool)
    ensures forall u :: u in w ==> u in Retain(w, Rejected(w, first, accept)) || AcceptedAmong(w, first, u, accept)
  {
    RejectedContains(w, first, accept);
    forall u | u in w && !AcceptedAmong(w, first, u, accept) ensures u in Rejected(w, first, accept) {
      var i :| 0 <= i < |w| && w[i] == u;
    }
  }

  /**
    With confirm acks, each update of the working list or the id map is, after the
    sends, kept for the next round or remembered under some id.
   */
  lemma RetainOrRemember(m: UpdatesById, w: seq<QueryMetricUpdate>, first: nat, accept: CorrelationId -> bool)
    requires forall id :: id in m ==> id < first
    ensures forall u :: u in w || u in m.Values ==>
      u in Retain(w, Rejected(w, first, accept)) || u in (m + Accepted(w, first, accept)).Values
  {
    RetainResends(w, first, accept);
    var added := Accepted(w, first, accept);
    forall u | u in w || u in m.Values
      ensures u in Retain(w, Rejected(w, first, accept)) || u in (m + added).Values
    {
      if u in m.Values {
        var id :| id in m && m[id] == u;
        assert id !in added;
        assert (m + added)[id] == u;
      } else if AcceptedAmong(w, first, u, accept) {
        var i :| 0 <= i < |w| && w[i] == u && accept(first + i);
        assert (m + added)[first + i] == u;
      }
    }
  }

  /** The sends and failed sends of a round, as `Round` leaves them for the next one. */
  lemma RoundSends(s: LoopState, confirmAckEnabled: bool, env: Environment, attempt: nat, order: seq<CorrelationId>)
    requires attempt >= 1
    requires WaitOrder(s, confirmAckEnabled, env, attempt, order)
    ensures var w, r := Working(s, attempt), Round(s, confirmAckEnabled, env, attempt, order, false);
      && r.updates == Retain(w, Rejected(w, s.nextId, env.accept))
      && Working(r, attempt + 1) == r.updates + r.failedConfirmAck
  {
    var w := Working(s, attempt);
    var snd := SendPhase(s, confirmAckEnabled, env, attempt);
    assert snd.failedSend == [] + Rejected(w, s.nextId, env.accept);
    assert [] + Rejected(w, s.nextId, env.accept) == Rejected(w, s.nextId, env.accept);
  }

  /** Each update a round sends is accepted, or sent again by the next round. */
  lemma RoundResends(s: LoopState, confirmAckEnabled: bool, env: Environment, attempt: nat, order: seq<CorrelationId>)
    requires attempt >= 1
    requires WaitOrder(s, confirmAckEnabled, env, attempt, order)
    ensures var w, r := Working(s, attempt), Round(s, confirmAckEnabled, env, attempt, order, false);
      forall u :: u in w ==> u in Working(r, attempt + 1) || AcceptedAmong(w, s.nextId, u, env.accept)
  {
    RoundSends(s, confirmAckEnabled, env, attempt, order);
    RetainResends(Working(s, attempt), s.nextId, env.accept);
  }

  /**
    With confirm acks, each update a round sends or starts out remembering is
    afterwards still to be sent or still remembered.
   */
  lemma RoundAccounts(s: LoopState, env: Environment, attempt: nat, order: seq<CorrelationId>)
    requires attempt >= 1
    requires WaitOrder(s, true, env, attempt, order)
    requires Issued(s.latches, s.updatesById, s.nextId)
    ensures var w, r := Working(s, attempt), Round(s, true, env, attempt, order, false);
      forall u :: u in w || u in s.updatesById.Values ==> u in Working(r, attempt + 1) || u in r.updatesById.Values
  {
    var w := Working(s, attempt);
    RoundSends(s, true, env, attempt, order);
    RetainOrRemember(s.updatesById, w, s.nextId, env.accept);
    SendAllRemembers(SendState(s.latches, s.nextId, s.updatesById, [], true), w, true, env.accept);
    RoundKeepsRemembered(s, true, env, attempt, order);
    var input := AwaitInput(s, true, env, attempt);
    assert input.updatesById == s.updatesById + Accepted(w, s.nextId, env.accept);
    forall u | u in input.updatesById.Values
      ensures u in Working(Round(s, true, env, attempt, order, false), attempt + 1) ||
              u in Round(s, true, env, attempt, order, false).updatesById.Values
    {
      var id :| id in input.updatesById && input.updatesById[id] == u;
    }
  }

  /** Round `k` of a run, the step from `prev` to `next`, carries the accounting of the rounds before it forward. */
  lemma AccountedStep(states: seq<LoopState>, k: nat, prev: LoopState, next: LoopState,
                      confirmAckEnabled: bool, env: Environment, order: seq<CorrelationId>)
    requires 1 <= k < |states| && prev == states[k - 1] && next == states[k]
    requires Step(prev, next, confirmAckEnabled, env, k, order)
    requires Issued(prev.latches, prev.updatesById, prev.nextId)
    requires Accounted(states, k - 1, confirmAckEnabled, env.accept)
    ensures Issued(next.latches, next.updatesById, next.nextId)
    ensures Accounted(states, k, confirmAckEnabled, env.accept)
  {
    RoundIssues(prev, confirmAckEnabled, env, k, order, false);
    RoundResends(prev, confirmAckEnabled, env, k, order);
    if confirmAckEnabled {
      RoundAccounts(prev, env, k, order);
    }
    forall u | u in states[0].updates
      ensures u in Working(next, k + 1) || exists j :: 1 <= j <= k && AcceptedIn(states, j, u, env.accept)
    {
      if u in Working(prev, k) && u !in Working(next, k + 1) {
        assert AcceptedIn(states, k, u, env.accept);
      }
    }
  }

  /** Round `k` of the rounds `states` is a `Step`, waiting in the order `orders[k - 1]`. */
  ghost predicate StepAt(states: seq<LoopState>, orders: seq<seq<CorrelationId>>, confirmAckEnabled: bool, env: Environment, k: nat) {
    && 1 <= k <= |orders| && |orders| < |states|
    && Step(states[k - 1], states[k], confirmAckEnabled, env, k, orders[k - 1])
  }

  /** Along the first `k` rounds of a run, no update of the batch is lost, and the ids stay issued. */
  lemma {:induction false} RunAccounts(states: seq<LoopState>, orders: seq<seq<CorrelationId>>, confirmAckEnabled: bool, env: Environment, k: nat)
    requires k <= |orders| < |states|
    requires forall j :: 1 <= j <= k ==> StepAt(states, orders, confirmAckEnabled, env, j)
    requires Issued(states[0].latches, states[0].updatesById, states[0].nextId)
    ensures Issued(states[k].latches, states[k].updatesById, states[k].nextId)
    ensures Accounted(states, k, confirmAckEnabled, env.accept)
    decreases k
  {
    if k > 0 {
      RunAccounts(states, orders, confirmAckEnabled, env, k - 1);
      assert StepAt(states, orders, confirmAckEnabled, env, k);
      AccountedStep(states, k, states[k - 1], states[k], confirmAckEnabled, env, orders[k - 1]);
    }
  }

  /**
    A round that succeeds without throwing leaves nothing to send, provided it
    starts with no failed confirm acks pending (the first round) or is a retry.
   */
  lemma RoundEmpties(s: LoopState, confirmAckEnabled: bool, env: Environment, attempt: nat, order: seq<CorrelationId>)
    requires attempt >= 1
    requires WaitOrder(s, confirmAckEnabled, env, attempt, order)
    requires attempt > 1 || s.failedConfirmAck == []
    requires var r := Round(s, confirmAckEnabled, env, attempt, order, false); r.success && !r.thrown
    ensures Working(Round(s, confirmAckEnabled, env, attempt, order, false), attempt + 1) == []
  {
    var w := Working(s, attempt);
    var r := Round(s, confirmAckEnabled, env, attempt, order, false);
    RoundSuccess(s, confirmAckEnabled, env, attempt, order, false);
    var snd := SendPhase(s, confirmAckEnabled, env, attempt);
    assert snd.failedSend == [] + Rejected(w, s.nextId, env.accept);
    var input := AwaitInput(s, confirmAckEnabled, env, attempt);
    if Awaits(s, confirmAckEnabled, env, attempt) {
      AwaitAllLatches(input, order, env.interrupted, false);
      AwaitAllFailures(input, order, env.interrupted, false);
    }
    RetainNone(w);
  }

  /** A round that succeeds with confirm acks keeps in the id map only ids whose wait it confirmed. */
  lemma RoundKeepsOnlyConfirmed(s: LoopState, env: Environment, attempt: nat, order: seq<CorrelationId>)
    requires WaitOrder(s, true, env, attempt, order)
    requires var r := Round(s, true, env, attempt, order, false); r.success && !r.thrown
    ensures var r := Round(s, true, env, attempt, order, false);
      forall id :: id in r.updatesById ==> Confirmed(AwaitInput(s, true, env, attempt).latches, id, env.interrupted)
  {
    var input := AwaitInput(s, true, env, attempt);
    AwaitAllLatches(input, order, env.interrupted, false);
    AwaitAllKeepsConfirmed(input, order, env.interrupted, false);
  }

  /**
    A run whose accounting closes with nothing left to send, and whose last id map
    holds only ids the last round confirmed, delivered its batch.
   */
  lemma AccountedDelivered(states: seq<LoopState>, n: nat, confirmAckEnabled: bool, env: Environment)
    requires 1 <= n && n == |states| - 1
    requires Accounted(states, n, confirmAckEnabled, env.accept)
    requires Working(states[n], n + 1) == []
    requires confirmAckEnabled ==> forall id :: id in states[n].updatesById ==>
      Confirmed(AwaitInput(states[n - 1], confirmAckEnabled, env, n).latches, id, env.interrupted)
    ensures Delivered(states, confirmAckEnabled, env)
  {
    var last, latches := states[n], AwaitInput(states[n - 1], confirmAckEnabled, env, n).latches;
    forall u | u in states[0].updates
      ensures exists j :: 1 <= j <= n && AcceptedIn(states, j, u, env.accept)
      ensures confirmAckEnabled ==>
        exists id :: id in last.updatesById && last.updatesById[id] == u && Confirmed(latches, id, env.interrupted)
    {
      assert u !in Working(last, n + 1);
      if confirmAckEnabled {
        assert u in last.updatesById.Values;
        var id :| id in last.updatesById && last.updatesById[id] == u;
        assert Confirmed(latches, id, env.interrupted);
      }
    }
  }

  /**
    The batch of a successful run was delivered: when the last round succeeds
    without throwing, every update of the batch had an accepted send, and with
    confirm acks its confirmation arrived.
   */
  lemma RunDelivers(states: seq<LoopState>, orders: seq<seq<CorrelationId>>, confirmAckEnabled: bool, env: Environment,
                    maxAttempts: int, failTimeoutMillis: int, latches: Latches, nextId: nat, updates: seq<QueryMetricUpdate>)
    requires Run(states, orders, confirmAckEnabled, env, maxAttempts, failTimeoutMillis)
    requires states[0] == Start(latches, nextId, updates) && Issued(latches, map[], nextId)
    requires orders != []
    ensures states[|orders|].success && !states[|orders|].thrown ==> Delivered(states, confirmAckEnabled, env)
  {
    var n := |orders|;
    if states[n].success && !states[n].thrown {
      forall j | 1 <= j <= n ensures StepAt(states, orders, confirmAckEnabled, env, j) {
        RunStepAt(states, orders, confirmAckEnabled, env, maxAttempts, failTimeoutMillis, j);
      }
      RunAccounts(states, orders, confirmAckEnabled, env, n);
      assert StepAt(states, orders, confirmAckEnabled, env, n);
      RoundEmpties(states[n - 1], confirmAckEnabled, env, n, orders[n - 1]);
      if confirmAckEnabled {
        RoundKeepsOnlyConfirmed(states[n - 1], env, n, orders[n - 1]);
      }
      AccountedDelivered(states, n, confirmAckEnabled, env);
    }
  }

  // ---------------------------------------------------------------------------
  // A confirmed id is waited for again
  // ---------------------------------------------------------------------------

  /**
    As written, a wait that is confirmed unregisters the latch but leaves the id in
    the id map.  When a later round runs its waits, it waits for that id again, finds
    no latch, and throws.
   */
  lemma {:induction false} RetryAfterConfirmThrows(
    s: LoopState, env: Environment, attempt: nat, order: seq<CorrelationId>, order': seq<CorrelationId>, id: CorrelationId)
    requires WaitOrder(s, true, env, attempt, order)
    requires Issued(s.latches, s.updatesById, s.nextId)
    requires Tracked(s.updatesById, s.latches)
    requires Awaits(s, true, env, attempt)
    requires id in order && Confirmed(AwaitInput(s, true, env, attempt).latches, id, env.interrupted)
    requires WaitOrder(Round(s, true, env, attempt, order, false), true, env, attempt + 1, order')
    requires Awaits(Round(s, true, env, attempt, order, false), true, env, attempt + 1)
    ensures !Round(s, true, env, attempt, order, false).thrown
    ensures Round(Round(s, true, env, attempt, order, false), true, env, attempt + 1, order', false).thrown
  {
    var r := Round(s, true, env, attempt, order, false);
    var input := AwaitInput(s, true, env, attempt);
    RoundThrows(s, true, env, attempt, order, false);
    RoundIssues(s, true, env, attempt, order, false);
    AwaitAllLatches(input, order, env.interrupted, false);
    AwaitAllKeepsConfirmed(input, order, env.interrupted, false);
    assert id in r.updatesById && id !in r.latches;
    RoundThrows(r, true, env, attempt + 1, order', false);
  }

  /** Every send accepted, only the ack for id 0 delivered (during round 1), no interrupts, a stopped clock. */
  function OneAckEnv(): Environment {
    Environment(id => true, k => if k == 1 then [Some(0)] else [], id => false, k => 0)
  }

  /** The sends of round 1: both accepted under ids 0 and 1, with a fresh latch each. */
  lemma TwoUpdatesOneAckSends(u1: QueryMetricUpdate, u2: QueryMetricUpdate)
    ensures var snd := SendPhase(Start(map[], 0, [u1, u2]), true, OneAckEnv(), 1);
      && snd.success
      && snd.latches == map[0 := false, 1 := false]
      && snd.updatesById == map[0 := u1, 1 := u2]
  {
    var env := OneAckEnv();
    var w := [u1, u2];
    var s0 := SendState(map[], 0, map[], [], true);
    assert Working(Start(map[], 0, w), 1) == w;
    SendAllPrefix(s0, w, 0, true, env.accept);
    SendAllPrefix(s0, w, 1, true, env.accept);
    assert w[..0] == [] && w[..2] == w;
  }

  /** What the waits of round 1 find: both ids remembered, only the first latch counted down. */
  lemma TwoUpdatesOneAckInput(u1: QueryMetricUpdate, u2: QueryMetricUpdate)
    ensures var s := Start(map[], 0, [u1, u2]);
      var input := AwaitInput(s, true, OneAckEnv(), 1);
      && Working(s, 1) == [u1, u2]
      && Awaits(s, true, OneAckEnv(), 1)
      && input.updatesById == map[0 := u1, 1 := u2]
      && input.latches == map[0 := true, 1 := false]
  {
    var env := OneAckEnv();
    var s := Start(map[], 0, [u1, u2]);
    TwoUpdatesOneAckSends(u1, u2);
    var snd := SendPhase(s, true, env, 1);
    ProcessAcksSignals(snd.latches, true, env.acks(1));
    assert env.acks(1) == [Some(0)];
  }

  /**
    A first round whose sends are all accepted and whose waits cover two ids, the
    first confirmed and the second not: the round fails without throwing, and the
    next round sends exactly the second id's update.
   */
  lemma FirstRoundOneUnconfirmed(s: LoopState, env: Environment, order: seq<CorrelationId>, a: CorrelationId, b: CorrelationId)
    requires WaitOrder(s, true, env, 1, order)
    requires Issued(s.latches, s.updatesById, s.nextId) && Tracked(s.updatesById, s.latches)
    requires s.failedConfirmAck == []
    requires NoDuplicates(Working(s, 1))
    requires Awaits(s, true, env, 1)
    requires var input := AwaitInput(s, true, env, 1);
      && input.updatesById.Keys == {a, b}
      && Confirmed(input.latches, a, env.interrupted)
      && b in input.latches && !Confirmed(input.latches, b, env.interrupted)
    ensures var r := Round(s, true, env, 1, order, false);
      && !r.thrown && !r.success
      && Issued(r.latches, r.updatesById, r.nextId)
      && Working(r, 2) == [AwaitInput(s, true, env, 1).updatesById[b]]
  {
    var input := AwaitInput(s, true, env, 1);
    var r := Round(s, true, env, 1, order, false);
    assert !r.thrown && Issued(r.latches, r.updatesById, r.nextId) by {
      RoundThrows(s, true, env, 1, order, false);
      RoundIssues(s, true, env, 1, order, false);
    }
    var u := Unconfirmed(order, input.latches, env.interrupted);
    assert u == [b] by {
      assert forall id :: id in u <==> id == b;
      UnconfirmedNoDuplicates(order, input.latches, env.interrupted);
      SingletonSeq(u, b);
    }
    assert !r.success by {
      RoundSuccess(s, true, env, 1, order, false);
    }
    assert Working(r, 2) == [input.updatesById[b]] by {
      RoundCarriesFailures(s, true, env, 1, order, false);
      assert Rejected(Working(s, 1), s.nextId, env.accept) == [];
    }
  }

  /**
    A batch of two updates, both sends accepted, only the first acked: round 1 fails
    on the second update's wait and leaves the first update's id in the id map with
    its latch unregistered; round 2 sends the second update alone.
   */
  lemma TwoUpdatesOneAckFirstRound(u1: QueryMetricUpdate, u2: QueryMetricUpdate, order: seq<CorrelationId>)
    requires u1 != u2
    requires WaitOrder(Start(map[], 0, [u1, u2]), true, OneAckEnv(), 1, order)
    ensures var r1 := Round(Start(map[], 0, [u1, u2]), true, OneAckEnv(), 1, order, false);
      && !r1.success && !r1.thrown
      && Working(r1, 2) == [u2]
      && Issued(r1.latches, r1.updatesById, r1.nextId)
      && Awaits(r1, true, OneAckEnv(), 2)
  {
    TwoUpdatesOneAckInput(u1, u2);
    FirstRoundOneUnconfirmed(Start(map[], 0, [u1, u2]), OneAckEnv(), order, 0, 1);
    var r1 := Round(Start(map[], 0, [u1, u2]), true, OneAckEnv(), 1, order, false);
    assert AllAccepted(r1.nextId, 1, OneAckEnv().accept);
  }

  /** A duplicate-free sequence whose only element is `x` is `[x]`. */
  lemma SingletonSeq(u: seq<CorrelationId>, x: CorrelationId)
    requires NoDuplicates(u)
    requires forall id :: id in u <==> id == x
    ensures u == [x]
  {
    assert x in u;
    assert u[0] in u;
    if |u| >= 2 {
      FirstTwoIn(u);
      assert false;
    }
  }

  lemma FirstTwoIn(u: seq<CorrelationId>)
    ensures |u| >= 2 ==> u[0] in u && u[1] in u
  {
  }

  lemma {:induction false} UnconfirmedNoDuplicates(order: seq<CorrelationId>, latches: Latches, interrupted: CorrelationId -> bool)
    requires NoDuplicates(order)
    ensures NoDuplicates(Unconfirmed(order, latches, interrupted))
    decreases |order|
  {
    if order != [] {
      var n := |order| - 1;
      assert NoDuplicates(order[..n]);
      assert order[n] !in order[..n];
      UnconfirmedNoDuplicates(order[..n], latches, interrupted);
    }
  }

  /**
    ... and round 2, whose single send is accepted, waits again for the first
    update's id and throws, whatever order the hash set yields in either round.
   */
  lemma TwoUpdatesOneAckThrows(u1: QueryMetricUpdate, u2: QueryMetricUpdate, order: seq<CorrelationId>, order': seq<CorrelationId>)
    requires u1 != u2
    requires WaitOrder(Start(map[], 0, [u1, u2]), true, OneAckEnv(), 1, order)
    requires WaitOrder(Round(Start(map[], 0, [u1, u2]), true, OneAckEnv(), 1, order, false), true, OneAckEnv(), 2, order')
    ensures Round(Round(Start(map[], 0, [u1, u2]), true, OneAckEnv(), 1, order, false), true, OneAckEnv(), 2, order', false).thrown
  {
    TwoUpdatesOneAckInput(u1, u2);
    TwoUpdatesOneAckFirstRound(u1, u2, order);
    RetryAfterConfirmThrows(Start(map[], 0, [u1, u2]), OneAckEnv(), 1, order, order', 0);
  }

  /**
    Corrected: when every awaited id leaves the id map, confirmed or not, each id in
    the id map keeps its latch registered, so no round ever throws.
   */
  lemma FixedRoundNeverThrows(s: LoopState, confirmAckEnabled: bool, env: Environment, attempt: nat, order: seq<CorrelationId>)
    requires WaitOrder(s, confirmAckEnabled, env, attempt, order)
    requires Issued(s.latches, s.updatesById, s.nextId)
    requires Tracked(s.updatesById, s.latches)
    ensures var r := Round(s, confirmAckEnabled, env, attempt, order, true);
      && !r.thrown
      && Issued(r.latches, r.updatesById, r.nextId)
      && Tracked(r.updatesById, r.latches)
  {
    RoundThrows(s, confirmAckEnabled, env, attempt, order, true);
    RoundIssues(s, confirmAckEnabled, env, attempt, order, true);
    AwaitInputSpec(s, confirmAckEnabled, env, attempt);
    var input := AwaitInput(s, confirmAckEnabled, env, attempt);
    var r := Round(s, confirmAckEnabled, env, attempt, order, true);
    if Awaits(s, confirmAckEnabled, env, attempt) {
      AwaitAllLatches(input, order, env.interrupted, true);
      AwaitAllKeepsConfirmed(input, order, env.interrupted, true);
      assert r.updatesById == map[];
    }
  }
}
