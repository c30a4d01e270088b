/**
 The routing and processing workers as the loops they are.  Each is proved to be a run of
 QueueProtocol that adds only the worker's own kind of actions to those of the others, whatever
 the others do between two of its calls, so every theorem about runs holds of the system it
 leaves; and left undisturbed, each is proved to get its work done within a stated number of calls.
 */
module Workers {
  import opened Wrappers
  import opened WorkQueue
  import opened QueueProtocol
  import opened QueueRuns
  import opened Replay
  import opened Clients
  import opened ErrorPolicies

  /** `rounds` times `size` more than `from`. */
  ghost function Grown(from: nat, size: nat, rounds: nat): nat {
    if rounds == 0 then from else Grown(from, size, rounds - 1) + size
  }

  lemma {:induction false} GrownIs(from: nat, size: nat, rounds: nat)
    ensures Grown(from, size, rounds) == from + size * rounds
  {
    if rounds > 0 {
      GrownIs(from, size, rounds - 1);
    }
  }

  lemma {:induction false} GrownGrows(from: nat, size: nat, few: nat, rounds: nat)
    requires few <= rounds
    ensures Grown(from, size, few) <= Grown(from, size, rounds)
  {
    if few < rounds {
      GrownGrows(from, size, few, rounds - 1);
    }
  }

  /** The cursor has gone `rounds` batches beyond `from`, or to `head`. */
  ghost predicate Got(head: nat, from: nat, size: nat, rounds: nat, cursor: nat) {
    MinNat(head, Grown(from, size, rounds)) <= cursor
  }

  lemma GotFurther(head: nat, head': nat, from: nat, size: nat, rounds: nat, cursor: nat, cursor': nat)
    requires Got(head, from, size, rounds, cursor)
    requires head <= head' && MinNat(head', cursor + size) <= cursor'
    ensures Got(head, from, size, rounds + 1, cursor')
  {
  }

  lemma GotAtLeast(head: nat, from: nat, size: nat, few: nat, rounds: nat, cursor: nat, cursor': nat)
    requires Got(head, from, size, rounds, cursor) && few <= rounds && cursor <= cursor'
    ensures Got(head, from, size, few, cursor')
  {
    GrownGrows(from, size, few, rounds);
  }

  // ---------------------------------------------------------------- the routing worker

  /** What user code's `routeFn` may come back with. */
  datatype RouteAnswer = To(partition: Partition) | Ignore | Invalid

  function AsRoute<E>(routeFn: E -> RouteAnswer): E -> Option<Partition> {
    (e: E) => match routeFn(e)
      case To(p) => Some(p)
      case _ => None
  }

  /** The log and the cursor only grow, and a lease that was to be had still is. */
  ghost predicate Onward<E>(s: System<E>, t: System<E>, me: WorkerId) {
    && |s.log| <= |t.log| && Seen(s.queue) <= Seen(t.queue)
    && (Grantable(s.queue.sub, me, s.now) ==> Grantable(t.queue.sub, me, t.now))
  }

  class RoutingWorker<S, E> {
    const client: Client<S, E>
    const routeFn: E -> RouteAnswer
    const batchSize: nat
    const leaseSeconds: nat
    const start: StartFrom
    var closing: bool
    var aborted: bool
    var holdingLease: bool
    /** A release that never arrived, or a claim whose answer was lost, may have left the lease behind. */
    ghost var adrift: bool

    ghost predicate Valid()
      reads this, client, client.store
    {
      && client.Valid() && client.cfg.route == AsRoute(routeFn) && batchSize > 0
      && (client.Stopped() ==> closing)
      && (HeldBy(client.system.queue.sub, client.me) ==> holdingLease || adrift)
    }

    /** Some event of the log gets no routing decision. */
    ghost predicate Misroutes(log: seq<E>) {
      exists i :: 0 <= i < |log| && routeFn(log[i]) == Invalid
    }

    /** From call `n` on no call is lost, no batch is cut short, and nobody else takes or resets the subscription. */
    ghost predicate CalmFrom(n: nat) {
      forall i | n <= i < |client.moments| ::
        client.moments[i].fate.Answered? && client.moments[i].stopsAt >= batchSize && Calm(client.moments[i].actions)
    }

    constructor (client: Client<S, E>, routeFn: E -> RouteAnswer, batchSize: nat, leaseSeconds: nat, start: StartFrom)
      requires client.Valid() && client.cfg.route == AsRoute(routeFn) && batchSize > 0
      requires !HeldBy(client.system.queue.sub, client.me)
      ensures Valid() && this.client == client && !aborted && !adrift && (closing <==> client.Stopped())
    {
      this.client, this.routeFn, this.batchSize, this.leaseSeconds, this.start := client, routeFn, batchSize, leaseSeconds, start;
      closing, aborted, holdingLease, adrift := client.calls >= |client.moments|, false, false, false;
    }

    /**
     `routeOneBatch`: None exactly when the batch is empty, a stop arrives before its end, or an
     answer is not a routing decision; otherwise the decisions of one sequential pass over it.
     */
    method RouteOneBatch(batch: seq<E>, lastSeen: nat, stopsAt: nat, ghost log: seq<E>) returns (r: Option<(seq<Key>, nat)>)
      requires lastSeen + |batch| <= |log| && batch == log[lastSeen..lastSeen + |batch|]
      requires client.cfg.route == AsRoute(routeFn) && !closing && !aborted
      modifies this`closing, this`aborted
      ensures r.None? <==> batch == [] || closing || aborted
      ensures closing <==> stopsAt < |batch| && forall i | 0 <= i < stopsAt :: routeFn(batch[i]) != Invalid
      ensures aborted <==> exists i :: 0 <= i < |batch| && i < stopsAt && routeFn(batch[i]) == Invalid
      ensures r.Some? ==> r.value == (Decide(client.cfg, log, lastSeen, lastSeen + |batch|), lastSeen + |batch|)
    {
      var decisions: seq<Key> := [];
      for i := 0 to |batch|
        invariant decisions == Decide(client.cfg, log, lastSeen, lastSeen + i)
        invariant i <= stopsAt && !closing && !aborted
        invariant forall j | 0 <= j < i :: routeFn(batch[j]) != Invalid
      {
        if i == stopsAt {
          closing := true;
          return None;
        }
        assert batch[i] == log[lastSeen + i];
        var d := routeFn(batch[i]);
        if d == Invalid {
          aborted := true;
          return None;
        }
        if d.To? {
          decisions := decisions + [Key(d.partition, lastSeen + i + 1)];
        }
      }
      if batch == [] {
        return None;
      }
      return Some((decisions, lastSeen + |batch|));
    }

    /** Others act, and the worker notices when it has been stopped. */
    method Wait() returns (m: Moment<S, E>)
      requires Valid()
      modifies this`closing, client, client.store
      ensures Valid() && client.calls == old(client.calls) + 1 && m == old(client.Now())
      ensures closing <==> old(closing) || client.Stopped()
      ensures Extends(old(client.trace), client.trace, client.me, Routing)
      ensures Untouched(old(client.system), client.system, client.me)
      ensures CalmFrom(old(client.calls)) ==> m.fate.Answered? && Undisturbed(old(client.system), client.system, client.me)
    {
      m := client.Wait();
      if client.Stopped() {
        closing := true;
      }
    }

    /** `releaseQuietly`: a no-op without the lease; every error is swallowed. */
    method ReleaseQuietly()
      requires Valid()
      modifies this`closing, this`holdingLease, this`adrift, client, client.store
      ensures Valid() && old(client.calls) <= client.calls <= old(client.calls) + 1 && !holdingLease
      ensures closing <==> old(closing) || client.Stopped()
      ensures Extends(old(client.trace), client.trace, client.me, Routing)
      ensures HeldBy(client.system.queue.sub, client.me) ==> adrift
      ensures old(client.system).log <= client.system.log
      ensures CalmFrom(old(client.calls)) ==> Onward(old(client.system), client.system, client.me) && (adrift ==> old(adrift))
    {
      if !holdingLease {
        return;
      }
      holdingLease := false;
      adrift := true;
      var m := Wait();
      if !m.fate.NeverArrived? {
        Release();
      }
    }

    method Release()
      requires Valid() && !holdingLease
      modifies this`adrift, client`system, client`trace, client.store
      ensures Valid() && !adrift && !HeldBy(client.system.queue.sub, client.me)
      ensures Extends(old(client.trace), client.trace, client.me, Routing)
      ensures client.system.log == old(client.system).log && Onward(old(client.system), client.system, client.me)
    {
      var _ := client.ReleaseSubscription();
      adrift := false;
    }

    /** The lease is the worker's for `leaseSeconds` from now on, by a claim with its own start position. */
    ghost predicate Leased(lastSeen: nat)
      reads this, client
    {
      && holdingLease && RouterOf(client.system, client.me) == Holding(lastSeen)
      && client.system.queue.sub == Some(Subscription(lastSeen, Some(Lease(client.me, client.system.now + leaseSeconds))))
      && client.trace != [] && client.trace[|client.trace| - 1] == ClaimSub(client.me, leaseSeconds, start)
    }

    /** The claim itself, whose answer may be `lost`. */
    method Ask(lost: bool) returns (lastSeen: Option<nat>)
      requires Valid()
      modifies this`holdingLease, this`adrift, client`system, client`trace, client.store
      ensures Valid() && Extends(old(client.trace), client.trace, client.me, Routing)
      ensures if lost then lastSeen.None? else adrift == old(adrift)
      ensures lastSeen.Some? ==> Leased(lastSeen.value)
      ensures !lost && Grantable(old(client.system).queue.sub, client.me, old(client.system).now) ==>
        lastSeen.Some? && Seen(old(client.system).queue) <= lastSeen.value
      ensures client.system.log == old(client.system).log && client.system.now == old(client.system).now
    {
      var result := client.ClaimSubscription(leaseSeconds, start);
      if lost {
        adrift := true;
        return None;
      }
      match result
      case AlreadyClaimed(_, _) => return None;
      case Granted(n) =>
        holdingLease := true;
        return Some(n);
    }

    /** The claim of one round; None when another worker holds the lease, `error` when the call was not answered. */
    method Claim() returns (lastSeen: Option<nat>, error: bool)
      requires Valid()
      modifies this`closing, this`holdingLease, this`adrift, client, client.store
      ensures Valid() && client.calls == old(client.calls) + 1
      ensures closing <==> old(closing) || client.Stopped()
      ensures Extends(old(client.trace), client.trace, client.me, Routing)
      ensures error ==> lastSeen.None?
      ensures !error ==> adrift == old(adrift)
      ensures lastSeen.Some? ==> Leased(lastSeen.value)
      ensures CalmFrom(old(client.calls)) && Grantable(old(client.system).queue.sub, client.me, old(client.system).now) ==>
        lastSeen.Some? && !error && Onward(old(client.system), client.system, client.me)
    {
      var m := Wait();
      if m.fate.NeverArrived? {
        return None, true;
      }
      lastSeen := Ask(m.fate.AnswerLost?);
      error := m.fate.AnswerLost?;
    }

    /** The local routing of a batch already read, recorded as the protocol's ReadAndRoute. */
    method RouteRead(lastSeen: nat, stopsAt: nat) returns (routed: Option<(seq<Key>, nat)>)
      requires Valid() && holdingLease && RouterOf(client.system, client.me) == Holding(lastSeen) && !closing && !aborted
      requires lastSeen < |client.system.log|
      modifies this`closing, this`aborted, client`system, client`trace
      ensures Valid() && client.system.queue == old(client.system.queue) && client.system.log == old(client.system.log)
      ensures client.system.now == old(client.system.now)
      ensures Extends(old(client.trace), client.trace, client.me, Routing)
      ensures routed.None? ==> closing || aborted
      ensures aborted ==> Misroutes(client.system.log)
      ensures stopsAt >= batchSize ==> !closing
      ensures routed.Some? ==> !closing && !aborted && routed.value.1 == MinNat(lastSeen + batchSize, |client.system.log|)
      ensures routed.Some? ==> RouterOf(client.system, client.me) == Routed(lastSeen, routed.value.1, routed.value.0)
    {
      var log := client.store.log;
      var cursor := MinNat(lastSeen + batchSize, |log|);
      routed := RouteOneBatch(log[lastSeen..cursor], lastSeen, stopsAt, log);
      if routed.Some? {
        client.ReadAndRoute(lastSeen, batchSize);
      }
    }

    /** `readAll(lastSeen + 1, batchSize)` and the routing of what it returned; the flag says to stop for good. */
    method ReadAndDecide(lastSeen: nat) returns (routed: Option<(seq<Key>, nat)>, drop: bool)
      requires Valid() && holdingLease && RouterOf(client.system, client.me) == Holding(lastSeen) && !closing && !aborted
      modifies this`closing, this`aborted, client, client.store
      ensures Valid() && client.calls == old(client.calls) + 1
      ensures Extends(old(client.trace), client.trace, client.me, Routing)
      ensures drop ==> closing || aborted
      ensures aborted ==> drop && Misroutes(client.system.log)
      ensures routed.Some? ==> RouterOf(client.system, client.me) == Routed(lastSeen, routed.value.1, routed.value.0)
      ensures CalmFrom(old(client.calls)) ==>
        && (closing ==> client.Stopped())
        && Undisturbed(old(client.system), client.system, client.me) && |old(client.system).log| <= |client.system.log|
        && (routed.None? && !drop ==> |client.system.log| <= lastSeen)
        && (routed.Some? ==> routed.value.1 == MinNat(lastSeen + batchSize, |client.system.log|))
    {
      var m := Wait();
      if !m.fate.Answered? || lastSeen >= |client.store.log| {
        return None, false;
      }
      if closing {
        return None, true;
      }
      routed := RouteRead(lastSeen, m.stopsAt);
      drop := routed.None?;
    }

    /** `routeBatch`; `again` when the lease was lost, and the flag follows. */
    method Commit(cursor: nat, decisions: seq<Key>, ghost lastSeen: nat) returns (again: bool)
      requires Valid() && RouterOf(client.system, client.me) == Routed(lastSeen, cursor, decisions)
      modifies this`closing, this`holdingLease, client, client.store
      ensures Valid() && client.calls == old(client.calls) + 1
      ensures closing <==> old(closing) || client.Stopped()
      ensures Extends(old(client.trace), client.trace, client.me, Routing)
      ensures CalmFrom(old(client.calls)) && HeldBy(old(client.system).queue.sub, client.me) ==>
        !again && cursor <= Seen(client.system.queue) && Onward(old(client.system), client.system, client.me)
    {
      var m := Wait();
      if m.fate.NeverArrived? {
        return false;
      }
      var reply := client.RouteBatch(cursor, decisions);
      if m.fate.Answered? && (reply.SubscriptionLeaseLost? || reply.SubscriptionNotFound?) {
        holdingLease := false;
        return true;
      }
      return false;
    }

    /** The batch at hand is committed, and the lease released unless the commit found it gone. */
    method Finish(cursor: nat, decisions: seq<Key>, ghost lastSeen: nat)
      requires Valid() && RouterOf(client.system, client.me) == Routed(lastSeen, cursor, decisions)
      modifies this`closing, this`holdingLease, this`adrift, client, client.store
      ensures Valid() && old(client.calls) < client.calls <= old(client.calls) + 2
      ensures closing <==> old(closing) || client.Stopped()
      ensures Extends(old(client.trace), client.trace, client.me, Routing)
      ensures CalmFrom(old(client.calls)) && HeldBy(old(client.system).queue.sub, client.me) ==>
        cursor <= Seen(client.system.queue) && Onward(old(client.system), client.system, client.me) && (adrift ==> old(adrift))
    {
      var again := Commit(cursor, decisions, lastSeen);
      if !again {
        ReleaseQuietly();
      }
    }

    /** The rest of a turn, once the lease is the worker's. */
    method Turn(lastSeen: nat) returns (done: bool)
      requires Valid() && !closing && !aborted && Leased(lastSeen)
      modifies this, client, client.store
      ensures Valid() && old(client.calls) < client.calls
      ensures Extends(old(client.trace), client.trace, client.me, Routing)
      ensures aborted ==> Misroutes(client.system.log)
      ensures old(CalmFrom(client.calls)) && !aborted ==>
        && (closing ==> client.Stopped()) && client.calls <= old(client.calls) + (if done then 3 else 2)
        && (!done ==> closing) && Onward(old(client.system), client.system, client.me) && (adrift ==> old(adrift))
        && (done ==> MinNat(|old(client.system).log|, lastSeen + batchSize) <= Seen(client.system.queue))
    {
      var routed, drop := ReadAndDecide(lastSeen);
      if drop {
        return false;
      }
      if routed.None? {
        ReleaseQuietly();
      } else {
        Finish(routed.value.1, routed.value.0, lastSeen);
      }
      return true;
    }

    /**
     One turn of the loop; `done` unless it ends the loop.  On a calm subscription that the worker
     may claim, a turn takes the cursor one batch further or to the end of the log.
     */
    method Round() returns (done: bool)
      requires Valid() && !closing && !aborted
      modifies this, client, client.store
      ensures Valid() && old(client.calls) < client.calls
      ensures Extends(old(client.trace), client.trace, client.me, Routing)
      ensures aborted ==> Misroutes(client.system.log)
      ensures old(CalmFrom(client.calls) && Grantable(client.system.queue.sub, client.me, client.system.now)) && !aborted ==>
        && (closing ==> client.Stopped()) && client.calls <= old(client.calls) + (if done then 4 else 3)
        && (!done ==> closing) && Onward(old(client.system), client.system, client.me) && (adrift ==> old(adrift))
        && (done ==> MinNat(|old(client.system).log|, Seen(old(client.system).queue) + batchSize) <= Seen(client.system.queue))
    {
      var lastSeen, error := Claim();
      if error || closing {
        return !error && lastSeen.None?;
      }
      if lastSeen.None? {
        return true;
      }
      done := Turn(lastSeen.value);
    }

    lemma MisroutesLater(log: seq<E>, log': seq<E>)
      requires Misroutes(log) && log <= log'
      ensures Misroutes(log')
    {
      var i :| 0 <= i < |log| && routeFn(log[i]) == Invalid;
      assert log'[i] == log[i];
    }

    /** The loop proper: turn after turn until one of them ends it. */
    method Rounds(ghost head: nat, ghost from: nat, ghost calm: bool) returns (ghost rounds: nat)
      requires Valid() && head == |client.system.log| && from == Seen(client.system.queue)
      requires calm ==>
        CalmFrom(client.calls) && !closing && Grantable(client.system.queue.sub, client.me, client.system.now)
      modifies this, client, client.store
      ensures Valid() && old(client.calls) <= client.calls && Extends(old(client.trace), client.trace, client.me, Routing)
      ensures aborted ==> old(aborted) || Misroutes(client.system.log)
      ensures calm && !aborted ==>
        (adrift ==> old(adrift)) && (|client.moments| - old(client.calls)) / 4 <= rounds && Got(head, from, batchSize, rounds, Seen(client.system.queue))
    {
      ghost var before, first := client.system, client.calls;
      rounds := 0;
      var more := true;
      while !closing && !aborted && more
        invariant Valid() && first <= client.calls && Extends(old(client.trace), client.trace, client.me, Routing)
        invariant aborted ==> old(aborted) || Misroutes(client.system.log)
        invariant calm && !aborted ==>
          && (closing ==> client.Stopped()) && (!more ==> closing) && client.calls - first <= 4 * rounds + (if more then 0 else 3)
          && (adrift ==> old(adrift)) && Onward(before, client.system, client.me) && Got(head, from, batchSize, rounds, Seen(client.system.queue))
        decreases |client.moments| - client.calls
      {
        ghost var was := client.system;
        more := Round();
        if calm && !aborted && more {
          GotFurther(head, |was.log|, from, batchSize, rounds, Seen(was.queue), Seen(client.system.queue));
          rounds := rounds + 1;
        }
      }
    }

    /**
     The whole worker, until it is stopped, aborts on user code, or gets no answer to its claim.
     It is a run of the protocol that extends the one so far by routing actions only, and it keeps
     the lease only if a release never arrived or a claim's answer was lost.  On a calm subscription that it may claim, every four calls
     take it a whole batch further, until the log it started with is routed.
     */
    method Loop()
      requires Valid()
      modifies this, client, client.store
      ensures Valid() && Extends(old(client.trace), client.trace, client.me, Routing)
      ensures HeldBy(client.system.queue.sub, client.me) ==> adrift
      ensures aborted ==> old(aborted) || Misroutes(client.system.log)
      ensures
        var before := old(client.system);
        var calls := |client.moments| - old(client.calls);
        old(CalmFrom(client.calls) && !closing && Grantable(client.system.queue.sub, client.me, client.system.now)) ==>
          aborted || ((adrift ==> old(adrift)) && Got(|before.log|, Seen(before.queue), batchSize, calls / 4, Seen(client.system.queue)))
    {
      ghost var head, from, first := |client.system.log|, Seen(client.system.queue), client.calls;
      ghost var calm := CalmFrom(first) && !closing && Grantable(client.system.queue.sub, client.me, client.system.now);
      ghost var rounds := Rounds(head, from, calm);
      ghost var reached, log := Seen(client.system.queue), client.system.log;
      ReleaseQuietly();
      if calm && !aborted {
        GotAtLeast(head, from, batchSize, (|client.moments| - first) / 4, rounds, reached, Seen(client.system.queue));
      }
      if Misroutes(log) {
        MisroutesLater(log, client.system.log);
      }
    }
  }

  // ---------------------------------------------------------------- the processing worker

  datatype ItemEnd = Acknowledged | Terminated | LeaseLost | AckLost | Interrupted | EventMissing | ReadFailed

  /** No item was finished. */
  ghost predicate SameWork<E>(s: System<E>, t: System<E>) {
    t.hist.completed == s.hist.completed && OpenKeys(t.queue.rows) == OpenKeys(s.queue.rows)
  }

  /** Item `key` was finished: it no longer blocks, and if it did not end its instance it is the next completion. */
  ghost predicate Finished<E>(s: System<E>, t: System<E>, key: Key, last: bool) {
    && OpenKeys(t.queue.rows) < OpenKeys(s.queue.rows) && key !in OpenKeys(t.queue.rows)
    && t.hist.completed == s.hist.completed + if last then [] else [key]
  }

  /** Fewer rows block. */
  ghost predicate OneMore<E>(s: System<E>, t: System<E>) {
    |OpenKeys(t.queue.rows)| < |OpenKeys(s.queue.rows)|
  }

  lemma Fewer<T>(a: set<T>, b: set<T>)
    requires a < b
    ensures |a| < |b|
  {
    assert b == a + (b - a);
  }

  class ProcessingWorker<S, E, Err, P> {
    const client: Client<S, E>
    const policy: Policy<Err, P>
    /** What the handler's `i`-th run on an item comes to. */
    const outcome: (Key, nat) -> Outcome<Err>
    /** The snapshot a process manager hands in with an acknowledgement. */
    const snapshot: Key -> Snapshot<S>
    /** A process manager's handler asks for the completion of its instance. */
    const completes: Key -> bool
    const leaseSeconds: nat
    var closing: bool
    var aborted: bool

    ghost predicate Valid()
      reads this, client, client.store
    {
      client.Valid() && (client.Stopped() ==> closing)
    }

    /** From call `n` on nobody else acts, no call is lost and no row is locked. */
    ghost predicate StillFrom(n: nat) {
      forall i | n <= i < |client.moments| ::
        client.moments[i].fate.Answered? && client.moments[i].actions == [] && client.moments[i].locked == {}
    }

    /** The handler returns on `key` within `tries` runs that the policy allows. */
    ghost predicate Settles(key: Key, tries: nat) {
      Expected(policy, Outcomes(key), tries + 1, 1, None).ok
    }

    /** An item that nothing disturbs: the handler gets its runs, and every call goes through. */
    ghost predicate Smooth(n: nat, key: Key, tries: nat) {
      StillFrom(n) && Settles(key, tries)
    }

    /** The item's acknowledgement takes the whole instance. */
    predicate Last(key: Key) {
      client.cfg.kind == ProcessManager && completes(key)
    }

    ghost predicate Holds(key: Key)
      reads client
    {
      client.system.queue.sub.Some? && ClaimedBy(client.system.queue.rows, key, client.me)
    }

    /** The claim of the item at hand runs for the whole lease from now on. */
    ghost predicate Renewed(key: Key)
      reads client
    {
      Holds(key) && client.system.queue.rows[key].until == client.system.now + leaseSeconds
    }

    ghost predicate NoneClaimable()
      reads client
    {
      forall k | k in client.system.queue.rows :: !Claimable(client.system.queue.rows, k, client.system.now)
    }

    constructor (client: Client<S, E>, policy: Policy<Err, P>, outcome: (Key, nat) -> Outcome<Err>,
                 snapshot: Key -> Snapshot<S>, completes: Key -> bool, leaseSeconds: nat)
      requires client.Valid()
      ensures Valid() && this.client == client && !aborted && (closing <==> client.Stopped())
    {
      this.client, this.policy, this.outcome, this.snapshot := client, policy, outcome, snapshot;
      this.completes, this.leaseSeconds := completes, leaseSeconds;
      closing, aborted := client.calls >= |client.moments|, false;
    }

    /** Others act, and the worker notices when it has been stopped. */
    method Pause() returns (m: Moment<S, E>)
      requires Valid()
      modifies this`closing, client, client.store
      ensures Valid() && client.calls == old(client.calls) + 1 && m == old(client.Now())
      ensures closing <==> old(closing) || client.Stopped()
      ensures Extends(old(client.trace), client.trace, client.me, Processing)
      ensures ProcOf(client.system, client.me) == ProcOf(old(client.system), client.me)
      ensures StillFrom(old(client.calls)) ==> m.fate.Answered? && m.locked == {} && client.system == old(client.system)
    {
      m := client.Wait();
      if client.Stopped() {
        closing := true;
      }
    }

    /** The heartbeat of the item at hand: it renews the claim, or finds it gone and aborts the worker. */
    method Beat(key: Key)
      requires Valid() && client.At(key)
      modifies this`aborted, client`system, client`trace, client.store
      ensures Valid() && Extends(old(client.trace), client.trace, client.me, Processing)
      ensures ProcOf(client.system, client.me) == ProcOf(old(client.system), client.me)
      ensures client.system.hist == old(client.system.hist) && client.system.log == old(client.system.log)
      ensures aborted <==> old(aborted) || !old(Holds(key))
      ensures OpenKeys(client.system.queue.rows) == OpenKeys(old(client.system).queue.rows)
      ensures if old(Holds(key)) then Renewed(key) else client.system.queue == old(client.system).queue
    {
      var reply := client.ExtendWorkItemClaim(key, leaseSeconds);
      if !reply.Ok? {
        aborted := true;
      }
    }

    /** A pause while an item is at hand: the heartbeat may fire. */
    method Wait(key: Key) returns (m: Moment<S, E>)
      requires Valid() && client.At(key)
      modifies this, client, client.store
      ensures Valid() && client.calls == old(client.calls) + 1
      ensures closing <==> old(closing) || client.Stopped()
      ensures old(aborted) ==> aborted
      ensures Extends(old(client.trace), client.trace, client.me, Processing)
      ensures ProcOf(client.system, client.me) == ProcOf(old(client.system), client.me)
      ensures if m.heartbeat then aborted || Renewed(key) else aborted == old(aborted)
      ensures StillFrom(old(client.calls)) && old(Holds(key)) ==>
        m.fate.Answered? && Holds(key) && aborted == old(aborted) && SameWork(old(client.system), client.system)
    {
      m := Pause();
      if m.heartbeat {
        Beat(key);
      }
    }

    function Outcomes(key: Key): nat -> Outcome<Err> {
      (i: nat) => outcome(key, i)
    }

    /** One attempt: the handler runs, and after a throw the policy decides; a retry waits first. */
    method TryOnce(key: Key, attempt: nat, state: Option<P>) returns (next: Attempted<P>)
      requires Valid() && client.At(key) && ProcOf(client.system, client.me).Working?
      modifies this, client, client.store
      ensures Valid() && client.At(key) && Extends(old(client.trace), client.trace, client.me, Processing)
      ensures next == AfterAttempt(policy, outcome(key, attempt), attempt, state)
      ensures client.calls == old(client.calls) + if next.Retry? then 1 else 0
      ensures closing <==> old(closing) || (next.Retry? && client.Stopped())
      ensures old(aborted) ==> aborted
      ensures ProcOf(client.system, client.me).Returned? <==> next.Succeeded?
      ensures next.GaveUp? ==> aborted
      ensures StillFrom(old(client.calls)) && old(Holds(key)) ==>
        Holds(key) && SameWork(old(client.system), client.system) && (!next.GaveUp? ==> aborted == old(aborted))
    {
      next := AfterAttempt(policy, outcome(key, attempt), attempt, state);
      client.RunHandler(next.Succeeded?, key);
      match next
      case Succeeded =>
      case GaveUp => aborted := true;
      case Retry(_) => var _ := Wait(key);
    }

    /** The retry loop has got to attempt `attempt` through the slots `states`, and holds the last of them. */
    ghost predicate Reached(key: Key, attempt: nat, state: Option<P>, states: seq<Option<P>>) {
      Retried(policy, Outcomes(key), states) && |states| == attempt && states[attempt - 1] == state
    }

    lemma NextAttempt(key: Key, attempt: nat, state: Option<P>, states: seq<Option<P>>, next: Attempted<P>, tries: nat)
      requires Reached(key, attempt, state, states)
      requires next == AfterAttempt(policy, outcome(key, attempt), attempt, state)
      ensures if next.Retry? then Reached(key, attempt + 1, next.state, states + [next.state])
              else Course(policy, Outcomes(key), attempt + 1, states, RunResult(next.Succeeded?, attempt, next.GaveUp?))
      ensures Settles(key, tries) && attempt <= tries ==> !next.GaveUp? && (next.Retry? ==> attempt < tries)
    {
      if next.Retry? {
        RetriedOnce(policy, Outcomes(key), states, next.state);
      }
      if attempt <= tries {
        ExpectedGoesOn(policy, Outcomes(key), tries + 1, states);
      }
    }

    lemma StoppedBefore(key: Key, attempt: nat, state: Option<P>, states: seq<Option<P>>)
      requires Reached(key, attempt, state, states)
      ensures attempt >= 1 && Course(policy, Outcomes(key), attempt, states, RunResult(false, attempt - 1, false))
    {
    }

    /**
     `runHandlerWithPolicy` on the claimed item: attempts count from 1, the state slot is
     threaded from each retry to the next attempt, and the loop ends as the one Course that there
     is for the run before which the worker was stopped.  On success the protocol has recorded
     the return.  Undisturbed, a handler that returns within `tries` runs is waited for, and the
     claim is still held.
     */
    method RunHandler(key: Key, ghost tries: nat)
      returns (ok: bool, runs: nat, ghost closesAt: nat, ghost states: seq<Option<P>>, ghost gaveUp: bool)
      requires Valid() && client.At(key) && ProcOf(client.system, client.me).Working?
      modifies this, client, client.store
      ensures Valid() && client.At(key) && client.calls >= old(client.calls)
      ensures Extends(old(client.trace), client.trace, client.me, Processing)
      ensures Course(policy, Outcomes(key), closesAt, states, RunResult(ok, runs, gaveUp)) && (gaveUp ==> aborted)
      ensures if ok then ProcOf(client.system, client.me).Returned? else closing || aborted
      ensures closing ==> old(closing) || client.Stopped()
      ensures Smooth(old(client.calls), key, tries) && old(Holds(key) && !aborted) ==>
        && Holds(key) && SameWork(old(client.system), client.system)
        && !aborted && client.calls < old(client.calls) + tries
    {
      var attempt: nat := 1;
      var state: Option<P> := None;
      states := [None];
      ghost var smooth := StillFrom(client.calls) && Holds(key) && !aborted && Settles(key, tries);
      while !closing && !aborted
        invariant Valid() && client.At(key) && ProcOf(client.system, client.me).Working?
        invariant Extends(old(client.trace), client.trace, client.me, Processing)
        invariant client.calls == old(client.calls) + attempt - 1
        invariant closing ==> old(closing) || client.Stopped()
        invariant Reached(key, attempt, state, states)
        invariant attempt >= 1 && (smooth ==> attempt <= tries)
        invariant smooth ==> Holds(key) && !aborted && SameWork(old(client.system), client.system)
        decreases |client.moments| - client.calls
      {
        var next := TryOnce(key, attempt, state);
        closesAt := attempt + 1;
        NextAttempt(key, attempt, state, states, next, tries);
        match next
        case Succeeded => return true, attempt, closesAt, states, false;
        case GaveUp => return false, attempt, closesAt, states, true;
        case Retry(state') => attempt, state, states := attempt + 1, state', states + [state'];
      }
      closesAt := attempt;
      StoppedBefore(key, attempt, state, states);
      return false, attempt - 1, closesAt, states, false;
    }

    /** An acknowledgement leaves the snapshot handed in with it, a termination none, and a refusal what there was. */
    function SnapsAfter(snaps: map<Partition, Snapshot<S>>, key: Key, end: ItemEnd): map<Partition, Snapshot<S>> {
      match end
      case Acknowledged => if client.cfg.kind == ProcessManager then snaps[key.partition := snapshot(key)] else snaps
      case Terminated => snaps - {key.partition}
      case _ => snaps
    }

    /**
     `complete`: of an item that goes on, accepted exactly while the claim is ours; of one that
     ends its instance, whoever holds the rows.  A refusal aborts the worker.
     */
    method Acknowledge(key: Key) returns (end: ItemEnd)
      requires Valid() && client.At(key) && ProcOf(client.system, client.me).Returned?
      modifies this`aborted, client`system, client`trace, client.store
      ensures Valid() && Extends(old(client.trace), client.trace, client.me, Processing)
      ensures ProcOf(client.system, client.me).Free?
      ensures Last(key) ==> end == if old(client.system).queue.sub.Some? then Terminated else LeaseLost
      ensures !Last(key) ==> end == if old(Holds(key)) then Acknowledged else LeaseLost
      ensures end.Acknowledged? ==> client.system.hist.completed == old(client.system.hist.completed) + [key] && aborted == old(aborted)
      ensures end.Terminated? ==> PartitionRows(client.system.queue.rows, key.partition) == {} && aborted == old(aborted)
      ensures end.LeaseLost? ==> aborted && client.system.queue == old(client.system.queue)
      ensures old(Holds(key)) ==> Finished(old(client.system), client.system, key, Last(key))
      ensures client.store.snaps == SnapsAfter(old(client.store.snaps), key, end)
    {
      var ok;
      if Holds(key) {
        assert key in OpenKeys(client.system.queue.rows) && key in PartitionRows(client.system.queue.rows, key.partition);
      }
      if Last(key) {
        var reply := client.CompletePmInstance(key);
        ok := reply.Ok?;
      } else {
        var reply := client.CompleteWorkItem(key, snapshot(key));
        ok := reply.Ok?;
      }
      if ok {
        return if Last(key) then Terminated else Acknowledged;
      }
      aborted := true;
      return LeaseLost;
    }

    /** The terminal step of an item whose handler returned; any failure of it stops the worker. */
    method Complete(key: Key) returns (end: ItemEnd)
      requires Valid() && client.At(key) && ProcOf(client.system, client.me).Returned?
      modifies this, client, client.store
      ensures Valid() && client.calls == old(client.calls) + 1 && ProcOf(client.system, client.me).Free?
      ensures Extends(old(client.trace), client.trace, client.me, Processing)
      ensures closing <==> old(closing) || client.Stopped()
      ensures Ended(end) || ((end.LeaseLost? || end.AckLost?) && aborted)
      ensures EndsAs(end, key)
      ensures StillFrom(old(client.calls)) && old(Holds(key)) ==>
        Ended(end) && aborted == old(aborted) && Finished(old(client.system), client.system, key, Last(key))
    {
      var m := Wait(key);
      if m.fate.NeverArrived? {
        aborted := true;
        client.Drop();
        return AckLost;
      }
      end := Acknowledge(key);
      if m.fate.AnswerLost? {
        aborted := true;
        return AckLost;
      }
    }

    predicate Ended(end: ItemEnd) {
      end.Acknowledged? || end.Terminated?
    }

    /** What the tables show of an item that was finished. */
    ghost predicate EndsAs(end: ItemEnd, key: Key)
      reads client
    {
      && (end.Acknowledged? ==>
            client.system.hist.completed != [] && client.system.hist.completed[|client.system.hist.completed| - 1] == key && !Last(key))
      && (end.Terminated? ==> PartitionRows(client.system.queue.rows, key.partition) == {} && Last(key))
    }

    /** The handler with its policy, and the terminal step once it has returned. */
    method HandleAndComplete(key: Key, ghost tries: nat) returns (end: ItemEnd)
      requires Valid() && client.At(key) && ProcOf(client.system, client.me).Working?
      modifies this, client, client.store
      ensures Valid() && client.calls >= old(client.calls) && ProcOf(client.system, client.me).Free?
      ensures Extends(old(client.trace), client.trace, client.me, Processing)
      ensures closing ==> old(closing) || client.Stopped()
      ensures !end.ReadFailed? && !end.EventMissing?
      ensures EndsAs(end, key)
      ensures end.LeaseLost? || end.AckLost? ==> aborted
      ensures end.Interrupted? ==> closing || aborted
      ensures Smooth(old(client.calls), key, tries) && old(Holds(key) && !aborted) ==>
        && !aborted && client.calls <= old(client.calls) + tries && (Ended(end) || (end.Interrupted? && closing))
        && if Ended(end) then Finished(old(client.system), client.system, key, Last(key)) else SameWork(old(client.system), client.system)
    {
      var ok, _, _, _, _ := RunHandler(key, tries);
      if !ok {
        client.Drop();
        return Interrupted;
      }
      end := Complete(key);
    }

    /**
     `processOneItem`.  An acknowledged item is the next entry of the completion history, and of
     a terminated instance no row is left; any failure after the handler returned aborts.  A
     failed payload read or a missing event leaves the item claimed and the worker running.
     */
    method ProcessOneItem(key: Key, ghost tries: nat) returns (end: ItemEnd)
      requires Valid() && client.At(key) && ProcOf(client.system, client.me).Working?
      modifies this, client, client.store
      ensures Valid() && client.calls > old(client.calls) && ProcOf(client.system, client.me).Free?
      ensures Extends(old(client.trace), client.trace, client.me, Processing)
      ensures closing ==> old(closing) || client.Stopped()
      ensures EndsAs(end, key)
      ensures end.LeaseLost? || end.AckLost? ==> aborted
      ensures end.Interrupted? ==> closing || aborted
      ensures end.ReadFailed? <==> !old(client.Now()).fate.Answered?
      ensures end.ReadFailed? || end.EventMissing? ==> aborted == old(aborted) && (closing <==> old(closing) || client.Stopped())
      ensures Smooth(old(client.calls), key, tries) && old(Holds(key) && !aborted && 1 <= key.event <= |client.system.log|) ==>
        && !aborted && client.calls < old(client.calls) + tries + 2 && (Ended(end) || (end.Interrupted? && closing))
        && if Ended(end) then Finished(old(client.system), client.system, key, Last(key)) else SameWork(old(client.system), client.system)
    {
      var read := Pause();
      if !read.fate.Answered? {
        client.Drop();
        return ReadFailed;
      }
      if !(1 <= key.event <= |client.store.log|) {
        client.Drop();
        return EventMissing;
      }
      end := HandleAndComplete(key, tries);
    }

    /** The claim call: a row if there is one to claim and the call goes through. */
    method Claim() returns (key: Option<Key>)
      requires Valid()
      modifies this`closing, client, client.store
      ensures Valid() && client.calls == old(client.calls) + 1
      ensures closing <==> old(closing) || client.Stopped()
      ensures Extends(old(client.trace), client.trace, client.me, Processing)
      ensures key.Some? ==>
        client.At(key.value) && ProcOf(client.system, client.me).Working? && Renewed(key.value) && 1 <= key.value.event <= |client.system.log|
      ensures StillFrom(old(client.calls)) ==>
        && (key.None? <==> old(NoneClaimable())) && (key.None? ==> client.system == old(client.system))
        && SameWork(old(client.system), client.system)
    {
      var m := Pause();
      if m.fate.NeverArrived? {
        return None;
      }
      key := client.ClaimWorkItem(leaseSeconds, m.locked);
      if m.fate.AnswerLost? && key.Some? {
        client.Drop();
        return None;
      }
    }

    /** At least `items` rows fewer block in `now` than in `start`, and without ending instances there are as many completions more. */
    ghost predicate DoneItems(start: System<E>, now: System<E>, items: nat) {
      && |OpenKeys(now.queue.rows)| + items <= |OpenKeys(start.queue.rows)|
      && (NoneLast() ==> |now.hist.completed| == |start.hist.completed| + items)
    }

    ghost predicate NoneLast() {
      forall key :: !Last(key)
    }

    ghost predicate AllSettle(tries: nat) {
      forall key :: Settles(key, tries)
    }

    /** `calls` calls are accounted for by the `items` items finished since `start`. */
    ghost predicate OnPace(start: System<E>, now: System<E>, calls: int, tries: nat, items: nat) {
      DoneItems(start, now, items) && calls <= Grown(tries + 2, tries + 2, items)
    }

    ghost predicate Progress(start: System<E>, now: System<E>, calls: int, tries: nat) {
      exists items: nat :: OnPace(start, now, calls, tries, items)
    }

    /** What one turn that had something to claim did. */
    ghost predicate Counted(before: System<E>, now: System<E>) {
      if OneMore(before, now) then NoneLast() ==> |now.hist.completed| == |before.hist.completed| + 1 else SameWork(before, now)
    }

    lemma PaceKept(start: System<E>, before: System<E>, now: System<E>, calls: int, more: int, tries: nat, items: nat)
      requires OnPace(start, before, calls + tries + 2, tries, items) && Counted(before, now) && more <= calls + tries + 2
      ensures if OneMore(before, now) then OnPace(start, now, more + tries + 2, tries, items + 1) else OnPace(start, now, more, tries, items)
    {
    }

    /** One turn of the loop: a claim, and the processing of what it yields. */
    method Turn(ghost tries: nat)
      requires Valid() && !closing && !aborted
      modifies this, client, client.store
      ensures Valid() && client.calls > old(client.calls)
      ensures closing ==> client.Stopped()
      ensures Extends(old(client.trace), client.trace, client.me, Processing)
      ensures StillFrom(old(client.calls)) && AllSettle(tries) ==>
        && !aborted
        && (old(NoneClaimable()) ==> client.system == old(client.system))
        && (!old(NoneClaimable()) ==> client.calls <= old(client.calls) + tries + 2 && (closing || OneMore(old(client.system), client.system)))
        && Counted(old(client.system), client.system)
    {
      var key := Claim();
      if key.Some? {
        ghost var claimed := client.system;
        var end := ProcessOneItem(key.value, tries);
        if OpenKeys(client.system.queue.rows) < OpenKeys(claimed.queue.rows) {
          Fewer(OpenKeys(client.system.queue.rows), OpenKeys(claimed.queue.rows));
        }
      }
    }

    /**
     The whole worker: claim, process, repeat, until it is stopped or aborts.  It is a run of the
     protocol that extends the one so far by processing actions only.  Undisturbed, with handlers
     that return within `tries` runs, it never aborts, and either nothing is left to claim or
     every `tries + 2` calls have finished one more item: of the rows that block their partitions
     there is one less, and one more completion unless instances end.
     */
    method Loop(ghost tries: nat)
      requires Valid()
      modifies this, client, client.store
      ensures Valid() && Extends(old(client.trace), client.trace, client.me, Processing)
      ensures (closing || aborted) && (closing ==> old(closing) || client.Stopped())
      ensures old(StillFrom(client.calls) && !closing && !aborted) && AllSettle(tries) ==>
        !aborted && (NoneClaimable() || Progress(old(client.system), client.system, |client.moments| - old(client.calls), tries))
    {
      ghost var first, start := client.calls, client.system;
      ghost var smooth := StillFrom(first) && !closing && !aborted && AllSettle(tries);
      ghost var items: nat := 0;
      while !closing && !aborted
        invariant Valid() && first <= client.calls && Extends(old(client.trace), client.trace, client.me, Processing)
        invariant closing ==> old(closing) || client.Stopped()
        invariant smooth ==> !aborted && (closing ==> client.Stopped())
        invariant smooth && !NoneClaimable() ==>
          OnPace(start, client.system, client.calls - first + (if closing then 0 else tries + 2), tries, items)
        decreases |client.moments| - client.calls
      {
        ghost var before, calls, idle := client.system, client.calls - first, NoneClaimable();
        Turn(tries);
        if smooth && !idle {
          PaceKept(start, before, client.system, calls, client.calls - first, tries, items);
          items := if OneMore(before, client.system) then items + 1 else items;
        }
      }
      if smooth && !NoneClaimable() {
        assert OnPace(start, client.system, |client.moments| - first, tries, items);
      }
    }
  }
}
