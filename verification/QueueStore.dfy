/**
 The work-queue procedures as they run: methods that update the subscription row, the work-item
 rows and the snapshot rows in place, each proved to be the function of module WorkQueue.
 */
module QueueStore {
  import opened Wrappers
  import opened Replay
  import opened WorkQueue
  import opened ProcessManagerState

  /** `k` may be claimed past the locked rows, and no such row has a smaller event number. */
  ghost predicate FirstClaimable(rows: map<Key, RowState>, now: nat, locked: set<Key>, k: Key) {
    && Claimable(rows, k, now) && k !in locked
    && forall e | Claimable(rows, e, now) && e !in locked :: k.event <= e.event
  }

  /** The rows of one subscription and the snapshots of its partitions. */
  class Store<S, E> {
    var sub: Option<Subscription>
    var rows: map<Key, RowState>
    var snaps: map<Partition, Snapshot<S>>
    var log: seq<E>
    var now: nat

    /** The two queue tables as one value. */
    function Q(): Queue
      reads this
    {
      Queue(sub, rows)
    }

    constructor (log: seq<E>)
      ensures Q() == EMPTY && snaps == map[] && this.log == log && now == 0
    {
      sub, rows, snaps, this.log, now := None, map[], map[], log, 0;
    }

    method ClaimSubscription(w: WorkerId, seconds: nat, start: StartFrom) returns (r: ClaimResult)
      modifies this`sub
      ensures (r, Q()) == WorkQueue.ClaimSubscription(old(Q()), w, now, seconds, start, |log|)
    {
      if sub.None? {
        sub := Some(Subscription(InitialCursor(start, |log|), Some(Lease(w, now + seconds))));
        return Granted(sub.value.lastSeen);
      }
      var lease := sub.value.lease;
      if lease.None? || lease.value.until <= now || lease.value.holder == w {
        sub := Some(sub.value.(lease := Some(Lease(w, now + seconds))));
        return Granted(sub.value.lastSeen);
      }
      return AlreadyClaimed(sub.value.lastSeen, Some(lease.value.holder));
    }

    method ReleaseSubscription(w: WorkerId) returns (r: Reply<()>)
      modifies this`sub
      ensures (r, Q()) == WorkQueue.ReleaseSubscription(old(Q()), w)
    {
      if sub.None? {
        return SubscriptionNotFound;
      }
      if !HeldBy(sub, w) {
        return SubscriptionLeaseLost;
      }
      sub := Some(sub.value.(lease := None));
      return Ok(());
    }

    /** Inserts the decisions one by one, leaving existing rows alone, then advances the cursor. */
    method RouteBatch(w: WorkerId, cursor: nat, decisions: seq<Key>) returns (r: Reply<nat>)
      modifies this`sub, this`rows
      ensures (r, Q()) == WorkQueue.RouteBatch(old(Q()), w, cursor, decisions)
    {
      if sub.None? {
        return SubscriptionNotFound;
      }
      if !HeldBy(sub, w) {
        return SubscriptionLeaseLost;
      }
      ghost var before := rows;
      for i := 0 to |decisions|
        invariant sub == old(sub)
        invariant rows == InsertPending(before, decisions[..i])
      {
        assert decisions[..i + 1] == decisions[..i] + [decisions[i]];
        if decisions[i] !in rows {
          rows := rows[decisions[i] := Pending];
        }
      }
      assert decisions[..|decisions|] == decisions;
      sub := Some(sub.value.(lastSeen := Max(sub.value.lastSeen, cursor)));
      return Ok(sub.value.lastSeen);
    }

    /** The claim query: it finds a row exactly when one is claimable and not locked, and then the earliest. */
    method FindClaimable(locked: set<Key>) returns (k: Option<Key>)
      ensures k.None? <==> forall e | e in rows && e !in locked :: !Claimable(rows, e, now)
      ensures k.Some? ==> FirstClaimable(rows, now, locked, k.value)
    {
      k := None;
      var todo := rows.Keys - locked;
      while todo != {}
        invariant todo <= rows.Keys - locked
        invariant k.None? ==> forall e | e in rows && e !in locked && e !in todo :: !Claimable(rows, e, now)
        invariant k.Some? ==> Claimable(rows, k.value, now) && k.value !in locked &&
                              forall e | e in rows && e !in locked && e !in todo && Claimable(rows, e, now) :: k.value.event <= e.event
        decreases todo
      {
        var e :| e in todo;
        if Claimable(rows, e, now) && (k.None? || e.event < k.value.event) {
          k := Some(e);
        }
        todo := todo - {e};
      }
    }

    /** `claim_work_item`: the earliest claimable row that no other transaction has locked, or nothing. */
    method ClaimWorkItem(w: WorkerId, seconds: nat, locked: set<Key>) returns (r: Reply<Option<Key>>)
      modifies this`rows
      ensures match r
        case SubscriptionNotFound => sub.None? && rows == old(rows)
        case Ok(None) => sub.Some? && rows == old(rows) && forall e | e in rows && e !in locked :: !Claimable(rows, e, now)
        case Ok(Some(k)) =>
          FirstClaimable(old(rows), now, locked, k) && (Reply.Ok(true), Q()) == WorkQueue.ClaimWorkItem(old(Q()), w, k, now, seconds)
        case _ => false
    {
      if sub.None? {
        return SubscriptionNotFound;
      }
      var k := FindClaimable(locked);
      if k.Some? {
        rows := rows[k.value := Claimed(w, now + seconds)];
      }
      return Ok(k);
    }

    method ExtendWorkItemClaim(w: WorkerId, k: Key, seconds: nat) returns (r: Reply<nat>)
      modifies this`rows
      ensures (r, Q()) == WorkQueue.ExtendWorkItemClaim(old(Q()), w, k, now, seconds)
    {
      if sub.None? {
        return SubscriptionNotFound;
      }
      if !ClaimedBy(rows, k, w) {
        return WorkItemLeaseLost;
      }
      rows := rows[k := Claimed(w, now + seconds)];
      return Ok(now + seconds);
    }

    method CompleteWorkItemProjection(w: WorkerId, k: Key) returns (r: Reply<()>)
      modifies this`rows
      ensures (r, Q()) == CompleteProjection(old(Q()), w, k)
    {
      if sub.None? {
        return SubscriptionNotFound;
      }
      if !ClaimedBy(rows, k, w) {
        return WorkItemLeaseLost;
      }
      rows := rows - {k};
      return Ok(());
    }

    /** The row becomes done and the snapshot is replaced, or neither. */
    method CompleteWorkItemPm(w: WorkerId, k: Key, snap: Snapshot<S>) returns (r: Reply<()>)
      modifies this`rows, this`snaps
      ensures (r, Q()) == CompletePm(old(Q()), w, k)
      ensures snaps == if r.Ok? then old(snaps)[k.partition := snap] else old(snaps)
    {
      if sub.None? {
        return SubscriptionNotFound;
      }
      if !ClaimedBy(rows, k, w) {
        return WorkItemLeaseLost;
      }
      rows := rows[k := Done];
      snaps := snaps[k.partition := snap];
      return Ok(());
    }

    /** Every row of the partition and its snapshot go, whoever calls. */
    method CompletePmInstance(p: Partition) returns (r: Reply<nat>)
      modifies this`rows, this`snaps
      ensures (r, Q()) == CompleteInstance(old(Q()), p)
      ensures snaps == if r.Ok? then old(snaps) - {p} else old(snaps)
    {
      if sub.None? {
        return SubscriptionNotFound;
      }
      var gone := PartitionRows(rows, p);
      rows := rows - gone;
      snaps := snaps - {p};
      return Ok(|gone|);
    }

    method FailWorkItem(w: WorkerId, k: Key) returns (r: Reply<()>)
      modifies this`rows
      ensures (r, Q()) == WorkQueue.FailWorkItem(old(Q()), w, k)
    {
      if sub.None? {
        return SubscriptionNotFound;
      }
      if !ClaimedBy(rows, k, w) {
        return WorkItemLeaseLost;
      }
      rows := rows[k := Failed];
      return Ok(());
    }

    /** The catch-up predicate, row by row. */
    method IsSubscriptionCaughtUp(target: nat) returns (r: Reply<bool>)
      ensures r == if sub.None? then SubscriptionNotFound else Ok(CaughtUp(Q(), target))
    {
      if sub.None? {
        return SubscriptionNotFound;
      }
      if sub.value.lastSeen < target {
        return Ok(false);
      }
      var todo := rows.Keys;
      while todo != {}
        invariant todo <= rows.Keys
        invariant forall k | k in rows && k !in todo && k.event <= target :: rows[k].Done?
        decreases todo
      {
        var k :| k in todo;
        if k.event <= target && !rows[k].Done? {
          return Ok(false);
        }
        todo := todo - {k};
      }
      return Ok(true);
    }

    /** The done events of a partition strictly below `event`, in event order. */
    method ListPmRebuildEvents(p: Partition, event: nat) returns (r: Reply<seq<E>>)
      ensures r == if sub.None? then SubscriptionNotFound else Ok(DoneEvents(log, rows, p, Below(event)))
    {
      if sub.None? {
        return SubscriptionNotFound;
      }
      var events: seq<E> := [];
      for n := 1 to Max(1, event)
        invariant events == DoneEvents(log, rows, p, n - 1)
      {
        if n <= |log| && IsDone(rows, p, n) {
          events := events + [log[n - 1]];
        }
      }
      return Ok(events);
    }

    method DeleteSubscription() returns (r: Reply<()>)
      modifies this`sub, this`rows
      ensures (r, Q()) == WorkQueue.DeleteSubscription(old(Q()))
    {
      if sub.None? {
        return SubscriptionNotFound;
      }
      sub, rows := None, map[];
      return Ok(());
    }

    /** `rebuildSubscription`: delete if present, claim at the origin, release. */
    method RebuildSubscription() returns (existed: bool)
      modifies this`sub, this`rows
      ensures (existed, Q()) == Rebuild(old(Q()), now, |log|)
    {
      existed := sub.Some?;
      if existed {
        var _ := DeleteSubscription();
      }
      var _ := ClaimSubscription(REBUILD_WORKER, 1, Origin);
      var _ := ReleaseSubscription(REBUILD_WORKER);
    }
  }
}
