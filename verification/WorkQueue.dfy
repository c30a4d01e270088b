/**
 The work-queue procedures of one subscription, as functions on its two tables: the
 `subscriptions` row and the `subscription_work_items` rows.  Each procedure is one
 transaction, so each is one function from the old tables to the reply and the new tables.
 */
module WorkQueue {
  import opened Wrappers

  type WorkerId = string
  type Partition = string

  /** Primary key of a work item inside its subscription. */
  datatype Key = Key(partition: Partition, event: nat)

  datatype RowState = Pending | Claimed(worker: WorkerId, until: nat) | Failed | Done

  /** `claimed_by` together with `claim_expires_at`; both are null or both are set. */
  datatype Lease = Lease(holder: WorkerId, until: nat)

  datatype Subscription = Subscription(lastSeen: nat, lease: Option<Lease>)

  datatype Queue = Queue(sub: Option<Subscription>, rows: map<Key, RowState>)

  datatype StartFrom = Origin | Current | Number(n: nat)

  datatype Reply<+T> =
    | Ok(value: T)
    | SubscriptionNotFound
    | SubscriptionLeaseLost
    | WorkItemLeaseLost

  datatype ClaimResult = Granted(lastSeen: nat) | AlreadyClaimed(lastSeen: nat, holder: Option<WorkerId>)

  const EMPTY := Queue(None, map[])

  predicate HeldBy(sub: Option<Subscription>, w: WorkerId) {
    sub.Some? && sub.value.lease.Some? && sub.value.lease.value.holder == w
  }

  predicate ClaimedBy(rows: map<Key, RowState>, k: Key, w: WorkerId) {
    k in rows && rows[k].Claimed? && rows[k].worker == w
  }

  /** The row exists and still blocks its partition. */
  predicate Open(rows: map<Key, RowState>, k: Key) {
    k in rows && !rows[k].Done?
  }

  function InitialCursor(start: StartFrom, head: nat): nat {
    match start
    case Origin => 0
    case Current => head
    case Number(n) => n
  }

  /** `claim_subscription`: the lease goes to a caller when it is free, expired or already the caller's. */
  function ClaimSubscription(q: Queue, w: WorkerId, now: nat, seconds: nat, start: StartFrom, head: nat)
    : (ClaimResult, Queue)
  {
    var lease := Some(Lease(w, now + seconds));
    match q.sub
    case None =>
      var cursor := InitialCursor(start, head);
      (Granted(cursor), q.(sub := Some(Subscription(cursor, lease))))
    case Some(sub) =>
      if sub.lease.None? || sub.lease.value.until <= now || sub.lease.value.holder == w then
        (Granted(sub.lastSeen), q.(sub := Some(sub.(lease := lease))))
      else
        (AlreadyClaimed(sub.lastSeen, Some(sub.lease.value.holder)), q)
  }

  function ReleaseSubscription(q: Queue, w: WorkerId): (Reply<()>, Queue) {
    if q.sub.None? then (SubscriptionNotFound, q)
    else if !HeldBy(q.sub, w) then (SubscriptionLeaseLost, q)
    else (Ok(()), q.(sub := Some(q.sub.value.(lease := None))))
  }

  /** `delete_subscription`: no lease check; the work items go by cascade. */
  function DeleteSubscription(q: Queue): (Reply<()>, Queue) {
    if q.sub.None? then (SubscriptionNotFound, q) else (Ok(()), EMPTY)
  }

  /** The rows a batch of decisions adds: existing keys are left alone (`on conflict do nothing`). */
  function InsertPending(rows: map<Key, RowState>, decisions: seq<Key>): map<Key, RowState> {
    map k | k in rows.Keys + (set d | d in decisions) :: if k in rows then rows[k] else Pending
  }

  function Max(a: nat, b: nat): nat { if a < b then b else a }

  /** `route_batch`: only the holder may commit; the cursor never moves back. */
  function RouteBatch(q: Queue, w: WorkerId, cursor: nat, decisions: seq<Key>): (Reply<nat>, Queue) {
    if q.sub.None? then (SubscriptionNotFound, q)
    else if !HeldBy(q.sub, w) then (SubscriptionLeaseLost, q)
    else
      var last := Max(q.sub.value.lastSeen, cursor);
      (Ok(last), Queue(Some(q.sub.value.(lastSeen := last)), InsertPending(q.rows, decisions)))
  }

  /** The row may be claimed now: pending or past its lease, and nothing earlier in its partition is open. */
  predicate Claimable(rows: map<Key, RowState>, k: Key, now: nat) {
    && k in rows
    && (rows[k].Pending? || (rows[k].Claimed? && rows[k].until < now))
    && forall e | e in rows && e.partition == k.partition && e.event < k.event :: rows[e].Done?
  }

  /**
   `claim_work_item`.  The procedure takes the first claimable row that no other transaction
   has locked, so which claimable row it takes is left to the caller of this function.
   */
  function ClaimWorkItem(q: Queue, w: WorkerId, k: Key, now: nat, seconds: nat): (Reply<bool>, Queue) {
    if q.sub.None? then (SubscriptionNotFound, q)
    else if !Claimable(q.rows, k, now) then (Ok(false), q)
    else (Ok(true), q.(rows := q.rows[k := Claimed(w, now + seconds)]))
  }

  function ExtendWorkItemClaim(q: Queue, w: WorkerId, k: Key, now: nat, seconds: nat): (Reply<nat>, Queue) {
    if q.sub.None? then (SubscriptionNotFound, q)
    else if !ClaimedBy(q.rows, k, w) then (WorkItemLeaseLost, q)
    else (Ok(now + seconds), q.(rows := q.rows[k := Claimed(w, now + seconds)]))
  }

  function CompleteProjection(q: Queue, w: WorkerId, k: Key): (Reply<()>, Queue) {
    if q.sub.None? then (SubscriptionNotFound, q)
    else if !ClaimedBy(q.rows, k, w) then (WorkItemLeaseLost, q)
    else (Ok(()), q.(rows := q.rows - {k}))
  }

  function CompletePm(q: Queue, w: WorkerId, k: Key): (Reply<()>, Queue) {
    if q.sub.None? then (SubscriptionNotFound, q)
    else if !ClaimedBy(q.rows, k, w) then (WorkItemLeaseLost, q)
    else (Ok(()), q.(rows := q.rows[k := Done]))
  }

  function FailWorkItem(q: Queue, w: WorkerId, k: Key): (Reply<()>, Queue) {
    if q.sub.None? then (SubscriptionNotFound, q)
    else if !ClaimedBy(q.rows, k, w) then (WorkItemLeaseLost, q)
    else (Ok(()), q.(rows := q.rows[k := Failed]))
  }

  function PartitionRows(rows: map<Key, RowState>, p: Partition): set<Key> {
    set k | k in rows && k.partition == p
  }

  /** `complete_pm_instance`: takes no worker id and drops every row of the partition. */
  function CompleteInstance(q: Queue, p: Partition): (Reply<nat>, Queue) {
    if q.sub.None? then (SubscriptionNotFound, q)
    else (Ok(|PartitionRows(q.rows, p)|), q.(rows := q.rows - PartitionRows(q.rows, p)))
  }

  /** `is_subscription_caught_up` on an existing subscription. */
  predicate CaughtUp(q: Queue, target: nat) {
    && q.sub.Some?
    && q.sub.value.lastSeen >= target
    && forall k | k in q.rows && k.event <= target :: q.rows[k].Done?
  }

  const REBUILD_WORKER := "instructedctl-rebuild"

  /** `rebuildSubscription`: delete if present, claim at origin as the tool, release; one transaction. */
  function Rebuild(q: Queue, now: nat, head: nat): (bool, Queue) {
    var cleared := if q.sub.Some? then DeleteSubscription(q).1 else q;
    var claimed := ClaimSubscription(cleared, REBUILD_WORKER, now, 1, Origin, head).1;
    (q.sub.Some?, ReleaseSubscription(claimed, REBUILD_WORKER).1)
  }
}
