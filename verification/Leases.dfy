/**
 What a lease is worth, said from the clock and the seconds asked for: how long a claim or a
 heartbeat keeps an item, how long a claim keeps the subscription, what a failed item blocks, what
 the first claim decides, and that every reply tells what the tables then hold.
 */
module Leases {
  import opened Wrappers
  import opened WorkQueue
  import opened QueueProtocol
  import opened QueueTheorems

  ghost predicate AllLeave<E>(run: seq<Action<E>>, w: WorkerId) {
    forall a | a in run :: LeavesToHolder(a, w)
  }

  /** Someone else's claim of `k` would be accepted. */
  ghost predicate Claims<E>(cfg: Config<E>, t: System<E>, k: Key, v: WorkerId, seconds: nat) {
    ClaimedBy(Do(cfg, t, ClaimItem(v, k, seconds)).queue.rows, k, v)
  }

  /** In `t`, `w` has item `k` until `deadline` has passed, and then, if it still has it, anyone may take it. */
  ghost predicate KeptUntil<E>(cfg: Config<E>, t: System<E>, k: Key, w: WorkerId, deadline: nat) {
    && (t.now <= deadline ==> ClaimedBy(t.queue.rows, k, w))
    && forall v: WorkerId, seconds: nat | v != w ::
         && (Claims(cfg, t, k, v, seconds) ==> t.now > deadline)
         && (ClaimedBy(t.queue.rows, k, w) && t.now > deadline ==> Claims(cfg, t, k, v, seconds))
  }

  lemma HolderRowStays<E>(cfg: Config<E>, s: System<E>, a: Action<E>, k: Key, w: WorkerId)
    requires LeavesToHolder(a, w) && ClaimedBy(Do(cfg, s, a).queue.rows, k, w)
    ensures ClaimedBy(s.queue.rows, k, w) && Do(cfg, s, a).queue.rows[k] == s.queue.rows[k]
  {
  }

  lemma {:induction false} HolderRowStaysOverRun<E>(cfg: Config<E>, s: System<E>, run: seq<Action<E>>, k: Key, w: WorkerId)
    requires AllLeave(run, w) && ClaimedBy(Exec(cfg, s, run).queue.rows, k, w)
    ensures ClaimedBy(s.queue.rows, k, w) && Exec(cfg, s, run).queue.rows[k] == s.queue.rows[k]
    decreases |run|
  {
    if run != [] {
      var before := run[..|run| - 1];
      assert run[|run| - 1] in run;
      HolderRowStays(cfg, Exec(cfg, s, before), run[|run| - 1], k, w);
      HolderRowStaysOverRun(cfg, s, before, k, w);
    }
  }

  lemma AllLeaveResetsNothing<E>(run: seq<Action<E>>, w: WorkerId)
    requires AllLeave(run, w)
    ensures forall a | a in run :: !Resets(a)
  {
  }

  lemma RowLease<E>(cfg: Config<E>, s: System<E>, run: seq<Action<E>>, k: Key, w: WorkerId, deadline: nat)
    requires Inv(cfg, s) && s.queue.sub.Some? && AllLeave(run, w)
    requires k in s.queue.rows && s.queue.rows[k] == Claimed(w, deadline)
    ensures KeptUntil(cfg, Exec(cfg, s, run), k, w, deadline)
  {
    var t := Exec(cfg, s, run);
    AllLeaveResetsNothing(run, w);
    StartStays(cfg, s, run);
    RunKeepsInv(cfg, s, run);
    if t.now <= deadline {
      LeaseIsExclusive(cfg, s, run, k, w);
    }
    if ClaimedBy(t.queue.rows, k, w) {
      HolderRowStaysOverRun(cfg, s, run, k, w);
      forall v: WorkerId, seconds: nat | v != w ensures Claims(cfg, t, k, v, seconds) <==> t.now > deadline {
        TakeoverNeedsExpiry(cfg, t, k, w, v, seconds);
      }
    }
  }

  lemma ClaimedFor<E>(cfg: Config<E>, s: System<E>, w: WorkerId, k: Key, seconds: nat)
    requires s.queue.sub.Some? && Claimable(s.queue.rows, k, s.now)
    ensures var t := Do(cfg, s, ClaimItem(w, k, seconds));
      t.queue.sub.Some? && k in t.queue.rows && t.queue.rows[k] == Claimed(w, s.now + seconds)
  {
  }

  lemma RenewedFor<E>(cfg: Config<E>, s: System<E>, w: WorkerId, seconds: nat)
    requires s.queue.sub.Some? && !ProcOf(s, w).Free? && ClaimedBy(s.queue.rows, ProcOf(s, w).key, w)
    ensures var t, k := Do(cfg, s, ExtendItem(w, seconds)), ProcOf(s, w).key;
      t.queue.sub.Some? && k in t.queue.rows && t.queue.rows[k] == Claimed(w, s.now + seconds)
  {
  }

  /**
   After an accepted claim made at time `s.now` for `seconds`, whatever the others do: until that
   time has passed the item is the claimant's, not taken, finished or failed, and after it anyone
   may take it.
   */
  lemma ClaimLasts<E>(cfg: Config<E>, s: System<E>, w: WorkerId, k: Key, seconds: nat, run: seq<Action<E>>)
    requires Inv(cfg, s) && s.queue.sub.Some? && Claimable(s.queue.rows, k, s.now) && AllLeave(run, w)
    ensures KeptUntil(cfg, Exec(cfg, Do(cfg, s, ClaimItem(w, k, seconds)), run), k, w, s.now + seconds)
  {
    StepKeepsInv(cfg, s, ClaimItem(w, k, seconds));
    ClaimedFor(cfg, s, w, k, seconds);
    RowLease(cfg, Do(cfg, s, ClaimItem(w, k, seconds)), run, k, w, s.now + seconds);
  }

  /** The same after a heartbeat of the worker that still has the item, whatever lease it had before. */
  lemma HeartbeatLasts<E>(cfg: Config<E>, s: System<E>, w: WorkerId, seconds: nat, run: seq<Action<E>>)
    requires Inv(cfg, s) && s.queue.sub.Some? && AllLeave(run, w)
    requires !ProcOf(s, w).Free? && ClaimedBy(s.queue.rows, ProcOf(s, w).key, w)
    ensures KeptUntil(cfg, Exec(cfg, Do(cfg, s, ExtendItem(w, seconds)), run), ProcOf(s, w).key, w, s.now + seconds)
  {
    StepKeepsInv(cfg, s, ExtendItem(w, seconds));
    RenewedFor(cfg, s, w, seconds);
    RowLease(cfg, Do(cfg, s, ExtendItem(w, seconds)), run, ProcOf(s, w).key, w, s.now + seconds);
  }

  // ---------------------------------------------------------------- the subscription

  /** `v` would be granted the subscription. */
  ghost predicate Granted<E>(cfg: Config<E>, t: System<E>, v: WorkerId, seconds: nat, start: StartFrom) {
    HeldBy(Do(cfg, t, ClaimSub(v, seconds, start)).queue.sub, v)
  }

  lemma HolderLeaseStays<E>(cfg: Config<E>, s: System<E>, a: Action<E>, w: WorkerId)
    requires LeavesToHolder(a, w) || a.TerminateInstance?
    requires HeldBy(Do(cfg, s, a).queue.sub, w)
    ensures HeldBy(s.queue.sub, w) && Do(cfg, s, a).queue.sub.value.lease == s.queue.sub.value.lease
  {
  }

  lemma {:induction false} HolderLeaseStaysOverRun<E>(cfg: Config<E>, s: System<E>, run: seq<Action<E>>, w: WorkerId)
    requires forall a | a in run :: LeavesToHolder(a, w) || a.TerminateInstance?
    requires HeldBy(Exec(cfg, s, run).queue.sub, w)
    ensures HeldBy(s.queue.sub, w) && Exec(cfg, s, run).queue.sub.value.lease == s.queue.sub.value.lease
    decreases |run|
  {
    if run != [] {
      var before := run[..|run| - 1];
      assert run[|run| - 1] in run;
      HolderLeaseStays(cfg, Exec(cfg, s, before), run[|run| - 1], w);
      HolderLeaseStaysOverRun(cfg, s, before, w);
    }
  }

  /**
   After a granted claim made at time `s.now` for `seconds`, whatever the others do: before that
   time is over the subscription is the claimant's at the cursor it was granted, and from then on,
   if it still is, anyone else is granted it.
   */
  lemma SubscriptionClaimLasts<E>(cfg: Config<E>, s: System<E>, w: WorkerId, seconds: nat, start: StartFrom, run: seq<Action<E>>,
                                  v: WorkerId, again: nat, other: StartFrom)
    requires Granted(cfg, s, w, seconds, start) && v != w
    requires forall a | a in run :: LeavesToHolder(a, w) || a.TerminateInstance?
    ensures var first := Do(cfg, s, ClaimSub(w, seconds, start)); var t := Exec(cfg, first, run);
      && (t.now < s.now + seconds ==> HeldBy(t.queue.sub, w) && t.queue.sub.value.lastSeen == first.queue.sub.value.lastSeen)
      && (HeldBy(t.queue.sub, w) ==> (Granted(cfg, t, v, again, other) <==> t.now >= s.now + seconds))
  {
    var first := Do(cfg, s, ClaimSub(w, seconds, start));
    var t := Exec(cfg, first, run);
    if t.now < s.now + seconds {
      SubscriptionLeaseIsExclusive(cfg, first, run, w);
    }
    if HeldBy(t.queue.sub, w) {
      HolderLeaseStaysOverRun(cfg, first, run, w);
    }
  }

  /** A subscription that is new, released, or the caller's own is granted at once, at the cursor it has. */
  lemma FreeIsGranted<E>(cfg: Config<E>, s: System<E>, w: WorkerId, seconds: nat, start: StartFrom)
    requires s.queue.sub.None? || s.queue.sub.value.lease.None? || HeldBy(s.queue.sub, w)
    ensures Granted(cfg, s, w, seconds, start)
    ensures var t := Do(cfg, s, ClaimSub(w, seconds, start));
      && RouterOf(t, w) == Holding(t.queue.sub.value.lastSeen)
      && (s.queue.sub.Some? ==> t.queue.sub.value.lastSeen == s.queue.sub.value.lastSeen)
  {
  }

  /** And a holder that releases it hands it to whoever asks next. */
  lemma ReleaseFrees<E>(cfg: Config<E>, s: System<E>, w: WorkerId, v: WorkerId, seconds: nat, start: StartFrom)
    requires HeldBy(s.queue.sub, w)
    ensures Granted(cfg, Do(cfg, s, ReleaseSub(w)), v, seconds, start)
  {
  }

  // ---------------------------------------------------------------- the first claim

  /**
   The first claim decides for good what is routed: everything, what was appended after the claim,
   or what comes after a number, and nothing else; later claims and their start positions do not matter.
   */
  lemma StartDecidesRouting<E>(cfg: Config<E>, log: seq<E>, before: seq<Action<E>>, w: WorkerId, seconds: nat, start: StartFrom,
                               run: seq<Action<E>>, k: Key)
    requires Exec(cfg, Initial(log), before).queue.sub.None? && forall a | a in run :: !Resets(a)
    ensures var s: System<E> := Exec(cfg, Initial(log), before);
      var t: System<E> := Exec(cfg, Do(cfg, s, ClaimSub(w, seconds, start)), run);
      && t.queue.sub.Some?
      && (k in t.hist.inserted <==>
            && Routes(cfg, t.log, k) && k.event <= t.queue.sub.value.lastSeen
            && match start
               case Origin => true
               case Current => k.event > |s.log|
               case Number(n) => k.event > n)
  {
    var s := Exec(cfg, Initial(log), before);
    var first := Do(cfg, s, ClaimSub(w, seconds, start));
    ReachedInv(cfg, log, before, s);
    StepKeepsInv(cfg, s, ClaimSub(w, seconds, start));
    RunKeepsInv(cfg, first, run);
    StartStays(cfg, first, run);
  }

  // ---------------------------------------------------------------- failed items

  /** `k` is failed, and no later item of its partition has been started. */
  ghost predicate Stopped<E>(s: System<E>, k: Key) {
    && k in s.queue.rows && s.queue.rows[k].Failed?
    && forall e: Key, v: WorkerId | e.partition == k.partition && e.event >= k.event :: !ClaimedBy(s.queue.rows, e, v)
  }

  lemma NewClaimIsClaimable<E>(cfg: Config<E>, s: System<E>, a: Action<E>, e: Key, v: WorkerId)
    requires !ClaimedBy(s.queue.rows, e, v)
    ensures ClaimedBy(Do(cfg, s, a).queue.rows, e, v) ==> Claimable(s.queue.rows, e, s.now)
  {
  }

  lemma StaysStopped<E>(cfg: Config<E>, s: System<E>, a: Action<E>, k: Key)
    requires Stopped(s, k) && !Resets(a) && !a.TerminateInstance?
    ensures Stopped(Do(cfg, s, a), k)
  {
    var rows := Do(cfg, s, a).queue.rows;
    forall e: Key, v: WorkerId | e.partition == k.partition && e.event >= k.event ensures !ClaimedBy(rows, e, v) {
      NewClaimIsClaimable(cfg, s, a, e, v);
      assert e.event == k.event ==> e == k;
    }
  }

  /** A failed item stops its partition: without a reset or a termination nothing from it on is ever claimed again. */
  lemma {:induction false} FailureStopsPartition<E>(cfg: Config<E>, s: System<E>, w: WorkerId, run: seq<Action<E>>)
    requires Inv(cfg, s) && s.queue.sub.Some? && forall a | a in run :: !Resets(a) && !a.TerminateInstance?
    requires !ProcOf(s, w).Free? && ClaimedBy(s.queue.rows, ProcOf(s, w).key, w)
    ensures Stopped(Exec(cfg, Do(cfg, s, FailItem(w)), run), ProcOf(s, w).key)
    decreases |run|
  {
    if run != [] {
      var before := run[..|run| - 1];
      assert run[|run| - 1] in run;
      FailureStopsPartition(cfg, s, w, before);
      StaysStopped(cfg, Exec(cfg, Do(cfg, s, FailItem(w)), before), run[|run| - 1], ProcOf(s, w).key);
    }
  }

  // ---------------------------------------------------------------- replies

  /** What each procedure answers is what its tables then show, and an error means that nothing changed. */
  lemma SubscriptionRepliesAreTrue(q: Queue, w: WorkerId, now: nat, seconds: nat, start: StartFrom, head: nat, cursor: nat, decisions: seq<Key>)
    ensures var (r, t) := ClaimSubscription(q, w, now, seconds, start, head);
      match r
      case Granted(n) => HeldBy(t.sub, w) && t.sub.value.lastSeen == n && t.rows == q.rows
      case AlreadyClaimed(n, holder) =>
        t == q && q.sub.Some? && q.sub.value.lastSeen == n && holder.Some? && holder.value != w && HeldBy(q.sub, holder.value)
    ensures var (r, t) := RouteBatch(q, w, cursor, decisions);
      if r.Ok? then t.sub.Some? && t.sub.value.lastSeen == r.value && cursor <= r.value && (forall d | d in decisions :: d in t.rows)
      else t == q && (r.SubscriptionNotFound? <==> q.sub.None?)
    ensures var (r, t) := ReleaseSubscription(q, w);
      if r.Ok? then t.sub.Some? && t.sub.value.lease.None? && t.rows == q.rows
      else t == q && (r.SubscriptionNotFound? <==> q.sub.None?)
    ensures var (existed, t) := Rebuild(q, now, head); existed <==> q.sub.Some?
    ensures var (r, t) := DeleteSubscription(q); (r.Ok? <==> q.sub.Some?) && t.sub.None? && (r.Ok? ==> t.rows == map[])
  {
  }

  lemma ItemRepliesAreTrue(q: Queue, w: WorkerId, k: Key, now: nat, seconds: nat)
    ensures var (r, t) := ExtendWorkItemClaim(q, w, k, now, seconds);
      if r.Ok? then k in t.rows && t.rows[k] == Claimed(w, r.value) && r.value == now + seconds && t.sub == q.sub
      else t == q && (r.SubscriptionNotFound? <==> q.sub.None?)
    ensures var (r, t) := FailWorkItem(q, w, k);
      if r.Ok? then k in t.rows && t.rows[k].Failed? && t.sub == q.sub else t == q && (r.SubscriptionNotFound? <==> q.sub.None?)
    ensures var (r, t) := CompleteProjection(q, w, k);
      if r.Ok? then k in q.rows && k !in t.rows && t.sub == q.sub else t == q && (r.SubscriptionNotFound? <==> q.sub.None?)
    ensures var (r, t) := CompletePm(q, w, k);
      if r.Ok? then k in t.rows && t.rows[k].Done? && t.sub == q.sub else t == q && (r.SubscriptionNotFound? <==> q.sub.None?)
    ensures var (r, t) := CompleteInstance(q, k.partition);
      if r.Ok? then |q.rows| == |t.rows| + r.value && (forall e | e in q.rows :: e in t.rows <==> e.partition != k.partition)
      else t == q && q.sub.None?
  {
    InstanceCount(q.rows, k.partition);
  }

  lemma InstanceCount(rows: map<Key, RowState>, p: Partition)
    ensures |rows| == |rows - PartitionRows(rows, p)| + |PartitionRows(rows, p)|
  {
    var gone := PartitionRows(rows, p);
    assert (rows - gone).Keys == rows.Keys - gone && gone <= rows.Keys;
    assert |rows.Keys - gone| == |rows.Keys| - |gone|;
    assert |rows| == |rows.Keys| && |rows - gone| == |(rows - gone).Keys|;
  }
}
