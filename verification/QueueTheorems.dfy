/**
 What every run of the work-queue protocol guarantees.  All statements are about every
 reachable state of every run from an arbitrary log with no subscription yet.
 */
module QueueTheorems {
  import opened Wrappers
  import opened WorkQueue
  import opened QueueProtocol

  ghost predicate Reached<E>(cfg: Config<E>, log: seq<E>, run: seq<Action<E>>, s: System<E>) {
    s == Exec(cfg, Initial(log), run)
  }

  predicate Resets<E>(a: Action<E>) {
    a.DeleteSub? || a.RebuildSub?
  }

  lemma ReachedInv<E>(cfg: Config<E>, log: seq<E>, run: seq<Action<E>>, s: System<E>)
    requires Reached(cfg, log, run, s)
    ensures Inv(cfg, s)
  {
    InitialInv(cfg, log);
    RunKeepsInv(cfg, Initial(log), run);
  }

  // ---------------------------------------------------------------- catch-up

  /** Step `j` of the run is a handler returning successfully from `k`, claimed in incarnation `epoch`. */
  ghost predicate ReturnsAt<E>(cfg: Config<E>, s: System<E>, run: seq<Action<E>>, j: nat, k: Key, epoch: nat)
    requires j < |run|
  {
    run[j].HandlerReturns? && ProcOf(Exec(cfg, s, run[..j]), run[j].w) == Working(k, epoch)
  }

  lemma {:induction false} HandledMeansReturned<E>(cfg: Config<E>, s: System<E>, run: seq<Action<E>>, k: Key)
    requires s.hist.handled == {} && k in Exec(cfg, s, run).hist.handled
    ensures exists j: nat :: j < |run| && ReturnsAt(cfg, s, run, j, k, Exec(cfg, s, run).hist.epoch)
    decreases |run|
  {
    var before := run[..|run| - 1];
    var t := Exec(cfg, s, before);
    var a := run[|run| - 1];
    HandledChange(cfg, t, a);
    if k in t.hist.handled {
      HandledMeansReturned(cfg, s, before, k);
      var j: nat :| j < |before| && ReturnsAt(cfg, s, before, j, k, t.hist.epoch);
      assert run[..j] == before[..j] && run[j] == before[j];
      assert ReturnsAt(cfg, s, run, j, k, Exec(cfg, s, run).hist.epoch);
    } else {
      assert run[..|run| - 1] == before;
      assert ReturnsAt(cfg, s, run, |run| - 1, k, t.hist.epoch);
    }
  }

  lemma HandledChange<E>(cfg: Config<E>, s: System<E>, a: Action<E>)
    ensures var t := Do(cfg, s, a); forall k | k in t.hist.handled ::
      && t.hist.epoch == s.hist.epoch
      && (k in s.hist.handled || (a.HandlerReturns? && ProcOf(s, a.w) == Working(k, s.hist.epoch)))
  {
  }

  /**
   Catch-up soundness for a projection: once the predicate holds at `n`, every routed event in
   (start, n] has had its handler return successfully, at a step of this very run.
   */
  lemma CatchUpSound<E>(cfg: Config<E>, log: seq<E>, run: seq<Action<E>>, s: System<E>, n: nat, k: Key)
    requires cfg.kind == Projection && Reached(cfg, log, run, s)
    requires CaughtUp(s.queue, n)
    requires Routes(cfg, s.log, k) && s.hist.start < k.event <= n
    ensures exists j: nat :: j < |run| && ReturnsAt(cfg, Initial(log), run, j, k, s.hist.epoch)
  {
    ReachedInv(cfg, log, run, s);
    assert k in s.hist.inserted;
    HandledMeansReturned(cfg, Initial(log), run, k);
  }

  /** For a process manager the item was handled, or removed when its partition was terminated. */
  lemma CatchUpSoundForPm<E>(cfg: Config<E>, log: seq<E>, run: seq<Action<E>>, s: System<E>, n: nat, k: Key)
    requires Reached(cfg, log, run, s) && CaughtUp(s.queue, n)
    requires Routes(cfg, s.log, k) && s.hist.start < k.event <= n
    ensures k in s.hist.terminated || exists j: nat :: j < |run| && ReturnsAt(cfg, Initial(log), run, j, k, s.hist.epoch)
  {
    ReachedInv(cfg, log, run, s);
    assert k in s.hist.inserted;
    if k !in s.hist.terminated {
      HandledMeansReturned(cfg, Initial(log), run, k);
    }
  }

  /** Short of a delete or a rebuild, no action undoes catch-up. */
  lemma CaughtUpSurvivesStep<E>(cfg: Config<E>, s: System<E>, a: Action<E>, n: nat)
    requires Inv(cfg, s) && !Resets(a) && CaughtUp(s.queue, n)
    ensures CaughtUp(Do(cfg, s, a).queue, n)
  {
    if a.CommitRoute? {
      CaughtUpSurvivesCommit(cfg, s, a.w, n);
    } else {
      CaughtUpSurvivesOther(cfg, s, a, n);
    }
  }

  lemma CaughtUpSurvivesOther<E>(cfg: Config<E>, s: System<E>, a: Action<E>, n: nat)
    requires !Resets(a) && !a.CommitRoute? && CaughtUp(s.queue, n)
    ensures CaughtUp(Do(cfg, s, a).queue, n)
  {
    if IsItemAction(a) {
      ItemActionFrame(cfg, s, a);
      ItemActionOpensNothing(cfg, s, a);
    } else {
      SubscriptionActionKeepsRows(cfg, s, a);
    }
  }

  lemma SubscriptionActionKeepsRows<E>(cfg: Config<E>, s: System<E>, a: Action<E>)
    requires !IsItemAction(a) && !a.CommitRoute? && !Resets(a)
    ensures var t := Do(cfg, s, a);
      && t.queue.rows == s.queue.rows && t.procs == s.procs && t.hist.terminated == s.hist.terminated
      && (s.queue.sub.Some? ==> t.queue.sub.Some? && t.queue.sub.value.lastSeen == s.queue.sub.value.lastSeen)
  {
  }

  lemma CaughtUpSurvivesCommit<E>(cfg: Config<E>, s: System<E>, w: WorkerId, n: nat)
    requires Inv(cfg, s) && CaughtUp(s.queue, n)
    ensures CaughtUp(Do(cfg, s, CommitRoute(w)).queue, n)
  {
    var r := RouterOf(s, w);
    if r.Routed? && HeldBy(s.queue.sub, w) {
      CommitExtendsPass(cfg, s, w);
      DecideKeys(cfg, s.log, r.lastSeen, r.cursor);
    }
  }

  lemma ItemActionOpensNothing<E>(cfg: Config<E>, s: System<E>, a: Action<E>)
    requires IsItemAction(a)
    ensures NoReopen(s.queue.rows, Do(cfg, s, a).queue.rows)
  {
  }

  lemma {:induction false} CaughtUpIsStable<E>(cfg: Config<E>, s: System<E>, run: seq<Action<E>>, n: nat)
    requires Inv(cfg, s) && CaughtUp(s.queue, n)
    requires forall a | a in run :: !Resets(a)
    ensures CaughtUp(Exec(cfg, s, run).queue, n)
    decreases |run|
  {
    if run != [] {
      var before := run[..|run| - 1];
      CaughtUpIsStable(cfg, s, before, n);
      RunKeepsInv(cfg, s, before);
      CaughtUpSurvivesStep(cfg, Exec(cfg, s, before), run[|run| - 1], n);
    }
  }

  /** `k` was acknowledged, or removed with its instance. */
  ghost predicate Over(h: History, k: Key) {
    k in h.completed || k in h.terminated
  }

  /** An item that was routed blocks exactly as long as it is not over. */
  ghost predicate EndedExactly(rows: map<Key, RowState>, h: History) {
    && h.terminated <= h.inserted && (forall k | k in h.completed :: k in h.inserted)
    && forall k | k in h.inserted :: Open(rows, k) <==> !Over(h, k)
  }

  lemma EndedStays(rows: map<Key, RowState>, rows': map<Key, RowState>, h: History, h': History)
    requires EndedExactly(rows, h) && rows.Keys <= h.inserted
    requires h'.inserted == h.inserted && h'.completed == h.completed && h'.terminated == h.terminated
    requires forall k :: Open(rows', k) <==> Open(rows, k)
    ensures EndedExactly(rows', h')
  {
  }

  lemma CommitKeepsEnded<E>(cfg: Config<E>, s: System<E>, w: WorkerId)
    requires Inv(cfg, s) && EndedExactly(s.queue.rows, s.hist)
    ensures var t := Do(cfg, s, CommitRoute(w)); EndedExactly(t.queue.rows, t.hist)
  {
    if RouterOf(s, w).Routed? && HeldBy(s.queue.sub, w) {
      CommitExtendsPass(cfg, s, w);
    } else {
      assert Do(cfg, s, CommitRoute(w)).hist.inserted == s.hist.inserted;
    }
  }

  lemma CompleteKeepsEnded<E>(cfg: Config<E>, s: System<E>, w: WorkerId)
    requires NothingLost(s.queue.rows, s.hist) && EndedExactly(s.queue.rows, s.hist)
    ensures var t := Do(cfg, s, CompleteItem(w)); EndedExactly(t.queue.rows, t.hist)
  {
    var t := Do(cfg, s, CompleteItem(w));
    if t.queue != s.queue {
      var key := ProcOf(s, w).key;
      assert t.hist.completed == s.hist.completed + [key];
      forall k ensures k in t.hist.completed <==> k in s.hist.completed || k == key {
        assert t.hist.completed[|s.hist.completed|] == key;
      }
    }
  }

  lemma TerminateKeepsEnded<E>(cfg: Config<E>, s: System<E>, w: WorkerId)
    requires NothingLost(s.queue.rows, s.hist) && EndedExactly(s.queue.rows, s.hist)
    ensures var t := Do(cfg, s, TerminateInstance(w)); EndedExactly(t.queue.rows, t.hist)
  {
  }

  lemma OtherKeepsOpen<E>(cfg: Config<E>, s: System<E>, a: Action<E>)
    requires !a.CommitRoute? && !a.CompleteItem? && !a.TerminateInstance? && !Resets(a)
    ensures var t := Do(cfg, s, a);
      && t.hist.inserted == s.hist.inserted && t.hist.completed == s.hist.completed && t.hist.terminated == s.hist.terminated
      && forall k :: Open(t.queue.rows, k) <==> Open(s.queue.rows, k)
  {
  }

  lemma StepKeepsEnded<E>(cfg: Config<E>, s: System<E>, a: Action<E>)
    requires Inv(cfg, s) && EndedExactly(s.queue.rows, s.hist)
    ensures EndedExactly(Do(cfg, s, a).queue.rows, Do(cfg, s, a).hist)
  {
    if a.CommitRoute? {
      CommitKeepsEnded(cfg, s, a.w);
    } else if a.CompleteItem? {
      CompleteKeepsEnded(cfg, s, a.w);
    } else if a.TerminateInstance? {
      TerminateKeepsEnded(cfg, s, a.w);
    } else if !Resets(a) {
      OtherKeepsOpen(cfg, s, a);
      EndedStays(s.queue.rows, Do(cfg, s, a).queue.rows, s.hist, Do(cfg, s, a).hist);
    }
  }

  lemma {:induction false} EndedInRun<E>(cfg: Config<E>, log: seq<E>, run: seq<Action<E>>)
    ensures var s := Exec(cfg, Initial(log), run); EndedExactly(s.queue.rows, s.hist)
    decreases |run|
  {
    if run != [] {
      var before := run[..|run| - 1];
      EndedInRun(cfg, log, before);
      ReachedInv(cfg, log, before, Exec(cfg, Initial(log), before));
      StepKeepsEnded(cfg, Exec(cfg, Initial(log), before), run[|run| - 1]);
    }
  }

  /**
   What the predicate means, rows apart: in every reachable state it holds at `n` if and only if
   the subscription exists, its cursor has reached `n`, and every routed event in (start, n] was
   acknowledged or removed with its instance.
   */
  lemma CaughtUpIff<E>(cfg: Config<E>, log: seq<E>, run: seq<Action<E>>, s: System<E>, n: nat)
    requires Reached(cfg, log, run, s)
    ensures CaughtUp(s.queue, n) <==>
      && s.queue.sub.Some? && s.queue.sub.value.lastSeen >= n
      && forall k | Routes(cfg, s.log, k) && s.hist.start < k.event <= n :: Over(s.hist, k)
  {
    ReachedInv(cfg, log, run, s);
    EndedInRun(cfg, log, run);
    if s.queue.sub.Some? && s.queue.sub.value.lastSeen >= n {
      forall k ensures k in s.hist.inserted && k.event <= n <==> Routes(cfg, s.log, k) && s.hist.start < k.event <= n {
      }
    }
  }

  // ---------------------------------------------------------------- routing

  /**
   Whatever the number of routers, the batch sizes, the dropped batches and the stolen leases,
   the items ever inserted are those of one pass over (start, lastSeen].
   */
  lemma RoutingIsOneSequentialPass<E>(cfg: Config<E>, log: seq<E>, run: seq<Action<E>>, s: System<E>)
    requires Reached(cfg, log, run, s) && s.queue.sub.Some?
    ensures var seen := s.queue.sub.value.lastSeen;
      && s.hist.start <= seen
      && (seen <= |s.log| ==> s.hist.inserted == (set k | k in Decide(cfg, s.log, s.hist.start, seen)))
      && (seen > |s.log| ==> seen == s.hist.start && s.hist.inserted == {})
  {
    ReachedInv(cfg, log, run, s);
    if s.queue.sub.value.lastSeen <= |s.log| {
      DecideKeys(cfg, s.log, s.hist.start, s.queue.sub.value.lastSeen);
    }
  }

  /** A commit that the store accepts runs at exactly the cursor that worker was granted, and re-inserts nothing. */
  lemma AcceptedCommitIsNextStretch<E>(cfg: Config<E>, log: seq<E>, run: seq<Action<E>>, s: System<E>, w: WorkerId)
    requires Reached(cfg, log, run, s)
    requires RouterOf(s, w).Routed? && HeldBy(s.queue.sub, w)
    ensures var r := RouterOf(s, w); var seen := s.queue.sub.value.lastSeen;
      && r.lastSeen == seen < r.cursor <= |s.log|
      && r.decisions == Decide(cfg, s.log, seen, r.cursor)
      && (forall k | k in r.decisions :: k !in s.hist.inserted)
      && Do(cfg, s, CommitRoute(w)).queue.sub.value.lastSeen == r.cursor
  {
    ReachedInv(cfg, log, run, s);
    CommitExtendsPass(cfg, s, w);
  }

  // ---------------------------------------------------------------- partitions

  /** Any two rows of a partition: an active or done row has only done rows before it. */
  lemma PartitionShape<E>(cfg: Config<E>, log: seq<E>, run: seq<Action<E>>, s: System<E>, a: Key, b: Key)
    requires Reached(cfg, log, run, s)
    requires a in s.queue.rows && b in s.queue.rows && a.partition == b.partition && a.event < b.event
    ensures !s.queue.rows[b].Pending? ==> s.queue.rows[a].Done?
    ensures !s.queue.rows[a].Done? ==> s.queue.rows[b].Pending?
  {
    ReachedInv(cfg, log, run, s);
  }

  /** When a handler is about to run on `k`, everything routed to its partition before `k` is settled. */
  lemma PredecessorsSettled<E>(cfg: Config<E>, log: seq<E>, run: seq<Action<E>>, s: System<E>, w: WorkerId, e: Key)
    requires Reached(cfg, log, run, s)
    requires ProcOf(s, w).Working? && ProcOf(s, w).epoch == s.hist.epoch
    requires Routes(cfg, s.log, e) && s.hist.start < e.event
    requires e.partition == ProcOf(s, w).key.partition && e.event < ProcOf(s, w).key.event
    ensures !Open(s.queue.rows, e)
    ensures e in s.hist.terminated || exists j: nat :: j < |run| && ReturnsAt(cfg, Initial(log), run, j, e, s.hist.epoch)
  {
    ReachedInv(cfg, log, run, s);
    assert ProcessorFits(s.queue.rows, s.hist, w, s.procs[w]);
    assert e in s.hist.inserted;
    if e !in s.hist.terminated {
      HandledMeansReturned(cfg, Initial(log), run, e);
    }
  }

  /** Completions by claimants come in strictly increasing order in each partition, so never twice. */
  lemma CompletionOrder<E>(cfg: Config<E>, log: seq<E>, run: seq<Action<E>>, s: System<E>, i: nat, j: nat)
    requires Reached(cfg, log, run, s) && i < j < |s.hist.completed|
    ensures s.hist.completed[i] != s.hist.completed[j]
    ensures s.hist.completed[i].partition == s.hist.completed[j].partition ==>
              s.hist.completed[i].event < s.hist.completed[j].event
    ensures s.hist.completed[i] in s.hist.handled
  {
    ReachedInv(cfg, log, run, s);
  }

  /** Effects of current claims reach a projection's store in partition order, late repeats aside. */
  lemma EffectOrder<E>(cfg: Config<E>, log: seq<E>, run: seq<Action<E>>, s: System<E>, i: nat, e: Key)
    requires cfg.kind == Projection && Reached(cfg, log, run, s)
    requires i < |s.hist.effects| && s.hist.effects[i].current
    requires Routes(cfg, s.log, e) && s.hist.start < e.event < s.hist.effects[i].key.event
    requires e.partition == s.hist.effects[i].key.partition
    ensures exists j: nat :: j < i && s.hist.effects[j].key == e
  {
    ReachedInv(cfg, log, run, s);
    assert EffectInOrder(s.hist, i);
    assert e in s.hist.inserted;
    var j :| 0 <= j < i && s.hist.effects[..i][j].key == e;
  }

  // ---------------------------------------------------------------- fencing

  predicate ClaimsFor<E>(a: Action<E>, w: WorkerId) {
    a.ClaimItem? && a.w == w
  }

  /** Once another worker holds the item, no run gives it back to `w` unless `w` claims again. */
  lemma {:induction false} DisplacedStaysDisplaced<E>(cfg: Config<E>, s: System<E>, run: seq<Action<E>>, k: Key, w: WorkerId)
    requires !ClaimedBy(s.queue.rows, k, w)
    requires forall a | a in run :: !ClaimsFor(a, w)
    ensures !ClaimedBy(Exec(cfg, s, run).queue.rows, k, w)
    decreases |run|
  {
    if run != [] {
      DisplacedStaysDisplaced(cfg, s, run[..|run| - 1], k, w);
      OnlyClaimsClaim(cfg, Exec(cfg, s, run[..|run| - 1]), run[|run| - 1], k, w);
    }
  }

  lemma OnlyClaimsClaim<E>(cfg: Config<E>, s: System<E>, a: Action<E>, k: Key, w: WorkerId)
    requires !ClaimedBy(s.queue.rows, k, w) && !ClaimsFor(a, w)
    ensures !ClaimedBy(Do(cfg, s, a).queue.rows, k, w)
  {
  }

  /** So a takeover fences the displaced worker: its renewals, completions and failures change no row. */
  lemma TakeoverFences<E>(cfg: Config<E>, s: System<E>, v: WorkerId, k: Key, seconds: nat, run: seq<Action<E>>,
                          w: WorkerId, late: Action<E>)
    requires s.queue.sub.Some? && Claimable(s.queue.rows, k, s.now) && v != w
    requires forall a | a in run :: !ClaimsFor(a, w)
    requires late.ExtendItem? || late.CompleteItem? || late.FailItem?
    requires late.w == w
    ensures var t := Exec(cfg, Do(cfg, s, ClaimItem(v, k, seconds)), run);
      !ProcOf(t, w).Free? && ProcOf(t, w).key == k ==>
        && Do(cfg, t, late).queue == t.queue
        && Do(cfg, t, late).hist.completed == t.hist.completed
  {
    var taken := Do(cfg, s, ClaimItem(v, k, seconds));
    DisplacedStaysDisplaced(cfg, taken, run, k, w);
  }

  /** Termination is the exception: a displaced worker still removes the row its successor holds. */
  lemma TerminationIsNotFenced<E>(cfg: Config<E>, s: System<E>, w: WorkerId, v: WorkerId)
    requires cfg.kind == ProcessManager && s.queue.sub.Some?
    requires ProcOf(s, w).Returned? && v != w && ClaimedBy(s.queue.rows, ProcOf(s, w).key, v)
    ensures forall k | k in Do(cfg, s, TerminateInstance(w)).queue.rows :: k in s.queue.rows && k.partition != ProcOf(s, w).key.partition
    ensures ProcOf(s, w).key in Do(cfg, s, TerminateInstance(w)).hist.terminated
  {
    assert ProcOf(s, w).key in PartitionRows(s.queue.rows, ProcOf(s, w).key.partition);
  }

  // ---------------------------------------------------------------- leases

  /** The clock only moves forward. */
  lemma {:induction false} ClockAdvances<E>(cfg: Config<E>, s: System<E>, run: seq<Action<E>>)
    ensures s.now <= Exec(cfg, s, run).now
    decreases |run|
  {
    if run != [] {
      ClockAdvances(cfg, s, run[..|run| - 1]);
    }
  }

  /** Neither an action of `w`, nor one that removes rows whoever holds them. */
  predicate LeavesToHolder<E>(a: Action<E>, w: WorkerId) {
    match a
    case Append(_) => true
    case Tick(_) => true
    case DeleteSub => false
    case RebuildSub => false
    case TerminateInstance(_) => false
    case _ => a.w != w
  }

  lemma LeaseHoldsOneStep<E>(cfg: Config<E>, s: System<E>, a: Action<E>, k: Key, w: WorkerId)
    requires ClaimedBy(s.queue.rows, k, w) && s.now <= s.queue.rows[k].until && LeavesToHolder(a, w)
    ensures k in Do(cfg, s, a).queue.rows && Do(cfg, s, a).queue.rows[k] == s.queue.rows[k]
  {
  }

  /** A claim is exclusive until its lease has passed: nobody else can claim, finish or fail the item before. */
  lemma {:induction false} LeaseIsExclusive<E>(cfg: Config<E>, s: System<E>, run: seq<Action<E>>, k: Key, w: WorkerId)
    requires ClaimedBy(s.queue.rows, k, w) && Exec(cfg, s, run).now <= s.queue.rows[k].until
    requires forall a | a in run :: LeavesToHolder(a, w)
    ensures var rows := Exec(cfg, s, run).queue.rows; k in rows && rows[k] == s.queue.rows[k]
    decreases |run|
  {
    if run != [] {
      var before := run[..|run| - 1];
      assert run[|run| - 1] in run;
      ClockAdvances(cfg, Exec(cfg, s, before), [run[|run| - 1]]);
      assert [run[|run| - 1]][..0] == [];
      LeaseIsExclusive(cfg, s, before, k, w);
      LeaseHoldsOneStep(cfg, Exec(cfg, s, before), run[|run| - 1], k, w);
    }
  }

  /** Someone else may claim the item exactly when the lease has passed, its predecessors being done. */
  lemma TakeoverNeedsExpiry<E>(cfg: Config<E>, s: System<E>, k: Key, w: WorkerId, v: WorkerId, seconds: nat)
    requires s.queue.sub.Some? && Serial(s.queue.rows) && ClaimedBy(s.queue.rows, k, w) && v != w
    ensures ClaimedBy(Do(cfg, s, ClaimItem(v, k, seconds)).queue.rows, k, v) <==> s.queue.rows[k].until < s.now
  {
  }

  /** The subscription lease is exclusive while it runs: no other router is granted the cursor. */
  lemma {:induction false} SubscriptionLeaseIsExclusive<E>(cfg: Config<E>, s: System<E>, run: seq<Action<E>>, w: WorkerId)
    requires HeldBy(s.queue.sub, w) && Exec(cfg, s, run).now < s.queue.sub.value.lease.value.until
    requires forall a | a in run :: LeavesToHolder(a, w) || a.TerminateInstance?
    ensures var sub := Exec(cfg, s, run).queue.sub; HeldBy(sub, w) && sub == s.queue.sub
    decreases |run|
  {
    if run != [] {
      var before := run[..|run| - 1];
      assert run[|run| - 1] in run;
      ClockAdvances(cfg, Exec(cfg, s, before), [run[|run| - 1]]);
      assert [run[|run| - 1]][..0] == [];
      SubscriptionLeaseIsExclusive(cfg, s, before, w);
      SubLeaseHoldsOneStep(cfg, Exec(cfg, s, before), run[|run| - 1], w);
    }
  }

  lemma SubLeaseHoldsOneStep<E>(cfg: Config<E>, s: System<E>, a: Action<E>, w: WorkerId)
    requires HeldBy(s.queue.sub, w) && s.now < s.queue.sub.value.lease.value.until
    requires LeavesToHolder(a, w) || a.TerminateInstance?
    ensures Do(cfg, s, a).queue.sub == s.queue.sub
  {
  }

  /** `e` is the first open row of its partition, and it is failed or under a lease that has not passed. */
  ghost predicate Blocks(rows: map<Key, RowState>, now: nat, e: Key) {
    && Open(rows, e)
    && (rows[e].Failed? || (rows[e].Claimed? && now <= rows[e].until))
    && forall f | f in rows && f.partition == e.partition && f.event < e.event :: rows[f].Done?
  }

  /** When nothing is claimable every open row waits behind a failed row or a running lease of its partition. */
  lemma {:induction false} NothingElseBlocks(rows: map<Key, RowState>, now: nat, k: Key) returns (e: Key)
    requires Open(rows, k) && forall f | f in rows :: !Claimable(rows, f, now)
    ensures e.partition == k.partition && e.event <= k.event && Blocks(rows, now, e)
    decreases k.event
  {
    if f :| f in rows && f.partition == k.partition && f.event < k.event && !rows[f].Done? {
      e := NothingElseBlocks(rows, now, f);
    } else {
      e := k;
    }
  }

  // ---------------------------------------------------------------- rebuild

  lemma {:induction false} StartStays<E>(cfg: Config<E>, s: System<E>, run: seq<Action<E>>)
    requires s.queue.sub.Some? && forall a | a in run :: !Resets(a)
    ensures var t := Exec(cfg, s, run);
      t.queue.sub.Some? && t.hist.start == s.hist.start && t.hist.epoch == s.hist.epoch
    decreases |run|
  {
    if run != [] {
      StartStays(cfg, s, run[..|run| - 1]);
      StartStaysOneStep(cfg, Exec(cfg, s, run[..|run| - 1]), run[|run| - 1]);
    }
  }

  lemma StartStaysOneStep<E>(cfg: Config<E>, s: System<E>, a: Action<E>)
    requires s.queue.sub.Some? && !Resets(a)
    ensures var t := Do(cfg, s, a);
      t.queue.sub.Some? && t.hist.start == s.hist.start && t.hist.epoch == s.hist.epoch
  {
  }

  /** Rebuild leaves the cursor at the origin, no items and no holder. */
  lemma RebuildForgets<E>(cfg: Config<E>, s: System<E>)
    requires Inv(cfg, s)
    ensures var t := Do(cfg, s, RebuildSub);
      && t.queue == Queue(Some(Subscription(0, None)), map[]) && t.hist.start == 0 && t.log == s.log
      && (Rebuild(s.queue, s.now, |s.log|).0 <==> s.queue.sub.Some?)
  {
  }

  /**
   Re-routing after a rebuild inserts exactly what a first routing from the origin inserts:
   two runs that reach the same cursor over the same log, one rebuilt and one new, agree.
   */
  lemma RebuildRoutesAgain<E>(cfg: Config<E>, log: seq<E>, before: seq<Action<E>>, again: seq<Action<E>>,
                              log2: seq<E>, first: seq<Action<E>>)
    requires forall a | a in again :: !Resets(a)
    requires var r := Exec(cfg, Do(cfg, Exec(cfg, Initial(log), before), RebuildSub), again);
             var f := Exec(cfg, Initial(log2), first);
             && f.queue.sub.Some? && f.hist.start == 0 && r.log == f.log
             && r.queue.sub.Some? && r.queue.sub.value.lastSeen == f.queue.sub.value.lastSeen
    ensures Exec(cfg, Do(cfg, Exec(cfg, Initial(log), before), RebuildSub), again).hist.inserted
            == Exec(cfg, Initial(log2), first).hist.inserted
  {
    var s := Exec(cfg, Initial(log), before);
    var b := Do(cfg, s, RebuildSub);
    ReachedInv(cfg, log, before, s);
    StepKeepsInv(cfg, s, RebuildSub);
    RunKeepsInv(cfg, b, again);
    RebuildForgets(cfg, s);
    StartStays(cfg, b, again);
    ReachedInv(cfg, log2, first, Exec(cfg, Initial(log2), first));
  }

  predicate ClaimsSubFor<E>(a: Action<E>, w: WorkerId) {
    a.ClaimSub? && a.w == w
  }

  lemma {:induction false} NotHolderUntilClaim<E>(cfg: Config<E>, s: System<E>, run: seq<Action<E>>, w: WorkerId)
    requires !HeldBy(s.queue.sub, w) && forall a | a in run :: !ClaimsSubFor(a, w)
    ensures !HeldBy(Exec(cfg, s, run).queue.sub, w)
    decreases |run|
  {
    if run != [] {
      NotHolderUntilClaim(cfg, s, run[..|run| - 1], w);
      NotHolderOneStep(cfg, Exec(cfg, s, run[..|run| - 1]), run[|run| - 1], w);
    }
  }

  lemma NotHolderOneStep<E>(cfg: Config<E>, s: System<E>, a: Action<E>, w: WorkerId)
    requires !HeldBy(s.queue.sub, w) && !ClaimsSubFor(a, w)
    ensures !HeldBy(Do(cfg, s, a).queue.sub, w)
  {
  }

  /** A router with a claim from before the rebuild cannot commit its batch afterwards. */
  lemma RebuildFencesRouters<E>(cfg: Config<E>, s: System<E>, run: seq<Action<E>>, w: WorkerId)
    requires forall a | a in run :: !ClaimsSubFor(a, w)
    ensures var t := Exec(cfg, Do(cfg, s, RebuildSub), run);
      Do(cfg, t, CommitRoute(w)).queue == t.queue
  {
    NotHolderUntilClaim(cfg, Do(cfg, s, RebuildSub), run, w);
  }

  // ---------------------------------------------------------------- a late call

  /**
   A `route_batch` call that its client gave up on and that reaches the store after the same worker
   has claimed and committed again.  The machine has no such action: the holder check lets it pass,
   and it inserts again exactly the items of its stretch that are finished and gone.  It changes
   nothing if and only if each of them still has its row.
   */
  lemma LateBatchReinserts<E>(cfg: Config<E>, log: seq<E>, run: seq<Action<E>>, s: System<E>, w: WorkerId, lo: nat, hi: nat)
    requires Reached(cfg, log, run, s) && HeldBy(s.queue.sub, w)
    requires s.hist.start <= lo && hi <= s.queue.sub.value.lastSeen && hi <= |s.log|
    ensures var (reply, queue) := RouteBatch(s.queue, w, hi, Decide(cfg, s.log, lo, hi));
      && reply.Ok? && queue.sub == s.queue.sub
      && (forall k | k in queue.rows && k !in s.queue.rows :: queue.rows[k].Pending? && (k in s.hist.handled || k in s.hist.terminated))
      && (queue == s.queue <==> forall k | Routes(cfg, s.log, k) && lo < k.event <= hi :: k in s.queue.rows)
  {
    ReachedInv(cfg, log, run, s);
    DecideKeys(cfg, s.log, lo, hi);
    var queue := RouteBatch(s.queue, w, hi, Decide(cfg, s.log, lo, hi)).1;
    forall k | k in queue.rows && k !in s.queue.rows ensures k in s.hist.handled || k in s.hist.terminated {
      assert k in s.hist.inserted;
    }
    if queue != s.queue {
      var k :| k in queue.rows && k !in s.queue.rows;
    }
  }

  // ---------------------------------------------------------------- items that are lost

  /** `k` was routed, has no row, was not handled, and nobody has it at hand. */
  ghost predicate Lost<E>(s: System<E>, k: Key) {
    && k in s.hist.inserted && k !in s.queue.rows && k !in s.hist.handled
    && forall w | w in s.procs && !s.procs[w].Free? :: s.procs[w].key != k
  }

  lemma LostCommit<E>(cfg: Config<E>, s: System<E>, w: WorkerId, k: Key)
    requires RoutingInv(cfg, s) && Lost(s, k)
    ensures Lost(Do(cfg, s, CommitRoute(w)), k)
  {
    if RouterOf(s, w).Routed? && HeldBy(s.queue.sub, w) {
      DecideKeys(cfg, s.log, RouterOf(s, w).lastSeen, RouterOf(s, w).cursor);
    }
  }

  lemma LostStays<E>(cfg: Config<E>, s: System<E>, a: Action<E>, k: Key)
    requires RoutingInv(cfg, s) && Lost(s, k) && !Resets(a)
    ensures Lost(Do(cfg, s, a), k)
  {
    if a.CommitRoute? {
      LostCommit(cfg, s, a.w, k);
    }
  }

  /** Short of a delete or rebuild a lost item is never handled. */
  lemma {:induction false} LostForGood<E>(cfg: Config<E>, s: System<E>, run: seq<Action<E>>, k: Key)
    requires Inv(cfg, s) && Lost(s, k) && forall i | 0 <= i < |run| :: !Resets(run[i])
    ensures Lost(Exec(cfg, s, run), k)
    decreases |run|
  {
    if run != [] {
      var before := run[..|run| - 1];
      LostForGood(cfg, s, before, k);
      RunKeepsInv(cfg, s, before);
      LostStays(cfg, Exec(cfg, s, before), run[|run| - 1], k);
    }
  }
}
