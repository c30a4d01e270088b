/**
 What a worker sees of the system between two of its calls: the tables of QueueStore, which
 its calls update, and the state of QueueProtocol that other workers move too.  Every call is
 at once a method of the store and one action of the machine, and the client keeps both equal.
 */
module Clients {
  import opened Wrappers
  import opened WorkQueue
  import opened QueueProtocol
  import opened QueueTheorems
  import opened QueueRuns
  import opened QueueStore
  import opened Replay
  import opened ErrorPolicies

  /** What becomes of a call: the store may never see it, or act on it although the worker sees an error. */
  datatype Fate = Answered | NeverArrived | AnswerLost

  /**
   What happens between two calls of a worker: actions of others and the snapshots they leave,
   then, for the call that follows, the rows that other transactions have locked, what becomes of
   it, how many more events get routed before a stop, and whether the heartbeat fires.
   */
  datatype Moment<S, E> = Moment(
    actions: seq<Action<E>>,
    snaps: map<Partition, Snapshot<S>>,
    locked: set<Key>,
    fate: Fate,
    stopsAt: nat,
    heartbeat: bool)

  /** Not an action of worker `me`. */
  predicate Foreign<E>(a: Action<E>, me: WorkerId) {
    match a
    case Append(_) => true
    case Tick(_) => true
    case DeleteSub => true
    case RebuildSub => true
    case _ => a.w != me
  }

  ghost predicate AllForeign<E>(actions: seq<Action<E>>, me: WorkerId) {
    forall a | a in actions :: Foreign(a, me)
  }

  /** What others cannot do to `me`: move its local state, or give it a lease or a claim. */
  ghost predicate Untouched<E>(s: System<E>, t: System<E>, me: WorkerId) {
    && RouterOf(t, me) == RouterOf(s, me) && ProcOf(t, me) == ProcOf(s, me)
    && |s.log| <= |t.log| && t.log[..|s.log|] == s.log
    && (HeldBy(t.queue.sub, me) ==> HeldBy(s.queue.sub, me))
    && forall k | ClaimedBy(t.queue.rows, k, me) :: ClaimedBy(s.queue.rows, k, me)
  }

  lemma ForeignStep<E>(cfg: Config<E>, s: System<E>, a: Action<E>, me: WorkerId)
    requires Foreign(a, me)
    ensures Untouched(s, Do(cfg, s, a), me)
  {
    ForeignTables(cfg, s, a, me);
    ForeignLocals(cfg, s, a, me);
  }

  lemma ForeignLocals<E>(cfg: Config<E>, s: System<E>, a: Action<E>, me: WorkerId)
    requires Foreign(a, me)
    ensures var t := Do(cfg, s, a);
      && RouterOf(t, me) == RouterOf(s, me) && ProcOf(t, me) == ProcOf(s, me)
      && |s.log| <= |t.log| && t.log[..|s.log|] == s.log
  {
  }

  lemma ForeignTables<E>(cfg: Config<E>, s: System<E>, a: Action<E>, me: WorkerId)
    requires Foreign(a, me)
    ensures var t := Do(cfg, s, a);
      && (HeldBy(t.queue.sub, me) ==> HeldBy(s.queue.sub, me))
      && forall k | ClaimedBy(t.queue.rows, k, me) :: ClaimedBy(s.queue.rows, k, me)
  {
    if !HeldBy(s.queue.sub, me) {
      NotHolderOneStep(cfg, s, a, me);
    }
    forall k | ClaimedBy(Do(cfg, s, a).queue.rows, k, me) ensures ClaimedBy(s.queue.rows, k, me) {
      if !ClaimedBy(s.queue.rows, k, me) {
        OnlyClaimsClaim(cfg, s, a, k, me);
      }
    }
  }

  lemma {:induction false} ForeignRun<E>(cfg: Config<E>, s: System<E>, run: seq<Action<E>>, me: WorkerId)
    requires AllForeign(run, me)
    ensures Untouched(s, Exec(cfg, s, run), me)
    decreases |run|
  {
    if run != [] {
      var before := run[..|run| - 1];
      assert run[|run| - 1] in run;
      ForeignRun(cfg, s, before, me);
      ForeignStep(cfg, Exec(cfg, s, before), run[|run| - 1], me);
      var m := Exec(cfg, s, before);
      var t := Exec(cfg, s, run);
      assert t.log[..|s.log|] == t.log[..|m.log|][..|s.log|];
    }
  }

  lemma {:induction false} ExecConcat<E>(cfg: Config<E>, s: System<E>, a: seq<Action<E>>, b: seq<Action<E>>)
    ensures Exec(cfg, s, a + b) == Exec(cfg, Exec(cfg, s, a), b)
    decreases |b|
  {
    if b == [] {
      assert a + b == a;
    } else {
      ExecConcat(cfg, s, a, b[..|b| - 1]);
      assert (a + b)[..|a + b| - 1] == a + b[..|b| - 1];
    }
  }

  // ---------------------------------------------------------------- a worker's own actions

  datatype Role = Routing | Processing

  /** The actions a worker of each kind performs. */
  predicate Plays<E>(a: Action<E>, me: WorkerId, role: Role) {
    match role
    case Routing => (a.ClaimSub? || a.ReadAndRoute? || a.CommitRoute? || a.ReleaseSub?) && a.w == me
    case Processing =>
      (a.ClaimItem? || a.HandlerThrows? || a.HandlerReturns? || a.ExtendItem? || a.CompleteItem?
       || a.TerminateInstance? || a.DropItem?) && a.w == me
  }

  /** The run went on, and whatever was added is an action of others or one that fits the role. */
  ghost predicate Extends<E>(before: seq<Action<E>>, after: seq<Action<E>>, me: WorkerId, role: Role) {
    && before <= after
    && forall i | |before| <= i < |after| :: Foreign(after[i], me) || Plays(after[i], me, role)
  }

  lemma OthersExtend<E>(before: seq<Action<E>>, actions: seq<Action<E>>, me: WorkerId)
    requires AllForeign(actions, me)
    ensures forall role :: Extends(before, before + actions, me, role)
  {
  }

  // ---------------------------------------------------------------- undisturbed stretches

  /** Nobody else takes the subscription, deletes it or rebuilds it. */
  ghost predicate Calm<E>(actions: seq<Action<E>>) {
    forall a | a in actions :: !a.ClaimSub? && !a.DeleteSub? && !a.RebuildSub?
  }

  /** `claim_subscription` would grant the subscription to `me`. */
  predicate Grantable(sub: Option<Subscription>, me: WorkerId, now: nat) {
    sub.None? || sub.value.lease.None? || sub.value.lease.value.until <= now || sub.value.lease.value.holder == me
  }

  /** What calm actions of others leave: the lease is to be had or is ours, and no cursor moves back. */
  ghost predicate Undisturbed<E>(s: System<E>, t: System<E>, me: WorkerId) {
    && (Grantable(s.queue.sub, me, s.now) ==> Grantable(t.queue.sub, me, t.now))
    && (HeldBy(s.queue.sub, me) ==> t.queue.sub == s.queue.sub)
    && Seen(s.queue) <= Seen(t.queue)
  }

  lemma CalmStep<E>(cfg: Config<E>, s: System<E>, a: Action<E>, me: WorkerId)
    requires Foreign(a, me) && Calm([a])
    ensures Undisturbed(s, Do(cfg, s, a), me)
  {
    assert a in [a];
  }

  lemma {:induction false} CalmRun<E>(cfg: Config<E>, s: System<E>, run: seq<Action<E>>, me: WorkerId)
    requires AllForeign(run, me) && Calm(run)
    ensures Undisturbed(s, Exec(cfg, s, run), me)
    decreases |run|
  {
    if run != [] {
      var before, a := run[..|run| - 1], run[|run| - 1];
      assert a in run;
      CalmRun(cfg, s, before, me);
      CalmStep(cfg, Exec(cfg, s, before), a, me);
    }
  }

  lemma OthersRun<E>(cfg: Config<E>, s: System<E>, run: seq<Action<E>>, me: WorkerId)
    requires AllForeign(run, me)
    ensures Untouched(s, Exec(cfg, s, run), me)
    ensures Calm(run) ==> Undisturbed(s, Exec(cfg, s, run), me)
    ensures run == [] ==> Exec(cfg, s, run) == s
  {
    ForeignRun(cfg, s, run, me);
    if Calm(run) {
      CalmRun(cfg, s, run, me);
    }
  }

  /** In a reachable system every row is a routed event of the log, and without a subscription there is none. */
  lemma RowsAreRouted<E>(cfg: Config<E>, log: seq<E>, run: seq<Action<E>>)
    ensures var s := Exec(cfg, Initial(log), run);
      && (forall k | k in s.queue.rows :: 1 <= k.event <= |s.log|)
      && (s.queue.sub.None? ==> s.queue.rows == map[])
  {
    InitialInv(cfg, log);
    RunKeepsInv(cfg, Initial(log), run);
    var s := Exec(cfg, Initial(log), run);
    assert s.queue.rows.Keys <= s.hist.inserted;
  }

  /** The rows that still block their partitions. */
  function OpenKeys(rows: map<Key, RowState>): set<Key> {
    set k | k in rows && !rows[k].Done?
  }

  // ---------------------------------------------------------------- the client

  class Client<S, E> {
    const cfg: Config<E>
    const me: WorkerId
    const log: seq<E>
    const moments: seq<Moment<S, E>>
    const store: Store<S, E>
    var system: System<E>
    var calls: nat
    ghost var trace: seq<Action<E>>

    /** The tables are those of the system. */
    ghost predicate Shows(s: System<E>)
      reads store
    {
      store.Q() == s.queue && store.log == s.log && store.now == s.now
    }

    ghost predicate Valid()
      reads this, store
    {
      && system == Exec(cfg, Initial(log), trace) && Shows(system)
      && forall i | 0 <= i < |moments| :: AllForeign(moments[i].actions, me)
    }

    constructor (cfg: Config<E>, me: WorkerId, log: seq<E>, moments: seq<Moment<S, E>>)
      requires forall i | 0 <= i < |moments| :: AllForeign(moments[i].actions, me)
      ensures Valid() && fresh(store) && system == Initial(log) && trace == [] && calls == 0
      ensures this.cfg == cfg && this.me == me && this.log == log && this.moments == moments
    {
      this.cfg, this.me, this.log, this.moments := cfg, me, log, moments;
      store := new Store(log);
      system, calls, trace := Initial(log), 0, [];
    }

    /** This worker has item `key` at hand. */
    ghost predicate At(key: Key)
      reads this
    {
      !ProcOf(system, me).Free? && ProcOf(system, me).key == key
    }

    /** The schedule has run out: somebody called `stop`. */
    predicate Stopped()
      reads this
    {
      calls >= |moments|
    }

    function Now(): Moment<S, E>
      reads this, store
    {
      if calls < |moments| then moments[calls] else Moment([], store.snaps, {}, Answered, 0, false)
    }

    /** Others act; the returned moment describes the call that follows. */
    method Wait() returns (m: Moment<S, E>)
      requires Valid()
      modifies this, store
      ensures Valid() && calls == old(calls) + 1 && m == old(Now())
      ensures forall role :: Extends(old(trace), trace, me, role)
      ensures Untouched(old(system), system, me)
      ensures Calm(m.actions) ==> Undisturbed(old(system), system, me)
      ensures m.actions == [] ==> system == old(system)
    {
      m := Now();
      ExecConcat(cfg, Initial(log), trace, m.actions);
      OthersRun(cfg, system, m.actions, me);
      OthersExtend(trace, m.actions, me);
      system := Exec(cfg, system, m.actions);
      store.sub, store.rows, store.log, store.now, store.snaps :=
        system.queue.sub, system.queue.rows, system.log, system.now, m.snaps;
      trace := trace + m.actions;
      calls := calls + 1;
    }

    /** Records one action of this worker whose effect the tables already show. */
    method Act(a: Action<E>)
      requires system == Exec(cfg, Initial(log), trace) && Shows(Do(cfg, system, a))
      requires forall i | 0 <= i < |moments| :: AllForeign(moments[i].actions, me)
      modifies this`system, this`trace
      ensures Valid() && system == Do(cfg, old(system), a) && trace == old(trace) + [a]
    {
      assert (trace + [a])[..|trace + [a]| - 1] == trace;
      system := Do(cfg, system, a);
      trace := trace + [a];
    }

    method ClaimSubscription(seconds: nat, start: StartFrom) returns (r: ClaimResult)
      requires Valid()
      modifies this`system, this`trace, store`sub
      ensures Valid() && trace == old(trace) + [ClaimSub(me, seconds, start)]
      ensures (r, system.queue) == WorkQueue.ClaimSubscription(old(system).queue, me, old(system).now, seconds, start, |old(system).log|)
      ensures system.log == old(system).log && system.now == old(system).now
      ensures r.Granted? ==> RouterOf(system, me) == Holding(r.lastSeen)
    {
      r := store.ClaimSubscription(me, seconds, start);
      Act(ClaimSub(me, seconds, start));
    }

    method ReleaseSubscription() returns (r: Reply<()>)
      requires Valid()
      modifies this`system, this`trace, store`sub
      ensures Valid() && trace == old(trace) + [ReleaseSub(me)]
      ensures (r, system.queue) == WorkQueue.ReleaseSubscription(old(system).queue, me)
      ensures system.log == old(system).log && system.now == old(system).now
    {
      r := store.ReleaseSubscription(me);
      Act(ReleaseSub(me));
    }

    /** Records the batch this worker has read and routed on its own side. */
    method ReadAndRoute(lastSeen: nat, batchSize: nat)
      requires Valid() && RouterOf(system, me) == Holding(lastSeen) && lastSeen < |system.log| && batchSize > 0
      modifies this`system, this`trace
      ensures Valid() && trace == old(trace) + [Action.ReadAndRoute(me, batchSize)]
      ensures var cursor := MinNat(lastSeen + batchSize, |system.log|);
        RouterOf(system, me) == Routed(lastSeen, cursor, Decide(cfg, system.log, lastSeen, cursor))
      ensures system.queue == old(system).queue && system.log == old(system).log && system.now == old(system).now
    {
      Act(Action.ReadAndRoute(me, batchSize));
    }

    method RouteBatch(cursor: nat, decisions: seq<Key>) returns (r: Reply<nat>)
      requires Valid() && RouterOf(system, me).Routed?
      requires RouterOf(system, me).cursor == cursor && RouterOf(system, me).decisions == decisions
      modifies this`system, this`trace, store`sub, store`rows
      ensures Valid() && trace == old(trace) + [CommitRoute(me)]
      ensures (r, system.queue) == WorkQueue.RouteBatch(old(system).queue, me, cursor, decisions)
      ensures system.log == old(system).log && system.now == old(system).now
    {
      r := store.RouteBatch(me, cursor, decisions);
      Act(CommitRoute(me));
    }

    /** The claim of the earliest claimable row that nobody has locked; without one nothing happens. */
    method ClaimWorkItem(seconds: nat, locked: set<Key>) returns (k: Option<Key>)
      requires Valid()
      modifies this`system, this`trace, store`rows
      ensures Valid() && system.hist == old(system).hist && system.log == old(system).log && system.now == old(system).now
      ensures OpenKeys(system.queue.rows) == OpenKeys(old(system).queue.rows)
      ensures match k
        case None =>
          && system == old(system) && trace == old(trace)
          && forall e | e in system.queue.rows && e !in locked :: !Claimable(system.queue.rows, e, system.now)
        case Some(key) =>
          && FirstClaimable(old(system).queue.rows, old(system).now, locked, key) && 1 <= key.event <= |system.log|
          && (Reply.Ok(true), system.queue) == WorkQueue.ClaimWorkItem(old(system).queue, me, key, old(system).now, seconds)
          && ProcOf(system, me) == Working(key, system.hist.epoch)
          && trace == old(trace) + [ClaimItem(me, key, seconds)]
    {
      RowsAreRouted(cfg, log, trace);
      var r := store.ClaimWorkItem(me, seconds, locked);
      if r.Ok? && r.value.Some? {
        k := r.value;
        Act(ClaimItem(me, k.value, seconds));
      } else {
        k := None;
      }
    }

    method ExtendWorkItemClaim(key: Key, seconds: nat) returns (r: Reply<nat>)
      requires Valid() && At(key)
      modifies this`system, this`trace, store`rows
      ensures Valid() && trace == old(trace) + [ExtendItem(me, seconds)]
      ensures (r, system.queue) == WorkQueue.ExtendWorkItemClaim(old(system).queue, me, key, old(system).now, seconds)
      ensures system.hist == old(system).hist && system.log == old(system).log && ProcOf(system, me) == ProcOf(old(system), me)
      ensures system.now == old(system).now
      ensures OpenKeys(system.queue.rows) == OpenKeys(old(system).queue.rows)
    {
      r := store.ExtendWorkItemClaim(me, key, seconds);
      Act(ExtendItem(me, seconds));
    }

    /** One run of the handler: its effect is out, and it returned or threw. */
    method RunHandler(good: bool, key: Key)
      requires Valid() && At(key) && ProcOf(system, me).Working?
      modifies this`system, this`trace
      ensures Valid() && trace == old(trace) + [if good then HandlerReturns(me) else HandlerThrows(me)]
      ensures At(key) && (ProcOf(system, me).Returned? <==> good)
      ensures system.queue == old(system).queue && system.log == old(system).log
      ensures system.hist.completed == old(system).hist.completed
    {
      Act(if good then HandlerReturns(me) else HandlerThrows(me));
    }

    /** This worker leaves the item it has, whose row stays as it is. */
    method Drop()
      requires Valid()
      modifies this`system, this`trace
      ensures Valid() && trace == old(trace) + [DropItem(me)] && ProcOf(system, me).Free?
      ensures system.queue == old(system).queue && system.hist == old(system).hist && system.log == old(system).log
    {
      Act(DropItem(me));
    }

    /** The acknowledgement of the subscription's kind; a process manager hands in its snapshot. */
    method CompleteWorkItem(key: Key, snap: Snapshot<S>) returns (r: Reply<()>)
      requires Valid() && At(key) && ProcOf(system, me).Returned?
      modifies this`system, this`trace, store`rows, store`snaps
      ensures Valid() && trace == old(trace) + [CompleteItem(me)] && ProcOf(system, me).Free?
      ensures (r, system.queue) == if cfg.kind == Projection then CompleteProjection(old(system).queue, me, key) else CompletePm(old(system).queue, me, key)
      ensures system.hist.completed == old(system).hist.completed + if r.Ok? then [key] else []
      ensures OpenKeys(system.queue.rows) == OpenKeys(old(system).queue.rows) - if r.Ok? then {key} else {}
      ensures store.snaps == if r.Ok? && cfg.kind == ProcessManager then old(store.snaps)[key.partition := snap] else old(store.snaps)
    {
      if cfg.kind == Projection {
        r := store.CompleteWorkItemProjection(me, key);
      } else {
        r := store.CompleteWorkItemPm(me, key, snap);
      }
      Act(CompleteItem(me));
    }

    /** The acknowledgement of a handler that asked for completion: the whole partition goes. */
    method CompletePmInstance(key: Key) returns (r: Reply<nat>)
      requires Valid() && At(key) && ProcOf(system, me).Returned? && cfg.kind == ProcessManager
      modifies this`system, this`trace, store`rows, store`snaps
      ensures Valid() && trace == old(trace) + [TerminateInstance(me)] && ProcOf(system, me).Free?
      ensures (r, system.queue) == CompleteInstance(old(system).queue, key.partition)
      ensures system.hist.completed == old(system).hist.completed
      ensures OpenKeys(system.queue.rows) == OpenKeys(old(system).queue.rows) - if r.Ok? then PartitionRows(old(system).queue.rows, key.partition) else {}
      ensures store.snaps == if r.Ok? then old(store.snaps) - {key.partition} else old(store.snaps)
    {
      r := store.CompletePmInstance(key.partition);
      Act(TerminateInstance(me));
    }
  }
}
