/** Stretches of protocol actions with one overall effect, from which concrete runs are put together. */
module QueueRuns {
  import opened Wrappers
  import opened WorkQueue
  import opened QueueProtocol

  /** What later steps of a run can see of a system, the routers' local state and the effects apart. */
  datatype View<E> = View(
    log: seq<E>,
    now: nat,
    queue: Queue,
    procs: map<WorkerId, Processor>,
    epoch: nat,
    start: nat,
    handled: set<Key>,
    terminated: set<Key>)

  function ViewOf<E>(s: System<E>): View<E> {
    View(s.log, s.now, s.queue, s.procs, s.hist.epoch, s.hist.start, s.hist.handled, s.hist.terminated)
  }

  function Seen(q: Queue): nat { if q.sub.None? then 0 else q.sub.value.lastSeen }

  /** One round of a router that gets the lease and whose batch reaches the head. */
  function RoutePass<E>(cfg: Config<E>, s: System<E>, r: WorkerId): System<E> {
    Do(cfg, Do(cfg, Do(cfg, s, ClaimSub(r, 1, Origin)), ReadAndRoute(r, |s.log|)), CommitRoute(r))
  }

  lemma RoutePassRoutes<E>(cfg: Config<E>, s: System<E>, r: WorkerId)
    requires s.queue.sub.None? || s.queue.sub.value.lease.None? || HeldBy(s.queue.sub, r)
    requires Seen(s.queue) < |s.log|
    ensures ViewOf(RoutePass(cfg, s, r)) == ViewOf(s).(
      queue := Queue(Some(Subscription(|s.log|, Some(Lease(r, s.now + 1)))),
                     InsertPending(s.queue.rows, Decide(cfg, s.log, Seen(s.queue), |s.log|))),
      start := if s.queue.sub.None? then 0 else s.hist.start)
  {
    var claimed := Do(cfg, s, ClaimSub(r, 1, Origin));
    assert RouterOf(claimed, r) == Holding(Seen(s.queue));
    var routed := Do(cfg, claimed, ReadAndRoute(r, |s.log|));
    assert RouterOf(routed, r) == Routed(Seen(s.queue), |s.log|, Decide(cfg, s.log, Seen(s.queue), |s.log|));
  }

  lemma ClaimTakes<E>(cfg: Config<E>, s: System<E>, w: WorkerId, k: Key, seconds: nat)
    requires s.queue.sub.Some? && Claimable(s.queue.rows, k, s.now)
    ensures ViewOf(Do(cfg, s, ClaimItem(w, k, seconds))) == ViewOf(s).(
      queue := s.queue.(rows := s.queue.rows[k := Claimed(w, s.now + seconds)]),
      procs := s.procs[w := Working(k, s.hist.epoch)])
  {
  }
}
