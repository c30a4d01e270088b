/**
 Read models whose writes are guarded by `last_event_number`, under every delivery the work
 queue permits: the first effect of each event comes in partition order, and any event may be
 delivered again at any later time, even by a worker that lost its claim long ago.
 */
module GuardedDelivery {
  import opened Wrappers
  import opened WorkQueue
  import opened QueueProtocol
  import opened QueueTheorems

  /** One projection's write, the row's `last_event_number`, and the events that insert a row. */
  datatype Handler<!R, !E> = Handler(
    write: (Option<R>, nat, E) -> Option<R>,
    last: R -> nat,
    creates: E -> bool)

  /** For routed events: an old one is a no-op, a new one advances `last_event_number`; creating ones insert. */
  ghost predicate GuardedAt<R, E>(h: Handler<R, E>, cfg: Config<E>, row: Option<R>, n: nat, e: E) {
    var after := h.write(row, n, e);
    match row
    case None => h.creates(e) ==> after.Some? && h.last(after.value) == n
    case Some(r) => if n <= h.last(r) then after == row else cfg.route(e).Some? ==> after.Some? && h.last(after.value) == n
  }

  ghost predicate Guarded<R(!new), E(!new)>(h: Handler<R, E>, cfg: Config<E>) {
    forall row, n: nat, e :: GuardedAt(h, cfg, row, n, e)
  }

  /** The row after delivering each routed event of `p` up to number `n` once, in order. */
  function RowUpTo<R, E>(h: Handler<R, E>, cfg: Config<E>, log: seq<E>, p: Partition, n: nat): Option<R> {
    if n == 0 then None
    else
      var before := RowUpTo(h, cfg, log, p, n - 1);
      if Routes(cfg, log, Key(p, n)) then h.write(before, n, log[n - 1]) else before
  }

  /** The row after the first `n` effects, in the order they reached the read store. */
  function DeliverFirst<R, E>(h: Handler<R, E>, log: seq<E>, effects: seq<Effect>, n: nat, p: Partition): Option<R>
    requires n <= |effects|
  {
    if n == 0 then None
    else
      var before, k := DeliverFirst(h, log, effects, n - 1, p), effects[n - 1].key;
      if k.partition == p && 1 <= k.event <= |log| then h.write(before, k.event, log[k.event - 1]) else before
  }

  function Deliver<R, E>(h: Handler<R, E>, log: seq<E>, effects: seq<Effect>, p: Partition): Option<R> {
    DeliverFirst(h, log, effects, |effects|, p)
  }

  /** The greatest event number that the first `n` effects delivered to `p`. */
  function Frontier(effects: seq<Effect>, n: nat, p: Partition): nat
    requires n <= |effects|
  {
    if n == 0 then 0
    else
      var before, k := Frontier(effects, n - 1, p), effects[n - 1].key;
      if k.partition == p then Max(before, k.event) else before
  }

  ghost predicate Delivered(effects: seq<Effect>, i: nat, k: Key)
    requires i <= |effects|
  {
    exists j: nat :: j < i && effects[j].key == k
  }

  /** Effect `i` is of a routed event, and everything routed to its partition before was delivered before. */
  ghost predicate InTurn<E>(cfg: Config<E>, log: seq<E>, effects: seq<Effect>, i: nat)
    requires i < |effects|
  {
    var k := effects[i].key;
    && Routes(cfg, log, k)
    && forall n: nat | n < k.event && Routes(cfg, log, Key(k.partition, n)) :: Delivered(effects, i, Key(k.partition, n))
  }

  ghost predicate PermittedAt<E>(cfg: Config<E>, log: seq<E>, effects: seq<Effect>, p: Partition, i: nat) {
    i < |effects| && effects[i].key.partition == p ==> InTurn(cfg, log, effects, i)
  }

  ghost predicate Permitted<E>(cfg: Config<E>, log: seq<E>, effects: seq<Effect>, p: Partition) {
    forall i: nat :: PermittedAt(cfg, log, effects, p, i)
  }

  /** If `n` is the first event routed to `p`, it inserts the row. */
  ghost predicate CreatesAt<R, E>(h: Handler<R, E>, cfg: Config<E>, log: seq<E>, p: Partition, n: nat) {
    Routes(cfg, log, Key(p, n)) && (forall m: nat | m < n :: !Routes(cfg, log, Key(p, m))) ==> h.creates(log[n - 1])
  }

  ghost predicate CreatesFirst<R, E>(h: Handler<R, E>, cfg: Config<E>, log: seq<E>, p: Partition) {
    forall n: nat :: CreatesAt(h, cfg, log, p, n)
  }

  lemma {:induction false} FrontierCovers(effects: seq<Effect>, n: nat, p: Partition, i: nat)
    requires i < n <= |effects| && effects[i].key.partition == p
    ensures effects[i].key.event <= Frontier(effects, n, p)
  {
    if i < n - 1 {
      FrontierCovers(effects, n - 1, p, i);
    }
  }

  lemma {:induction false} FrontierIsDelivered(effects: seq<Effect>, n: nat, p: Partition)
    requires n <= |effects|
    ensures Frontier(effects, n, p) > 0 ==> Delivered(effects, n, Key(p, Frontier(effects, n, p)))
  {
    if n > 0 {
      FrontierIsDelivered(effects, n - 1, p);
      if Frontier(effects, n, p) > 0 && Frontier(effects, n, p) != Frontier(effects, n - 1, p) {
        assert effects[n - 1].key == Key(p, Frontier(effects, n, p));
      }
    }
  }

  /** Once something was routed the row exists, and its `last_event_number` is the last routed number. */
  ghost predicate RowFits<R, E>(h: Handler<R, E>, cfg: Config<E>, log: seq<E>, p: Partition, n: nat, row: Option<R>) {
    match row
    case None => forall m: nat | m <= n :: !Routes(cfg, log, Key(p, m))
    case Some(r) =>
      && 1 <= h.last(r) <= n && Routes(cfg, log, Key(p, h.last(r)))
      && forall m: nat | h.last(r) < m <= n :: !Routes(cfg, log, Key(p, m))
  }

  lemma {:induction false} RowLast<R(!new), E(!new)>(h: Handler<R, E>, cfg: Config<E>, log: seq<E>, p: Partition, n: nat)
    requires Guarded(h, cfg) && CreatesFirst(h, cfg, log, p)
    ensures RowFits(h, cfg, log, p, n, RowUpTo(h, cfg, log, p, n))
  {
    if n != 0 {
      RowLast(h, cfg, log, p, n - 1);
      if Routes(cfg, log, Key(p, n)) {
        assert CreatesAt(h, cfg, log, p, n);
        assert GuardedAt(h, cfg, RowUpTo(h, cfg, log, p, n - 1), n, log[n - 1]);
      }
    }
  }

  lemma {:induction false} RowStops<R, E>(h: Handler<R, E>, cfg: Config<E>, log: seq<E>, p: Partition, lo: nat, hi: nat)
    requires lo <= hi && forall m: nat | lo < m <= hi :: !Routes(cfg, log, Key(p, m))
    ensures RowUpTo(h, cfg, log, p, hi) == RowUpTo(h, cfg, log, p, lo)
    decreases hi
  {
    if lo < hi {
      RowStops(h, cfg, log, p, lo, hi - 1);
    }
  }

  /** Whatever was delivered, and however often, the row is the in-order fold up to the greatest number delivered. */
  lemma {:induction false} DeliveryIsOrderedFold<R(!new), E(!new)>(h: Handler<R, E>, cfg: Config<E>, log: seq<E>, effects: seq<Effect>, n: nat,
                                                                   p: Partition)
    requires Guarded(h, cfg) && CreatesFirst(h, cfg, log, p) && Permitted(cfg, log, effects, p) && n <= |effects|
    ensures DeliverFirst(h, log, effects, n, p) == RowUpTo(h, cfg, log, p, Frontier(effects, n, p))
  {
    if n > 0 {
      DeliveryIsOrderedFold(h, cfg, log, effects, n - 1, p);
      var k, m := effects[n - 1].key, Frontier(effects, n - 1, p);
      if k.partition == p {
        assert PermittedAt(cfg, log, effects, p, n - 1);
        if k.event <= m {
          RepeatIsIgnored(h, cfg, log, p, m, k.event);
        } else {
          NothingBetween(cfg, log, effects, n - 1);
          NextIsWritten(h, cfg, log, p, m, k.event);
        }
      }
    }
  }

  lemma NextIsWritten<R, E>(h: Handler<R, E>, cfg: Config<E>, log: seq<E>, p: Partition, m: nat, n: nat)
    requires m < n && Routes(cfg, log, Key(p, n)) && forall i: nat | m < i < n :: !Routes(cfg, log, Key(p, i))
    ensures RowUpTo(h, cfg, log, p, n) == h.write(RowUpTo(h, cfg, log, p, m), n, log[n - 1])
  {
    RowStops(h, cfg, log, p, m, n - 1);
  }

  lemma RepeatIsIgnored<R(!new), E(!new)>(h: Handler<R, E>, cfg: Config<E>, log: seq<E>, p: Partition, m: nat, n: nat)
    requires Guarded(h, cfg) && CreatesFirst(h, cfg, log, p)
    requires n <= m && Routes(cfg, log, Key(p, n))
    ensures h.write(RowUpTo(h, cfg, log, p, m), n, log[n - 1]) == RowUpTo(h, cfg, log, p, m)
  {
    RowLast(h, cfg, log, p, m);
    assert GuardedAt(h, cfg, RowUpTo(h, cfg, log, p, m), n, log[n - 1]);
  }

  /** A new greatest number is the next routed one. */
  lemma NothingBetween<E>(cfg: Config<E>, log: seq<E>, effects: seq<Effect>, n: nat)
    requires n < |effects| && InTurn(cfg, log, effects, n)
    ensures var k := effects[n].key;
      forall i: nat | Frontier(effects, n, k.partition) < i < k.event :: !Routes(cfg, log, Key(k.partition, i))
  {
    var k := effects[n].key;
    forall i: nat | Frontier(effects, n, k.partition) < i < k.event ensures !Routes(cfg, log, Key(k.partition, i)) {
      if Routes(cfg, log, Key(k.partition, i)) {
        assert Delivered(effects, n, Key(k.partition, i));
        var j: nat :| j < n && effects[j].key == Key(k.partition, i);
        FrontierCovers(effects, n, k.partition, j);
        assert false;
      }
    }
  }

  // ---------------------------------------------------------------- the queue permits nothing else

  ghost predicate NoResets<E>(run: seq<Action<E>>) {
    forall a | a in run :: !Resets(a)
  }

  /** Without deletes or rebuilds every effect belongs to the present incarnation. */
  lemma {:induction false} EffectsAreCurrent<E>(cfg: Config<E>, log: seq<E>, run: seq<Action<E>>)
    requires NoResets(run)
    ensures var s := Exec(cfg, Initial(log), run);
      && s.hist.epoch == 0
      && (forall w | w in s.procs && !s.procs[w].Free? :: s.procs[w].epoch == 0)
      && forall i | 0 <= i < |s.hist.effects| :: s.hist.effects[i].current
    decreases |run|
  {
    if run != [] {
      assert run[|run| - 1] in run;
      EffectsAreCurrent(cfg, log, run[..|run| - 1]);
      CurrentOneStep(cfg, Exec(cfg, Initial(log), run[..|run| - 1]), run[|run| - 1]);
    }
  }

  lemma CurrentOneStep<E>(cfg: Config<E>, s: System<E>, a: Action<E>)
    requires !Resets(a) && s.hist.epoch == 0
    requires forall w | w in s.procs && !s.procs[w].Free? :: s.procs[w].epoch == 0
    requires forall i | 0 <= i < |s.hist.effects| :: s.hist.effects[i].current
    ensures var t := Do(cfg, s, a);
      && t.hist.epoch == 0
      && (forall w | w in t.procs && !t.procs[w].Free? :: t.procs[w].epoch == 0)
      && forall i | 0 <= i < |t.hist.effects| :: t.hist.effects[i].current
  {
  }

  /** What a projection started at the origin delivers to one partition is always permitted. */
  lemma QueueDeliveryIsPermitted<E>(cfg: Config<E>, log: seq<E>, run: seq<Action<E>>, s: System<E>, p: Partition)
    requires cfg.kind == Projection && Reached(cfg, log, run, s) && NoResets(run) && s.hist.start == 0
    ensures Permitted(cfg, s.log, s.hist.effects, p)
  {
    EffectsAreCurrent(cfg, log, run);
    ReachedInv(cfg, log, run, s);
    forall i: nat | i < |s.hist.effects| && s.hist.effects[i].key.partition == p ensures InTurn(cfg, s.log, s.hist.effects, i) {
      assert EffectInOrder(s.hist, i);
      forall n: nat | n < s.hist.effects[i].key.event && Routes(cfg, s.log, Key(p, n))
        ensures Delivered(s.hist.effects, i, Key(p, n))
      {
        EffectOrder(cfg, log, run, s, i, Key(p, n));
      }
    }
  }

  /** Caught up with the whole log, the read model has seen every routed event. */
  lemma CaughtUpDeliversAll<E>(cfg: Config<E>, log: seq<E>, run: seq<Action<E>>, s: System<E>, p: Partition, n: nat)
    requires cfg.kind == Projection && Reached(cfg, log, run, s) && s.hist.start == 0
    requires CaughtUp(s.queue, |s.log|) && Routes(cfg, s.log, Key(p, n))
    ensures n <= Frontier(s.hist.effects, |s.hist.effects|, p)
  {
    ReachedInv(cfg, log, run, s);
    assert Key(p, n) in s.hist.inserted;
    var j :| 0 <= j < |s.hist.effects| && s.hist.effects[j].key == Key(p, n);
    FrontierCovers(s.hist.effects, |s.hist.effects|, p, j);
  }

  /**
   The row a projection has produced at any point of any run: the in-order fold up to its own
   `last_event_number`, and up to the head of the log once the subscription has caught up.
   */
  lemma RowOfAnyRun<R(!new), E(!new)>(h: Handler<R, E>, cfg: Config<E>, log: seq<E>, run: seq<Action<E>>, s: System<E>, p: Partition)
    requires cfg.kind == Projection && Reached(cfg, log, run, s) && NoResets(run) && s.hist.start == 0
    requires Guarded(h, cfg) && CreatesFirst(h, cfg, s.log, p)
    ensures var row := Deliver(h, s.log, s.hist.effects, p);
      && (row.Some? ==> h.last(row.value) <= |s.log| && row == RowUpTo(h, cfg, s.log, p, h.last(row.value)))
      && (CaughtUp(s.queue, |s.log|) ==> row == RowUpTo(h, cfg, s.log, p, |s.log|))
  {
    var f := Frontier(s.hist.effects, |s.hist.effects|, p);
    QueueDeliveryIsPermitted(cfg, log, run, s, p);
    DeliveryIsOrderedFold(h, cfg, s.log, s.hist.effects, |s.hist.effects|, p);
    FrontierIsRouted(cfg, s.log, s.hist.effects, p);
    RowLast(h, cfg, s.log, p, f);
    var row := RowUpTo(h, cfg, s.log, p, f);
    if row.Some? {
      RowStops(h, cfg, s.log, p, h.last(row.value), f);
    }
    if CaughtUp(s.queue, |s.log|) {
      forall n: nat | f < n <= |s.log| ensures !Routes(cfg, s.log, Key(p, n)) {
        if Routes(cfg, s.log, Key(p, n)) {
          CaughtUpDeliversAll(cfg, log, run, s, p, n);
          assert false;
        }
      }
      RowStops(h, cfg, s.log, p, f, |s.log|);
    }
  }

  lemma FrontierIsRouted<E>(cfg: Config<E>, log: seq<E>, effects: seq<Effect>, p: Partition)
    requires Permitted(cfg, log, effects, p)
    ensures Frontier(effects, |effects|, p) <= |log|
  {
    if Frontier(effects, |effects|, p) > 0 {
      FrontierIsDelivered(effects, |effects|, p);
      var j: nat :| j < |effects| && effects[j].key == Key(p, Frontier(effects, |effects|, p));
      assert PermittedAt(cfg, log, effects, p, j);
    }
  }
}
