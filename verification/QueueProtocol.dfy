/**
 The work-queue protocol on `$all`: any number of routing and processing workers act on one
 subscription, and every action below is one atomic procedure call or one local move of one
 worker.  A run is a sequence of actions; an action that is not enabled leaves the state as
 it is, so every interleaving, crash, late call and takeover is some sequence of actions.
 */
module QueueProtocol {
  import opened Wrappers
  import opened WorkQueue

  datatype Kind = Projection | ProcessManager

  /** What one subscription is configured with; `route` answers None for "ignore". */
  datatype Config<!E> = Config(route: E -> Option<Partition>, kind: Kind)

  /** A routing worker between two procedure calls. */
  datatype Router =
    | Resting
    | Holding(lastSeen: nat)
    | Routed(lastSeen: nat, cursor: nat, decisions: seq<Key>)

  /** A processing worker; `epoch` is the incarnation of the subscription it claimed under. */
  datatype Processor =
    | Free
    | Working(key: Key, epoch: nat)
    | Returned(key: Key, epoch: nat)

  /** The handler's effect reached the outside world; `current` unless the claim predates a rebuild. */
  datatype Effect = Effect(key: Key, current: bool)

  /** History since the subscription was last created; no procedure reads it. */
  datatype History = History(
    epoch: nat,
    start: nat,
    inserted: set<Key>,
    handled: set<Key>,
    terminated: set<Key>,
    completed: seq<Key>,
    effects: seq<Effect>)

  datatype System<E> = System(
    log: seq<E>,
    now: nat,
    queue: Queue,
    routers: map<WorkerId, Router>,
    procs: map<WorkerId, Processor>,
    hist: History)

  datatype Action<E> =
    | Append(events: seq<E>)
    | Tick(elapsed: nat)
    | ClaimSub(w: WorkerId, seconds: nat, start: StartFrom)
    | ReleaseSub(w: WorkerId)
    | DeleteSub
    | RebuildSub
    | ReadAndRoute(w: WorkerId, batchSize: nat)
    | CommitRoute(w: WorkerId)
    | DropBatch(w: WorkerId)
    | ClaimItem(w: WorkerId, key: Key, seconds: nat)
    | ExtendItem(w: WorkerId, seconds: nat)
    | HandlerThrows(w: WorkerId)
    | HandlerReturns(w: WorkerId)
    | DropItem(w: WorkerId)
    | CompleteItem(w: WorkerId)
    | TerminateInstance(w: WorkerId)
    | FailItem(w: WorkerId)

  function RouterOf<E>(s: System<E>, w: WorkerId): Router {
    if w in s.routers then s.routers[w] else Resting
  }

  function ProcOf<E>(s: System<E>, w: WorkerId): Processor {
    if w in s.procs then s.procs[w] else Free
  }

  function FreshHistory(epoch: nat, start: nat): History {
    History(epoch, start, {}, {}, {}, [], [])
  }

  function Initial<E>(log: seq<E>): System<E> {
    System(log, 0, EMPTY, map[], map[], FreshHistory(0, 0))
  }

  /** The decisions of one sequential routing pass over event numbers (lo, hi]. */
  function Decide<E>(cfg: Config<E>, log: seq<E>, lo: nat, hi: nat): (r: seq<Key>)
    requires hi <= |log|
    decreases hi
  {
    if hi <= lo then []
    else
      var before := Decide(cfg, log, lo, hi - 1);
      match cfg.route(log[hi - 1])
      case None => before
      case Some(p) => before + [Key(p, hi)]
  }

  /** `routeFn` sends event number `k.event` to partition `k.partition`. */
  predicate Routes<E>(cfg: Config<E>, log: seq<E>, k: Key) {
    1 <= k.event <= |log| && cfg.route(log[k.event - 1]) == Some(k.partition)
  }

  function EffectKeys(effects: seq<Effect>): set<Key> {
    set i | 0 <= i < |effects| :: effects[i].key
  }

  // ---------------------------------------------------------------- the step function

  function Do<E>(cfg: Config<E>, s: System<E>, a: Action<E>): System<E> {
    match a
    case Append(events) => s.(log := s.log + events)
    case Tick(elapsed) => s.(now := s.now + elapsed)
    case ClaimSub(w, seconds, start) => DoClaimSub(s, w, seconds, start)
    case ReleaseSub(w) =>
      s.(queue := ReleaseSubscription(s.queue, w).1, routers := s.routers[w := Resting])
    case DeleteSub =>
      s.(queue := DeleteSubscription(s.queue).1, hist := FreshHistory(s.hist.epoch + 1, 0))
    case RebuildSub =>
      s.(queue := Rebuild(s.queue, s.now, |s.log|).1, hist := FreshHistory(s.hist.epoch + 1, 0))
    case ReadAndRoute(w, batchSize) => DoReadAndRoute(cfg, s, w, batchSize)
    case CommitRoute(w) => DoCommitRoute(s, w)
    case DropBatch(w) => s.(routers := s.routers[w := Resting])
    case ClaimItem(w, key, seconds) => DoClaimItem(s, w, key, seconds)
    case ExtendItem(w, seconds) =>
      if ProcOf(s, w).Free? then s
      else s.(queue := ExtendWorkItemClaim(s.queue, w, ProcOf(s, w).key, s.now, seconds).1)
    case HandlerThrows(w) => if ProcOf(s, w).Working? then AddEffect(s, ProcOf(s, w)) else s
    case HandlerReturns(w) => DoHandlerReturns(s, w)
    case DropItem(w) => s.(procs := s.procs[w := Free])
    case CompleteItem(w) => DoCompleteItem(cfg, s, w)
    case TerminateInstance(w) => DoTerminate(cfg, s, w)
    case FailItem(w) =>
      if ProcOf(s, w).Free? then s
      else s.(queue := FailWorkItem(s.queue, w, ProcOf(s, w).key).1, procs := s.procs[w := Free])
  }

  /** `claimSubscription`: the worker remembers the cursor it was granted. */
  function DoClaimSub<E>(s: System<E>, w: WorkerId, seconds: nat, start: StartFrom): System<E> {
    var (result, queue) := ClaimSubscription(s.queue, w, s.now, seconds, start, |s.log|);
    match result
    case AlreadyClaimed(_, _) => s.(routers := s.routers[w := Resting])
    case Granted(lastSeen) =>
      var hist := if s.queue.sub.None? then s.hist.(start := lastSeen) else s.hist;
      s.(queue := queue, routers := s.routers[w := Holding(lastSeen)], hist := hist)
  }

  /** `readAll(lastSeen + 1, batchSize)` and `routeOneBatch`; an empty batch routes nothing. */
  function DoReadAndRoute<E>(cfg: Config<E>, s: System<E>, w: WorkerId, batchSize: nat): System<E> {
    match RouterOf(s, w)
    case Holding(lastSeen) =>
      if lastSeen >= |s.log| || batchSize == 0 then s
      else
        var cursor := if lastSeen + batchSize < |s.log| then lastSeen + batchSize else |s.log|;
        s.(routers := s.routers[w := Routed(lastSeen, cursor, Decide(cfg, s.log, lastSeen, cursor))])
    case _ => s
  }

  /** `routeBatch`: whatever the reply, the batch is spent. */
  function DoCommitRoute<E>(s: System<E>, w: WorkerId): System<E> {
    match RouterOf(s, w)
    case Routed(_, cursor, decisions) =>
      var (reply, queue) := RouteBatch(s.queue, w, cursor, decisions);
      var added := queue.rows.Keys - s.queue.rows.Keys;
      s.(queue := queue,
         routers := s.routers[w := Resting],
         hist := s.hist.(inserted := s.hist.inserted + added))
    case _ => s
  }

  function DoClaimItem<E>(s: System<E>, w: WorkerId, key: Key, seconds: nat): System<E> {
    var (reply, queue) := ClaimWorkItem(s.queue, w, key, s.now, seconds);
    if reply == Ok(true) then
      s.(queue := queue, procs := s.procs[w := Working(key, s.hist.epoch)])
    else
      s.(procs := s.procs[w := Free])
  }

  function AddEffect<E>(s: System<E>, p: Processor): System<E>
    requires !p.Free?
  {
    s.(hist := s.hist.(effects := s.hist.effects + [Effect(p.key, p.epoch == s.hist.epoch)]))
  }

  function DoHandlerReturns<E>(s: System<E>, w: WorkerId): System<E> {
    match ProcOf(s, w)
    case Working(key, epoch) =>
      var t := AddEffect(s, ProcOf(s, w));
      var handled := if epoch == s.hist.epoch then s.hist.handled + {key} else s.hist.handled;
      t.(procs := s.procs[w := Returned(key, epoch)], hist := t.hist.(handled := handled))
    case _ => s
  }

  /** The terminal call of a handler that returned: delete for a projection, `done` for a process manager. */
  function DoCompleteItem<E>(cfg: Config<E>, s: System<E>, w: WorkerId): System<E> {
    match ProcOf(s, w)
    case Returned(key, _) =>
      var (reply, queue) := match cfg.kind
        case Projection => CompleteProjection(s.queue, w, key)
        case ProcessManager => CompletePm(s.queue, w, key);
      var completed := if reply.Ok? then s.hist.completed + [key] else s.hist.completed;
      s.(queue := queue, procs := s.procs[w := Free], hist := s.hist.(completed := completed))
    case _ => s
  }

  /** `completePmInstance` after a handler that returned `complete: true`. */
  function DoTerminate<E>(cfg: Config<E>, s: System<E>, w: WorkerId): System<E> {
    match ProcOf(s, w)
    case Returned(key, _) =>
      if cfg.kind != ProcessManager then s
      else
        var queue := CompleteInstance(s.queue, key.partition).1;
        var gone := s.queue.rows.Keys - queue.rows.Keys;
        s.(queue := queue,
           procs := s.procs[w := Free],
           hist := s.hist.(terminated := s.hist.terminated + gone))
    case _ => s
  }

  /** A whole run. */
  function Exec<E>(cfg: Config<E>, s: System<E>, run: seq<Action<E>>): System<E>
    decreases |run|
  {
    if run == [] then s else Do(cfg, Exec(cfg, s, run[..|run| - 1]), run[|run| - 1])
  }

  // ---------------------------------------------------------------- the invariant

  /** A worker that still holds the subscription holds it at the cursor it was granted. */
  ghost predicate CursorAgrees(sub: Option<Subscription>, routers: map<WorkerId, Router>) {
    forall w | w in routers && !routers[w].Resting? && HeldBy(sub, w) ::
      sub.value.lastSeen == routers[w].lastSeen
  }

  ghost predicate BatchesAreDecisions<E>(cfg: Config<E>, log: seq<E>, routers: map<WorkerId, Router>) {
    forall w | w in routers && routers[w].Routed? ::
      && routers[w].lastSeen < routers[w].cursor <= |log|
      && routers[w].decisions == Decide(cfg, log, routers[w].lastSeen, routers[w].cursor)
  }

  /** The items ever inserted are those of one sequential pass from `start` to the cursor. */
  ghost predicate InsertedExactly<E>(cfg: Config<E>, log: seq<E>, sub: Option<Subscription>, start: nat, inserted: set<Key>) {
    match sub
    case None => inserted == {}
    case Some(row) =>
      && start <= row.lastSeen
      && (row.lastSeen <= |log| || row.lastSeen == start)
      && forall k :: k in inserted <==> Routes(cfg, log, k) && start < k.event <= row.lastSeen
  }

  ghost predicate RoutingInv<E>(cfg: Config<E>, s: System<E>) {
    && CursorAgrees(s.queue.sub, s.routers)
    && BatchesAreDecisions(cfg, s.log, s.routers)
    && InsertedExactly(cfg, s.log, s.queue.sub, s.hist.start, s.hist.inserted)
  }

  /** Every inserted item is still queued, handled, or gone with its partition. */
  ghost predicate NothingLost(rows: map<Key, RowState>, h: History) {
    && rows.Keys <= h.inserted
    && h.handled <= h.inserted
    && (forall k | k in h.inserted :: k in rows || k in h.handled || k in h.terminated)
    && (forall k | k in rows && rows[k].Done? :: k in h.handled)
  }

  /** Each partition reads done*, then at most one claimed or failed row, then pending*. */
  ghost predicate Serial(rows: map<Key, RowState>) {
    forall a, b | a in rows && b in rows && a.partition == b.partition && a.event < b.event ::
      rows[b].Pending? || rows[a].Done?
  }

  /** Nothing routed to `k`'s partition before `k` is still open. */
  ghost predicate Settled(rows: map<Key, RowState>, inserted: set<Key>, k: Key) {
    forall e | e in inserted && e.partition == k.partition && e.event < k.event :: !Open(rows, e)
  }

  ghost predicate ProcessorFits(rows: map<Key, RowState>, h: History, w: WorkerId, p: Processor) {
    !p.Free? ==>
      && p.epoch <= h.epoch
      && (p.epoch == h.epoch ==> p.key in h.inserted && Settled(rows, h.inserted, p.key))
      && (p.epoch == h.epoch && p.Returned? ==> p.key in h.handled)
      && (ClaimedBy(rows, p.key, w) ==> p.epoch == h.epoch)
  }

  ghost predicate ProcessorsFit(rows: map<Key, RowState>, h: History, procs: map<WorkerId, Processor>) {
    forall w | w in procs :: ProcessorFits(rows, h, w, procs[w])
  }

  /** Completions by claimants are in partition order, and never twice for one item. */
  ghost predicate CompletedInOrder(rows: map<Key, RowState>, h: History) {
    && (forall i | 0 <= i < |h.completed| :: h.completed[i] in h.handled && !Open(rows, h.completed[i]))
    && (forall i, k | 0 <= i < |h.completed| && Open(rows, k) && k.partition == h.completed[i].partition ::
          h.completed[i].event < k.event)
    && (forall i, j | 0 <= i < j < |h.completed| && h.completed[i].partition == h.completed[j].partition ::
          h.completed[i].event < h.completed[j].event)
  }

  /** Everything inserted for `k`'s partition before `k` took effect earlier or was terminated. */
  ghost predicate EffectInOrder(h: History, i: nat)
    requires i < |h.effects|
  {
    var k := h.effects[i].key;
    h.effects[i].current ==>
      && k in h.inserted
      && forall e | e in h.inserted && e.event < k.event && e.partition == k.partition ::
           e in h.terminated || e in EffectKeys(h.effects[..i])
  }

  ghost predicate EffectsInOrder(h: History) {
    && h.handled <= EffectKeys(h.effects)
    && forall i: nat | i < |h.effects| :: EffectInOrder(h, i)
  }

  ghost predicate ItemsInv(kind: Kind, rows: map<Key, RowState>, h: History, procs: map<WorkerId, Processor>) {
    && NothingLost(rows, h)
    && Serial(rows)
    && ProcessorsFit(rows, h, procs)
    && CompletedInOrder(rows, h)
    && EffectsInOrder(h)
    && (kind == Projection ==> h.terminated == {} && forall k | k in rows :: Open(rows, k))
  }

  ghost predicate Inv<E>(cfg: Config<E>, s: System<E>) {
    RoutingInv(cfg, s) && ItemsInv(cfg.kind, s.queue.rows, s.hist, s.procs)
  }

  // ---------------------------------------------------------------- preservation: routing

  lemma {:induction false} DecideKeys<E>(cfg: Config<E>, log: seq<E>, lo: nat, hi: nat)
    requires hi <= |log|
    ensures forall k :: k in Decide(cfg, log, lo, hi) <==> Routes(cfg, log, k) && lo < k.event <= hi
    decreases hi
  {
    if lo < hi {
      DecideKeys(cfg, log, lo, hi - 1);
    }
  }

  lemma {:induction false} DecideOnPrefix<E>(cfg: Config<E>, log: seq<E>, more: seq<E>, lo: nat, hi: nat)
    requires hi <= |log|
    ensures Decide(cfg, log + more, lo, hi) == Decide(cfg, log, lo, hi)
    decreases hi
  {
    if lo < hi {
      DecideOnPrefix(cfg, log, more, lo, hi - 1);
    }
  }

  predicate IsItemAction<E>(a: Action<E>) {
    a.ClaimItem? || a.ExtendItem? || a.HandlerThrows? || a.HandlerReturns? || a.DropItem? || a.CompleteItem?
    || a.TerminateInstance? || a.FailItem?
  }

  lemma AppendKeepsRouting<E>(cfg: Config<E>, s: System<E>, events: seq<E>)
    requires RoutingInv(cfg, s)
    ensures RoutingInv(cfg, Do(cfg, s, Append(events)))
  {
    forall w | w in s.routers && s.routers[w].Routed?
      ensures Decide(cfg, s.log + events, s.routers[w].lastSeen, s.routers[w].cursor) == s.routers[w].decisions
    {
      DecideOnPrefix(cfg, s.log, events, s.routers[w].lastSeen, s.routers[w].cursor);
    }
  }

  /** What a commit by a worker that kept the lease adds: the next stretch of the sequential pass. */
  lemma CommitExtendsPass<E>(cfg: Config<E>, s: System<E>, w: WorkerId)
    requires RoutingInv(cfg, s) && s.queue.rows.Keys <= s.hist.inserted
    requires RouterOf(s, w).Routed? && HeldBy(s.queue.sub, w)
    ensures var t := Do(cfg, s, CommitRoute(w));
      && RouterOf(s, w).lastSeen == s.queue.sub.value.lastSeen
      && t.queue.sub.value.lastSeen == RouterOf(s, w).cursor
      && RoutingInv(cfg, t)
      && t.hist == s.hist.(inserted := s.hist.inserted + (set k | k in RouterOf(s, w).decisions))
      && t.queue.rows == InsertPending(s.queue.rows, RouterOf(s, w).decisions)
      && (forall k, e | k in s.hist.inserted && e in RouterOf(s, w).decisions :: k.event < e.event)
  {
    var r := RouterOf(s, w);
    DecideKeys(cfg, s.log, r.lastSeen, r.cursor);
    var t := Do(cfg, s, CommitRoute(w));
    assert t.queue.rows.Keys - s.queue.rows.Keys == (set k | k in r.decisions);
  }

  lemma LeaseActionKeepsRouting<E>(cfg: Config<E>, s: System<E>, a: Action<E>)
    requires RoutingInv(cfg, s)
    requires a.ClaimSub? || a.ReleaseSub? || a.DropBatch?
    ensures RoutingInv(cfg, Do(cfg, s, a))
  {
  }

  lemma ReadOrResetKeepsRouting<E>(cfg: Config<E>, s: System<E>, a: Action<E>)
    requires RoutingInv(cfg, s)
    requires a.Tick? || a.ReadAndRoute? || a.DeleteSub? || a.RebuildSub?
    ensures RoutingInv(cfg, Do(cfg, s, a))
  {
  }

  /** Item actions leave the log, the cursor, the routers and the inserted set alone. */
  lemma ItemActionFrame<E>(cfg: Config<E>, s: System<E>, a: Action<E>)
    requires IsItemAction(a)
    ensures var t := Do(cfg, s, a);
      && t.log == s.log && t.now == s.now && t.queue.sub == s.queue.sub && t.routers == s.routers
      && t.hist.epoch == s.hist.epoch && t.hist.start == s.hist.start && t.hist.inserted == s.hist.inserted
  {
  }

  lemma StepKeepsRouting<E>(cfg: Config<E>, s: System<E>, a: Action<E>)
    requires RoutingInv(cfg, s) && s.queue.rows.Keys <= s.hist.inserted
    ensures RoutingInv(cfg, Do(cfg, s, a))
  {
    if IsItemAction(a) {
      ItemActionFrame(cfg, s, a);
    } else if a.Append? {
      AppendKeepsRouting(cfg, s, a.events);
    } else if a.CommitRoute? {
      CommitKeepsRouting(cfg, s, a.w);
    } else if a.ClaimSub? || a.ReleaseSub? || a.DropBatch? {
      LeaseActionKeepsRouting(cfg, s, a);
    } else {
      ReadOrResetKeepsRouting(cfg, s, a);
    }
  }

  lemma CommitKeepsRouting<E>(cfg: Config<E>, s: System<E>, w: WorkerId)
    requires RoutingInv(cfg, s) && s.queue.rows.Keys <= s.hist.inserted
    ensures RoutingInv(cfg, Do(cfg, s, CommitRoute(w)))
  {
    if RouterOf(s, w).Routed? && HeldBy(s.queue.sub, w) {
      CommitExtendsPass(cfg, s, w);
    } else {
      assert Do(cfg, s, CommitRoute(w)).hist.inserted == s.hist.inserted;
    }
  }

  // ---------------------------------------------------------------- preservation: items

  /** Rows are added or opened by routing only. */
  ghost predicate NoReopen(rows: map<Key, RowState>, rows': map<Key, RowState>) {
    forall k | Open(rows', k) :: Open(rows, k)
  }

  /** What an item action does to the history: items only become handled, terminated or completed. */
  ghost predicate HistoryGrows(h: History, h': History) {
    && h'.epoch == h.epoch && h'.start == h.start && h'.inserted == h.inserted
    && h.handled <= h'.handled && h.terminated <= h'.terminated
  }

  /** The other workers' positions survive an item action of `w` that claims nothing from them. */
  lemma OthersStay(rows: map<Key, RowState>, rows': map<Key, RowState>, h: History, h': History,
                   procs: map<WorkerId, Processor>, w: WorkerId, p: Processor)
    requires ProcessorsFit(rows, h, procs) && NoReopen(rows, rows') && HistoryGrows(h, h')
    requires forall k, v | v != w && ClaimedBy(rows', k, v) :: ClaimedBy(rows, k, v)
    requires ProcessorFits(rows', h', w, p)
    ensures ProcessorsFit(rows', h', procs[w := p])
  {
    forall v | v in procs && v != w ensures ProcessorFits(rows', h', v, procs[v]) {
      assert ProcessorFits(rows, h, v, procs[v]);
    }
  }

  lemma CompletedStays(rows: map<Key, RowState>, rows': map<Key, RowState>, h: History, h': History)
    requires CompletedInOrder(rows, h) && NoReopen(rows, rows') && HistoryGrows(h, h')
    requires h'.completed == h.completed
    ensures CompletedInOrder(rows', h')
  {
  }

  lemma EffectsStay(h: History, h': History)
    requires EffectsInOrder(h)
    requires h'.effects == h.effects && h'.handled == h.handled
    requires h.inserted <= h'.inserted && h.terminated <= h'.terminated
    requires forall k, e | k in h.inserted && e in h'.inserted && e !in h.inserted :: k.event < e.event
    ensures EffectsInOrder(h')
  {
    forall i: nat | i < |h'.effects| ensures EffectInOrder(h', i) {
      assert EffectInOrder(h, i);
    }
  }

  lemma EffectAdded(h: History, h': History, e: Effect)
    requires EffectsInOrder(h)
    requires h' == h.(effects := h.effects + [e], handled := h'.handled)
    requires h'.handled <= h.handled + {e.key}
    requires e.current ==> e.key in h.inserted && forall k | k in h.inserted && k.partition == e.key.partition && k.event < e.key.event ::
                             k in h.handled || k in h.terminated
    ensures EffectsInOrder(h')
  {
    forall i: nat | i < |h'.effects| ensures EffectInOrder(h', i) {
      if i < |h.effects| {
        assert EffectInOrder(h, i);
        assert h'.effects[..i] == h.effects[..i];
      } else {
        assert h'.effects[..i] == h.effects;
      }
    }
    forall k | k in h'.handled ensures k in EffectKeys(h'.effects) {
      if k == e.key {
        assert h'.effects[|h.effects|].key == k;
      } else {
        var i :| 0 <= i < |h.effects| && h.effects[i].key == k;
        assert h'.effects[i].key == k;
      }
    }
  }

  lemma CommitKeepsItems(kind: Kind, rows: map<Key, RowState>, h: History, procs: map<WorkerId, Processor>, decisions: seq<Key>)
    requires ItemsInv(kind, rows, h, procs)
    requires forall k, e | k in h.inserted && e in decisions :: k.event < e.event
    ensures ItemsInv(kind, InsertPending(rows, decisions), h.(inserted := h.inserted + (set k | k in decisions)), procs)
  {
    var rows' := InsertPending(rows, decisions);
    var h' := h.(inserted := h.inserted + (set k | k in decisions));
    EffectsStay(h, h');
    forall v | v in procs ensures ProcessorFits(rows', h', v, procs[v]) {
      assert ProcessorFits(rows, h, v, procs[v]);
    }
  }

  lemma ClaimKeepsItems(kind: Kind, rows: map<Key, RowState>, rows': map<Key, RowState>, h: History,
                        procs: map<WorkerId, Processor>, procs': map<WorkerId, Processor>,
                        w: WorkerId, key: Key, now: nat, until: nat)
    requires ItemsInv(kind, rows, h, procs) && Claimable(rows, key, now)
    requires rows' == rows[key := Claimed(w, until)] && procs' == procs[w := Working(key, h.epoch)]
    ensures ItemsInv(kind, rows', h, procs')
  {
    CompletedStays(rows, rows', h, h);
    OthersStay(rows, rows', h, h, procs, w, Working(key, h.epoch));
  }

  /** A claimed row is renewed or failed: nothing opens and nobody else is affected. */
  lemma RowChangeKeepsItems(kind: Kind, rows: map<Key, RowState>, rows': map<Key, RowState>, h: History,
                            procs: map<WorkerId, Processor>, procs': map<WorkerId, Processor>,
                            w: WorkerId, key: Key, state: RowState)
    requires ItemsInv(kind, rows, h, procs) && ClaimedBy(rows, key, w) && w in procs
    requires state.Failed? || (state.Claimed? && state.worker == w)
    requires rows' == rows[key := state] && (procs' == procs || procs' == procs[w := Free])
    ensures ItemsInv(kind, rows', h, procs')
  {
    assert ProcessorFits(rows, h, w, procs[w]);
    OthersStay(rows, rows', h, h, procs, w, procs'[w]);
    assert procs' == procs[w := procs'[w]];
    CompletedStays(rows, rows', h, h);
  }

  lemma CompleteKeepsItems(kind: Kind, rows: map<Key, RowState>, rows': map<Key, RowState>, h: History,
                           procs: map<WorkerId, Processor>, w: WorkerId, key: Key)
    requires ItemsInv(kind, rows, h, procs) && ClaimedBy(rows, key, w) && key in h.handled
    requires rows' == if kind == Projection then rows - {key} else rows[key := Done]
    ensures ItemsInv(kind, rows', h.(completed := h.completed + [key]), procs[w := Free])
  {
    var h' := h.(completed := h.completed + [key]);
    EffectsStay(h, h');
    OthersStay(rows, rows', h, h', procs, w, Free);
    CompletionIsNext(rows, rows', h, w, key);
  }

  lemma CompletionIsNext(rows: map<Key, RowState>, rows': map<Key, RowState>, h: History, w: WorkerId, key: Key)
    requires Serial(rows) && CompletedInOrder(rows, h) && ClaimedBy(rows, key, w) && key in h.handled
    requires NoReopen(rows, rows') && !Open(rows', key)
    ensures CompletedInOrder(rows', h.(completed := h.completed + [key]))
  {
    var n := |h.completed|;
    var h' := h.(completed := h.completed + [key]);
    forall i, k | 0 <= i < |h'.completed| && Open(rows', k) && k.partition == h'.completed[i].partition
      ensures h'.completed[i].event < k.event
    {
      if i == n {
        assert Open(rows, k) && k != key;
        assert k.event != key.event;
      }
    }
  }

  lemma TerminateKeepsItems(kind: Kind, rows: map<Key, RowState>, h: History, procs: map<WorkerId, Processor>,
                            w: WorkerId, p: Partition)
    requires ItemsInv(kind, rows, h, procs) && kind == ProcessManager
    ensures ItemsInv(kind, rows - PartitionRows(rows, p), h.(terminated := h.terminated + PartitionRows(rows, p)),
                     procs[w := Free])
  {
    var rows' := rows - PartitionRows(rows, p);
    var h' := h.(terminated := h.terminated + PartitionRows(rows, p));
    EffectsStay(h, h');
    CompletedStays(rows, rows', h, h');
    OthersStay(rows, rows', h, h', procs, w, Free);
  }

  lemma HandlerKeepsItems(kind: Kind, rows: map<Key, RowState>, h: History, h': History, procs: map<WorkerId, Processor>,
                          w: WorkerId, returned: bool)
    requires ItemsInv(kind, rows, h, procs) && w in procs && procs[w].Working?
    requires var k := procs[w].key; var current := procs[w].epoch == h.epoch;
      h' == h.(effects := h.effects + [Effect(k, current)],
               handled := if returned && current then h.handled + {k} else h.handled)
    ensures ItemsInv(kind, rows, h', procs[w := if returned then Returned(procs[w].key, procs[w].epoch) else procs[w]])
  {
    assert ProcessorFits(rows, h, w, procs[w]);
    EffectAdded(h, h', h'.effects[|h.effects|]);
    CompletedStays(rows, rows, h, h');
    OthersStay(rows, rows, h, h', procs, w, if returned then Returned(procs[w].key, procs[w].epoch) else procs[w]);
  }

  lemma DropKeepsItems(kind: Kind, rows: map<Key, RowState>, h: History, procs: map<WorkerId, Processor>, w: WorkerId)
    requires ItemsInv(kind, rows, h, procs)
    ensures ItemsInv(kind, rows, h, procs[w := Free])
  {
    OthersStay(rows, rows, h, h, procs, w, Free);
  }

  lemma HandlerActionKeepsItems<E>(cfg: Config<E>, s: System<E>, a: Action<E>)
    requires ItemsInv(cfg.kind, s.queue.rows, s.hist, s.procs)
    requires a.HandlerThrows? || a.HandlerReturns? || a.DropItem?
    ensures var t := Do(cfg, s, a); ItemsInv(cfg.kind, t.queue.rows, t.hist, t.procs)
  {
    if a.DropItem? {
      DropKeepsItems(cfg.kind, s.queue.rows, s.hist, s.procs, a.w);
    } else if ProcOf(s, a.w).Working? {
      HandlerKeepsItems(cfg.kind, s.queue.rows, s.hist, Do(cfg, s, a).hist, s.procs, a.w, a.HandlerReturns?);
    }
  }

  lemma ClaimActionKeepsItems<E>(cfg: Config<E>, s: System<E>, w: WorkerId, key: Key, seconds: nat)
    requires ItemsInv(cfg.kind, s.queue.rows, s.hist, s.procs)
    ensures var t := Do(cfg, s, ClaimItem(w, key, seconds)); ItemsInv(cfg.kind, t.queue.rows, t.hist, t.procs)
  {
    var t := Do(cfg, s, ClaimItem(w, key, seconds));
    if s.queue.sub.Some? && Claimable(s.queue.rows, key, s.now) {
      ClaimKeepsItems(cfg.kind, s.queue.rows, t.queue.rows, s.hist, s.procs, t.procs, w, key, s.now, s.now + seconds);
    } else {
      DropKeepsItems(cfg.kind, s.queue.rows, s.hist, s.procs, w);
    }
  }

  lemma RenewActionKeepsItems<E>(cfg: Config<E>, s: System<E>, a: Action<E>)
    requires ItemsInv(cfg.kind, s.queue.rows, s.hist, s.procs)
    requires a.ExtendItem? || a.FailItem?
    ensures var t := Do(cfg, s, a); ItemsInv(cfg.kind, t.queue.rows, t.hist, t.procs)
  {
    var rows, h, procs, p := s.queue.rows, s.hist, s.procs, ProcOf(s, a.w);
    var t := Do(cfg, s, a);
    if !p.Free? && s.queue.sub.Some? && ClaimedBy(rows, p.key, a.w) {
      var state := if a.FailItem? then Failed else Claimed(a.w, s.now + a.seconds);
      RowChangeKeepsItems(cfg.kind, rows, t.queue.rows, h, procs, t.procs, a.w, p.key, state);
    } else if !p.Free? && a.FailItem? {
      DropKeepsItems(cfg.kind, rows, h, procs, a.w);
    }
  }

  lemma CompleteActionKeepsItems<E>(cfg: Config<E>, s: System<E>, w: WorkerId)
    requires ItemsInv(cfg.kind, s.queue.rows, s.hist, s.procs)
    ensures var t := Do(cfg, s, CompleteItem(w)); ItemsInv(cfg.kind, t.queue.rows, t.hist, t.procs)
  {
    var rows, h, procs, p := s.queue.rows, s.hist, s.procs, ProcOf(s, w);
    if p.Returned? {
      if s.queue.sub.Some? && ClaimedBy(rows, p.key, w) {
        CompleteKeepsItems(cfg.kind, rows, DoCompleteItem(cfg, s, w).queue.rows, h, procs, w, p.key);
      } else {
        DropKeepsItems(cfg.kind, rows, h, procs, w);
      }
    }
  }

  lemma TerminateActionKeepsItems<E>(cfg: Config<E>, s: System<E>, w: WorkerId)
    requires ItemsInv(cfg.kind, s.queue.rows, s.hist, s.procs)
    requires s.queue.sub.None? ==> s.queue.rows == map[]
    ensures var t := Do(cfg, s, TerminateInstance(w)); ItemsInv(cfg.kind, t.queue.rows, t.hist, t.procs)
  {
    var rows, p := s.queue.rows, ProcOf(s, w);
    if p.Returned? && cfg.kind == ProcessManager {
      var t := DoTerminate(cfg, s, w);
      TerminateKeepsItems(cfg.kind, rows, s.hist, s.procs, w, p.key.partition);
      assert t.queue.rows == rows - PartitionRows(rows, p.key.partition);
      assert rows.Keys - t.queue.rows.Keys == PartitionRows(rows, p.key.partition);
    }
  }

  lemma StepKeepsItems<E>(cfg: Config<E>, s: System<E>, a: Action<E>)
    requires Inv(cfg, s)
    ensures var t := Do(cfg, s, a); ItemsInv(cfg.kind, t.queue.rows, t.hist, t.procs)
  {
    if a.HandlerThrows? || a.HandlerReturns? || a.DropItem? {
      HandlerActionKeepsItems(cfg, s, a);
    } else if a.ClaimItem? {
      ClaimActionKeepsItems(cfg, s, a.w, a.key, a.seconds);
    } else if a.ExtendItem? || a.FailItem? {
      RenewActionKeepsItems(cfg, s, a);
    } else if a.CompleteItem? {
      CompleteActionKeepsItems(cfg, s, a.w);
    } else if a.TerminateInstance? {
      TerminateActionKeepsItems(cfg, s, a.w);
    } else if a.CommitRoute? {
      CommitActionKeepsItems(cfg, s, a.w);
    } else if a.DeleteSub? || a.RebuildSub? {
      ResetKeepsItems(cfg, s, a);
    } else {
      UnrelatedActionKeepsItems(cfg, s, a);
    }
  }

  lemma CommitActionKeepsItems<E>(cfg: Config<E>, s: System<E>, w: WorkerId)
    requires Inv(cfg, s)
    ensures var t := Do(cfg, s, CommitRoute(w)); ItemsInv(cfg.kind, t.queue.rows, t.hist, t.procs)
  {
    if RouterOf(s, w).Routed? && HeldBy(s.queue.sub, w) {
      CommitExtendsPass(cfg, s, w);
      CommitKeepsItems(cfg.kind, s.queue.rows, s.hist, s.procs, RouterOf(s, w).decisions);
    } else {
      assert Do(cfg, s, CommitRoute(w)).hist.inserted == s.hist.inserted;
    }
  }

  lemma ResetKeepsItems<E>(cfg: Config<E>, s: System<E>, a: Action<E>)
    requires ItemsInv(cfg.kind, s.queue.rows, s.hist, s.procs) && (s.queue.sub.None? ==> s.hist.inserted == {})
    requires a.DeleteSub? || a.RebuildSub?
    ensures var t := Do(cfg, s, a); ItemsInv(cfg.kind, t.queue.rows, t.hist, t.procs)
  {
    var t := Do(cfg, s, a);
    assert t.queue.rows == map[];
    forall v | v in s.procs ensures ProcessorFits(map[], t.hist, v, s.procs[v]) {
      assert ProcessorFits(s.queue.rows, s.hist, v, s.procs[v]);
    }
  }

  predicate IsUnrelated<E>(a: Action<E>) {
    a.Append? || a.Tick? || a.ClaimSub? || a.ReleaseSub? || a.ReadAndRoute? || a.DropBatch?
  }

  lemma UnrelatedFrame<E>(cfg: Config<E>, s: System<E>, a: Action<E>)
    requires IsUnrelated(a)
    ensures var t := Do(cfg, s, a);
      t.queue.rows == s.queue.rows && t.procs == s.procs && t.hist == s.hist.(start := t.hist.start)
  {
  }

  lemma StartIsIrrelevant(kind: Kind, rows: map<Key, RowState>, h: History, procs: map<WorkerId, Processor>, start: nat)
    requires ItemsInv(kind, rows, h, procs)
    ensures ItemsInv(kind, rows, h.(start := start), procs)
  {
    var h' := h.(start := start);
    EffectsStay(h, h');
    forall v | v in procs ensures ProcessorFits(rows, h', v, procs[v]) {
      assert ProcessorFits(rows, h, v, procs[v]);
    }
  }

  lemma UnrelatedActionKeepsItems<E>(cfg: Config<E>, s: System<E>, a: Action<E>)
    requires ItemsInv(cfg.kind, s.queue.rows, s.hist, s.procs)
    requires IsUnrelated(a)
    ensures var t := Do(cfg, s, a); ItemsInv(cfg.kind, t.queue.rows, t.hist, t.procs)
  {
    UnrelatedFrame(cfg, s, a);
    StartIsIrrelevant(cfg.kind, s.queue.rows, s.hist, s.procs, Do(cfg, s, a).hist.start);
  }

  lemma StepKeepsInv<E>(cfg: Config<E>, s: System<E>, a: Action<E>)
    requires Inv(cfg, s)
    ensures Inv(cfg, Do(cfg, s, a))
  {
    StepKeepsRouting(cfg, s, a);
    StepKeepsItems(cfg, s, a);
  }

  lemma {:induction false} RunKeepsInv<E>(cfg: Config<E>, s: System<E>, run: seq<Action<E>>)
    requires Inv(cfg, s)
    ensures Inv(cfg, Exec(cfg, s, run))
    decreases |run|
  {
    if run != [] {
      RunKeepsInv(cfg, s, run[..|run| - 1]);
      StepKeepsInv(cfg, Exec(cfg, s, run[..|run| - 1]), run[|run| - 1]);
    }
  }

  lemma InitialInv<E>(cfg: Config<E>, log: seq<E>)
    ensures Inv(cfg, Initial(log))
  {
  }
}
