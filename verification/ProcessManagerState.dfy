/**
 Process-manager state on top of the work queue.  Workers of several module versions share
 one subscription; each loads a partition's state from the snapshot or, on a miss or a version
 mismatch, by folding the partition's done events, and each writes the snapshot with its ack.
 */
module ProcessManagerState {
  import opened Replay
  import opened WorkQueue
  import opened QueueProtocol
  import opened QueueTheorems

  datatype PmConfig<!S, !E> = PmConfig(queue: Config<E>, tagOf: WorkerId -> Tag, modules: Tag -> Module<S, E>)

  /** A worker between the calls of one `handle`/`complete` round. */
  datatype Stage<+S> =
    | Unloaded
    | Missed(key: Key)
    | Loaded(key: Key, base: S)
    | Staged(key: Key, state: S)

  /**
   History that no procedure reads: the events that each snapshot and each worker's loaded or
   staged state is made of, and the partitions whose snapshot was written before the
   subscription was last deleted or rebuilt.
   */
  datatype Origins<E> = Origins(snaps: map<Partition, seq<E>>, stages: map<WorkerId, seq<E>>, leftover: set<Partition>)

  datatype PmSystem<S, E> = PmSystem(
    sys: System<E>,
    snaps: map<Partition, Snapshot<S>>,
    stages: map<WorkerId, Stage<S>>,
    origins: Origins<E>)

  datatype PmAction<E> =
    | Other(a: Action<E>)
    | ReadSnapshot(w: WorkerId)
    | ListAndFold(w: WorkerId)
    | Handle(w: WorkerId)
    | Ack(w: WorkerId)
    | Terminate(w: WorkerId)

  function InitialPm<S, E>(log: seq<E>): PmSystem<S, E> {
    PmSystem(Initial(log), map[], map[], Origins(map[], map[], {}))
  }

  function StageOf<S, E>(s: PmSystem<S, E>, w: WorkerId): Stage<S> {
    if w in s.stages then s.stages[w] else Unloaded
  }

  /** The events worker `w`'s loaded or staged state is made of. */
  function SeenBy<E>(o: Origins<E>, w: WorkerId): seq<E> {
    if w in o.stages then o.stages[w] else []
  }

  /** The events the snapshot of partition `p` is made of. */
  function OriginOf<E>(o: Origins<E>, p: Partition): seq<E> {
    if p in o.snaps then o.snaps[p] else []
  }

  function ModuleOf<S, E>(cfg: PmConfig<S, E>, w: WorkerId): Module<S, E> {
    cfg.modules(cfg.tagOf(w))
  }

  predicate IsDone(rows: map<Key, RowState>, p: Partition, n: nat) {
    Key(p, n) in rows && rows[Key(p, n)].Done?
  }

  /** `m.apply` folded over the partition's done events up to number `n`, in event order. */
  function FoldDone<S, E>(m: Module<S, E>, log: seq<E>, rows: map<Key, RowState>, p: Partition, n: nat): S {
    if n == 0 then m.initial
    else
      var before := FoldDone(m, log, rows, p, n - 1);
      if n <= |log| && IsDone(rows, p, n) then m.apply(before, log[n - 1]) else before
  }

  /** The events `list_pm_rebuild_events` returns for an inclusive bound `n`, in event order. */
  function DoneEvents<E>(log: seq<E>, rows: map<Key, RowState>, p: Partition, n: nat): seq<E> {
    if n == 0 then []
    else
      var before := DoneEvents(log, rows, p, n - 1);
      if n <= |log| && IsDone(rows, p, n) then before + [log[n - 1]] else before
  }

  /** The bound that leaves event number `n` itself out. */
  function Below(n: nat): nat { if n == 0 then 0 else n - 1 }

  /** The events a rebuild for `key` folds: those done in its partition strictly below it. */
  function Prior<E>(log: seq<E>, rows: map<Key, RowState>, key: Key): seq<E> {
    DoneEvents(log, rows, key.partition, Below(key.event))
  }

  /** Queue actions that a process-manager worker takes only together with its own state moves. */
  predicate Reserved<E>(a: Action<E>) {
    a.HandlerReturns? || a.CompleteItem? || a.TerminateInstance?
  }

  predicate EndsRound<E>(a: Action<E>) {
    a.ClaimItem? || a.DropItem? || a.FailItem? || a.HandlerThrows?
  }

  /** A reset takes the rows and leaves every snapshot behind. */
  function DoPm<S, E>(cfg: PmConfig<S, E>, s: PmSystem<S, E>, a: PmAction<E>): PmSystem<S, E> {
    match a
    case Other(q) =>
      if Reserved(q) then s
      else
        var stages := if EndsRound(q) then s.stages[q.w := Unloaded] else s.stages;
        var origins := if Resets(q) then s.origins.(leftover := s.snaps.Keys) else s.origins;
        s.(sys := Do(cfg.queue, s.sys, q), stages := stages, origins := origins)
    case ReadSnapshot(w) => DoReadSnapshot(cfg, s, w)
    case ListAndFold(w) =>
      (match StageOf(s, w)
       case Missed(key) =>
         // list_pm_rebuild_events: done rows strictly below the claimed event
         var base := FoldDone(ModuleOf(cfg, w), s.sys.log, s.sys.queue.rows, key.partition, Below(key.event));
         SetStage(s, w, Loaded(key, base), Prior(s.sys.log, s.sys.queue.rows, key))
       case _ => s)
    case Handle(w) => DoHandle(cfg, s, w)
    case Ack(w) => DoAck(cfg, s, w)
    case Terminate(w) => DoTerminatePm(cfg, s, w)
  }

  function SetStage<S, E>(s: PmSystem<S, E>, w: WorkerId, stage: Stage<S>, seen: seq<E>): PmSystem<S, E> {
    s.(stages := s.stages[w := stage], origins := s.origins.(stages := s.origins.stages[w := seen]))
  }

  /** First half of `loadState`: a snapshot counts only when its tag equals the worker's, both absent included. */
  function DoReadSnapshot<S, E>(cfg: PmConfig<S, E>, s: PmSystem<S, E>, w: WorkerId): PmSystem<S, E> {
    match ProcOf(s.sys, w)
    case Working(key, _) =>
      if key.partition in s.snaps && s.snaps[key.partition].tag == cfg.tagOf(w)
      then SetStage(s, w, Loaded(key, s.snaps[key.partition].data), OriginOf(s.origins, key.partition))
      else SetStage(s, w, Missed(key), [])
    case _ => s
  }

  /** `apply` on the claimed event, then a `handle` that returns. */
  function DoHandle<S, E>(cfg: PmConfig<S, E>, s: PmSystem<S, E>, w: WorkerId): PmSystem<S, E> {
    match StageOf(s, w)
    case Loaded(key, base) =>
      if ProcOf(s.sys, w).Working? && ProcOf(s.sys, w).key == key && 1 <= key.event <= |s.sys.log| then
        var event := s.sys.log[key.event - 1];
        SetStage(s, w, Staged(key, ModuleOf(cfg, w).apply(base, event)), SeenBy(s.origins, w) + [event])
          .(sys := Do(cfg.queue, s.sys, HandlerReturns(w)))
      else s
    case _ => s
  }

  /** `completeWorkItemPm`: the row becomes done and the snapshot is replaced, or neither. */
  function DoAck<S, E>(cfg: PmConfig<S, E>, s: PmSystem<S, E>, w: WorkerId): PmSystem<S, E> {
    match StageOf(s, w)
    case Staged(key, state) =>
      if ProcOf(s.sys, w).Returned? && ProcOf(s.sys, w).key == key then
        var t := s.(sys := Do(cfg.queue, s.sys, CompleteItem(w)), stages := s.stages[w := Unloaded]);
        if s.sys.queue.sub.Some? && ClaimedBy(s.sys.queue.rows, key, w)
        then t.(snaps := s.snaps[key.partition := Snapshot(cfg.tagOf(w), key.event, state)],
                origins := Replaced(s.origins, key.partition, SeenBy(s.origins, w)))
        else t
      else s
    case _ => s
  }

  /** `completePmInstance`: every row and the snapshot of the partition go, whoever holds them. */
  function DoTerminatePm<S, E>(cfg: PmConfig<S, E>, s: PmSystem<S, E>, w: WorkerId): PmSystem<S, E> {
    match StageOf(s, w)
    case Staged(key, state) =>
      if ProcOf(s.sys, w).Returned? && ProcOf(s.sys, w).key == key then
        var t := s.(sys := Do(cfg.queue, s.sys, TerminateInstance(w)), stages := s.stages[w := Unloaded]);
        if s.sys.queue.sub.Some? then t.(snaps := s.snaps - {key.partition}, origins := Dropped(s.origins, key.partition)) else t
      else s
    case _ => s
  }

  /** The snapshot of `p` is written anew, from `events`. */
  function Replaced<E>(o: Origins<E>, p: Partition, events: seq<E>): Origins<E> {
    o.(snaps := o.snaps[p := events], leftover := o.leftover - {p})
  }

  function Dropped<E>(o: Origins<E>, p: Partition): Origins<E> {
    o.(snaps := o.snaps - {p}, leftover := o.leftover - {p})
  }

  function ExecPm<S, E>(cfg: PmConfig<S, E>, s: PmSystem<S, E>, run: seq<PmAction<E>>): PmSystem<S, E>
    decreases |run|
  {
    if run == [] then s else DoPm(cfg, ExecPm(cfg, s, run[..|run| - 1]), run[|run| - 1])
  }

  // ---------------------------------------------------------------- the invariant

  ghost predicate EndsWith<E>(a: seq<E>, b: seq<E>) {
    |b| <= |a| && a[|a| - |b|..] == b
  }

  /** `events` ends with `done`, and in a safe run is nothing else. */
  ghost predicate MadeOf<E>(events: seq<E>, done: seq<E>, safe: bool) {
    EndsWith(events, done) && (safe ==> events == done)
  }

  /** `n` is the last done event of `p`. */
  ghost predicate LastDone(rows: map<Key, RowState>, p: Partition, n: nat) {
    IsDone(rows, p, n) && forall i: nat | IsDone(rows, p, i) :: i <= n
  }

  ghost predicate NothingDone(rows: map<Key, RowState>, p: Partition) {
    forall i: nat :: !IsDone(rows, p, i)
  }

  /**
   A snapshot is the fold of its origin.  Nothing is done in its partition since a reset left it
   behind; otherwise the origin ends with all that is done, up to the snapshot's version.
   */
  ghost predicate SnapshotFits<S, E>(cfg: PmConfig<S, E>, log: seq<E>, rows: map<Key, RowState>, p: Partition,
                                     snap: Snapshot<S>, o: Origins<E>, safe: bool) {
    && OriginOf(o, p) != [] && snap.data == Fold(cfg.modules(snap.tag), OriginOf(o, p))
    && if p in o.leftover then NothingDone(rows, p)
       else LastDone(rows, p, snap.version) && MadeOf(OriginOf(o, p), DoneEvents(log, rows, p, |log|), safe)
  }

  /** While `w` holds the item, its state is the fold of what it saw, which ends with what is done below the item. */
  ghost predicate StageFits<S, E>(cfg: PmConfig<S, E>, log: seq<E>, rows: map<Key, RowState>, w: WorkerId,
                                  stage: Stage<S>, seen: seq<E>, safe: bool) {
    (stage.Loaded? || stage.Staged?) && ClaimedBy(rows, stage.key, w) ==>
      && 1 <= stage.key.event <= |log|
      && (stage.Loaded? ==> stage.base == Fold(ModuleOf(cfg, w), seen) && MadeOf(seen, Prior(log, rows, stage.key), safe))
      && (stage.Staged? ==>
            && stage.state == Fold(ModuleOf(cfg, w), seen)
            && MadeOf(seen, Prior(log, rows, stage.key) + [log[stage.key.event - 1]], safe))
  }

  /** The invariant of every run, and with `safe` of every run in which nobody is misled by a leftover. */
  ghost predicate StateInv<S, E>(cfg: PmConfig<S, E>, log: seq<E>, rows: map<Key, RowState>,
                                 snaps: map<Partition, Snapshot<S>>, stages: map<WorkerId, Stage<S>>, o: Origins<E>, safe: bool) {
    && (forall p | p in snaps :: SnapshotFits(cfg, log, rows, p, snaps[p], o, safe))
    && (forall w | w in stages :: StageFits(cfg, log, rows, w, stages[w], SeenBy(o, w), safe))
  }

  ghost predicate StateOk<S, E>(cfg: PmConfig<S, E>, s: PmSystem<S, E>, safe: bool) {
    StateInv(cfg, s.sys.log, s.sys.queue.rows, s.snaps, s.stages, s.origins, safe)
  }

  ghost predicate PmInv<S, E>(cfg: PmConfig<S, E>, s: PmSystem<S, E>, safe: bool) {
    cfg.queue.kind == ProcessManager && Inv(cfg.queue, s.sys) && StateOk(cfg, s, safe)
  }

  /** A snapshot from before the last reset carries the tag of a worker that would load it. */
  predicate LeftoverFor<S, E>(cfg: PmConfig<S, E>, s: PmSystem<S, E>, w: WorkerId, p: Partition) {
    p in s.origins.leftover && p in s.snaps && s.snaps[p].tag == cfg.tagOf(w)
  }

  /** The step looks for a snapshot on behalf of the worker that holds the item. */
  predicate LoadsFor<S, E>(s: PmSystem<S, E>, a: PmAction<E>) {
    a.ReadSnapshot? && ProcOf(s.sys, a.w).Working? && ClaimedBy(s.sys.queue.rows, ProcOf(s.sys, a.w).key, a.w)
  }

  /** No worker that holds an item loads a leftover of its own module version; resets are unrestricted. */
  predicate SafeStep<S, E>(cfg: PmConfig<S, E>, s: PmSystem<S, E>, a: PmAction<E>) {
    LoadsFor(s, a) ==> !LeftoverFor(cfg, s, a.w, ProcOf(s.sys, a.w).key.partition)
  }

  // ---------------------------------------------------------------- done events

  lemma {:induction false} DoneCongruent<E>(log: seq<E>, log': seq<E>, rows: map<Key, RowState>, rows': map<Key, RowState>,
                                            p: Partition, n: nat)
    requires n <= |log| <= |log'| && log == log'[..|log|]
    requires forall i: nat | i <= n :: IsDone(rows', p, i) == IsDone(rows, p, i)
    ensures DoneEvents(log', rows', p, n) == DoneEvents(log, rows, p, n)
  {
    if n != 0 {
      DoneCongruent(log, log', rows, rows', p, n - 1);
    }
  }

  lemma {:induction false} DoneStops<E>(log: seq<E>, rows: map<Key, RowState>, p: Partition, lo: nat, hi: nat)
    requires lo <= hi && forall i: nat | lo < i <= hi :: !IsDone(rows, p, i)
    ensures DoneEvents(log, rows, p, hi) == DoneEvents(log, rows, p, lo)
    decreases hi
  {
    if lo < hi {
      DoneStops(log, rows, p, lo, hi - 1);
    }
  }

  lemma {:induction false} FoldDoneIsFold<S, E>(m: Module<S, E>, log: seq<E>, rows: map<Key, RowState>, p: Partition, n: nat)
    ensures FoldDone(m, log, rows, p, n) == Fold(m, DoneEvents(log, rows, p, n))
  {
    if n != 0 {
      FoldDoneIsFold(m, log, rows, p, n - 1);
      if n <= |log| && IsDone(rows, p, n) {
        FoldSnoc(m, DoneEvents(log, rows, p, n - 1), log[n - 1]);
      }
    }
  }

  /** `numbers` are the numbers, in order, of `events`: the events of the log whose rows in `p` are done, up to `n`. */
  ghost predicate AreDone<E>(log: seq<E>, rows: map<Key, RowState>, p: Partition, n: nat, events: seq<E>, numbers: seq<nat>) {
    && |numbers| == |events|
    && (forall i | 0 <= i < |numbers| :: 1 <= numbers[i] <= n && numbers[i] <= |log| && events[i] == log[numbers[i] - 1])
    && (forall i, j | 0 <= i < j < |numbers| :: numbers[i] < numbers[j])
    && forall m: nat :: m in numbers <==> 1 <= m <= n && m <= |log| && Key(p, m) in rows && rows[Key(p, m)] == Done
  }

  lemma {:induction false} DoneEventsAreDone<E>(log: seq<E>, rows: map<Key, RowState>, p: Partition, n: nat) returns (numbers: seq<nat>)
    ensures AreDone(log, rows, p, n, DoneEvents(log, rows, p, n), numbers)
  {
    numbers := [];
    if n != 0 {
      numbers := DoneEventsAreDone(log, rows, p, n - 1);
      if n <= |log| && IsDone(rows, p, n) {
        numbers := numbers + [n];
      }
    }
  }

  /** What a rebuild folds for `key`: the events done in its partition strictly below it, each once and in order. */
  lemma PriorIsExactly<E>(log: seq<E>, rows: map<Key, RowState>, key: Key) returns (numbers: seq<nat>)
    requires key.event >= 1
    ensures AreDone(log, rows, key.partition, key.event - 1, Prior(log, rows, key), numbers)
  {
    numbers := DoneEventsAreDone(log, rows, key.partition, key.event - 1);
  }

  /** The row a worker holds is the first of its partition that is not done. */
  lemma ClaimedIsFrontier(rows: map<Key, RowState>, key: Key, w: WorkerId)
    requires Serial(rows) && ClaimedBy(rows, key, w)
    ensures forall n: nat | n >= key.event :: !IsDone(rows, key.partition, n)
  {
    forall n: nat | n >= key.event ensures !IsDone(rows, key.partition, n) {
      if n == key.event {
        assert Key(key.partition, n) == key;
      }
    }
  }

  /** So all that is done in its partition is done below it. */
  lemma PriorIsAll<E>(log: seq<E>, rows: map<Key, RowState>, key: Key, w: WorkerId)
    requires QueueFacts(log, rows) && ClaimedBy(rows, key, w)
    ensures Prior(log, rows, key) == DoneEvents(log, rows, key.partition, |log|)
  {
    ClaimedIsFrontier(rows, key, w);
    DoneStops(log, rows, key.partition, Below(key.event), |log|);
  }

  lemma EndsWithMore<E>(a: seq<E>, b: seq<E>, e: E)
    requires EndsWith(a, b)
    ensures EndsWith(a + [e], b + [e])
  {
    assert (a + [e])[|a| - |b|..] == a[|a| - |b|..] + [e];
  }

  // ---------------------------------------------------------------- preservation

  ghost predicate SameDone(rows: map<Key, RowState>, rows': map<Key, RowState>) {
    forall p, n: nat :: IsDone(rows', p, n) == IsDone(rows, p, n)
  }

  lemma SnapshotStays<S, E>(cfg: PmConfig<S, E>, log: seq<E>, log': seq<E>, rows: map<Key, RowState>, rows': map<Key, RowState>,
                            p: Partition, snap: Snapshot<S>, o: Origins<E>, o': Origins<E>, safe: bool)
    requires SnapshotFits(cfg, log, rows, p, snap, o, safe) && QueueFacts(log, rows)
    requires |log| <= |log'| && log == log'[..|log|]
    requires forall n: nat :: IsDone(rows', p, n) == IsDone(rows, p, n)
    requires OriginOf(o', p) == OriginOf(o, p) && (p in o'.leftover <==> p in o.leftover)
    ensures SnapshotFits(cfg, log', rows', p, snap, o', safe)
  {
    if p !in o.leftover {
      DoneCongruent(log, log', rows, rows', p, |log|);
      forall n: nat | n > |log| ensures !IsDone(rows', p, n) {
        assert !IsDone(rows, p, n);
      }
      DoneStops(log', rows', p, |log|, |log'|);
    }
  }

  lemma StageStays<S, E>(cfg: PmConfig<S, E>, log: seq<E>, log': seq<E>, rows: map<Key, RowState>, rows': map<Key, RowState>,
                         w: WorkerId, stage: Stage<S>, seen: seq<E>, safe: bool)
    requires StageFits(cfg, log, rows, w, stage, seen, safe)
    requires |log| <= |log'| && log == log'[..|log|]
    requires !stage.Unloaded? && ClaimedBy(rows', stage.key, w) ==>
      && ClaimedBy(rows, stage.key, w)
      && forall n: nat :: IsDone(rows', stage.key.partition, n) == IsDone(rows, stage.key.partition, n)
    ensures StageFits(cfg, log', rows', w, stage, seen, safe)
  {
    if (stage.Loaded? || stage.Staged?) && ClaimedBy(rows', stage.key, w) {
      DoneCongruent(log, log', rows, rows', stage.key.partition, Below(stage.key.event));
    }
  }

  /** Queue actions outside the ack and the termination change no done row and give no claim silently. */
  lemma OtherActionFrame<E>(cfg: Config<E>, s: System<E>, a: Action<E>)
    requires !Reserved(a) && !Resets(a)
    ensures var t := Do(cfg, s, a); SameDone(s.queue.rows, t.queue.rows)
    ensures var t := Do(cfg, s, a); |s.log| <= |t.log| && s.log == t.log[..|s.log|]
    ensures forall k, w | ClaimedBy(Do(cfg, s, a).queue.rows, k, w) && !(a.ClaimItem? && a.w == w) :: ClaimedBy(s.queue.rows, k, w)
  {
  }

  lemma OtherKeepsState<S, E>(cfg: PmConfig<S, E>, s: PmSystem<S, E>, a: Action<E>, safe: bool)
    requires StateOk(cfg, s, safe) && QueueFacts(s.sys.log, s.sys.queue.rows) && !Reserved(a) && !Resets(a)
    ensures StateOk(cfg, DoPm(cfg, s, Other(a)), safe)
  {
    OtherActionFrame(cfg.queue, s.sys, a);
    OtherStateStays(cfg, s, DoPm(cfg, s, Other(a)), a, safe);
  }

  lemma OtherStateStays<S, E>(cfg: PmConfig<S, E>, s: PmSystem<S, E>, t: PmSystem<S, E>, a: Action<E>, safe: bool)
    requires StateOk(cfg, s, safe) && QueueFacts(s.sys.log, s.sys.queue.rows)
    requires SameDone(s.sys.queue.rows, t.sys.queue.rows)
    requires |s.sys.log| <= |t.sys.log| && s.sys.log == t.sys.log[..|s.sys.log|]
    requires forall k, w | ClaimedBy(t.sys.queue.rows, k, w) && !(a.ClaimItem? && a.w == w) :: ClaimedBy(s.sys.queue.rows, k, w)
    requires t.snaps == s.snaps && t.origins == s.origins && t.stages == if EndsRound(a) then s.stages[a.w := Unloaded] else s.stages
    ensures StateOk(cfg, t, safe)
  {
    forall p | p in t.snaps ensures SnapshotFits(cfg, t.sys.log, t.sys.queue.rows, p, t.snaps[p], t.origins, safe) {
      SnapshotStays(cfg, s.sys.log, t.sys.log, s.sys.queue.rows, t.sys.queue.rows, p, s.snaps[p], s.origins, t.origins, safe);
    }
    forall w | w in t.stages ensures StageFits(cfg, t.sys.log, t.sys.queue.rows, w, t.stages[w], SeenBy(t.origins, w), safe) {
      if t.stages[w] != Unloaded {
        StageStays(cfg, s.sys.log, t.sys.log, s.sys.queue.rows, t.sys.queue.rows, w, s.stages[w], SeenBy(s.origins, w), safe);
      }
    }
  }

  /** What the state layer needs to know of the queue. */
  ghost predicate QueueFacts<E>(log: seq<E>, rows: map<Key, RowState>) {
    Serial(rows) && forall k | k in rows :: 1 <= k.event <= |log|
  }

  lemma InvGivesFacts<E>(cfg: Config<E>, s: System<E>)
    requires Inv(cfg, s)
    ensures QueueFacts(s.log, s.queue.rows)
    ensures s.queue.sub.None? ==> s.queue.rows == map[]
  {
  }

  /** What the worker that holds the item loads from a snapshot of its own version. */
  lemma SnapshotGivesStage<S, E>(cfg: PmConfig<S, E>, s: PmSystem<S, E>, w: WorkerId, key: Key, safe: bool)
    requires StateOk(cfg, s, safe) && QueueFacts(s.sys.log, s.sys.queue.rows) && ClaimedBy(s.sys.queue.rows, key, w)
    requires key.partition in s.snaps && s.snaps[key.partition].tag == cfg.tagOf(w)
    ensures OriginOf(s.origins, key.partition) != []
    ensures s.snaps[key.partition].data == Fold(ModuleOf(cfg, w), OriginOf(s.origins, key.partition))
    ensures MadeOf(OriginOf(s.origins, key.partition), Prior(s.sys.log, s.sys.queue.rows, key), safe && !LeftoverFor(cfg, s, w, key.partition))
    ensures LeftoverFor(cfg, s, w, key.partition) ==> Prior(s.sys.log, s.sys.queue.rows, key) == []
  {
    var p := key.partition;
    assert SnapshotFits(cfg, s.sys.log, s.sys.queue.rows, p, s.snaps[p], s.origins, safe);
    PriorIsAll(s.sys.log, s.sys.queue.rows, key, w);
    if p in s.origins.leftover {
      DoneStops(s.sys.log, s.sys.queue.rows, p, 0, Below(key.event));
    }
  }

  lemma StagePlaced<S, E>(cfg: PmConfig<S, E>, s: PmSystem<S, E>, w: WorkerId, stage: Stage<S>, seen: seq<E>, safe: bool)
    requires StateOk(cfg, s, safe)
    requires StageFits(cfg, s.sys.log, s.sys.queue.rows, w, stage, seen, safe)
    ensures StateOk(cfg, SetStage(s, w, stage, seen), safe)
  {
    var t := SetStage(s, w, stage, seen);
    forall v | v in t.stages ensures StageFits(cfg, t.sys.log, t.sys.queue.rows, v, t.stages[v], SeenBy(t.origins, v), safe) {
      if v != w {
        assert StageFits(cfg, s.sys.log, s.sys.queue.rows, v, s.stages[v], SeenBy(s.origins, v), safe);
      }
    }
    forall p | p in t.snaps ensures SnapshotFits(cfg, t.sys.log, t.sys.queue.rows, p, t.snaps[p], t.origins, safe) {
      assert SnapshotFits(cfg, s.sys.log, s.sys.queue.rows, p, s.snaps[p], s.origins, safe);
    }
  }

  lemma ReadKeepsState<S, E>(cfg: PmConfig<S, E>, s: PmSystem<S, E>, w: WorkerId, safe: bool)
    requires StateOk(cfg, s, safe) && QueueFacts(s.sys.log, s.sys.queue.rows) && (safe ==> SafeStep(cfg, s, ReadSnapshot(w)))
    ensures StateOk(cfg, DoPm(cfg, s, ReadSnapshot(w)), safe)
  {
    if ProcOf(s.sys, w).Working? {
      var key := ProcOf(s.sys, w).key;
      if key.partition in s.snaps && s.snaps[key.partition].tag == cfg.tagOf(w) {
        if ClaimedBy(s.sys.queue.rows, key, w) {
          SnapshotGivesStage(cfg, s, w, key, safe);
        }
        StagePlaced(cfg, s, w, Loaded(key, s.snaps[key.partition].data), OriginOf(s.origins, key.partition), safe);
      } else {
        StagePlaced(cfg, s, w, Missed(key), [], safe);
      }
    }
  }

  lemma FoldKeepsState<S, E>(cfg: PmConfig<S, E>, s: PmSystem<S, E>, w: WorkerId, safe: bool)
    requires StateOk(cfg, s, safe) && QueueFacts(s.sys.log, s.sys.queue.rows)
    ensures StateOk(cfg, DoPm(cfg, s, ListAndFold(w)), safe)
  {
    var stage := StageOf(s, w);
    if stage.Missed? {
      var key, log, rows := stage.key, s.sys.log, s.sys.queue.rows;
      FoldDoneIsFold(ModuleOf(cfg, w), log, rows, key.partition, Below(key.event));
      var base := FoldDone(ModuleOf(cfg, w), log, rows, key.partition, Below(key.event));
      StagePlaced(cfg, s, w, Loaded(key, base), Prior(log, rows, key), safe);
    }
  }

  /** What a handler that returns leaves: the queue's tables as they were, the event applied and seen. */
  lemma HandleFrame<S, E>(cfg: PmConfig<S, E>, s: PmSystem<S, E>, w: WorkerId)
    ensures var t := DoPm(cfg, s, Handle(w)); var stage := StageOf(s, w);
      || t == s
      || (stage.Loaded? && 1 <= stage.key.event <= |s.sys.log|
          && var event := s.sys.log[stage.key.event - 1];
             && t.sys.log == s.sys.log && t.sys.queue == s.sys.queue
             && t.(sys := s.sys) == SetStage(s, w, Staged(stage.key, ModuleOf(cfg, w).apply(stage.base, event)), SeenBy(s.origins, w) + [event]))
  {
  }

  lemma HandledFits<S, E>(cfg: PmConfig<S, E>, log: seq<E>, rows: map<Key, RowState>, w: WorkerId, key: Key, base: S, seen: seq<E>, safe: bool)
    requires StageFits(cfg, log, rows, w, Loaded(key, base), seen, safe) && 1 <= key.event <= |log|
    ensures var event := log[key.event - 1];
      StageFits(cfg, log, rows, w, Staged(key, ModuleOf(cfg, w).apply(base, event)), seen + [event], safe)
  {
    if ClaimedBy(rows, key, w) {
      FoldSnoc(ModuleOf(cfg, w), seen, log[key.event - 1]);
      EndsWithMore(seen, Prior(log, rows, key), log[key.event - 1]);
    }
  }

  /** The state layer looks at the log and the rows only. */
  lemma SameTables<S, E>(cfg: PmConfig<S, E>, s: PmSystem<S, E>, sys: System<E>, safe: bool)
    requires StateOk(cfg, s, safe) && sys.log == s.sys.log && sys.queue.rows == s.sys.queue.rows
    ensures StateOk(cfg, s.(sys := sys), safe)
  {
  }

  lemma HandleKeepsState<S, E>(cfg: PmConfig<S, E>, s: PmSystem<S, E>, w: WorkerId, safe: bool)
    requires StateOk(cfg, s, safe)
    ensures StateOk(cfg, DoPm(cfg, s, Handle(w)), safe)
  {
    HandleFrame(cfg, s, w);
    var t, stage := DoPm(cfg, s, Handle(w)), StageOf(s, w);
    if t != s {
      var event := s.sys.log[stage.key.event - 1];
      var staged, seen := Staged(stage.key, ModuleOf(cfg, w).apply(stage.base, event)), SeenBy(s.origins, w) + [event];
      assert StageFits(cfg, s.sys.log, s.sys.queue.rows, w, stage, SeenBy(s.origins, w), safe);
      HandledFits(cfg, s.sys.log, s.sys.queue.rows, w, stage.key, stage.base, SeenBy(s.origins, w), safe);
      StagePlaced(cfg, s, w, staged, seen, safe);
      SameTables(cfg, SetStage(s, w, staged, seen), t.sys, safe);
      assert SetStage(s, w, staged, seen).(sys := t.sys) == t;
    }
  }

  /** Done rows of other partitions do not notice what happens to one partition. */
  lemma ElsewhereStays<S, E>(cfg: PmConfig<S, E>, s: PmSystem<S, E>, rows': map<Key, RowState>, o': Origins<E>, p: Partition, safe: bool)
    requires StateOk(cfg, s, safe) && QueueFacts(s.sys.log, s.sys.queue.rows)
    requires forall q, n: nat | q != p :: IsDone(rows', q, n) == IsDone(s.sys.queue.rows, q, n)
    requires forall k, v | ClaimedBy(rows', k, v) :: ClaimedBy(s.sys.queue.rows, k, v) && k.partition != p
    requires forall q | q != p :: OriginOf(o', q) == OriginOf(s.origins, q) && (q in o'.leftover <==> q in s.origins.leftover)
    requires o'.stages == s.origins.stages
    ensures forall q | q in s.snaps && q != p :: SnapshotFits(cfg, s.sys.log, rows', q, s.snaps[q], o', safe)
    ensures forall v | v in s.stages :: StageFits(cfg, s.sys.log, rows', v, s.stages[v], SeenBy(o', v), safe)
  {
    forall q | q in s.snaps && q != p ensures SnapshotFits(cfg, s.sys.log, rows', q, s.snaps[q], o', safe) {
      SnapshotStays(cfg, s.sys.log, s.sys.log, s.sys.queue.rows, rows', q, s.snaps[q], s.origins, o', safe);
    }
    forall v | v in s.stages ensures StageFits(cfg, s.sys.log, rows', v, s.stages[v], SeenBy(o', v), safe) {
      StageStays(cfg, s.sys.log, s.sys.log, s.sys.queue.rows, rows', v, s.stages[v], SeenBy(s.origins, v), safe);
    }
  }

  lemma AckIsLastDone(rows: map<Key, RowState>, rows': map<Key, RowState>, key: Key, w: WorkerId)
    requires Serial(rows) && ClaimedBy(rows, key, w) && rows' == rows[key := Done]
    ensures LastDone(rows', key.partition, key.event)
    ensures forall q, n: nat | q != key.partition :: IsDone(rows', q, n) == IsDone(rows, q, n)
    ensures forall k, v | ClaimedBy(rows', k, v) :: ClaimedBy(rows, k, v) && k.partition != key.partition
  {
    ClaimedIsFrontier(rows, key, w);
    assert Key(key.partition, key.event) == key;
    forall n: nat | IsDone(rows', key.partition, n) ensures n <= key.event {
      assert Key(key.partition, n) != key ==> IsDone(rows, key.partition, n);
    }
  }

  /** The acknowledged event extends what is done by exactly itself. */
  lemma AckExtendsDone<E>(log: seq<E>, rows: map<Key, RowState>, rows': map<Key, RowState>, key: Key, w: WorkerId)
    requires Serial(rows) && ClaimedBy(rows, key, w) && 1 <= key.event <= |log| && rows' == rows[key := Done]
    ensures DoneEvents(log, rows', key.partition, |log|) == Prior(log, rows, key) + [log[key.event - 1]]
  {
    AckIsLastDone(rows, rows', key, w);
    assert Key(key.partition, key.event) == key;
    DoneStops(log, rows', key.partition, key.event, |log|);
    DoneCongruent(log, log, rows, rows', key.partition, key.event - 1);
  }

  /** What an ack does to tables, stages and origins. */
  lemma AckFrame<S, E>(cfg: PmConfig<S, E>, s: PmSystem<S, E>, w: WorkerId)
    requires cfg.queue.kind == ProcessManager
    ensures var t := DoPm(cfg, s, Ack(w)); var stage := StageOf(s, w);
      && t.sys.log == s.sys.log && (t.stages == s.stages || t.stages == s.stages[w := Unloaded])
      && if stage.Staged? && ProcOf(s.sys, w).Returned? && ProcOf(s.sys, w).key == stage.key
            && s.sys.queue.sub.Some? && ClaimedBy(s.sys.queue.rows, stage.key, w)
         then && t.sys.queue.rows == s.sys.queue.rows[stage.key := Done]
              && t.snaps == s.snaps[stage.key.partition := Snapshot(cfg.tagOf(w), stage.key.event, stage.state)]
              && t.origins == Replaced(s.origins, stage.key.partition, SeenBy(s.origins, w))
         else t.sys.queue.rows == s.sys.queue.rows && t.snaps == s.snaps && t.origins == s.origins
  {
  }

  lemma Unload<S, E>(cfg: PmConfig<S, E>, s: PmSystem<S, E>, t: PmSystem<S, E>, w: WorkerId, safe: bool)
    requires StateOk(cfg, s, safe)
    requires t.sys.log == s.sys.log && t.sys.queue.rows == s.sys.queue.rows && t.snaps == s.snaps && t.origins == s.origins
    requires t.stages == s.stages || t.stages == s.stages[w := Unloaded]
    ensures StateOk(cfg, t, safe)
  {
  }

  /** The snapshot an accepted ack writes. */
  lemma AckedFits<S, E>(cfg: PmConfig<S, E>, log: seq<E>, rows: map<Key, RowState>, rows': map<Key, RowState>,
                        w: WorkerId, key: Key, state: S, o: Origins<E>, safe: bool)
    requires StageFits(cfg, log, rows, w, Staged(key, state), SeenBy(o, w), safe)
    requires Serial(rows) && ClaimedBy(rows, key, w) && rows' == rows[key := Done]
    ensures SnapshotFits(cfg, log, rows', key.partition, Snapshot(cfg.tagOf(w), key.event, state),
                         Replaced(o, key.partition, SeenBy(o, w)), safe)
  {
    AckExtendsDone(log, rows, rows', key, w);
    AckIsLastDone(rows, rows', key, w);
  }

  /** One partition's rows and snapshot change, and a worker is done. */
  lemma PartitionChanged<S, E>(cfg: PmConfig<S, E>, s: PmSystem<S, E>, t: PmSystem<S, E>, p: Partition, w: WorkerId, safe: bool)
    requires forall q | q in s.snaps && q != p :: SnapshotFits(cfg, s.sys.log, t.sys.queue.rows, q, s.snaps[q], t.origins, safe)
    requires forall v | v in s.stages :: StageFits(cfg, s.sys.log, t.sys.queue.rows, v, s.stages[v], SeenBy(t.origins, v), safe)
    requires t.sys.log == s.sys.log && (t.stages == s.stages || t.stages == s.stages[w := Unloaded])
    requires forall q | q in t.snaps && q != p :: q in s.snaps && t.snaps[q] == s.snaps[q]
    requires p in t.snaps ==> SnapshotFits(cfg, s.sys.log, t.sys.queue.rows, p, t.snaps[p], t.origins, safe)
    ensures StateOk(cfg, t, safe)
  {
  }

  lemma AckKeepsState<S, E>(cfg: PmConfig<S, E>, s: PmSystem<S, E>, w: WorkerId, safe: bool)
    requires cfg.queue.kind == ProcessManager && QueueFacts(s.sys.log, s.sys.queue.rows) && StateOk(cfg, s, safe)
    ensures StateOk(cfg, DoPm(cfg, s, Ack(w)), safe)
  {
    var t, stage := DoPm(cfg, s, Ack(w)), StageOf(s, w);
    AckFrame(cfg, s, w);
    if t.sys.queue.rows == s.sys.queue.rows && t.snaps == s.snaps && t.origins == s.origins {
      Unload(cfg, s, t, w, safe);
    } else {
      assert StageFits(cfg, s.sys.log, s.sys.queue.rows, w, stage, SeenBy(s.origins, w), safe);
      AckedFits(cfg, s.sys.log, s.sys.queue.rows, t.sys.queue.rows, w, stage.key, stage.state, s.origins, safe);
      AckIsLastDone(s.sys.queue.rows, t.sys.queue.rows, stage.key, w);
      ElsewhereStays(cfg, s, t.sys.queue.rows, t.origins, stage.key.partition, safe);
      PartitionChanged(cfg, s, t, stage.key.partition, w, safe);
    }
  }

  /** What a termination that reaches the store does to tables and stages. */
  lemma TerminateFrame<S, E>(cfg: PmConfig<S, E>, s: PmSystem<S, E>, w: WorkerId)
    requires cfg.queue.kind == ProcessManager
    ensures var t := DoPm(cfg, s, Terminate(w)); var stage := StageOf(s, w);
      && t.sys.log == s.sys.log && (t.stages == s.stages || t.stages == s.stages[w := Unloaded])
      && (|| (t.sys.queue.rows == s.sys.queue.rows && t.snaps == s.snaps && t.origins == s.origins)
          || (stage.Staged?
              && t.sys.queue.rows == s.sys.queue.rows - PartitionRows(s.sys.queue.rows, stage.key.partition)
              && t.snaps == s.snaps - {stage.key.partition} && t.origins == Dropped(s.origins, stage.key.partition)))
  {
  }

  lemma TerminateKeepsState<S, E>(cfg: PmConfig<S, E>, s: PmSystem<S, E>, w: WorkerId, safe: bool)
    requires cfg.queue.kind == ProcessManager && QueueFacts(s.sys.log, s.sys.queue.rows) && StateOk(cfg, s, safe)
    ensures StateOk(cfg, DoPm(cfg, s, Terminate(w)), safe)
  {
    var t, stage := DoPm(cfg, s, Terminate(w)), StageOf(s, w);
    TerminateFrame(cfg, s, w);
    if t.sys.queue.rows == s.sys.queue.rows && t.snaps == s.snaps && t.origins == s.origins {
      Unload(cfg, s, t, w, safe);
    } else {
      ElsewhereStays(cfg, s, t.sys.queue.rows, t.origins, stage.key.partition, safe);
      PartitionChanged(cfg, s, t, stage.key.partition, w, safe);
    }
  }

  /** The queue run under a process-manager action: at most one queue action. */
  ghost function QueueActions<S, E>(cfg: PmConfig<S, E>, s: PmSystem<S, E>, a: PmAction<E>): seq<Action<E>> {
    if DoPm(cfg, s, a).sys == s.sys then []
    else match a
      case Other(q) => [q]
      case Handle(w) => [HandlerReturns(w)]
      case Ack(w) => [CompleteItem(w)]
      case Terminate(w) => [TerminateInstance(w)]
      case _ => []
  }

  lemma PmActionRefinesQueue<S, E>(cfg: PmConfig<S, E>, s: PmSystem<S, E>, a: PmAction<E>)
    ensures DoPm(cfg, s, a).sys == Exec(cfg.queue, s.sys, QueueActions(cfg, s, a))
  {
    var run := QueueActions(cfg, s, a);
    if run != [] {
      assert run[..0] == [];
    }
  }

  /** A reset empties the queue and turns every snapshot into a leftover. */
  lemma ResetKeepsState<S, E>(cfg: PmConfig<S, E>, s: PmSystem<S, E>, a: Action<E>, safe: bool)
    requires StateOk(cfg, s, safe) && Resets(a) && (s.sys.queue.sub.None? ==> s.sys.queue.rows == map[])
    ensures StateOk(cfg, DoPm(cfg, s, Other(a)), safe) && DoPm(cfg, s, Other(a)).sys.queue.rows == map[]
  {
    var t := DoPm(cfg, s, Other(a));
    assert t.sys.queue.rows == map[];
    forall p | p in t.snaps ensures SnapshotFits(cfg, t.sys.log, t.sys.queue.rows, p, t.snaps[p], t.origins, safe) {
      assert SnapshotFits(cfg, s.sys.log, s.sys.queue.rows, p, s.snaps[p], s.origins, safe);
    }
  }

  /** Every action keeps the invariant of all runs, and a safe one that of safe runs. */
  lemma PmStepKeepsInv<S, E>(cfg: PmConfig<S, E>, s: PmSystem<S, E>, a: PmAction<E>, safe: bool)
    requires PmInv(cfg, s, safe) && (safe ==> SafeStep(cfg, s, a))
    ensures PmInv(cfg, DoPm(cfg, s, a), safe)
  {
    PmActionRefinesQueue(cfg, s, a);
    RunKeepsInv(cfg.queue, s.sys, QueueActions(cfg, s, a));
    InvGivesFacts(cfg.queue, s.sys);
    match a
    case Other(q) =>
      if Reserved(q) {
      } else if Resets(q) {
        ResetKeepsState(cfg, s, q, safe);
      } else {
        OtherKeepsState(cfg, s, q, safe);
      }
    case ReadSnapshot(w) => ReadKeepsState(cfg, s, w, safe);
    case ListAndFold(w) => FoldKeepsState(cfg, s, w, safe);
    case Handle(w) => HandleKeepsState(cfg, s, w, safe);
    case Ack(w) => AckKeepsState(cfg, s, w, safe);
    case Terminate(w) => TerminateKeepsState(cfg, s, w, safe);
  }

  // ---------------------------------------------------------------- what every run guarantees

  /** `s` is reached from an arbitrary log with no subscription yet. */
  ghost predicate ReachedPm<S, E>(cfg: PmConfig<S, E>, log: seq<E>, run: seq<PmAction<E>>, s: PmSystem<S, E>) {
    cfg.queue.kind == ProcessManager && s == ExecPm(cfg, InitialPm(log), run)
  }

  /** Every step of the run is safe. */
  predicate SafeRun<S, E>(cfg: PmConfig<S, E>, s: PmSystem<S, E>, run: seq<PmAction<E>>)
    decreases |run|
  {
    run != [] ==>
      var before := run[..|run| - 1];
      SafeRun(cfg, s, before) && SafeStep(cfg, ExecPm(cfg, s, before), run[|run| - 1])
  }

  lemma {:induction false} PmRunKeepsInv<S, E>(cfg: PmConfig<S, E>, s: PmSystem<S, E>, run: seq<PmAction<E>>, safe: bool)
    requires PmInv(cfg, s, safe) && (safe ==> SafeRun(cfg, s, run))
    ensures PmInv(cfg, ExecPm(cfg, s, run), safe)
    decreases |run|
  {
    if run != [] {
      var before := run[..|run| - 1];
      PmRunKeepsInv(cfg, s, before, safe);
      PmStepKeepsInv(cfg, ExecPm(cfg, s, before), run[|run| - 1], safe);
    }
  }

  lemma PmReached<S, E>(cfg: PmConfig<S, E>, log: seq<E>, run: seq<PmAction<E>>, s: PmSystem<S, E>, safe: bool)
    requires ReachedPm(cfg, log, run, s) && (safe ==> SafeRun(cfg, InitialPm(log), run))
    ensures PmInv(cfg, s, safe)
  {
    InitialInv(cfg.queue, log);
    PmRunKeepsInv(cfg, InitialPm(log), run, safe);
  }

  lemma SnapshotOfRun<S, E>(cfg: PmConfig<S, E>, log: seq<E>, run: seq<PmAction<E>>, s: PmSystem<S, E>, p: Partition, safe: bool)
    requires ReachedPm(cfg, log, run, s) && (safe ==> SafeRun(cfg, InitialPm(log), run)) && p in s.snaps
    ensures SnapshotFits(cfg, s.sys.log, s.sys.queue.rows, p, s.snaps[p], s.origins, safe)
  {
    PmReached(cfg, log, run, s, safe);
  }

  lemma StageOfRun<S, E>(cfg: PmConfig<S, E>, log: seq<E>, run: seq<PmAction<E>>, s: PmSystem<S, E>, w: WorkerId, safe: bool)
    requires ReachedPm(cfg, log, run, s) && (safe ==> SafeRun(cfg, InitialPm(log), run))
    ensures StageFits(cfg, s.sys.log, s.sys.queue.rows, w, StageOf(s, w), SeenBy(s.origins, w), safe)
  {
    PmReached(cfg, log, run, s, safe);
  }

  /**
   In every run, with resets and wrong loads anywhere: a snapshot is the fold, by the module that
   wrote it, of its origin.  Unless a reset left it behind, its version is the last done event of
   the partition and the origin ends with the partition's done events in event order.
   */
  lemma SnapshotIsFoldOfOrigin<S, E>(cfg: PmConfig<S, E>, log: seq<E>, run: seq<PmAction<E>>, s: PmSystem<S, E>, p: Partition)
    requires ReachedPm(cfg, log, run, s) && p in s.snaps
    ensures s.snaps[p].data == Fold(cfg.modules(s.snaps[p].tag), OriginOf(s.origins, p))
    ensures p !in s.origins.leftover ==>
      && LastDone(s.sys.queue.rows, p, s.snaps[p].version)
      && EndsWith(OriginOf(s.origins, p), DoneEvents(s.sys.log, s.sys.queue.rows, p, |s.sys.log|))
  {
    SnapshotOfRun(cfg, log, run, s, p, false);
  }

  /** Where no leftover of the loader's version was loaded, the origin of a newer snapshot is the done events and nothing else. */
  lemma SnapshotIsFoldOfDone<S, E>(cfg: PmConfig<S, E>, log: seq<E>, run: seq<PmAction<E>>, s: PmSystem<S, E>, p: Partition)
    requires ReachedPm(cfg, log, run, s) && SafeRun(cfg, InitialPm(log), run)
    requires p in s.snaps && p !in s.origins.leftover
    ensures s.snaps[p].data == Fold(cfg.modules(s.snaps[p].tag), DoneEvents(s.sys.log, s.sys.queue.rows, p, |s.sys.log|))
    ensures LastDone(s.sys.queue.rows, p, s.snaps[p].version)
  {
    SnapshotOfRun(cfg, log, run, s, p, true);
  }

  /** In such runs `loadState` gives the worker that holds the item one state from the snapshot and from the rebuild. */
  lemma SnapshotLoadEqualsRebuild<S, E>(cfg: PmConfig<S, E>, log: seq<E>, run: seq<PmAction<E>>, s: PmSystem<S, E>,
                                        w: WorkerId, key: Key)
    requires ReachedPm(cfg, log, run, s) && SafeRun(cfg, InitialPm(log), run)
    requires ClaimedBy(s.sys.queue.rows, key, w)
    requires key.partition in s.snaps && s.snaps[key.partition].tag == cfg.tagOf(w)
    requires !LeftoverFor(cfg, s, w, key.partition)
    ensures s.snaps[key.partition].data == Fold(ModuleOf(cfg, w), Prior(s.sys.log, s.sys.queue.rows, key))
  {
    PmReached(cfg, log, run, s, true);
    InvGivesFacts(cfg.queue, s.sys);
    SnapshotGivesStage(cfg, s, w, key, true);
  }

  /** The staged state is the fold of the done events below the staged event, then that event. */
  ghost predicate SawExactFold<S, E>(cfg: PmConfig<S, E>, log: seq<E>, rows: map<Key, RowState>, w: WorkerId, stage: Stage<S>)
    requires stage.Staged?
  {
    && 1 <= stage.key.event <= |log|
    && stage.state == Fold(ModuleOf(cfg, w), Prior(log, rows, stage.key) + [log[stage.key.event - 1]])
  }

  /**
   In every run, a worker whose ack is about to be accepted handled the fold of what it saw, and
   what it saw ends with exactly the done events below its event and then that event.
   */
  lemma AcceptedAckSaw<S, E>(cfg: PmConfig<S, E>, log: seq<E>, run: seq<PmAction<E>>, s: PmSystem<S, E>, w: WorkerId)
    requires ReachedPm(cfg, log, run, s)
    requires StageOf(s, w).Staged? && ClaimedBy(s.sys.queue.rows, StageOf(s, w).key, w)
    ensures var key := StageOf(s, w).key;
      && 1 <= key.event <= |s.sys.log| && StageOf(s, w).state == Fold(ModuleOf(cfg, w), SeenBy(s.origins, w))
      && EndsWith(SeenBy(s.origins, w), Prior(s.sys.log, s.sys.queue.rows, key) + [s.sys.log[key.event - 1]])
  {
    StageOfRun(cfg, log, run, s, w, false);
  }

  /**
   Where no leftover of the loader's version was loaded, it handled exactly those, whatever other
   versions, takeovers, retries and resets happened on the way.
   */
  lemma AcceptedAckSawExactFold<S, E>(cfg: PmConfig<S, E>, log: seq<E>, run: seq<PmAction<E>>, s: PmSystem<S, E>, w: WorkerId)
    requires ReachedPm(cfg, log, run, s) && SafeRun(cfg, InitialPm(log), run)
    requires StageOf(s, w).Staged? && ClaimedBy(s.sys.queue.rows, StageOf(s, w).key, w)
    ensures SawExactFold(cfg, s.sys.log, s.sys.queue.rows, w, StageOf(s, w))
  {
    StageOfRun(cfg, log, run, s, w, true);
  }

  // ---------------------------------------------------------------- deletes and rebuilds

  /** Without deletes and rebuilds there are no leftovers and every run is safe. */
  lemma {:induction false} NoResetsNoLeftovers<S, E>(cfg: PmConfig<S, E>, log: seq<E>, run: seq<PmAction<E>>)
    requires forall a | a in run :: !(a.Other? && Resets(a.a))
    ensures ExecPm(cfg, InitialPm(log), run).origins.leftover == {} && SafeRun(cfg, InitialPm(log), run)
    decreases |run|
  {
    if run != [] {
      assert run[|run| - 1] in run;
      NoResetsNoLeftovers(cfg, log, run[..|run| - 1]);
    }
  }

  /** No worker of the run has a tag that one of the leftovers of `s` carries. */
  ghost predicate NewVersionsOnly<S, E>(cfg: PmConfig<S, E>, s: PmSystem<S, E>, run: seq<PmAction<E>>) {
    forall a, p | a in run && a.ReadSnapshot? :: !LeftoverFor(cfg, s, a.w, p)
  }

  /** Leftovers only go, and are not touched before they go. */
  ghost predicate LeftoversShrink<S, E>(s: PmSystem<S, E>, t: PmSystem<S, E>) {
    forall p | p in t.origins.leftover ::
      p in s.origins.leftover && (p in t.snaps ==> p in s.snaps && t.snaps[p] == s.snaps[p])
  }

  lemma LeftoversShrinkOneStep<S, E>(cfg: PmConfig<S, E>, s: PmSystem<S, E>, a: PmAction<E>)
    requires !(a.Other? && Resets(a.a))
    ensures LeftoversShrink(s, DoPm(cfg, s, a))
  {
  }

  /**
   The ordinary rebuild at a version bump is safe: from any state, a run without further resets
   in which only versions read that no leftover carries loads no leftover.
   */
  lemma {:induction false} VersionBumpIsSafe<S, E>(cfg: PmConfig<S, E>, s: PmSystem<S, E>, run: seq<PmAction<E>>)
    requires NewVersionsOnly(cfg, s, run) && forall a | a in run :: !(a.Other? && Resets(a.a))
    ensures SafeRun(cfg, s, run) && LeftoversShrink(s, ExecPm(cfg, s, run))
    decreases |run|
  {
    if run != [] {
      var before, a := run[..|run| - 1], run[|run| - 1];
      assert a in run;
      VersionBumpIsSafe(cfg, s, before);
      LeftoversShrinkOneStep(cfg, ExecPm(cfg, s, before), a);
      StillNew(cfg, s, run, ExecPm(cfg, s, before), a);
    }
  }

  lemma StillNew<S, E>(cfg: PmConfig<S, E>, s: PmSystem<S, E>, run: seq<PmAction<E>>, t: PmSystem<S, E>, a: PmAction<E>)
    requires NewVersionsOnly(cfg, s, run) && a in run && LeftoversShrink(s, t)
    ensures SafeStep(cfg, t, a)
  {
    if LoadsFor(t, a) {
      assert !LeftoverFor(cfg, s, a.w, ProcOf(t.sys, a.w).key.partition);
    }
  }
}
