/**
 What a delete or rebuild of a process-manager subscription does to state loading.  The reset
 takes the rows and keeps the snapshots; a worker that loads one of its own version mixes the
 events of before the reset into its state, and every acknowledgement hands the mixture on.
 */
module PmResets {
  import opened Wrappers
  import opened Replay
  import opened WorkQueue
  import opened QueueProtocol
  import opened QueueTheorems
  import opened QueueRuns
  import opened ProcessManagerState
  import opened PmSubstrate

  /** What `loadState` returns to `w` for `key`, and what the rebuild would have returned. */
  ghost function LoadOf<S, E>(cfg: PmConfig<S, E>, s: PmSystem<S, E>, w: WorkerId, key: Key): Option<S> {
    LoadSpec(ModuleOf(cfg, w), cfg.tagOf(w), s.sys.log, s.sys.queue.rows, true, s.snaps, key)
  }

  ghost function RebuildOf<S, E>(cfg: PmConfig<S, E>, s: PmSystem<S, E>, w: WorkerId, key: Key): S {
    Fold(ModuleOf(cfg, w), Prior(s.sys.log, s.sys.queue.rows, key))
  }

  /** The partition has a snapshot that `w` would load. */
  predicate Matches<S, E>(cfg: PmConfig<S, E>, s: PmSystem<S, E>, w: WorkerId, p: Partition) {
    p in s.snaps && s.snaps[p].tag == cfg.tagOf(w)
  }

  /** The state of a module that has applied something is never the initial one. */
  ghost predicate Remembers<S, E(!new)>(m: Module<S, E>) {
    forall events: seq<E> | events != [] :: Fold(m, events) != m.initial
  }

  lemma RecordingRemembers<E(!new)>()
    ensures Remembers<seq<E>, E>(Recording())
  {
    forall events: seq<E> | events != [] ensures Fold(Recording(), events) != [] {
      RecordingRecords<E>([], events, |events|);
    }
  }

  /**
   In every state of every run, with resets and wrong loads anywhere: the worker that holds an
   item loads the fold of the snapshot's origin, and this is the rebuild if and only if the origin
   and the events done below the item fold to one state.
   */
  lemma LoadEqualsRebuildIff<S, E>(cfg: PmConfig<S, E>, log: seq<E>, run: seq<PmAction<E>>, s: PmSystem<S, E>, w: WorkerId, key: Key)
    requires ReachedPm(cfg, log, run, s) && ClaimedBy(s.sys.queue.rows, key, w)
    ensures var origin, prior := OriginOf(s.origins, key.partition), Prior(s.sys.log, s.sys.queue.rows, key);
      && (LoadOf(cfg, s, w, key) == Some(RebuildOf(cfg, s, w, key)) <==>
            (Matches(cfg, s, w, key.partition) ==> Fold(ModuleOf(cfg, w), origin) == Fold(ModuleOf(cfg, w), prior)))
      && (Matches(cfg, s, w, key.partition) ==> LoadOf(cfg, s, w, key) == Some(Fold(ModuleOf(cfg, w), origin)) && EndsWith(origin, prior))
  {
    PmReached(cfg, log, run, s, false);
    InvGivesFacts(cfg.queue, s.sys);
    if Matches(cfg, s, w, key.partition) {
      SnapshotGivesStage(cfg, s, w, key, false);
    }
  }

  /** With the module that forgets nothing: if and only if the snapshot is made of the events done below the item. */
  lemma RecordingLoadIff<E>(cfg: PmConfig<seq<E>, E>, log: seq<E>, run: seq<PmAction<E>>, s: PmSystem<seq<E>, E>, w: WorkerId, key: Key)
    requires ReachedPm(cfg, log, run, s) && ClaimedBy(s.sys.queue.rows, key, w) && ModuleOf(cfg, w) == Recording()
    ensures LoadOf(cfg, s, w, key) == Some(RebuildOf(cfg, s, w, key)) <==>
      (Matches(cfg, s, w, key.partition) ==> OriginOf(s.origins, key.partition) == Prior(s.sys.log, s.sys.queue.rows, key))
  {
    var origin, prior := OriginOf(s.origins, key.partition), Prior(s.sys.log, s.sys.queue.rows, key);
    LoadEqualsRebuildIff(cfg, log, run, s, w, key);
    RecordingRecords<E>([], origin, |origin|);
    RecordingRecords<E>([], prior, |prior|);
  }

  // ---------------------------------------------------------------- whole runs

  /** If the step loads state for the worker that holds the item, it loads what the rebuild would give. */
  ghost predicate StepLoadsRebuild<S, E>(cfg: PmConfig<S, E>, s: PmSystem<S, E>, a: PmAction<E>) {
    LoadsFor(s, a) ==>
      LoadOf(cfg, s, a.w, ProcOf(s.sys, a.w).key) == Some(RebuildOf(cfg, s, a.w, ProcOf(s.sys, a.w).key))
  }

  ghost predicate RunLoadsRebuilds<S, E>(cfg: PmConfig<S, E>, s: PmSystem<S, E>, run: seq<PmAction<E>>)
    decreases |run|
  {
    run != [] ==>
      var before := run[..|run| - 1];
      RunLoadsRebuilds(cfg, s, before) && StepLoadsRebuild(cfg, ExecPm(cfg, s, before), run[|run| - 1])
  }

  /** As long as the run has been safe, a load is the rebuild if and only if the step is safe too. */
  lemma StepLoadsIff<S, E(!new)>(cfg: PmConfig<S, E>, s: PmSystem<S, E>, a: PmAction<E>)
    requires PmInv(cfg, s, true)
    ensures SafeStep(cfg, s, a) ==> StepLoadsRebuild(cfg, s, a)
    ensures a.ReadSnapshot? && Remembers(ModuleOf(cfg, a.w)) && StepLoadsRebuild(cfg, s, a) ==> SafeStep(cfg, s, a)
  {
    if LoadsFor(s, a) {
      var key := ProcOf(s.sys, a.w).key;
      InvGivesFacts(cfg.queue, s.sys);
      if Matches(cfg, s, a.w, key.partition) {
        SnapshotGivesStage(cfg, s, a.w, key, true);
      }
    }
  }

  /**
   Over whole runs: every load by a worker that holds its item is the rebuild if no such worker
   loads a leftover of its own version, and with modules that remember only then.
   */
  lemma {:induction false} RunLoadsIffSafe<S, E(!new)>(cfg: PmConfig<S, E>, log: seq<E>, run: seq<PmAction<E>>)
    requires cfg.queue.kind == ProcessManager
    ensures SafeRun(cfg, InitialPm(log), run) ==> RunLoadsRebuilds(cfg, InitialPm(log), run)
    ensures (forall w :: Remembers(ModuleOf(cfg, w))) && RunLoadsRebuilds(cfg, InitialPm(log), run) ==> SafeRun(cfg, InitialPm(log), run)
    decreases |run|
  {
    if run != [] {
      var before := run[..|run| - 1];
      RunLoadsIffSafe(cfg, log, before);
      if SafeRun(cfg, InitialPm(log), before) {
        var s := ExecPm(cfg, InitialPm(log), before);
        PmReached(cfg, log, before, s, true);
        StepLoadsIff(cfg, s, run[|run| - 1]);
      }
    }
  }

  /**
   Right after a reset in any run, for every worker and every key: what is kept is a leftover, the
   load is the rebuild if and only if what is kept folds to the initial state, and with a module
   that remembers if and only if no snapshot of the partition carries the worker's tag.
   */
  lemma ResetLoadsIff<S, E(!new)>(cfg: PmConfig<S, E>, log: seq<E>, run: seq<PmAction<E>>, s: PmSystem<S, E>, a: Action<E>, w: WorkerId, key: Key)
    requires ReachedPm(cfg, log, run, s) && Resets(a)
    ensures var t := DoPm(cfg, s, Other(a));
      var kept, origin := Matches(cfg, s, w, key.partition), OriginOf(s.origins, key.partition);
      && (kept <==> LeftoverFor(cfg, t, w, key.partition)) && (kept ==> origin != [])
      && (LoadOf(cfg, t, w, key) == Some(RebuildOf(cfg, t, w, key)) <==>
            (kept ==> Fold(ModuleOf(cfg, w), origin) == ModuleOf(cfg, w).initial))
      && (Remembers(ModuleOf(cfg, w)) ==> (LoadOf(cfg, t, w, key) == Some(RebuildOf(cfg, t, w, key)) <==> !kept))
  {
    var t, p := DoPm(cfg, s, Other(a)), key.partition;
    PmReached(cfg, log, run, s, false);
    InvGivesFacts(cfg.queue, s.sys);
    ResetKeepsState(cfg, s, a, false);
    DoneStops(t.sys.log, t.sys.queue.rows, p, 0, Below(key.event));
    if Matches(cfg, s, w, p) {
      assert SnapshotFits(cfg, t.sys.log, t.sys.queue.rows, p, t.snaps[p], t.origins, false);
    }
  }

  // ---------------------------------------------------------------- a run that loads wrong states

  const FIRST: Key := Key("p", 1)
  const SECOND: Key := Key("p", 2)
  const LOG: seq<int> := [7, 8]

  /** One partition, workers without a version tag, and the module that forgets nothing. */
  function OnePartition(): PmConfig<seq<int>, int> {
    PmConfig(Config((e: int) => Some("p"), ProcessManager), (w: WorkerId) => None, (t: Tag) => Recording())
  }

  type State = PmSystem<seq<int>, int>

  ghost predicate Reachable(s: State) {
    exists run :: ReachedPm(OnePartition(), LOG, run, s)
  }

  lemma Then(s: State, a: PmAction<int>) returns (t: State)
    requires Reachable(s)
    ensures Reachable(t) && t == DoPm(OnePartition(), s, a)
  {
    var run :| ReachedPm(OnePartition(), LOG, run, s);
    t := DoPm(OnePartition(), s, a);
    assert (run + [a])[..|run + [a]| - 1] == run;
    assert ReachedPm(OnePartition(), LOG, run + [a], t);
  }

  /** The table contents a stretch of the run leaves behind. */
  ghost predicate Looks(s: State, rows: map<Key, RowState>, snaps: map<Partition, Snapshot<seq<int>>>) {
    s.sys.log == LOG && s.sys.queue.rows == rows && s.snaps == snaps
  }

  /** The worker holds item `k` and nothing is loaded yet. */
  ghost predicate Holds(s: State, k: Key) {
    && s.sys.log == LOG && s.sys.queue.sub.Some? && ClaimedBy(s.sys.queue.rows, k, "w")
    && ProcOf(s.sys, "w") == Working(k, s.sys.hist.epoch)
  }

  lemma ThenRouter(s: State, q: Action<int>) returns (t: State)
    requires Reachable(s) && (q.ClaimSub? || q.ReadAndRoute? || q.CommitRoute?)
    ensures Reachable(t) && t == s.(sys := Do(OnePartition().queue, s.sys, q))
  {
    t := Then(s, Other(q));
  }

  lemma RoutePassRun(s: State) returns (t: State)
    requires Reachable(s) && s.sys.log == LOG
    ensures Reachable(t) && t == s.(sys := RoutePass(OnePartition().queue, s.sys, "r"))
  {
    t := ThenRouter(s, ClaimSub("r", 1, Origin));
    t := ThenRouter(t, ReadAndRoute("r", 2));
    t := ThenRouter(t, CommitRoute("r"));
  }

  lemma BothEventsRouted()
    ensures Decide(OnePartition().queue, LOG, 0, 2) == [FIRST, SECOND]
    ensures InsertPending(map[], [FIRST, SECOND]) == map[FIRST := Pending, SECOND := Pending]
  {
    assert Decide(OnePartition().queue, LOG, 0, 1) == [FIRST];
  }

  lemma RouteEvents(s: State) returns (t: State)
    requires Reachable(s) && Looks(s, map[], s.snaps)
    requires s.sys.queue.sub == None || s.sys.queue.sub == Some(Subscription(0, None))
    ensures Reachable(t) && t.sys.queue.sub.Some? && Looks(t, map[FIRST := Pending, SECOND := Pending], s.snaps)
    ensures t.origins == s.origins
  {
    t := RoutePassRun(s);
    BothEventsRouted();
    RoutePassRoutes(OnePartition().queue, s.sys, "r");
    assert ViewOf(t.sys).log == LOG && ViewOf(t.sys).queue.rows == InsertPending(map[], [FIRST, SECOND]);
  }

  lemma ClaimEvent(s: State, k: Key) returns (t: State)
    requires Reachable(s) && s.sys.log == LOG && s.sys.queue.sub.Some? && Claimable(s.sys.queue.rows, k, s.sys.now)
    ensures Reachable(t) && Holds(t, k) && t.snaps == s.snaps && t.origins == s.origins
    ensures t.sys.queue.rows == s.sys.queue.rows[k := Claimed("w", s.sys.now + 1)] && t.sys.now == s.sys.now
  {
    t := Then(s, Other(ClaimItem("w", k, 1)));
    ClaimTakes(OnePartition().queue, s.sys, "w", k, 1);
    assert ViewOf(t.sys).procs["w"] == Working(k, s.sys.hist.epoch) && ViewOf(t.sys).log == LOG && ViewOf(t.sys).now == s.sys.now;
    assert ViewOf(t.sys).queue.rows == s.sys.queue.rows[k := Claimed("w", s.sys.now + 1)];
  }

  lemma ReadEvent(s: State, k: Key) returns (t: State)
    requires Reachable(s) && Holds(s, k)
    ensures Reachable(t) && Holds(t, k) && t.sys.queue == s.sys.queue && t.snaps == s.snaps && t.origins.leftover == s.origins.leftover
    ensures StageOf(t, "w") ==
      if k.partition in s.snaps && s.snaps[k.partition].tag == None then Loaded(k, s.snaps[k.partition].data) else Missed(k)
  {
    t := Then(s, ReadSnapshot("w"));
  }

  lemma FoldEvents(s: State) returns (t: State)
    requires Reachable(s) && Holds(s, FIRST) && StageOf(s, "w") == Missed(FIRST)
    ensures Reachable(t) && Holds(t, FIRST) && t.sys.queue == s.sys.queue && t.snaps == s.snaps
    ensures StageOf(t, "w") == Loaded(FIRST, [])
  {
    t := Then(s, ListAndFold("w"));
    assert FoldDone(Recording(), LOG, s.sys.queue.rows, "p", 0) == [];
  }

  lemma HandleIt(s: State, base: seq<int>) returns (t: State)
    requires Reachable(s) && Holds(s, FIRST) && StageOf(s, "w") == Loaded(FIRST, base)
    ensures Reachable(t) && t.sys.log == LOG && t.sys.queue == s.sys.queue && t.snaps == s.snaps
    ensures StageOf(t, "w") == Staged(FIRST, base + [7]) && ProcOf(t.sys, "w") == Returned(FIRST, s.sys.hist.epoch)
  {
    t := Then(s, Handle("w"));
  }

  lemma AckIt(s: State, state: seq<int>) returns (t: State)
    requires Reachable(s) && s.sys.log == LOG && s.sys.queue.sub.Some? && ClaimedBy(s.sys.queue.rows, FIRST, "w")
    requires StageOf(s, "w") == Staged(FIRST, state) && ProcOf(s.sys, "w").Returned? && ProcOf(s.sys, "w").key == FIRST
    ensures Reachable(t) && t.sys.queue.sub.Some?
    ensures Looks(t, s.sys.queue.rows[FIRST := Done], s.snaps["p" := Snapshot(None, 1, state)])
    ensures "p" !in t.origins.leftover
  {
    t := Then(s, Ack("w"));
  }

  /** The table after the first event was acknowledged. */
  const ACKED: map<Key, RowState> := map[FIRST := Done, SECOND := Pending]

  /** A first round: the first event is folded from scratch, handled and acknowledged. */
  lemma FirstRound() returns (s: State)
    ensures Reachable(s) && s.sys.queue.sub.Some? && Looks(s, ACKED, map["p" := Snapshot(None, 1, [7])])
  {
    s := InitialPm(LOG);
    assert ReachedPm(OnePartition(), LOG, [], s);
    s := RouteEvents(s);
    s := ClaimEvent(s, FIRST);
    s := ReadEvent(s, FIRST);
    s := FoldEvents(s);
    s := HandleIt(s, []);
    assert [] + [7] == [7];
    s := AckIt(s, [7]);
  }

  lemma RebuildIt(s: State) returns (t: State)
    requires Reachable(s) && s.sys.log == LOG && s.sys.queue.sub.Some?
    ensures Reachable(t) && Looks(t, map[], s.snaps) && t.sys.queue.sub == Some(Subscription(0, None))
  {
    t := Then(s, Other(RebuildSub));
  }

  /** Acknowledge, rebuild, and claim the same event again. */
  lemma ClaimAfterRebuild() returns (s: State)
    ensures Reachable(s) && Holds(s, FIRST)
    ensures Looks(s, map[FIRST := Claimed("w", s.sys.now + 1), SECOND := Pending], map["p" := Snapshot(None, 1, [7])])
  {
    s := FirstRound();
    s := RebuildIt(s);
    s := RouteEvents(s);
    s := ClaimEvent(s, FIRST);
    assert map[FIRST := Pending, SECOND := Pending][FIRST := Claimed("w", s.sys.now + 1)]
           == map[FIRST := Claimed("w", s.sys.now + 1), SECOND := Pending];
  }

  /**
   Then the worker loads the state of before the rebuild, where the rebuild fold is empty, and
   handling applies the event a second time.
   */
  lemma RebuildMisleads() returns (s: State, t: State)
    ensures Reachable(s) && ClaimedBy(s.sys.queue.rows, FIRST, "w") && LoadOf(OnePartition(), s, "w", FIRST) == Some([7])
    ensures RebuildOf(OnePartition(), s, "w", FIRST) == []
    ensures Reachable(t) && t.sys.queue == s.sys.queue && t.snaps == s.snaps && StageOf(t, "w") == Staged(FIRST, [7, 7])
    ensures t.sys.log == LOG && t.sys.queue.sub.Some? && ProcOf(t.sys, "w").Returned? && ProcOf(t.sys, "w").key == FIRST
    ensures s.sys.queue.rows == map[FIRST := Claimed("w", s.sys.now + 1), SECOND := Pending]
  {
    s := ClaimAfterRebuild();
    t := ReadEvent(s, FIRST);
    t := HandleIt(t, [7]);
    assert [7] + [7] == [7, 7];
    assert Below(1) == 0;
  }

  /**
   And the acknowledgement makes it last: the partition's next load is wrong too, although no
   leftover is left.
   */
  lemma WrongStateOutlivesAck() returns (u: State)
    ensures Reachable(u) && ClaimedBy(u.sys.queue.rows, SECOND, "w") && "p" !in u.origins.leftover
    ensures LoadOf(OnePartition(), u, "w", SECOND) == Some([7, 7])
    ensures RebuildOf(OnePartition(), u, "w", SECOND) == [7]
  {
    var s, t := RebuildMisleads();
    t := AckIt(t, [7, 7]);
    assert s.sys.queue.rows[FIRST := Done] == ACKED;
    u := ClaimEvent(t, SECOND);
    assert DoneEvents(LOG, u.sys.queue.rows, "p", 0) == [] && DoneEvents(LOG, u.sys.queue.rows, "p", 1) == [7];
    RecordingRecords<int>([], [7], 1);
    assert [7][..1] == [7];
  }
}
