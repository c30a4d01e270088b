/**
 Runners that supply their own expected version.  The store may accept it although events have
 landed since the load; this module says exactly when that costs the staged state or
 serialisability, and gives runs in which it does.
 */
module ExplicitVersions {
  import opened Wrappers
  import opened Replay
  import opened AggregateProtocol

  // ---------------------------------------------------------------- the staged state

  /** What `w` has staged is the fold of the whole stream. */
  ghost predicate StagedFull<S, C, E>(cfg: Config<S, C, E>, s: System<S, C, E>, w: Writer) {
    LocalOf(s, w).Staged? && LocalOf(s, w).state == Fold(ModuleOf(cfg, w), s.store.events)
  }

  /**
   For every module: when a correct load's events land right after the loaded ones, the staged
   state is the fold of the whole stream.
   */
  lemma StagedIsFullFold<S, C, E>(cfg: Config<S, C, E>, s: System<S, C, E>, w: Writer)
    requires Lands(cfg, s, w) && IsPrefixFold(cfg, s.store.events, w, LocalOf(s, w).state, LocalOf(s, w).version)
    requires |s.store.events| == LocalOf(s, w).version
    ensures StagedFull(cfg, DoSubmit(cfg, s, w), w)
  {
    var l := s.locals[w];
    FoldResumes(ModuleOf(cfg, w), s.store.events, cfg.execute(w, l.state, l.call.command).events);
  }

  /**
   With the module that forgets nothing, only then; and with the default assertion they always
   land there.
   */
  lemma StagedIsFullFoldIff<C, E>(cfg: Config<seq<E>, C, E>, s: System<seq<E>, C, E>, w: Writer)
    requires Lands(cfg, s, w) && IsPrefixFold(cfg, s.store.events, w, LocalOf(s, w).state, LocalOf(s, w).version)
    requires ModuleOf(cfg, w) == Recording()
    ensures StagedFull(cfg, DoSubmit(cfg, s, w), w) <==> |s.store.events| == LocalOf(s, w).version
    ensures LocalOf(s, w).call.explicit.None? ==> |s.store.events| == LocalOf(s, w).version
  {
    RecordedStage(cfg, s, w);
  }

  lemma RecordedStage<C, E>(cfg: Config<seq<E>, C, E>, s: System<seq<E>, C, E>, w: Writer)
    requires LocalOf(s, w).Loaded? && ModuleOf(cfg, w) == Recording()
    requires IsPrefixFold(cfg, s.store.events, w, LocalOf(s, w).state, LocalOf(s, w).version)
    requires LocalOf(DoSubmit(cfg, s, w), w).Staged?
    ensures var t, l := DoSubmit(cfg, s, w), LocalOf(s, w);
      && (LocalOf(t, w).state == Fold(Recording(), t.store.events) <==> |s.store.events| == l.version)
      && (l.call.explicit.None? ==> |s.store.events| == l.version)
  {
    var l, t := s.locals[w], DoSubmit(cfg, s, w);
    var events := cfg.execute(w, l.state, l.call.command).events;
    RecordingRecords(l.state, events, |events|);
    RecordingRecords([], s.store.events, l.version);
    RecordingRecords([], t.store.events, |t.store.events|);
    assert |LocalOf(t, w).state| == l.version + |events|;
  }

  /** If the step lands events, the state it stages is the fold of the whole stream. */
  ghost predicate StepStagesFull<S, C, E>(cfg: Config<S, C, E>, s: System<S, C, E>, a: Action<C, E>) {
    a.Submit? && Lands(cfg, s, a.w) ==> StagedFull(cfg, Do(cfg, s, a), a.w)
  }

  ghost predicate RunStagesFull<S, C, E>(cfg: Config<S, C, E>, s: System<S, C, E>, run: seq<Action<C, E>>)
    decreases |run|
  {
    run != [] ==>
      var before := run[..|run| - 1];
      RunStagesFull(cfg, s, before) && StepStagesFull(cfg, Exec(cfg, s, before), run[|run| - 1])
  }

  lemma LoadedIsPrefix<S, C, E>(cfg: Config<S, C, E>, s: System<S, C, E>, w: Writer)
    requires Inv(cfg, s) && LocalOf(s, w).Loaded?
    ensures IsPrefixFold(cfg, s.store.events, w, LocalOf(s, w).state, LocalOf(s, w).version)
  {
    assert LocalFits(cfg, s.store, w, s.locals[w]);
  }

  /** In a safe run of any module every state that is staged is the fold of the whole stream. */
  lemma {:induction false} SafeRunStagesFull<S, C, E>(cfg: Config<S, C, E>, run: seq<Action<C, E>>)
    requires SafeRun(cfg, Initial(), run)
    ensures RunStagesFull(cfg, Initial(), run)
    decreases |run|
  {
    if run != [] {
      var before, a := run[..|run| - 1], run[|run| - 1];
      var s := Exec(cfg, Initial(), before);
      SafeRunStagesFull(cfg, before);
      ReachedInv(cfg, before, s);
      if a.Submit? && Lands(cfg, s, a.w) {
        LoadedIsPrefix(cfg, s, a.w);
        StagedIsFullFold(cfg, s, a.w);
      }
    }
  }

  /**
   With the module that forgets nothing, every state staged in a run is the fold of the whole
   stream if and only if the run is safe.
   */
  lemma {:induction false} StagesFullIffSafe<C, E>(cfg: Config<seq<E>, C, E>, run: seq<Action<C, E>>)
    requires forall w :: ModuleOf(cfg, w) == Recording()
    ensures RunStagesFull(cfg, Initial(), run) <==> SafeRun(cfg, Initial(), run)
    decreases |run|
  {
    if SafeRun(cfg, Initial(), run) {
      SafeRunStagesFull(cfg, run);
    } else {
      var before, a := run[..|run| - 1], run[|run| - 1];
      var s := Exec(cfg, Initial(), before);
      StagesFullIffSafe(cfg, before);
      if SafeRun(cfg, Initial(), before) {
        ReachedInv(cfg, before, s);
        LoadedIsPrefix(cfg, s, a.w);
        StagedIsFullFoldIff(cfg, s, a.w);
      }
    }
  }

  // ---------------------------------------------------------------- serialisability

  /**
   On a stream that is serial so far, an accepted submission keeps it serial if and only if
   `execute` emits on the whole stream what it emitted on the loaded state, as it does when a
   correct load's events land right after the loaded ones.
   */
  lemma SubmitIsSerialIff<S, C, E>(cfg: Config<S, C, E>, s: System<S, C, E>, w: Writer)
    requires s.store.events == SerialRun(cfg, s.store.commits) && Lands(cfg, s, w)
    ensures var t, l := DoSubmit(cfg, s, w), LocalOf(s, w);
      && (t.store.events == SerialRun(cfg, t.store.commits) <==>
            Adds(cfg, s.store.events, ByCommand(w, l.call.command)) == cfg.execute(w, l.state, l.call.command).events)
      && (IsPrefixFold(cfg, s.store.events, w, l.state, l.version) && |s.store.events| == l.version ==>
            t.store.events == SerialRun(cfg, t.store.commits))
  {
    var t, l := DoSubmit(cfg, s, w), s.locals[w];
    var events, added := cfg.execute(w, l.state, l.call.command).events, Adds(cfg, s.store.events, ByCommand(w, l.call.command));
    SerialPrefix(cfg, s.store.commits, t.store.commits, |s.store.commits|);
    assert SerialRun(cfg, t.store.commits) == s.store.events + added;
    assert t.store.events == s.store.events + events;
    if t.store.events == SerialRun(cfg, t.store.commits) {
      assert added == t.store.events[|s.store.events|..] == events;
    }
  }

  /** Every command emits one event: how many events it saw. */
  function Seeing(): Config<seq<int>, int, int> {
    Config((w: Writer) => None, (t: Tag) => Recording(), (w: Writer, s: seq<int>, c: int) => Emits([|s|]))
  }

  /** The serial run of some first commits is not how the stream begins. */
  ghost predicate Broken<S, C, E>(cfg: Config<S, C, E>, st: Store<S, C, E>) {
    exists n: nat :: n <= |st.commits| && BrokenAt(cfg, st, n)
  }

  ghost predicate BrokenAt<S, C, E>(cfg: Config<S, C, E>, st: Store<S, C, E>, n: nat)
    requires n <= |st.commits|
  {
    var serial := SerialTo(cfg, st.commits, n);
    |serial| <= |st.events| && st.events[..|serial|] != serial
  }

  lemma {:induction false} SerialGrows<S, C, E>(cfg: Config<S, C, E>, commits: seq<Commit<C, E>>, n: nat, m: nat)
    requires n <= m <= |commits|
    ensures SerialTo(cfg, commits, n) <= SerialTo(cfg, commits, m)
  {
    if n < m {
      SerialGrows(cfg, commits, n, m - 1);
    }
  }

  lemma BrokenIsNotSerial<S, C, E>(cfg: Config<S, C, E>, st: Store<S, C, E>)
    requires Broken(cfg, st)
    ensures st.events != SerialRun(cfg, st.commits)
  {
    var n: nat :| n <= |st.commits| && BrokenAt(cfg, st, n);
    SerialGrows(cfg, st.commits, n, |st.commits|);
  }

  lemma BrokenStays<S, C, E>(cfg: Config<S, C, E>, st: Store<S, C, E>, st': Store<S, C, E>)
    requires Broken(cfg, st) && Extends(st, st')
    ensures Broken(cfg, st')
  {
    var n: nat :| n <= |st.commits| && BrokenAt(cfg, st, n);
    SerialPrefix(cfg, st.commits, st'.commits, n);
    var serial := SerialTo(cfg, st.commits, n);
    assert st'.events[..|serial|] == st'.events[..|st.events|][..|serial|];
    assert BrokenAt(cfg, st', n);
  }

  /** Safe or not, a step only appends. */
  lemma StepExtends<S, C, E>(cfg: Config<S, C, E>, s: System<S, C, E>, a: Action<C, E>)
    ensures Extends(s.store, Do(cfg, s, a).store)
  {
  }

  /** The first unsafe step of a run breaks the stream for good, when commands tell what they saw. */
  lemma UnsafeStepBreaks(s: System<seq<int>, int, int>, a: Action<int, int>)
    requires Inv(Seeing(), s) && !SafeStep(Seeing(), s, a)
    ensures Broken(Seeing(), Do(Seeing(), s, a).store)
  {
    var cfg := Seeing();
    var t, l := Do(cfg, s, a), s.locals[a.w];
    assert LocalFits(cfg, s.store, a.w, l);
    RecordingRecords([], s.store.events, l.version);
    RecordingRecords([], s.store.events, |s.store.events|);
    SerialPrefix(cfg, s.store.commits, t.store.commits, |s.store.commits|);
    assert t.store.events == s.store.events + [l.version as int];
    assert SerialRun(cfg, t.store.commits) == s.store.events + [|s.store.events| as int];
    assert t.store.events[|s.store.events|] != SerialRun(cfg, t.store.commits)[|s.store.events|];
    assert BrokenAt(cfg, t.store, |t.store.commits|);
  }

  lemma {:induction false} UnsafeRunIsBroken(run: seq<Action<int, int>>)
    requires !SafeRun(Seeing(), Initial(), run)
    ensures Broken(Seeing(), Exec(Seeing(), Initial(), run).store)
    decreases |run|
  {
    var cfg, before := Seeing(), run[..|run| - 1];
    var s := Exec(cfg, Initial(), before);
    if SafeRun(cfg, Initial(), before) {
      ReachedInv(cfg, before, s);
      UnsafeStepBreaks(s, run[|run| - 1]);
    } else {
      UnsafeRunIsBroken(before);
      StepExtends(cfg, s, run[|run| - 1]);
      BrokenStays(cfg, s.store, Do(cfg, s, run[|run| - 1]).store);
    }
  }

  /**
   When commands tell what they saw, a run is serialisable if and only if it is safe: no
   explicit expected version was accepted with events between the load and the append.
   */
  lemma SerialisableIffSafe(run: seq<Action<int, int>>)
    ensures var st := Exec(Seeing(), Initial(), run).store;
      st.events == SerialRun(Seeing(), st.commits) <==> SafeRun(Seeing(), Initial(), run)
  {
    if SafeRun(Seeing(), Initial(), run) {
      StreamIsSerialRun(Seeing(), run, Exec(Seeing(), Initial(), run));
    } else {
      UnsafeRunIsBroken(run);
      BrokenIsNotSerial(Seeing(), Exec(Seeing(), Initial(), run).store);
    }
  }

  // ---------------------------------------------------------------- runs that go wrong

  function Counting(): Config<seq<int>, int, int> {
    Config((w: Writer) => None, (t: Tag) => Recording(), (w: Writer, s: seq<int>, c: int) => Emits([c]))
  }

  lemma ExecSnoc<S, C, E>(cfg: Config<S, C, E>, s: System<S, C, E>, run: seq<Action<C, E>>, a: Action<C, E>)
    ensures Exec(cfg, s, run + [a]) == Do(cfg, Exec(cfg, s, run), a)
  {
    assert (run + [a])[..|run + [a]| - 1] == run;
  }

  const ONE_CALL: Call<int> := Call(1, Some(AnyVersion), 0, 1, 0)

  lemma BeginOnEmpty(cfg: Config<seq<int>, int, int>) returns (run: seq<Action<int, int>>)
    requires ModuleOf(cfg, "a") == Recording()
    ensures var s := Exec(cfg, Initial(), run);
      LocalOf(s, "a") == Starting(ONE_CALL) && s.store == Store([], None, [])
  {
    ExecSnoc(cfg, Initial(), [], Begin("a", 1, Some(AnyVersion), 0));
    run := [] + [Begin("a", 1, Some(AnyVersion), 0)];
  }

  lemma ReadOnEmpty(cfg: Config<seq<int>, int, int>) returns (run: seq<Action<int, int>>)
    requires ModuleOf(cfg, "a") == Recording()
    ensures var s := Exec(cfg, Initial(), run);
      LocalOf(s, "a") == Paging(ONE_CALL, [], 0) && s.store == Store([], None, [])
  {
    var before := BeginOnEmpty(cfg);
    ExecSnoc(cfg, Initial(), before, ReadSnapshot("a"));
    run := before + [ReadSnapshot("a")];
  }

  lemma LoadOnEmpty(cfg: Config<seq<int>, int, int>) returns (run: seq<Action<int, int>>)
    requires ModuleOf(cfg, "a") == Recording()
    ensures var s := Exec(cfg, Initial(), run);
      LocalOf(s, "a") == Loaded(ONE_CALL, [], 0, 0) && s.store == Store([], None, [])
  {
    var before := ReadOnEmpty(cfg);
    ExecSnoc(cfg, Initial(), before, ReadPage("a"));
    run := before + [ReadPage("a")];
  }

  lemma LoadThenRace(cfg: Config<seq<int>, int, int>) returns (run: seq<Action<int, int>>)
    requires ModuleOf(cfg, "a") == Recording()
    ensures var s := Exec(cfg, Initial(), run);
      LocalOf(s, "a") == Loaded(ONE_CALL, [], 0, 0) && s.store == Store([7], None, [Raw([7])])
  {
    var before := LoadOnEmpty(cfg);
    ExecSnoc(cfg, Initial(), before, RawAppend([7]));
    run := before + [RawAppend([7])];
  }

  /** With `any`, a rival append between load and append is skipped by the state, and the snapshot keeps the hole. */
  lemma AnyVersionSkipsEvents() returns (run: seq<Action<int, int>>)
    ensures var st := Exec(Counting(), Initial(), run).store;
      st.events == [7, 1] && st.snap == Some(Snapshot(None, 2, [1])) && |st.commits| == 2
  {
    var cfg := Counting();
    var before := LoadThenRace(cfg);
    var s := Exec(cfg, Initial(), before);
    RecordingRecords([], [1], 1);
    assert [1][..1] == [1];
    assert LocalOf(Do(cfg, s, Submit("a")), "a") == Staged(ONE_CALL, [1], 2);
    ExecSnoc(cfg, Initial(), before, Submit("a"));
    ExecSnoc(cfg, Initial(), before + [Submit("a")], WriteSnapshot("a"));
    run := before + [Submit("a")] + [WriteSnapshot("a")];
  }

  const B_CALL: Call<int> := Call(9, None, 0, 1, 2)

  /** Writer `b` loads the snapshot with the hole by a default command. */
  lemma LoadTheHole() returns (run: seq<Action<int, int>>)
    ensures var s := Exec(Counting(), Initial(), run);
      LocalOf(s, "b") == Loaded(B_CALL, [1], 2, 2) && s.store.events == [7, 1]
  {
    var cfg := Counting();
    run := AnyVersionSkipsEvents();
    ExecSnoc(cfg, Initial(), run, Begin("b", 9, None, 0));
    run := run + [Begin("b", 9, None, 0)];
    ExecSnoc(cfg, Initial(), run, ReadSnapshot("b"));
    run := run + [ReadSnapshot("b")];
    assert LocalOf(Exec(cfg, Initial(), run), "b") == Paging(B_CALL, [1], 2);
    ExecSnoc(cfg, Initial(), run, ReadPage("b"));
    run := run + [ReadPage("b")];
  }

  /**
   The hole is inherited: a default command that loads it lands right after what it loaded, and
   what it stages is still not the fold of the stream.
   */
  lemma HoleIsInherited() returns (run: seq<Action<int, int>>)
    ensures var s := Exec(Counting(), Initial(), run);
      && Lands(Counting(), s, "b") && LocalOf(s, "b").call.explicit.None? && SafeStep(Counting(), s, Submit("b"))
      && DoSubmit(Counting(), s, "b").store.events == [7, 1, 9] && LocalOf(DoSubmit(Counting(), s, "b"), "b").state == [1, 9]
  {
    run := LoadTheHole();
    RecordingRecords([1], [9], 1);
    assert [9][..1] == [9] && [1] + [9] == [1, 9];
  }

  /** And with `any` and commands that tell what they saw, the stream is no serial run of its commits. */
  lemma AnyVersionIsNotSerial() returns (run: seq<Action<int, int>>)
    ensures var st := Exec(Seeing(), Initial(), run).store;
      st.events == [7, 0] && SerialRun(Seeing(), st.commits) == [7, 1]
  {
    var cfg := Seeing();
    var before := LoadThenRace(cfg);
    var s := Exec(cfg, Initial(), before);
    ExecSnoc(cfg, Initial(), before, Submit("a"));
    run := before + [Submit("a")];
    var commits: seq<Commit<int, int>> := [Raw([7]), ByCommand("a", 1)];
    assert Exec(cfg, Initial(), run).store == Store([7, 0], None, commits);
    assert SerialTo(cfg, commits, 0) == [] && SerialTo(cfg, commits, 1) == [7];
    RecordingRecords([], [7], 1);
    assert SerialTo(cfg, commits, 2) == [7, 1];
  }
}
