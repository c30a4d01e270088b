/**
 Any number of command runners on one aggregate stream, interleaved between client calls.
 Each loads (snapshot, then pages), executes, appends under an expected version, and may then
 write a snapshot; runners may use different module versions and may stop at any point.
 */
module AggregateProtocol {
  import opened Wrappers
  import opened Replay

  type Writer = string

  /** What `execute` does: throw, or produce zero or more events. */
  datatype Outcome<+E> = Rejected | Emits(events: seq<E>)

  datatype Config<!S, !C, !E> = Config(
    tagOf: Writer -> Tag,
    modules: Tag -> Module<S, E>,
    execute: (Writer, S, C) -> Outcome<E>)

  datatype Expected = AnyVersion | NoStream | StreamExists | Exact(version: nat)

  datatype Commit<+C, +E> = ByCommand(w: Writer, command: C) | Raw(events: seq<E>)

  /** The stream, its snapshot row, and the history of accepted appends in append order. */
  datatype Store<+S, +C, +E> = Store(events: seq<E>, snap: Option<Snapshot<S>>, commits: seq<Commit<C, E>>)

  const LOAD_PAGE_SIZE: nat := 500

  function ModuleOf<S, C, E>(cfg: Config<S, C, E>, w: Writer): Module<S, E> {
    cfg.modules(cfg.tagOf(w))
  }

  predicate Accepts(x: Expected, head: nat) {
    match x
    case AnyVersion => true
    case NoStream => head == 0
    case StreamExists => head > 0
    case Exact(version) => head == version
  }

  // ---------------------------------------------------------------- the serial reference

  /** The events one commit adds when it runs alone on `before`. */
  function Adds<S, C, E>(cfg: Config<S, C, E>, before: seq<E>, c: Commit<C, E>): seq<E> {
    match c
    case Raw(events) => events
    case ByCommand(w, command) =>
      match cfg.execute(w, Fold(ModuleOf(cfg, w), before), command)
      case Rejected => []
      case Emits(events) => events
  }

  /** The first `n` commits run one after the other, each on the full fold of everything before it. */
  function SerialTo<S, C, E>(cfg: Config<S, C, E>, commits: seq<Commit<C, E>>, n: nat): seq<E>
    requires n <= |commits|
  {
    if n == 0 then []
    else
      var before := SerialTo(cfg, commits, n - 1);
      before + Adds(cfg, before, commits[n - 1])
  }

  function SerialRun<S, C, E>(cfg: Config<S, C, E>, commits: seq<Commit<C, E>>): seq<E> {
    SerialTo(cfg, commits, |commits|)
  }

  lemma {:induction false} SerialPrefix<S, C, E>(cfg: Config<S, C, E>, a: seq<Commit<C, E>>, b: seq<Commit<C, E>>, n: nat)
    requires n <= |a| && n <= |b| && forall i | 0 <= i < n :: a[i] == b[i]
    ensures SerialTo(cfg, a, n) == SerialTo(cfg, b, n)
  {
    if n > 0 {
      SerialPrefix(cfg, a, b, n - 1);
    }
  }

  /** One atomic change of the store. */
  datatype StoreStep<+C, +E> =
    | Land(c: Commit<C, E>)
    | PutSnapshot(tag: Tag, version: nat)
    | DropSnapshot

  function Atomic<S, C, E>(cfg: Config<S, C, E>, st: Store<S, C, E>, step: StoreStep<C, E>): Store<S, C, E> {
    match step
    case Land(c) =>
      var added := Adds(cfg, st.events, c);
      if added == [] then st else Store(st.events + added, st.snap, st.commits + [c])
    case PutSnapshot(tag, version) =>
      if version > |st.events| then st
      else st.(snap := Some(Snapshot(tag, version, FoldTo(cfg.modules(tag), st.events, version))))
    case DropSnapshot => st.(snap := None)
  }

  function AtomicAll<S, C, E>(cfg: Config<S, C, E>, st: Store<S, C, E>, steps: seq<StoreStep<C, E>>): Store<S, C, E> {
    if steps == [] then st else Atomic(cfg, AtomicAll(cfg, st, steps[..|steps| - 1]), steps[|steps| - 1])
  }

  ghost predicate SnapshotIsFold<S, C, E>(cfg: Config<S, C, E>, events: seq<E>, snap: Snapshot<S>) {
    snap.version <= |events| && snap.data == FoldTo(cfg.modules(snap.tag), events, snap.version)
  }

  ghost predicate StoreInv<S, C, E>(cfg: Config<S, C, E>, st: Store<S, C, E>) {
    && st.events == SerialRun(cfg, st.commits)
    && (st.snap.Some? ==> SnapshotIsFold(cfg, st.events, st.snap.value))
  }

  /** The log only grows. */
  ghost predicate Extends<S, C, E>(st: Store<S, C, E>, st': Store<S, C, E>) {
    && |st.events| <= |st'.events| && st'.events[..|st.events|] == st.events
    && |st.commits| <= |st'.commits| && st'.commits[..|st.commits|] == st.commits
  }

  lemma AtomicKeepsStoreInv<S, C, E>(cfg: Config<S, C, E>, st: Store<S, C, E>, step: StoreStep<C, E>)
    requires StoreInv(cfg, st)
    ensures StoreInv(cfg, Atomic(cfg, st, step)) && Extends(st, Atomic(cfg, st, step))
  {
    var st' := Atomic(cfg, st, step);
    if step.Land? && st' != st {
      SerialPrefix(cfg, st.commits, st'.commits, |st.commits|);
      if st.snap.Some? {
        FoldPrefix(cfg.modules(st.snap.value.tag), st.events, st'.events, st.snap.value.version);
      }
    }
  }

  lemma {:induction false} AtomicAllKeepsStoreInv<S, C, E>(cfg: Config<S, C, E>, st: Store<S, C, E>, steps: seq<StoreStep<C, E>>)
    requires StoreInv(cfg, st)
    ensures StoreInv(cfg, AtomicAll(cfg, st, steps)) && Extends(st, AtomicAll(cfg, st, steps))
  {
    if steps != [] {
      AtomicAllKeepsStoreInv(cfg, st, steps[..|steps| - 1]);
      AtomicKeepsStoreInv(cfg, AtomicAll(cfg, st, steps[..|steps| - 1]), steps[|steps| - 1]);
      ExtendsChain(st, AtomicAll(cfg, st, steps[..|steps| - 1]), AtomicAll(cfg, st, steps));
    }
  }

  lemma ExtendsChain<S, C, E>(a: Store<S, C, E>, b: Store<S, C, E>, c: Store<S, C, E>)
    requires Extends(a, b) && Extends(b, c)
    ensures Extends(a, c)
  {
    assert c.events[..|a.events|] == c.events[..|b.events|][..|a.events|];
    assert c.commits[..|a.commits|] == c.commits[..|b.commits|][..|a.commits|];
  }

  // ---------------------------------------------------------------- the interleaved machine

  /** One `runCommand` call; `base` is the number of commits when it began (history). */
  datatype Call<+C> = Call(command: C, explicit: Option<Expected>, budget: nat, attempt: nat, base: nat)

  /** A command runner between two client calls; `seen` is the number of commits its load covers (history). */
  datatype Local<+S, +C> =
    | Idle
    | Starting(call: Call<C>)
    | Paging(call: Call<C>, state: S, version: nat)
    | Loaded(call: Call<C>, state: S, version: nat, seen: nat)
    | Staged(call: Call<C>, state: S, version: nat)
    | NothingToDo(call: Call<C>)
    | Threw(call: Call<C>)
    | BudgetExhausted(call: Call<C>)

  datatype System<S, C, E> = System(store: Store<S, C, E>, locals: map<Writer, Local<S, C>>)

  datatype Action<C, E> =
    | Begin(w: Writer, command: C, explicit: Option<Expected>, budget: nat)
    | ReadSnapshot(w: Writer)
    | ReadPage(w: Writer)
    | Submit(w: Writer)
    | WriteSnapshot(w: Writer)
    | Stop(w: Writer)
    | RawAppend(events: seq<E>)
    | DeleteSnapshot

  function LocalOf<S, C, E>(s: System<S, C, E>, w: Writer): Local<S, C> {
    if w in s.locals then s.locals[w] else Idle
  }

  function Move<S, C, E>(s: System<S, C, E>, w: Writer, to: Local<S, C>): System<S, C, E> {
    s.(locals := s.locals[w := to])
  }

  /** `readStream(from version + 1, 500)`. */
  function Page<E>(events: seq<E>, version: nat): seq<E> {
    if version >= |events| then []
    else if version + LOAD_PAGE_SIZE < |events| then events[version..version + LOAD_PAGE_SIZE]
    else events[version..]
  }

  function Do<S, C, E>(cfg: Config<S, C, E>, s: System<S, C, E>, a: Action<C, E>): System<S, C, E> {
    match a
    case Begin(w, command, explicit, budget) =>
      Move(s, w, Starting(Call(command, explicit, budget, 1, |s.store.commits|)))
    case ReadSnapshot(w) =>
      (match LocalOf(s, w)
       case Starting(call) =>
         if s.store.snap.Some? && s.store.snap.value.tag == cfg.tagOf(w)
         then Move(s, w, Paging(call, s.store.snap.value.data, s.store.snap.value.version))
         else Move(s, w, Paging(call, ModuleOf(cfg, w).initial, 0))
       case _ => s)
    case ReadPage(w) =>
      (match LocalOf(s, w)
       case Paging(call, state, version) =>
         var page := Page(s.store.events, version);
         var state' := FoldFrom(ModuleOf(cfg, w), state, page);
         if |page| < LOAD_PAGE_SIZE
         then Move(s, w, Loaded(call, state', version + |page|, |s.store.commits|))
         else Move(s, w, Paging(call, state', version + |page|))
       case _ => s)
    case Submit(w) => DoSubmit(cfg, s, w)
    case WriteSnapshot(w) =>
      (match LocalOf(s, w)
       case Staged(call, state, version) =>
         Move(s.(store := s.store.(snap := Some(Snapshot(cfg.tagOf(w), version, state)))), w, Idle)
       case _ => s)
    case Stop(w) => Move(s, w, Idle)
    case RawAppend(events) => s.(store := Atomic(cfg, s.store, Land(Raw(events))))
    case DeleteSnapshot => s.(store := s.store.(snap := None))
  }

  /** `explicitExpected ?? exact(loaded version)`. */
  function AssertionOf(explicit: Option<Expected>, version: nat): Expected {
    if explicit.Some? then explicit.value else Exact(version)
  }

  /** `execute`, then `appendToStream`; only the default assertion is retried. */
  function DoSubmit<S, C, E>(cfg: Config<S, C, E>, s: System<S, C, E>, w: Writer): System<S, C, E> {
    match LocalOf(s, w)
    case Loaded(call, state, version, _) =>
      (match cfg.execute(w, state, call.command)
       case Rejected => Move(s, w, Threw(call))
       case Emits(events) =>
         if events == [] then Move(s, w, NothingToDo(call))
         else if Accepts(AssertionOf(call.explicit, version), |s.store.events|) then
           var st := s.store;
           var store := Store(st.events + events, st.snap, st.commits + [ByCommand(w, call.command)]);
           Move(s.(store := store), w, Staged(call, FoldFrom(ModuleOf(cfg, w), state, events), |store.events|))
         else if call.explicit.Some? then Move(s, w, Threw(call))
         else if call.attempt > call.budget then Move(s, w, BudgetExhausted(call))
         else Move(s, w, Starting(call.(attempt := call.attempt + 1))))
    case _ => s
  }

  function Exec<S, C, E>(cfg: Config<S, C, E>, s: System<S, C, E>, run: seq<Action<C, E>>): System<S, C, E>
    decreases |run|
  {
    if run == [] then s else Do(cfg, Exec(cfg, s, run[..|run| - 1]), run[|run| - 1])
  }

  function Initial<S, C, E>(): System<S, C, E> {
    System(Store([], None, []), map[])
  }

  // ---------------------------------------------------------------- the invariant

  /** Every failed attempt so far lost to at least one of the first `commits` commits. */
  ghost predicate CallFits<C>(call: Call<C>, commits: nat) {
    1 <= call.attempt <= call.budget + 1 && call.base + call.attempt - 1 <= commits
  }

  predicate ByWriter<C, E>(c: Commit<C, E>, w: Writer) {
    c.ByCommand? && c.w == w
  }

  /** While a call is under way its runner commits nothing. */
  ghost predicate OnlyRivals<C, E>(commits: seq<Commit<C, E>>, w: Writer, base: nat) {
    forall i | base <= i < |commits| :: !ByWriter(commits[i], w)
  }

  ghost predicate IsPrefixFold<S, C, E>(cfg: Config<S, C, E>, events: seq<E>, w: Writer, state: S, version: nat) {
    version <= |events| && state == FoldTo(ModuleOf(cfg, w), events, version)
  }

  ghost predicate LocalFits<S, C, E>(cfg: Config<S, C, E>, st: Store<S, C, E>, w: Writer, l: Local<S, C>) {
    match l
    case Idle => true
    case Starting(call) => CallFits(call, |st.commits|)
    case Paging(call, state, version) => CallFits(call, |st.commits|) && IsPrefixFold(cfg, st.events, w, state, version)
    case Loaded(call, state, version, seen) =>
      && CallFits(call, seen) && IsPrefixFold(cfg, st.events, w, state, version)
      && seen <= |st.commits| && version == |SerialTo(cfg, st.commits, seen)|
    case Staged(call, state, version) => IsPrefixFold(cfg, st.events, w, state, version)
    case NothingToDo(call) => true
    case Threw(call) => true
    case BudgetExhausted(call) => call.attempt == call.budget + 1 && call.base + call.attempt <= |st.commits|
  }

  predicate UnderWay<S, C>(l: Local<S, C>) {
    l.Starting? || l.Paging? || l.Loaded? || l.BudgetExhausted?
  }

  ghost predicate Inv<S, C, E>(cfg: Config<S, C, E>, s: System<S, C, E>) {
    && StoreInv(cfg, s.store)
    && (forall w | w in s.locals :: LocalFits(cfg, s.store, w, s.locals[w]))
    && (forall w | w in s.locals && UnderWay(s.locals[w]) :: OnlyRivals(s.store.commits, w, s.locals[w].call.base))
  }

  /** Events that land do so right after the loaded ones; only an explicit assertion can let them land elsewhere. */
  predicate SafeStep<S, C, E>(cfg: Config<S, C, E>, s: System<S, C, E>, a: Action<C, E>) {
    a.Submit? && Lands(cfg, s, a.w) ==> |s.store.events| == LocalOf(s, a.w).version
  }

  /** A submission by `w` would append something. */
  predicate Lands<S, C, E>(cfg: Config<S, C, E>, s: System<S, C, E>, w: Writer) {
    LocalOf(s, w).Loaded? && LocalOf(DoSubmit(cfg, s, w), w).Staged?
  }

  /** Every step of the run is safe. */
  predicate SafeRun<S, C, E>(cfg: Config<S, C, E>, s: System<S, C, E>, run: seq<Action<C, E>>)
    decreases |run|
  {
    run != [] ==>
      var before := run[..|run| - 1];
      SafeRun(cfg, s, before) && SafeStep(cfg, Exec(cfg, s, before), run[|run| - 1])
  }

  // ---------------------------------------------------------------- preservation

  lemma PrefixFoldStays<S, C, E>(cfg: Config<S, C, E>, events: seq<E>, events': seq<E>, w: Writer, state: S, version: nat)
    requires IsPrefixFold(cfg, events, w, state, version) && |events| <= |events'| && events'[..|events|] == events
    ensures IsPrefixFold(cfg, events', w, state, version)
  {
    FoldPrefix(ModuleOf(cfg, w), events, events', version);
  }

  lemma LocalStays<S, C, E>(cfg: Config<S, C, E>, st: Store<S, C, E>, st': Store<S, C, E>, w: Writer, l: Local<S, C>)
    requires LocalFits(cfg, st, w, l) && Extends(st, st')
    ensures LocalFits(cfg, st', w, l)
  {
    if l.Paging? || l.Loaded? || l.Staged? {
      PrefixFoldStays(cfg, st.events, st'.events, w, l.state, l.version);
    }
    if l.Loaded? {
      SerialPrefix(cfg, st.commits, st'.commits, l.seen);
    }
  }

  lemma PageKeepsPrefixFold<S, C, E>(cfg: Config<S, C, E>, events: seq<E>, w: Writer, state: S, version: nat)
    requires IsPrefixFold(cfg, events, w, state, version)
    ensures var page := Page(events, version);
      && IsPrefixFold(cfg, events, w, FoldFrom(ModuleOf(cfg, w), state, page), version + |page|)
      && (|page| < LOAD_PAGE_SIZE ==> version + |page| == |events|)
  {
    var page := Page(events, version);
    FoldContinues(ModuleOf(cfg, w), events, version, page, |page|);
  }

  /** What one step of a runner does to the store: nothing, or one atomic change. */
  ghost function StoreSteps<S, C, E>(cfg: Config<S, C, E>, s: System<S, C, E>, a: Action<C, E>): seq<StoreStep<C, E>> {
    if Do(cfg, s, a).store == s.store then []
    else match a
      case Submit(w) => (match LocalOf(s, w)
                         case Loaded(call, _, _, _) => [Land(ByCommand(w, call.command))]
                         case _ => [])
      case WriteSnapshot(w) => (match LocalOf(s, w)
                                case Staged(_, _, version) => [PutSnapshot(cfg.tagOf(w), version)]
                                case _ => [])
      case RawAppend(events) => [Land(Raw(events))]
      case DeleteSnapshot => [DropSnapshot]
      case _ => []
  }

  lemma OneStep<S, C, E>(cfg: Config<S, C, E>, st: Store<S, C, E>, steps: seq<StoreStep<C, E>>)
    requires |steps| <= 1
    ensures AtomicAll(cfg, st, steps) == if steps == [] then st else Atomic(cfg, st, steps[0])
  {
    if steps != [] {
      assert AtomicAll(cfg, st, steps[..0]) == st;
    }
  }

  lemma AcceptedSubmit<S, C, E>(cfg: Config<S, C, E>, s: System<S, C, E>, w: Writer)
    requires Inv(cfg, s) && SafeStep(cfg, s, Submit(w)) && LocalOf(s, w).Loaded?
    ensures var t := DoSubmit(cfg, s, w); var l := LocalOf(s, w);
      t.store != s.store ==>
        && t.store == Atomic(cfg, s.store, Land(ByCommand(w, l.call.command)))
        && l.version == |s.store.events|
        && LocalOf(t, w).Staged? && LocalFits(cfg, t.store, w, LocalOf(t, w))
  {
    var t, l := DoSubmit(cfg, s, w), s.locals[w];
    if t.store != s.store {
      assert LocalFits(cfg, s.store, w, l);
      var events := cfg.execute(w, l.state, l.call.command).events;
      FoldResumes(ModuleOf(cfg, w), s.store.events, events);
    }
  }

  /** Every interleaved step is, on the store, an atomic step of the serial reference. */
  lemma StepIsAtomic<S, C, E>(cfg: Config<S, C, E>, s: System<S, C, E>, a: Action<C, E>)
    requires Inv(cfg, s) && SafeStep(cfg, s, a)
    ensures Do(cfg, s, a).store == AtomicAll(cfg, s.store, StoreSteps(cfg, s, a))
  {
    OneStep(cfg, s.store, StoreSteps(cfg, s, a));
    if a.Submit? && LocalOf(s, a.w).Loaded? {
      AcceptedSubmit(cfg, s, a.w);
    } else if a.WriteSnapshot? && LocalOf(s, a.w).Staged? {
      assert LocalFits(cfg, s.store, a.w, s.locals[a.w]);
    }
  }

  lemma MoverFits<S, C, E>(cfg: Config<S, C, E>, s: System<S, C, E>, a: Action<C, E>)
    requires Inv(cfg, s) && SafeStep(cfg, s, a) && !a.RawAppend? && !a.DeleteSnapshot? && !a.Submit?
    ensures LocalFits(cfg, Do(cfg, s, a).store, a.w, LocalOf(Do(cfg, s, a), a.w))
  {
    var l := LocalOf(s, a.w);
    assert LocalFits(cfg, s.store, a.w, l);
    if a.ReadPage? && l.Paging? {
      PageKeepsPrefixFold(cfg, s.store.events, a.w, l.state, l.version);
    }
  }

  lemma SubmitterFits<S, C, E>(cfg: Config<S, C, E>, s: System<S, C, E>, w: Writer)
    requires Inv(cfg, s) && SafeStep(cfg, s, Submit(w))
    ensures LocalFits(cfg, DoSubmit(cfg, s, w).store, w, LocalOf(DoSubmit(cfg, s, w), w))
  {
    var l := LocalOf(s, w);
    assert LocalFits(cfg, s.store, w, l);
    if l.Loaded? {
      AcceptedSubmit(cfg, s, w);
    }
  }

  lemma StepKeepsInv<S, C, E>(cfg: Config<S, C, E>, s: System<S, C, E>, a: Action<C, E>)
    requires Inv(cfg, s) && SafeStep(cfg, s, a)
    ensures Inv(cfg, Do(cfg, s, a)) && Extends(s.store, Do(cfg, s, a).store)
  {
    var t := Do(cfg, s, a);
    StepIsAtomic(cfg, s, a);
    AtomicAllKeepsStoreInv(cfg, s.store, StoreSteps(cfg, s, a));
    if a.Submit? {
      SubmitterFits(cfg, s, a.w);
    } else if !a.RawAppend? && !a.DeleteSnapshot? {
      MoverFits(cfg, s, a);
    }
    OthersFit(cfg, s, a);
    RivalsStay(cfg, s, a);
  }

  lemma RivalsStay<S, C, E>(cfg: Config<S, C, E>, s: System<S, C, E>, a: Action<C, E>)
    requires forall w | w in s.locals && UnderWay(s.locals[w]) :: OnlyRivals(s.store.commits, w, s.locals[w].call.base)
    ensures var t := Do(cfg, s, a);
      forall w | w in t.locals && UnderWay(t.locals[w]) :: OnlyRivals(t.store.commits, w, t.locals[w].call.base)
  {
    var t := Do(cfg, s, a);
    forall w | w in t.locals && UnderWay(t.locals[w]) ensures OnlyRivals(t.store.commits, w, t.locals[w].call.base) {
      if w in s.locals && UnderWay(s.locals[w]) {
        assert OnlyRivals(s.store.commits, w, s.locals[w].call.base);
      }
    }
  }

  lemma OthersFit<S, C, E>(cfg: Config<S, C, E>, s: System<S, C, E>, a: Action<C, E>)
    requires Inv(cfg, s) && Extends(s.store, Do(cfg, s, a).store)
    ensures var t := Do(cfg, s, a);
      forall v | v in t.locals && (a.RawAppend? || a.DeleteSnapshot? || v != a.w) :: LocalFits(cfg, t.store, v, t.locals[v])
  {
    var t := Do(cfg, s, a);
    forall v | v in t.locals && (a.RawAppend? || a.DeleteSnapshot? || v != a.w)
      ensures LocalFits(cfg, t.store, v, t.locals[v])
    {
      LocalStays(cfg, s.store, t.store, v, s.locals[v]);
    }
  }

  lemma {:induction false} RunKeepsInv<S, C, E>(cfg: Config<S, C, E>, s: System<S, C, E>, run: seq<Action<C, E>>)
    requires Inv(cfg, s) && SafeRun(cfg, s, run)
    ensures Inv(cfg, Exec(cfg, s, run)) && Extends(s.store, Exec(cfg, s, run).store)
    decreases |run|
  {
    if run != [] {
      var before := run[..|run| - 1];
      RunKeepsInv(cfg, s, before);
      StepKeepsInv(cfg, Exec(cfg, s, before), run[|run| - 1]);
      ExtendsChain(s.store, Exec(cfg, s, before).store, Exec(cfg, s, run).store);
    }
  }

  // ---------------------------------------------------------------- what every run guarantees

  /** `s` is reached from an empty stream by a run whose accepted explicit assertions skip nothing. */
  ghost predicate Reached<S, C, E>(cfg: Config<S, C, E>, run: seq<Action<C, E>>, s: System<S, C, E>) {
    SafeRun(cfg, Initial(), run) && s == Exec(cfg, Initial(), run)
  }

  lemma ReachedInv<S, C, E>(cfg: Config<S, C, E>, run: seq<Action<C, E>>, s: System<S, C, E>)
    requires Reached(cfg, run, s)
    ensures Inv(cfg, s)
  {
    RunKeepsInv(cfg, Initial(), run);
  }

  /**
   Serialisability: the stream is what running the accepted commits alone, one after the other
   in append order, produces, although each runner read its pages at different times.
   */
  lemma StreamIsSerialRun<S, C, E>(cfg: Config<S, C, E>, run: seq<Action<C, E>>, s: System<S, C, E>)
    requires Reached(cfg, run, s)
    ensures s.store.events == SerialRun(cfg, s.store.commits)
  {
    ReachedInv(cfg, run, s);
  }

  lemma ReadPageLoads<S, C, E>(cfg: Config<S, C, E>, s: System<S, C, E>, w: Writer)
    requires LocalOf(s, w).Paging? && IsPrefixFold(cfg, s.store.events, w, LocalOf(s, w).state, LocalOf(s, w).version)
    ensures var l := LocalOf(Do(cfg, s, ReadPage(w)), w);
      l.Loaded? ==> l.version == |s.store.events| && l.state == Fold(ModuleOf(cfg, w), s.store.events)
  {
    PageKeepsPrefixFold(cfg, s.store.events, w, s.locals[w].state, s.locals[w].version);
  }

  lemma LocalOfRun<S, C, E>(cfg: Config<S, C, E>, run: seq<Action<C, E>>, s: System<S, C, E>, w: Writer)
    requires Reached(cfg, run, s)
    ensures LocalFits(cfg, s.store, w, LocalOf(s, w))
  {
    ReachedInv(cfg, run, s);
  }

  /** Whatever snapshot is stored, a load by any module version returns that version's own full fold. */
  lemma LoadIsOwnFullFold<S, C, E>(cfg: Config<S, C, E>, run: seq<Action<C, E>>, s: System<S, C, E>, w: Writer)
    requires Reached(cfg, run, s) && LocalOf(s, w).Paging?
    ensures var l := LocalOf(Do(cfg, s, ReadPage(w)), w);
      l.Loaded? ==> l.version == |s.store.events| && l.state == Fold(ModuleOf(cfg, w), s.store.events)
  {
    LocalOfRun(cfg, run, s, w);
    ReadPageLoads(cfg, s, w);
  }

  /** Racing writers, older snapshots over newer ones, several versions: a stored snapshot is always a prefix fold. */
  lemma StoredSnapshotIsFold<S, C, E>(cfg: Config<S, C, E>, run: seq<Action<C, E>>, s: System<S, C, E>)
    requires Reached(cfg, run, s) && s.store.snap.Some?
    ensures var snap := s.store.snap.value;
      && snap.version <= |s.store.events|
      && snap.data == FoldTo(cfg.modules(snap.tag), s.store.events, snap.version)
  {
    ReachedInv(cfg, run, s);
  }

  /** Retry-budget sufficiency: exhaustion takes exactly budget + 1 attempts and at least as many commits by others. */
  lemma ExhaustionNeedsRivals<S, C, E>(cfg: Config<S, C, E>, run: seq<Action<C, E>>, s: System<S, C, E>, w: Writer)
    requires Reached(cfg, run, s) && LocalOf(s, w).BudgetExhausted?
    ensures var call := LocalOf(s, w).call;
      && call.attempt == call.budget + 1
      && |s.store.commits| - call.base >= call.budget + 1
      && OnlyRivals(s.store.commits, w, call.base)
  {
    ReachedInv(cfg, run, s);
    assert LocalFits(cfg, s.store, w, s.locals[w]);
  }

  ghost predicate AllDefault<S, C, E>(s: System<S, C, E>) {
    forall w | w in s.locals && !s.locals[w].Idle? :: s.locals[w].call.explicit.None?
  }

  lemma StepKeepsDefault<S, C, E>(cfg: Config<S, C, E>, s: System<S, C, E>, a: Action<C, E>)
    requires AllDefault(s) && (a.Begin? ==> a.explicit.None?)
    ensures AllDefault(Do(cfg, s, a))
  {
  }

  lemma {:induction false} DefaultStaysDefault<S, C, E>(cfg: Config<S, C, E>, s: System<S, C, E>, run: seq<Action<C, E>>)
    requires AllDefault(s) && forall a | a in run :: a.Begin? ==> a.explicit.None?
    ensures AllDefault(Exec(cfg, s, run))
    decreases |run|
  {
    if run != [] {
      assert run[|run| - 1] in run;
      DefaultStaysDefault(cfg, s, run[..|run| - 1]);
      StepKeepsDefault(cfg, Exec(cfg, s, run[..|run| - 1]), run[|run| - 1]);
    }
  }

  /** When nobody supplies an expected version every run is safe. */
  lemma {:induction false} DefaultRunsAreSafe<S, C, E>(cfg: Config<S, C, E>, run: seq<Action<C, E>>)
    requires forall a | a in run :: a.Begin? ==> a.explicit.None?
    ensures SafeRun(cfg, Initial(), run)
    decreases |run|
  {
    if run != [] {
      DefaultRunsAreSafe(cfg, run[..|run| - 1]);
      DefaultStaysDefault(cfg, Initial(), run[..|run| - 1]);
    }
  }
}
