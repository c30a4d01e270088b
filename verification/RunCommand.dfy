/**
 One command runner against the client, with other runners acting between its calls.
 `rivals[i]` is what the others do to this stream just before this runner's call number `i`;
 AggregateProtocol.StepIsAtomic is why that is always a list of atomic store steps.
 */
module RunCommand {
  import opened Wrappers
  import opened Replay
  import opened AggregateProtocol

  datatype Executed<+S, +E> =
    | Appended(events: seq<E>, state: S, version: nat, since: nat)
    | NoOp(state: S, version: nat, since: nat)
    | Rejects
    | WrongVersion
    | Exhausted(attempts: nat)

  type Policy<!S> = (S, nat, nat) -> bool

  /** The version a load by `w` starts from. */
  function Baseline<S, C, E>(cfg: Config<S, C, E>, w: Writer, st: Store<S, C, E>): nat {
    if st.snap.Some? && st.snap.value.tag == cfg.tagOf(w) then st.snap.value.version else 0
  }

  /** The store when nobody but the rivals acts before calls `lo` to `hi`. */
  function RivalsOnly<S, C, E>(cfg: Config<S, C, E>, rivals: seq<seq<StoreStep<C, E>>>, st: Store<S, C, E>, lo: nat, hi: nat)
    : Store<S, C, E>
    decreases hi
  {
    if hi <= lo then st
    else AtomicAll(cfg, RivalsOnly(cfg, rivals, st, lo, hi - 1), Before(rivals, hi - 1))
  }

  function Before<C, E>(rivals: seq<seq<StoreStep<C, E>>>, i: nat): seq<StoreStep<C, E>> {
    if i < |rivals| then rivals[i] else []
  }

  lemma {:induction false} RivalsOnlyExtends<S, C, E>(cfg: Config<S, C, E>, rivals: seq<seq<StoreStep<C, E>>>, st: Store<S, C, E>,
                                                      lo: nat, hi: nat)
    requires StoreInv(cfg, st)
    ensures var st' := RivalsOnly(cfg, rivals, st, lo, hi); StoreInv(cfg, st') && Extends(st, st')
    decreases hi
  {
    if lo < hi {
      RivalsOnlyExtends(cfg, rivals, st, lo, hi - 1);
      var before := RivalsOnly(cfg, rivals, st, lo, hi - 1);
      AtomicAllKeepsStoreInv(cfg, before, Before(rivals, hi - 1));
      ExtendsChain(st, before, RivalsOnly(cfg, rivals, st, lo, hi));
    }
  }

  lemma OneMoreCall<S, C, E>(cfg: Config<S, C, E>, rivals: seq<seq<StoreStep<C, E>>>, st: Store<S, C, E>, lo: nat, hi: nat)
    requires lo <= hi
    ensures RivalsOnly(cfg, rivals, st, lo, hi + 1) == AtomicAll(cfg, RivalsOnly(cfg, rivals, st, lo, hi), Before(rivals, hi))
  {
  }

  lemma {:induction false} RivalsOnlyChain<S, C, E>(cfg: Config<S, C, E>, rivals: seq<seq<StoreStep<C, E>>>, st: Store<S, C, E>,
                                                    lo: nat, mid: nat, hi: nat)
    requires lo <= mid <= hi
    ensures RivalsOnly(cfg, rivals, RivalsOnly(cfg, rivals, st, lo, mid), mid, hi) == RivalsOnly(cfg, rivals, st, lo, hi)
    decreases hi
  {
    if mid < hi {
      RivalsOnlyChain(cfg, rivals, st, lo, mid, hi - 1);
    }
  }

  lemma MismatchNeedsCommit<S, C, E>(cfg: Config<S, C, E>, before: Store<S, C, E>, after: Store<S, C, E>)
    requires StoreInv(cfg, before) && StoreInv(cfg, after) && Extends(before, after)
    requires |after.events| != |before.events|
    ensures |after.commits| > |before.commits|
  {
    if |after.commits| <= |before.commits| {
      SerialPrefix(cfg, before.commits, after.commits, |before.commits|);
    }
  }

  /** Reads it takes to page through `folded` events of a stream that stands still. */
  function PagesFor(folded: nat): nat {
    folded / LOAD_PAGE_SIZE + 1
  }

  lemma ShortPage(full: nat, folded: nat)
    requires LOAD_PAGE_SIZE * full <= folded
    ensures folded < LOAD_PAGE_SIZE * full + LOAD_PAGE_SIZE <==> PagesFor(folded) == full + 1
  {
  }

  /** Events that landed right after the loaded ones extend the loaded fold to the whole stream. */
  lemma AppendKeepsFold<S, C, E>(cfg: Config<S, C, E>, w: Writer, rest: seq<E>, loaded: S, version: nat, events: seq<E>)
    requires version <= |rest| && loaded == FoldTo(ModuleOf(cfg, w), rest, version)
    ensures version == |rest| ==> FoldFrom(ModuleOf(cfg, w), loaded, events) == Fold(ModuleOf(cfg, w), rest + events)
  {
    FoldResumes(ModuleOf(cfg, w), rest, events);
  }

  /** What `executeCommand` counts as folded since the baseline when the stream has `head` events. */
  function Since<S, C, E>(cfg: Config<S, C, E>, w: Writer, st: Store<S, C, E>, head: nat): nat {
    if head < Baseline(cfg, w, st) then 0 else head - Baseline(cfg, w, st)
  }

  /** One command of a stream's only writer: its events land, and the policy may add a snapshot. */
  function SoleStep<S, C, E>(cfg: Config<S, C, E>, w: Writer, policy: Option<Policy<S>>, st: Store<S, C, E>, command: C, fails: bool)
    : Store<S, C, E>
  {
    var landed := Atomic(cfg, st, Land(ByCommand(w, command)));
    if |landed.events| == |st.events| || policy.None? || fails then landed
    else
      var state := Fold(ModuleOf(cfg, w), landed.events);
      if policy.value(state, |landed.events|, Since(cfg, w, st, |landed.events|))
      then landed.(snap := Some(Snapshot(cfg.tagOf(w), |landed.events|, state)))
      else landed
  }

  class Runner<S, C, E> {
    const cfg: Config<S, C, E>
    const me: Writer
    const rivals: seq<seq<StoreStep<C, E>>>
    var store: Store<S, C, E>
    var calls: nat

    ghost predicate Valid()
      reads this
    {
      StoreInv(cfg, store)
    }

    /** Nobody else acts from now on. */
    ghost predicate Quiet()
      reads this
    {
      forall i: nat | calls <= i :: Before(rivals, i) == []
    }

    ghost function M(): Module<S, E> {
      ModuleOf(cfg, me)
    }

    constructor (cfg: Config<S, C, E>, me: Writer, rivals: seq<seq<StoreStep<C, E>>>)
      ensures Valid() && store == Store([], None, []) && calls == 0
      ensures this.cfg == cfg && this.me == me && this.rivals == rivals
    {
      this.cfg, this.me, this.rivals := cfg, me, rivals;
      store, calls := Store([], None, []), 0;
    }

    /** A client call reaches the store after whatever the others managed to do first. */
    method Call()
      modifies this
      ensures old(Valid()) ==> Valid() && Extends(old(store), store)
      ensures calls == old(calls) + 1 && store == AtomicAll(cfg, old(store), Before(rivals, old(calls)))
      ensures old(Quiet()) ==> Quiet() && store == old(store)
    {
      if Valid() {
        AtomicAllKeepsStoreInv(cfg, store, Before(rivals, calls));
      }
      store := AtomicAll(cfg, store, Before(rivals, calls));
      calls := calls + 1;
    }

    /** Folds the rows of one page, keeping the version and the counter in step. */
    method FoldRows(state: S, version: nat, since: nat, rows: seq<E>) returns (state': S, version': nat, since': nat)
      ensures state' == FoldFrom(M(), state, rows) && version' == version + |rows| && since' == since + |rows|
    {
      state', version', since' := state, version, since;
      for i := 0 to |rows|
        invariant state' == FoldFromTo(M(), state, rows, i) && version' == version + i && since' == since + i
      {
        state' := ModuleOf(cfg, me).apply(state', rows[i]);
        version', since' := version' + 1, since' + 1;
      }
    }

    /** One page read, from the version after `version` on; a short page ends the stream. */
    method ReadPage(state: S, version: nat) returns (page: seq<E>)
      requires Valid() && IsPrefixFold(cfg, store.events, me, state, version)
      modifies this
      ensures Valid() && Extends(old(store), store) && calls == old(calls) + 1
      ensures store == AtomicAll(cfg, old(store), Before(rivals, old(calls)))
      ensures old(Quiet()) ==> Quiet() && store == old(store)
      ensures IsPrefixFold(cfg, store.events, me, FoldFrom(M(), state, page), version + |page|)
      ensures |page| <= LOAD_PAGE_SIZE && (|page| < LOAD_PAGE_SIZE ==> version + |page| == |store.events|)
    {
      ghost var was := store;
      Call();
      PrefixFoldStays(cfg, was.events, store.events, me, state, version);
      PageKeepsPrefixFold(cfg, store.events, me, state, version);
      page := Page(store.events, version);
    }

    /** One turn of the paging loop: `done` when the page was short. */
    method NextPage(state: S, version: nat, since: nat) returns (state': S, version': nat, since': nat, done: bool)
      requires Valid() && IsPrefixFold(cfg, store.events, me, state, version)
      modifies this
      ensures Valid() && Extends(old(store), store) && calls == old(calls) + 1
      ensures store == AtomicAll(cfg, old(store), Before(rivals, old(calls)))
      ensures old(Quiet()) ==> Quiet() && store == old(store)
      ensures IsPrefixFold(cfg, store.events, me, state', version')
      ensures version <= version' && since' - since == version' - version
      ensures if done then version' - version < LOAD_PAGE_SIZE && version' == |store.events|
              else version' - version == LOAD_PAGE_SIZE
    {
      var page := ReadPage(state, version);
      state', version', since' := FoldRows(state, version, since, page);
      done := |page| < LOAD_PAGE_SIZE;
    }

    /** The snapshot read of a load: its state and version when the tags agree, else the beginning. */
    method ReadBaseline() returns (state: S, version: nat)
      requires Valid()
      modifies this
      ensures Valid() && Extends(old(store), store) && calls == old(calls) + 1
      ensures store == AtomicAll(cfg, old(store), Before(rivals, old(calls)))
      ensures old(Quiet()) ==> Quiet() && store == old(store)
      ensures IsPrefixFold(cfg, store.events, me, state, version) && version == Baseline(cfg, me, store)
    {
      Call();
      state, version := ModuleOf(cfg, me).initial, 0;
      if store.snap.Some? && store.snap.value.tag == cfg.tagOf(me) {
        state, version := store.snap.value.data, store.snap.value.version;
      }
    }

    /** The paging loop.  With nobody else about it takes PagesFor(since) reads. */
    method PageForward(state0: S, version0: nat) returns (state: S, version: nat, since: nat)
      requires Valid() && IsPrefixFold(cfg, store.events, me, state0, version0)
      modifies this
      ensures Valid() && calls >= old(calls)
      ensures store == RivalsOnly(cfg, rivals, old(store), old(calls), calls)
      ensures version == |store.events| && IsPrefixFold(cfg, store.events, me, state, version)
      ensures version == version0 + since
      ensures old(Quiet()) ==> Quiet() && store == old(store) && calls - old(calls) == PagesFor(since)
    {
      ghost var st0, calls0, quiet := store, calls, Quiet();
      state, version, since := state0, version0, 0;
      var done := false;
      ghost var pages: nat := 0;
      while !done
        invariant Valid() && calls == calls0 + pages
        invariant store == RivalsOnly(cfg, rivals, st0, calls0, calls)
        invariant IsPrefixFold(cfg, store.events, me, state, version) && version == version0 + since
        invariant quiet ==> Quiet() && store == st0
        invariant if done then version == |store.events| && PagesFor(since) == pages else since == LOAD_PAGE_SIZE * pages
        decreases !done, if calls < |rivals| then |rivals| - calls else 0, |store.events| - version
      {
        state, version, since, done := NextPage(state, version, since);
        ShortPage(pages, since);
        pages := pages + 1;
      }
    }

    /** `loadAggregate`: the state of the whole stream, whatever snapshot was there and whatever was appended between pages. */
    method LoadAggregate() returns (state: S, version: nat, since: nat)
      requires Valid()
      modifies this
      ensures Valid() && calls > old(calls) && |old(store).commits| <= |store.commits|
      ensures store == RivalsOnly(cfg, rivals, old(store), old(calls), calls)
      ensures version == |store.events| && state == Fold(M(), store.events)
      ensures old(Quiet()) ==>
        && Quiet() && store == old(store)
        && since == Since(cfg, me, store, |store.events|)
        && calls - old(calls) == 1 + PagesFor(since) == 2 + since / 500
    {
      ghost var st0, calls0 := store, calls;
      state, version := ReadBaseline();
      ghost var calls1 := calls;
      state, version, since := PageForward(state, version);
      RivalsOnlyChain(cfg, rivals, st0, calls0, calls1, calls);
      RivalsOnlyExtends(cfg, rivals, st0, calls0, calls);
    }

    /**
     What the answer `r` says when `rest` is the stream as the rivals alone would have left it and
     `landed` the stream the command left.
     */
    ghost predicate Meets(r: Executed<S, E>, command: C, explicit: Option<Expected>, rest: Store<S, C, E>, landed: Store<S, C, E>) {
      match r
      case Appended(events, state, version, _) =>
        // the events of `execute` on the fold of the loaded prefix, landed on what the rivals left
        && version <= |rest.events| && state == FoldTo(M(), rest.events, version)
        && events != [] && cfg.execute(me, state, command) == Emits(events)
        && Accepts(AssertionOf(explicit, version), |rest.events|)
        && landed == Store(rest.events + events, rest.snap, rest.commits + [ByCommand(me, command)])
      case NoOp(state, version, _) =>
        && landed == rest && version == |rest.events| && state == Fold(M(), rest.events)
        && cfg.execute(me, state, command) == Emits([])
      case Rejects => landed == rest && cfg.execute(me, Fold(M(), rest.events), command).Rejected?
      case WrongVersion => landed == rest && explicit.Some? && !Accepts(explicit.value, |rest.events|)
      case Exhausted(_) => landed == rest && explicit.None?
    }

    /** The whole promise of one command, from the store `st` it began on to the store `landed` it left. */
    ghost predicate Answered(r: Executed<S, E>, command: C, explicit: Option<Expected>, budget: nat,
                             st: Store<S, C, E>, rest: Store<S, C, E>, landed: Store<S, C, E>, alone: bool) {
      && StoreInv(cfg, rest)
      && Meets(r, command, explicit, rest, landed)
      && (r.Exhausted? ==> r.attempts == budget + 1 && |rest.commits| - |st.commits| >= r.attempts)
      && (alone ==> rest == st)
      && (alone && (r.Appended? || r.NoOp?) ==> r.version == |st.events| && r.since == Since(cfg, me, st, |st.events|))
    }

    /** The calls of one attempt on a stream that stands still: the snapshot, the pages, and an append if there is one to make. */
    function CallsAlone(r: Executed<S, E>, st: Store<S, C, E>): nat {
      1 + PagesFor(Since(cfg, me, st, |st.events|)) + if r.Appended? || r.WrongVersion? || r.Exhausted? then 1 else 0
    }

    /**
     `appendToStream` of the events just decided on, in an attempt that began on `st`; only the
     default assertion can be lost to a rival.
     */
    method Submit(command: C, explicit: Option<Expected>, events: seq<E>, state: S, version: nat, since: nat,
                  ghost st: Store<S, C, E>, ghost alone: bool) returns (r: Executed<S, E>)
      requires Valid() && version == |store.events| && state == Fold(M(), store.events)
      requires events != [] && cfg.execute(me, state, command) == Emits(events)
      requires |st.commits| <= |store.commits|
      requires alone ==> Quiet() && store == st && since == Since(cfg, me, st, |st.events|)
      modifies this
      ensures calls == old(calls) + 1
      ensures Answered(r, command, explicit, 0, st, AtomicAll(cfg, old(store), Before(rivals, old(calls))), store, alone)
      ensures alone ==> Quiet()
    {
      ghost var loaded := store;
      Call();
      PrefixFoldStays(cfg, loaded.events, store.events, me, state, version);
      if Accepts(AssertionOf(explicit, version), |store.events|) {
        store := Store(store.events + events, store.snap, store.commits + [ByCommand(me, command)]);
        return Appended(events, state, version, since);
      }
      if explicit.Some? {
        return WrongVersion;
      }
      MismatchNeedsCommit(cfg, loaded, store);
      return Exhausted(1);
    }

    /** One attempt: a command with no retries. */
    method Attempt(command: C, explicit: Option<Expected>) returns (r: Executed<S, E>)
      requires Valid()
      modifies this
      ensures calls > old(calls)
      ensures Answered(r, command, explicit, 0, old(store), RivalsOnly(cfg, rivals, old(store), old(calls), calls), store, old(Quiet()))
      ensures old(Quiet()) ==> Quiet() && calls == old(calls) + CallsAlone(r, old(store))
      ensures r.Exhausted? ==> !old(Quiet())
    {
      ghost var st, first, alone := store, calls, Quiet();
      var state, version, since := LoadAggregate();
      ghost var loaded, n := store, calls;
      match cfg.execute(me, state, command)
      case Rejected => r := Rejects;
      case Emits(events) =>
        if events == [] {
          r := NoOp(state, version, since);
        } else {
          r := Submit(command, explicit, events, state, version, since, st, alone);
          OneMoreCall(cfg, rivals, st, first, n);
        }
    }

    /**
     `executeCommand`: load, execute, append; only a mismatch of the default assertion is
     retried.  Whatever the answer, `rest` is what the rivals alone would have made of the
     stream; giving up takes budget + 1 attempts and at least as many rival commits.  An explicit
     version is tried once, and alone any command is one load and at most one append.
     */
    method ExecuteCommand(command: C, explicit: Option<Expected>, budget: nat) returns (r: Executed<S, E>, attempts: nat)
      requires Valid()
      modifies this
      ensures calls >= old(calls)
      ensures Answered(r, command, explicit, budget, old(store), RivalsOnly(cfg, rivals, old(store), old(calls), calls), store, old(Quiet()))
      ensures 1 <= attempts <= budget + 1 && (explicit.Some? ==> attempts == 1)
      ensures old(Quiet()) ==> Quiet() && attempts == 1 && calls == old(calls) + CallsAlone(r, old(store))
    {
      ghost var st0, calls0, quiet := store, calls, Quiet();
      var attempt: nat := 0;
      while attempt <= budget
        invariant Valid() && attempt <= budget + 1 && calls >= calls0
        invariant store == RivalsOnly(cfg, rivals, st0, calls0, calls)
        invariant |store.commits| >= |st0.commits| + attempt
        invariant attempt > 0 ==> explicit.None?
        invariant quiet ==> Quiet() && store == st0 && attempt == 0 && calls == calls0
      {
        attempt := attempt + 1;
        ghost var calls1 := calls;
        var answer := Attempt(command, explicit);
        RivalsOnlyChain(cfg, rivals, st0, calls0, calls1, calls);
        if !answer.Exhausted? {
          return answer, attempt;
        }
      }
      return Exhausted(attempt), attempt;
    }

    /** The post-append fold of `runCommandAndApply` on the answer `r`. */
    method Apply(r: Executed<S, E>, command: C, explicit: Option<Expected>, ghost rest: Store<S, C, E>)
      returns (state: Option<S>, version: nat, since: nat)
      requires Meets(r, command, explicit, rest, store)
      ensures state.Some? <==> r.Appended? || r.NoOp?
      ensures r.NoOp? ==> state.value == Fold(M(), store.events) && version == |store.events| && since == r.since
      ensures r.Appended? ==> version == |store.events| && since == r.since + |r.events| && state.value == FoldFrom(M(), r.state, r.events)
      ensures r.Appended? && r.version + |r.events| == version ==> state.value == Fold(M(), store.events)
      ensures r.Appended? && explicit.None? ==> r.version + |r.events| == version
    {
      state, version, since := None, 0, 0;
      match r
      case NoOp(s, v, n) => state, version, since := Some(s), v, n;
      case Appended(events, s, v, n) =>
        var staged, _, counted := FoldRows(s, v, n, events);
        state, version, since := Some(staged), |store.events|, counted;
        AppendKeepsFold(cfg, me, rest.events, s, v, events);
      case _ =>
    }

    /**
     `runCommandAndApply`: also folds the appended events onto the loaded state.  The result is
     the fold of the whole stream whenever the events landed right after the loaded ones.
     */
    method RunCommandAndApply(command: C, explicit: Option<Expected>, budget: nat)
      returns (r: Executed<S, E>, state: Option<S>, version: nat, since: nat)
      requires Valid()
      modifies this
      ensures calls >= old(calls)
      ensures Answered(r, command, explicit, budget, old(store), RivalsOnly(cfg, rivals, old(store), old(calls), calls), store, old(Quiet()))
      ensures old(Quiet()) ==> Quiet()
      ensures state.Some? <==> r.Appended? || r.NoOp?
      ensures r.NoOp? ==> state.value == Fold(M(), store.events) && version == |store.events| && since == r.since
      ensures r.Appended? ==> version == |store.events| && since == r.since + |r.events| && state.value == FoldFrom(M(), r.state, r.events)
      ensures r.Appended? && r.version + |r.events| == version ==> state.value == Fold(M(), store.events)
      ensures r.Appended? && explicit.None? ==> r.version + |r.events| == version
    {
      ghost var st0, calls0 := store, calls;
      var attempts;
      r, attempts := ExecuteCommand(command, explicit, budget);
      state, version, since := Apply(r, command, explicit, RivalsOnly(cfg, rivals, st0, calls0, calls));
    }

    /** An answer that did not skip events leaves a store whose parts all agree. */
    lemma AnsweredIsValid(r: Executed<S, E>, command: C, explicit: Option<Expected>, rest: Store<S, C, E>)
      requires StoreInv(cfg, rest) && Meets(r, command, explicit, rest, store)
      requires r.Appended? ==> r.version + |r.events| == |store.events|
      ensures Valid()
    {
      if r.Appended? {
        assert store == Atomic(cfg, rest, Land(ByCommand(me, command)));
        AtomicKeepsStoreInv(cfg, rest, Land(ByCommand(me, command)));
      }
    }

    /** With nobody else about, a default command lands exactly its own events. */
    lemma AloneLands(r: Executed<S, E>, command: C, budget: nat, st: Store<S, C, E>)
      requires Answered(r, command, None, budget, st, st, store, true)
      ensures store == Atomic(cfg, st, Land(ByCommand(me, command)))
      ensures r.Appended? <==> |store.events| > |st.events|
      ensures r.Appended? ==> r.since + |r.events| == Since(cfg, me, st, |store.events|)
    {
    }

    /** What a snapshot write that is call number `n` makes of `st`, after the rivals; best effort. */
    function Recorded(st: Store<S, C, E>, n: nat, state: S, version: nat, fails: bool): Store<S, C, E> {
      var met := AtomicAll(cfg, st, Before(rivals, n));
      if fails then met else met.(snap := Some(Snapshot(cfg.tagOf(me), version, state)))
    }

    /** `recordSnapshot`, best effort: when it fails the store is left as it was. */
    method RecordSnapshot(state: S, version: nat, fails: bool)
      modifies this
      ensures calls == old(calls) + 1 && store == Recorded(old(store), old(calls), state, version, fails)
      ensures old(Valid()) && IsPrefixFold(cfg, old(store).events, me, state, version) ==> Valid()
      ensures old(Quiet()) ==> Quiet()
    {
      ghost var was := store;
      Call();
      if !fails {
        if StoreInv(cfg, was) && IsPrefixFold(cfg, was.events, me, state, version) {
          PrefixFoldStays(cfg, was.events, store.events, me, state, version);
        }
        store := store.(snap := Some(Snapshot(cfg.tagOf(me), version, state)));
      }
    }

    /** So the reference step is what landed, plus the snapshot the policy asks for. */
    lemma AloneIsSoleStep(r: Executed<S, E>, command: C, budget: nat, st: Store<S, C, E>, policy: Option<Policy<S>>, fails: bool)
      requires Answered(r, command, None, budget, st, st, store, true)
      ensures SoleStep(cfg, me, policy, st, command, fails) ==
        if r.Appended? && policy.Some? && policy.value(Fold(M(), store.events), |store.events|, r.since + |r.events|) && !fails
        then store.(snap := Some(Snapshot(cfg.tagOf(me), |store.events|, Fold(M(), store.events))))
        else store
    {
      AloneLands(r, command, budget, st);
    }

    /** The policy's turn after a successful command. */
    method MaybeSnapshot(state: S, version: nat, since: nat, policy: Policy<S>, fails: bool)
      modifies this
      ensures (store, calls) ==
        if policy(state, version, since) then (Recorded(old(store), old(calls), state, version, fails), old(calls) + 1)
        else (old(store), old(calls))
      ensures old(Valid()) && IsPrefixFold(cfg, old(store).events, me, state, version) ==> Valid()
      ensures old(Quiet()) ==> Quiet()
    {
      if policy(state, version, since) {
        RecordSnapshot(state, version, fails);
      }
    }

    /** What the policy's turn makes of the store `landed` after the command's `n` calls. */
    function AfterPolicy(r: Executed<S, E>, landed: Store<S, C, E>, n: nat, policy: Option<Policy<S>>, fails: bool): (Store<S, C, E>, nat) {
      if !r.Appended? || policy.None? then (landed, n)
      else
        var state, version := FoldFrom(ModuleOf(cfg, me), r.state, r.events), |landed.events|;
        if policy.value(state, version, r.since + |r.events|) then (Recorded(landed, n, state, version, fails), n + 1)
        else (landed, n)
    }

    method PolicyTurn(r: Executed<S, E>, state: Option<S>, version: nat, since: nat, policy: Option<Policy<S>>, fails: bool)
      requires r.Appended? ==> version == |store.events| && since == r.since + |r.events|
      requires r.Appended? ==> state == Some(FoldFrom(M(), r.state, r.events))
      modifies this
      ensures (store, calls) == AfterPolicy(r, old(store), old(calls), policy, fails)
      ensures old(Valid()) && (r.Appended? ==> IsPrefixFold(cfg, old(store).events, me, state.value, version)) ==> Valid()
      ensures old(Quiet()) ==> Quiet()
    {
      if r.Appended? && policy.Some? {
        MaybeSnapshot(state.value, version, since, policy.value, fails);
      }
    }

    /** Without rivals a policy's turn after default events is the reference step's. */
    lemma AloneAfterPolicy(r: Executed<S, E>, command: C, budget: nat, st: Store<S, C, E>, n: nat, policy: Option<Policy<S>>, fails: bool)
      requires Answered(r, command, None, budget, st, st, store, true) && Before(rivals, n) == []
      requires r.Appended? ==> FoldFrom(M(), r.state, r.events) == Fold(M(), store.events)
      ensures AfterPolicy(r, store, n, policy, fails).0 == SoleStep(cfg, me, policy, st, command, fails)
    {
      AloneIsSoleStep(r, command, budget, st, policy, fails);
    }

    /**
     `runCommandWithSnapshots`.  Whatever the rivals do, the command is answered as
     `executeCommand` answers it and leaves `landed` after `n` calls; then the policy has its
     turn, whose snapshot write is best effort (`fails`).  Everything the store held stays a fold,
     and alone it is one step of SoleStep.
     */
    method RunCommandWithSnapshots(command: C, explicit: Option<Expected>, budget: nat, policy: Option<Policy<S>>, fails: bool)
      returns (r: Executed<S, E>, ghost landed: Store<S, C, E>, ghost n: nat)
      requires Valid()
      modifies this
      ensures n >= old(calls)
      ensures Answered(r, command, explicit, budget, old(store), RivalsOnly(cfg, rivals, old(store), old(calls), n), landed, old(Quiet()))
      ensures (store, calls) == AfterPolicy(r, landed, n, policy, fails)
      ensures explicit.None? ==> Valid()
      ensures old(Quiet()) && explicit.None? ==> Quiet() && store == SoleStep(cfg, me, policy, old(store), command, fails)
    {
      var state, version, since;
      ghost var st0, calls0, quiet := store, calls, Quiet();
      r, state, version, since := RunCommandAndApply(command, explicit, budget);
      landed, n := store, calls;
      if explicit.None? {
        AnsweredIsValid(r, command, explicit, RivalsOnly(cfg, rivals, st0, calls0, calls));
      }
      if quiet && explicit.None? {
        AloneAfterPolicy(r, command, budget, st0, n, policy, fails);
      }
      PolicyTurn(r, state, version, since, policy, fails);
    }
  }

  // ---------------------------------------------------------------- everyN

  /** `everyN`; None where it throws a RangeError. */
  function EveryN<S>(n: real): Option<Policy<S>> {
    if n <= 0.0 then None else Some((s: S, version: nat, since: nat) => since as real >= n)
  }

  /** The commands of a stream's only writer, from the stream's first command on. */
  function SoleRun<S, C, E>(cfg: Config<S, C, E>, w: Writer, policy: Option<Policy<S>>, commands: seq<C>): Store<S, C, E> {
    if commands == [] then Store([], None, [])
    else SoleStep(cfg, w, policy, SoleRun(cfg, w, policy, commands[..|commands| - 1]), commands[|commands| - 1], false)
  }

  /**
   Load cost: with one writer and no failed snapshot write, a load folds fewer than `n` events
   (Since is what LoadAggregate folds), so it takes at most n / 500 + 1 reads.
   */
  lemma {:induction false} EveryNBoundsLoads<S, C, E>(cfg: Config<S, C, E>, w: Writer, n: real, commands: seq<C>)
    requires EveryN<S>(n).Some?
    ensures var st := SoleRun(cfg, w, EveryN(n), commands);
      && Baseline(cfg, w, st) <= |st.events|
      && Since(cfg, w, st, |st.events|) as real < n
  {
    if commands != [] {
      EveryNBoundsLoads(cfg, w, n, commands[..|commands| - 1]);
    }
  }

  /** The version that the snapshot of a stream was taken at, 0 when there is none. */
  function LastSnapshot<S, C, E>(st: Store<S, C, E>): nat {
    if st.snap.Some? then st.snap.value.version else 0
  }

  lemma {:induction false} SoleSnapshotFits<S, C, E>(cfg: Config<S, C, E>, w: Writer, policy: Option<Policy<S>>, commands: seq<C>)
    ensures var st := SoleRun(cfg, w, policy, commands);
      st.snap.Some? ==> st.snap.value.tag == cfg.tagOf(w) && st.snap.value.version <= |st.events|
  {
    if commands != [] {
      SoleSnapshotFits(cfg, w, policy, commands[..|commands| - 1]);
    }
  }

  /**
   What `everyN(n)` promises of a stream's only writer: a command leaves a new snapshot, of the
   whole stream, if and only if it landed events and at least n have landed since the last
   snapshot; any other command leaves the snapshot there was.
   */
  lemma EveryNSnapshotsIff<S, C, E>(cfg: Config<S, C, E>, w: Writer, n: real, commands: seq<C>)
    requires commands != []
    ensures EveryN<S>(n).Some? <==> n > 0.0
    ensures n > 0.0 ==>
      var before := SoleRun(cfg, w, EveryN(n), commands[..|commands| - 1]);
      var after := SoleRun(cfg, w, EveryN(n), commands);
      && before.events <= after.events
      && LastSnapshot(before) <= |before.events|
      && after.snap ==
           if |before.events| < |after.events| && (|after.events| - LastSnapshot(before)) as real >= n
           then Some(Snapshot(cfg.tagOf(w), |after.events|, Fold(ModuleOf(cfg, w), after.events)))
           else before.snap
  {
    SoleSnapshotFits(cfg, w, EveryN(n), commands[..|commands| - 1]);
  }
}
