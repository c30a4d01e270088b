/** What becomes of a command whose append was overtaken, in the interleaved machine of AggregateProtocol. */
module CommandProgress {
  import opened Wrappers
  import opened Replay
  import opened AggregateProtocol
  import RunCommand

  /** An explicit version is asserted once: no call that carries one is ever in a second attempt. */
  ghost predicate TriedOnce<S, C, E>(s: System<S, C, E>) {
    forall w | w in s.locals && !s.locals[w].Idle? && s.locals[w].call.explicit.Some? :: s.locals[w].call.attempt == 1
  }

  lemma {:induction false} ExplicitIsTriedOnce<S, C, E>(cfg: Config<S, C, E>, run: seq<Action<C, E>>)
    ensures TriedOnce(Exec(cfg, Initial(), run))
    decreases |run|
  {
    if run != [] {
      ExplicitIsTriedOnce(cfg, run[..|run| - 1]);
      StepTriesOnce(cfg, Exec(cfg, Initial(), run[..|run| - 1]), run[|run| - 1]);
    }
  }

  lemma StepTriesOnce<S, C, E>(cfg: Config<S, C, E>, s: System<S, C, E>, a: Action<C, E>)
    requires TriedOnce(s)
    ensures TriedOnce(Do(cfg, s, a))
  {
  }

  /** `n` page reads in a row. */
  function Reads<C, E>(w: Writer, n: nat): seq<Action<C, E>> {
    if n == 0 then [] else Reads(w, n - 1) + [ReadPage(w)]
  }

  lemma {:induction false} ExecJoins<S, C, E>(cfg: Config<S, C, E>, s: System<S, C, E>, a: seq<Action<C, E>>, b: seq<Action<C, E>>)
    ensures Exec(cfg, s, a + b) == Exec(cfg, Exec(cfg, s, a), b)
    decreases |b|
  {
    if b == [] {
      assert a + b == a;
    } else {
      ExecJoins(cfg, s, a, b[..|b| - 1]);
      assert (a + b)[..|a + b| - 1] == a + b[..|b| - 1];
    }
  }

  lemma ExecLast<S, C, E>(cfg: Config<S, C, E>, s: System<S, C, E>, before: seq<Action<C, E>>, a: Action<C, E>)
    ensures Exec(cfg, s, before + [a]) == Do(cfg, Exec(cfg, s, before), a)
  {
    assert (before + [a])[..|before|] == before;
  }

  /** A load of `call` has got to `version`. */
  ghost predicate PagedTo<S, C, E>(cfg: Config<S, C, E>, st: Store<S, C, E>, w: Writer, call: Call<C>, version: nat, t: System<S, C, E>) {
    version <= |st.events| && t.store == st && LocalOf(t, w) == Paging(call, FoldTo(ModuleOf(cfg, w), st.events, version), version)
  }

  lemma FullPage<S, C, E>(cfg: Config<S, C, E>, s: System<S, C, E>, w: Writer, call: Call<C>, version: nat)
    requires PagedTo(cfg, s.store, w, call, version, s) && version + LOAD_PAGE_SIZE <= |s.store.events|
    ensures PagedTo(cfg, s.store, w, call, version + LOAD_PAGE_SIZE, Do(cfg, s, ReadPage(w)))
  {
    PageKeepsPrefixFold(cfg, s.store.events, w, LocalOf(s, w).state, version);
    assert |Page(s.store.events, version)| == LOAD_PAGE_SIZE;
  }

  /** Where a load that began after `version` is after `n` full pages. */
  function After(version: nat, n: nat): nat {
    if n == 0 then version else After(version, n - 1) + LOAD_PAGE_SIZE
  }

  lemma {:induction false} AfterIs(version: nat, n: nat)
    ensures After(version, n) == version + 500 * n
  {
    if n > 0 {
      AfterIs(version, n - 1);
    }
  }

  lemma {:induction false} PagesIn<S, C, E>(cfg: Config<S, C, E>, s: System<S, C, E>, w: Writer, call: Call<C>, version: nat, n: nat)
    requires PagedTo(cfg, s.store, w, call, version, s) && After(version, n) <= |s.store.events|
    ensures PagedTo(cfg, s.store, w, call, After(version, n), Exec(cfg, s, Reads(w, n)))
  {
    if n > 0 {
      PagesIn(cfg, s, w, call, version, n - 1);
      ExecLast(cfg, s, Reads(w, n - 1), ReadPage(w));
      FullPage(cfg, Exec(cfg, s, Reads(w, n - 1)), w, call, After(version, n - 1));
    }
  }

  /** How many full pages a load that begins now reads. */
  function FullPages<S, C, E>(cfg: Config<S, C, E>, w: Writer, st: Store<S, C, E>): nat {
    var baseline := RunCommand.Baseline(cfg, w, st);
    if baseline <= |st.events| then (|st.events| - baseline) / 500 else 0
  }

  lemma PagesEnd<S, C, E>(cfg: Config<S, C, E>, w: Writer, st: Store<S, C, E>)
    requires StoreInv(cfg, st)
    ensures var end := After(RunCommand.Baseline(cfg, w, st), FullPages(cfg, w, st));
      end <= |st.events| < end + LOAD_PAGE_SIZE
  {
    AfterIs(RunCommand.Baseline(cfg, w, st), FullPages(cfg, w, st));
  }

  /** The snapshot and then the pages, down to the short one. */
  function Reload<S, C, E>(cfg: Config<S, C, E>, w: Writer, st: Store<S, C, E>): seq<Action<C, E>> {
    [ReadSnapshot(w)] + Reads(w, FullPages(cfg, w, st)) + [ReadPage(w)]
  }

  lemma SnapshotRead<S, C, E>(cfg: Config<S, C, E>, s: System<S, C, E>, w: Writer)
    requires StoreInv(cfg, s.store) && LocalOf(s, w).Starting?
    ensures PagedTo(cfg, s.store, w, LocalOf(s, w).call, RunCommand.Baseline(cfg, w, s.store), Do(cfg, s, ReadSnapshot(w)))
  {
  }

  lemma ExecFirst<S, C, E>(cfg: Config<S, C, E>, s: System<S, C, E>, a: Action<C, E>, rest: seq<Action<C, E>>)
    ensures Exec(cfg, s, [a] + rest) == Exec(cfg, Do(cfg, s, a), rest)
  {
    ExecJoins(cfg, s, [a], rest);
    ExecLast(cfg, s, [], a);
  }

  lemma ExecReload<S, C, E>(cfg: Config<S, C, E>, s: System<S, C, E>, w: Writer, n: nat)
    ensures Exec(cfg, s, [ReadSnapshot(w)] + Reads(w, n) + [ReadPage(w)])
            == Do(cfg, Exec(cfg, Do(cfg, s, ReadSnapshot(w)), Reads(w, n)), ReadPage(w))
  {
    ExecLast(cfg, s, [ReadSnapshot(w)] + Reads(w, n), ReadPage(w));
    ExecFirst(cfg, s, ReadSnapshot(w), Reads(w, n));
  }

  /** A load that nobody disturbs ends with the whole stream. */
  lemma ReloadLoads<S, C, E>(cfg: Config<S, C, E>, s: System<S, C, E>, w: Writer)
    requires StoreInv(cfg, s.store) && LocalOf(s, w).Starting?
    ensures LoadedAll(cfg, s.store, w, LocalOf(s, w).call, Exec(cfg, s, Reload(cfg, w, s.store)))
  {
    var call, version, n := LocalOf(s, w).call, RunCommand.Baseline(cfg, w, s.store), FullPages(cfg, w, s.store);
    SnapshotRead(cfg, s, w);
    PagesEnd(cfg, w, s.store);
    ReadToEnd(cfg, s.store, Do(cfg, s, ReadSnapshot(w)), w, call, version, n);
    ExecReload(cfg, s, w, n);
  }

  lemma ReadToEnd<S, C, E>(cfg: Config<S, C, E>, st: Store<S, C, E>, s: System<S, C, E>, w: Writer, call: Call<C>, version: nat, n: nat)
    requires PagedTo(cfg, st, w, call, version, s) && After(version, n) <= |st.events| < After(version, n) + LOAD_PAGE_SIZE
    ensures LoadedAll(cfg, st, w, call, Do(cfg, Exec(cfg, s, Reads(w, n)), ReadPage(w)))
  {
    PagesIn(cfg, s, w, call, version, n);
    ShortRead(cfg, Exec(cfg, s, Reads(w, n)), w, call, After(version, n));
  }

  ghost predicate LoadedAll<S, C, E>(cfg: Config<S, C, E>, st: Store<S, C, E>, w: Writer, call: Call<C>, t: System<S, C, E>) {
    && t.store == st
    && LocalOf(t, w) == Loaded(call, Fold(ModuleOf(cfg, w), st.events), |st.events|, |st.commits|)
  }

  lemma ShortRead<S, C, E>(cfg: Config<S, C, E>, s: System<S, C, E>, w: Writer, call: Call<C>, version: nat)
    requires PagedTo(cfg, s.store, w, call, version, s) && |s.store.events| < version + LOAD_PAGE_SIZE
    ensures LoadedAll(cfg, s.store, w, call, Do(cfg, s, ReadPage(w)))
  {
    PageKeepsPrefixFold(cfg, s.store.events, w, LocalOf(s, w).state, version);
  }

  /** What a command of `w` that has seen the whole stream does to it. */
  lemma SubmitLands<S, C, E>(cfg: Config<S, C, E>, s: System<S, C, E>, w: Writer)
    requires LocalOf(s, w).Loaded? && LocalOf(s, w).call.explicit.None? && LocalOf(s, w).version == |s.store.events|
    requires LocalOf(s, w).state == Fold(ModuleOf(cfg, w), s.store.events)
    ensures Settled(cfg, s, LocalOf(s, w).call, w, Do(cfg, s, Submit(w)))
  {
  }

  /** `call` has ended in `t` as it would have run on the stream of `s` all at once. */
  ghost predicate Settled<S, C, E>(cfg: Config<S, C, E>, s: System<S, C, E>, call: Call<C>, w: Writer, t: System<S, C, E>) {
    var state := Fold(ModuleOf(cfg, w), s.store.events);
    && t.store == Atomic(cfg, s.store, Land(ByCommand(w, call.command)))
    && match cfg.execute(w, state, call.command)
       case Rejected => LocalOf(t, w) == Threw(call)
       case Emits(events) =>
         LocalOf(t, w) == if events == [] then NothingToDo(call) else Staged(call, FoldFrom(ModuleOf(cfg, w), state, events), |t.store.events|)
  }

  /**
   A default command whose append comes too late, with budget left, is not lost: left alone from
   then on it loads again, once, and ends as if it had run on the stream as it now is.
   */
  lemma OvertakenCommandSettles<S, C, E>(cfg: Config<S, C, E>, run: seq<Action<C, E>>, s: System<S, C, E>, w: Writer, events: seq<E>)
    requires Reached(cfg, run, s) && LocalOf(s, w).Loaded? && LocalOf(s, w).call.explicit.None?
    requires cfg.execute(w, LocalOf(s, w).state, LocalOf(s, w).call.command) == Emits(events) && events != []
    requires LocalOf(s, w).version != |s.store.events| && LocalOf(s, w).call.attempt <= LocalOf(s, w).call.budget
    ensures var call := LocalOf(s, w).call;
      Settled(cfg, s, call.(attempt := call.attempt + 1), w, Exec(cfg, s, [Submit(w)] + Reload(cfg, w, s.store) + [Submit(w)]))
  {
    ReachedInv(cfg, run, s);
    var call, retry, reload := LocalOf(s, w).call, Do(cfg, s, Submit(w)), Reload(cfg, w, s.store);
    assert retry == Move(s, w, Starting(call.(attempt := call.attempt + 1)));
    ReloadLoads(cfg, retry, w);
    SubmitLands(cfg, Exec(cfg, retry, reload), w);
    ExecLast(cfg, s, [Submit(w)] + reload, Submit(w));
    ExecFirst(cfg, s, Submit(w), reload);
  }
}
