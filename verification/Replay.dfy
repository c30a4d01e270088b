/** Folding events into state, and the snapshots that cache such a fold. */
module Replay {
  import opened Wrappers

  /** `snapshotModuleVersion`; None when the definition carries no version. */
  type Tag = Option<string>

  datatype Module<!S, !E> = Module(initial: S, apply: (S, E) -> S)

  datatype Snapshot<+S> = Snapshot(tag: Tag, version: nat, data: S)

  /** `m.apply` folded over the first `n` events. */
  function FoldTo<S, E>(m: Module<S, E>, events: seq<E>, n: nat): S
    requires n <= |events|
  {
    if n == 0 then m.initial else m.apply(FoldTo(m, events, n - 1), events[n - 1])
  }

  function Fold<S, E>(m: Module<S, E>, events: seq<E>): S {
    FoldTo(m, events, |events|)
  }

  /** The fold continued from a state already loaded, over the first `n` events. */
  function FoldFromTo<S, E>(m: Module<S, E>, s: S, events: seq<E>, n: nat): S
    requires n <= |events|
  {
    if n == 0 then s else m.apply(FoldFromTo(m, s, events, n - 1), events[n - 1])
  }

  function FoldFrom<S, E>(m: Module<S, E>, s: S, events: seq<E>): S {
    FoldFromTo(m, s, events, |events|)
  }

  /** The fold of the first `n` events depends on nothing else. */
  lemma {:induction false} FoldPrefix<S, E>(m: Module<S, E>, a: seq<E>, b: seq<E>, n: nat)
    requires n <= |a| && n <= |b| && forall i | 0 <= i < n :: a[i] == b[i]
    ensures FoldTo(m, a, n) == FoldTo(m, b, n)
  {
    if n > 0 {
      FoldPrefix(m, a, b, n - 1);
    }
  }

  lemma FoldSnoc<S, E>(m: Module<S, E>, events: seq<E>, e: E)
    ensures Fold(m, events + [e]) == m.apply(Fold(m, events), e)
  {
    FoldPrefix(m, events, events + [e], |events|);
  }

  /** Folding on from version `v` over the events that follow it. */
  lemma {:induction false} FoldContinues<S, E>(m: Module<S, E>, events: seq<E>, v: nat, page: seq<E>, n: nat)
    requires n <= |page| && v + n <= |events| && forall i | 0 <= i < n :: page[i] == events[v + i]
    ensures FoldFromTo(m, FoldTo(m, events, v), page, n) == FoldTo(m, events, v + n)
  {
    if n > 0 {
      FoldContinues(m, events, v, page, n - 1);
    }
  }

  lemma FoldResumes<S, E>(m: Module<S, E>, before: seq<E>, after: seq<E>)
    ensures Fold(m, before + after) == FoldFrom(m, Fold(m, before), after)
  {
    FoldPrefix(m, before, before + after, |before|);
    FoldContinues(m, before + after, |before|, after, |after|);
  }

  /** The module that forgets nothing: its state is the list of events it has applied. */
  function Recording<E>(): Module<seq<E>, E> {
    Module([], (s: seq<E>, e: E) => s + [e])
  }

  lemma {:induction false} RecordingRecords<E>(s: seq<E>, events: seq<E>, n: nat)
    requires n <= |events|
    ensures FoldFromTo(Recording(), s, events, n) == s + events[..n]
    ensures FoldTo(Recording(), events, n) == events[..n]
  {
    if n > 0 {
      RecordingRecords(s, events, n - 1);
      assert events[..n] == events[..n - 1] + [events[n - 1]];
    }
  }
}
