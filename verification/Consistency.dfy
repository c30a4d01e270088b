/** The consistency-on-dispatch wait: polling several subscriptions one by one. */
module Consistency {
  import opened Wrappers
  import opened WorkQueue
  import opened QueueProtocol
  import opened QueueTheorems
  import opened Keys

  /** One answer of `isSubscriptionCaughtUp`; NotFound is IS020. */
  datatype Probe = Yes | No | NotFound | OtherError

  /** What each subscription answers at each moment, when asked about one target. */
  type World = (nat, SubscriptionRef) -> Probe

  datatype Appended = Appended(stream: string, eventNumber: nat)

  datatype WaitResult =
    | CaughtUpAll
    | TargetError(r: SubscriptionRef)
    | TimedOut(missing: set<string>)
    | Errored(r: SubscriptionRef)

  /** Once caught up, always caught up. */
  ghost predicate StableAt(world: World, t: nat, u: nat, r: SubscriptionRef) {
    t <= u && world(t, r) == Yes ==> world(u, r) == Yes
  }

  ghost predicate Stable(world: World) {
    forall t: nat, u: nat, r :: StableAt(world, t, u, r)
  }

  /** `target` is one of the appended numbers, and none is greater. */
  ghost predicate IsGreatest(rows: seq<Appended>, target: nat) {
    && (exists i :: 0 <= i < |rows| && rows[i].eventNumber == target)
    && forall i | 0 <= i < |rows| :: rows[i].eventNumber <= target
  }

  method Greatest(rows: seq<Appended>) returns (target: nat)
    requires rows != []
    ensures IsGreatest(rows, target)
  {
    target := rows[0].eventNumber;
    for i := 0 to |rows|
      invariant exists j :: 0 <= j < |rows| && rows[j].eventNumber == target
      invariant forall j | 0 <= j < i :: rows[j].eventNumber <= target
    {
      if rows[i].eventNumber > target {
        target := rows[i].eventNumber;
      }
    }
  }

  predicate Observes(rows: seq<Appended>, r: SubscriptionRef) {
    r.stream == "$all" || exists i :: 0 <= i < |rows| && rows[i].stream == r.stream
  }

  /** No later reference among the first `n` has the same key. */
  predicate LastAmong(refs: seq<SubscriptionRef>, n: nat, i: nat)
    requires i < |refs| && n <= |refs|
  {
    forall j | i < j < n :: RefKey(refs[j]) != RefKey(refs[i])
  }

  predicate LastOfKey(refs: seq<SubscriptionRef>, i: nat)
    requires i < |refs|
  {
    LastAmong(refs, |refs|, i)
  }

  ghost predicate DistinctKeys(refs: seq<SubscriptionRef>) {
    forall i, j | 0 <= i < |refs| && 0 <= j < |refs| && RefKey(refs[i]) == RefKey(refs[j]) :: refs[i] == refs[j]
  }

  /** `r` is the last of the first `n` references with key `k`. */
  ghost predicate LastWithKey(refs: seq<SubscriptionRef>, n: nat, k: string, r: SubscriptionRef)
    requires n <= |refs|
  {
    exists i: nat :: i < n && refs[i] == r && RefKey(refs[i]) == k && LastAmong(refs, n, i)
  }

  /** The map from key to reference that the wait builds: a later reference replaces an earlier one. */
  ghost predicate Indexes(refs: seq<SubscriptionRef>, n: nat, remaining: map<string, SubscriptionRef>)
    requires n <= |refs|
  {
    && (forall k | k in remaining :: LastWithKey(refs, n, k, remaining[k]))
    && (forall i: nat | i < n && LastAmong(refs, n, i) :: RefKey(refs[i]) in remaining && remaining[RefKey(refs[i])] == refs[i])
  }

  method CheckTargets(rows: seq<Appended>, refs: seq<SubscriptionRef>) returns (bad: Option<SubscriptionRef>)
    ensures bad.None? <==> forall i | 0 <= i < |refs| :: Observes(rows, refs[i])
    ensures bad.Some? ==> exists i: nat :: i < |refs| && refs[i] == bad.value && !Observes(rows, refs[i])
                                         && forall j | 0 <= j < i :: Observes(rows, refs[j])
  {
    var streams: set<string> := set i | 0 <= i < |rows| :: rows[i].stream;
    for i := 0 to |refs|
      invariant forall j | 0 <= j < i :: Observes(rows, refs[j])
    {
      if refs[i].stream != "$all" && refs[i].stream !in streams {
        return Some(refs[i]);
      }
    }
    return None;
  }

  method Index(refs: seq<SubscriptionRef>) returns (remaining: map<string, SubscriptionRef>)
    ensures Indexes(refs, |refs|, remaining)
  {
    remaining := map[];
    for n := 0 to |refs|
      invariant Indexes(refs, n, remaining)
    {
      IndexOneMore(refs, n, remaining);
      remaining := remaining[RefKey(refs[n]) := refs[n]];
    }
  }

  lemma LastStays(refs: seq<SubscriptionRef>, n: nat, k: string, r: SubscriptionRef)
    requires n < |refs| && LastWithKey(refs, n, k, r) && k != RefKey(refs[n])
    ensures LastWithKey(refs, n + 1, k, r)
  {
    var i: nat :| i < n && refs[i] == r && RefKey(refs[i]) == k && LastAmong(refs, n, i);
    assert LastAmong(refs, n + 1, i);
  }

  lemma WasLastBefore(refs: seq<SubscriptionRef>, n: nat, i: nat)
    requires i < n < |refs| && LastAmong(refs, n + 1, i)
    ensures LastAmong(refs, n, i) && RefKey(refs[n]) != RefKey(refs[i])
  {
  }

  lemma IndexOneMore(refs: seq<SubscriptionRef>, n: nat, remaining: map<string, SubscriptionRef>)
    requires n < |refs| && Indexes(refs, n, remaining)
    ensures Indexes(refs, n + 1, remaining[RefKey(refs[n]) := refs[n]])
  {
    var remaining' := remaining[RefKey(refs[n]) := refs[n]];
    forall k | k in remaining' ensures LastWithKey(refs, n + 1, k, remaining'[k]) {
      if k == RefKey(refs[n]) {
        assert LastAmong(refs, n + 1, n);
      } else {
        LastStays(refs, n, k, remaining[k]);
      }
    }
    forall i: nat | i < n + 1 && LastAmong(refs, n + 1, i)
      ensures RefKey(refs[i]) in remaining' && remaining'[RefKey(refs[i])] == refs[i]
    {
      if i < n {
        WasLastBefore(refs, n, i);
      }
    }
  }

  ghost predicate AheadAt(world: World, r: SubscriptionRef, from: nat, u: nat) {
    from <= u && world(u, r) == Yes
  }

  /** `r` was polled between `from` and `until` and was caught up. */
  ghost predicate SeenAhead(world: World, r: SubscriptionRef, from: nat, until: nat) {
    exists u: nat :: u <= until && AheadAt(world, r, from, u)
  }

  /** What left the map was seen caught up. */
  ghost predicate Waiting(world: World, all: map<string, SubscriptionRef>, remaining: map<string, SubscriptionRef>, from: nat, t: nat) {
    && (forall k | k in remaining :: k in all && all[k] == remaining[k])
    && (forall k | k in all && k !in remaining :: SeenAhead(world, all[k], from, t))
  }

  lemma SeenAheadLater(world: World, r: SubscriptionRef, from: nat, from': nat, until: nat, until': nat)
    requires from' <= from && until <= until' && SeenAhead(world, r, from, until)
    ensures SeenAhead(world, r, from', until')
  {
    var u: nat :| u <= until && AheadAt(world, r, from, u);
    assert AheadAt(world, r, from', u);
  }

  lemma WaitingOn(world: World, all: map<string, SubscriptionRef>, before: map<string, SubscriptionRef>, remaining: map<string, SubscriptionRef>,
                  start: nat, from: nat, t: nat, u: nat)
    requires Waiting(world, all, before, start, from) && Waiting(world, before, remaining, from, t) && start <= from <= t <= u
    ensures Waiting(world, all, remaining, start, u)
  {
    forall k | k in all && k !in remaining ensures SeenAhead(world, all[k], start, u) {
      if k in before {
        SeenAheadLater(world, all[k], from, start, t, u);
      } else {
        SeenAheadLater(world, all[k], start, start, from, u);
      }
    }
  }

  /** In a stable world what was once seen caught up still is. */
  lemma SeenAheadIsAhead(world: World, r: SubscriptionRef, from: nat, until: nat)
    requires Stable(world) && SeenAhead(world, r, from, until)
    ensures world(until, r) == Yes
  {
    var u: nat :| u <= until && AheadAt(world, r, from, u);
    assert StableAt(world, u, until, r);
  }

  ghost predicate BehindAt(world: World, r: SubscriptionRef, from: nat, u: nat) {
    from <= u && world(u, r) != Yes
  }

  /** `r` was polled between `from` and `until` and was not caught up. */
  ghost predicate SeenBehind(world: World, r: SubscriptionRef, from: nat, until: nat) {
    exists u: nat :: u <= until && BehindAt(world, r, from, u)
  }

  ghost predicate AllSeenBehind(world: World, refs: map<string, SubscriptionRef>, except: set<string>, from: nat, until: nat) {
    forall k | k in refs && k !in except :: SeenBehind(world, refs[k], from, until)
  }

  /** Some reference with key `k` was polled between `start` and `t` and was not caught up. */
  ghost predicate WasBehind(world: World, refs: seq<SubscriptionRef>, k: string, start: nat, t: nat) {
    exists i: nat, u: nat :: i < |refs| && RefKey(refs[i]) == k && u <= t && BehindAt(world, refs[i], start, u)
  }

  lemma MissingWasBehind(world: World, refs: seq<SubscriptionRef>, all: map<string, SubscriptionRef>, missing: set<string>, start: nat, t: nat)
    requires Indexes(refs, |refs|, all) && missing <= all.Keys
    requires forall k | k in missing :: SeenBehind(world, all[k], start, t)
    ensures forall k | k in missing :: WasBehind(world, refs, k, start, t)
  {
    forall k | k in missing ensures WasBehind(world, refs, k, start, t) {
      var i: nat :| i < |refs| && refs[i] == all[k] && RefKey(refs[i]) == k;
      var u: nat :| u <= t && BehindAt(world, all[k], start, u);
      assert BehindAt(world, refs[i], start, u);
    }
  }

  /** Half-way through a pass: `todo` is still to be polled, the rest of `left` was seen behind. */
  ghost predicate Sweeping(world: World, remaining: map<string, SubscriptionRef>, left: map<string, SubscriptionRef>,
                           todo: set<string>, from: nat, t: nat) {
    Waiting(world, remaining, left, from, t) && todo <= left.Keys && AllSeenBehind(world, left, todo, from, t)
  }

  lemma SweepStep(world: World, remaining: map<string, SubscriptionRef>, left: map<string, SubscriptionRef>,
                  todo: set<string>, k: string, from: nat, t: nat, u: nat)
    requires Sweeping(world, remaining, left, todo, from, t) && k in todo && from <= t <= u
    ensures Sweeping(world, remaining, if world(t, left[k]) == Yes then left - {k} else left, todo - {k}, from, u)
  {
    var left' := if world(t, left[k]) == Yes then left - {k} else left;
    forall j | j in remaining && j !in left' ensures SeenAhead(world, remaining[j], from, u) {
      if j == k {
        assert AheadAt(world, left[k], from, t);
      } else {
        SeenAheadLater(world, remaining[j], from, from, t, u);
      }
    }
    forall j | j in left' && j !in todo - {k} ensures SeenBehind(world, left'[j], from, u) {
      if j == k {
        assert BehindAt(world, left[k], from, t);
      } else {
        assert SeenBehind(world, left[j], from, t);
      }
    }
  }

  /** No call and no sleep takes `slack` more than it should. */
  ghost predicate Prompt(delay: nat -> nat, slack: nat) {
    forall t: nat :: delay(t) <= slack
  }

  /** How long `n` calls take at most. */
  function CallTime(n: nat, slack: nat): nat {
    if n == 0 then 0 else CallTime(n - 1, slack) + 1 + slack
  }

  lemma {:induction false} CallTimeGrows(m: nat, n: nat, slack: nat)
    requires m <= n
    ensures CallTime(m, slack) <= CallTime(n, slack)
  {
    if m < n {
      CallTimeGrows(m, n - 1, slack);
    }
  }

  /** One pass over the references still waited for; the order within a pass is left open. */
  method Sweep(world: World, delay: nat -> nat, remaining: map<string, SubscriptionRef>, t0: nat, ghost slack: nat)
    returns (left: map<string, SubscriptionRef>, failed: Option<SubscriptionRef>, t: nat)
    ensures t >= t0 && Waiting(world, remaining, left, t0, t)
    ensures Prompt(delay, slack) ==> t <= t0 + CallTime(|remaining|, slack)
    ensures failed.None? && remaining != map[] ==> t > t0
    ensures failed.None? ==> AllSeenBehind(world, left, {}, t0, t)
    ensures failed.Some? ==> exists u: nat :: t0 <= u <= t && world(u, failed.value) == OtherError
  {
    left, failed, t := remaining, None, t0;
    var todo := remaining.Keys;
    ghost var polled: nat := 0;
    while todo != {}
      invariant t >= t0 && Sweeping(world, remaining, left, todo, t0, t)
      invariant polled + |todo| == |remaining| && (polled > 0 ==> t > t0)
      invariant Prompt(delay, slack) ==> t <= t0 + CallTime(polled, slack)
      decreases todo
    {
      var k :| k in todo;
      var r := left[k];
      var answer := world(t, r);
      if answer == OtherError {
        CallTimeGrows(polled, |remaining|, slack);
        return left, Some(r), t;
      }
      SweepStep(world, remaining, left, todo, k, t0, t, t + 1 + delay(t));
      if answer == Yes {
        left := left - {k};
      }
      todo := todo - {k};
      polled := polled + 1;
      t := t + 1 + delay(t);
    }
    return left, None, t;
  }

  /** A wait is on time: its last pass begins by the deadline and lasts no longer than its calls. */
  ghost predicate OnTime(delay: nat -> nat, slack: nat, calls: nat, deadline: nat, swept: nat, t: nat) {
    Prompt(delay, slack) ==> swept <= deadline + slack && t <= swept + CallTime(calls, slack)
  }

  lemma FewerLeft(all: map<string, SubscriptionRef>, remaining: map<string, SubscriptionRef>)
    requires forall k | k in remaining :: k in all
    ensures |remaining| <= |all|
  {
    assert remaining.Keys <= all.Keys && |remaining.Keys| == |remaining|;
    SubsetIsSmaller(remaining.Keys, all.Keys);
  }

  lemma {:induction false} SubsetIsSmaller(a: set<string>, b: set<string>)
    requires a <= b
    ensures |a| <= |b|
  {
    assert |b - a| == |b| - |a|;
  }

  /** The polling loop on the indexed references; `swept` is when its last pass began. */
  method Poll(world: World, delay: nat -> nat, all: map<string, SubscriptionRef>, start: nat, timeout: nat, interval: nat, ghost slack: nat)
    returns (r: WaitResult, t: nat, ghost swept: nat)
    ensures start <= swept <= t && !r.TargetError?
    ensures OnTime(delay, slack, |all|, start + timeout, swept, t)
    ensures r.CaughtUpAll? ==> forall k | k in all :: SeenAhead(world, all[k], start, t)
    ensures r.TimedOut? ==> t >= start + timeout && r.missing != {} && r.missing <= all.Keys
                            && forall k | k in r.missing :: SeenBehind(world, all[k], swept, t)
    ensures r.Errored? ==> exists u: nat :: start <= u <= t && world(u, r.r) == OtherError
  {
    t, swept := start, start;
    var remaining := all;
    while remaining != map[]
      invariant start <= swept <= t && Waiting(world, all, remaining, start, t)
      invariant if remaining == map[] then t == start else Prompt(delay, slack) ==> t <= start + timeout + slack
      decreases start + timeout - t
    {
      var failed;
      ghost var before := remaining;
      swept := t;
      remaining, failed, t := Sweep(world, delay, remaining, t, slack);
      FewerLeft(all, before);
      CallTimeGrows(|before|, |all|, slack);
      WaitingOn(world, all, before, remaining, start, swept, t, t);
      if failed.Some? {
        return Errored(failed.value), t, swept;
      }
      if remaining == map[] {
        return CaughtUpAll, t, swept;
      }
      if t >= start + timeout {
        var k :| k in remaining;
        assert k in remaining.Keys;
        return TimedOut(remaining.Keys), t, swept;
      }
      var wake := (if interval < start + timeout - t then t + interval else start + timeout) + delay(t);
      WaitingOn(world, all, before, remaining, start, swept, t, wake);
      t := wake;
    }
    return CaughtUpAll, t, swept;
  }

  /**
   `waitForProjection`.  `probe(n)` is what subscriptions answer when asked about event number
   `n`, and `delay` how much longer than it should each call or sleep takes.  On normal return
   every reference that is the last of its key has been seen caught up with the greatest of the
   appended numbers during the wait; where nothing that was caught up falls behind, all of them
   are so at the one moment `t`.  A timeout comes no earlier than asked and at most one sleep and
   one pass later, and what it reports missing was behind in that last pass.
   */
  method WaitForProjection(probe: nat -> World, delay: nat -> nat, rows: seq<Appended>, refs: seq<SubscriptionRef>,
                           start: nat, timeout: nat, interval: nat, ghost slack: nat)
    returns (r: WaitResult, t: nat, ghost target: nat, ghost swept: nat)
    ensures start <= swept <= t && OnTime(delay, slack, |refs|, start + timeout, swept, t)
    ensures rows != [] ==> IsGreatest(rows, target)
    ensures rows == [] || refs == [] ==> r == CaughtUpAll && t == start
    ensures rows != [] && refs != [] ==>
      (r.TargetError? <==>
         exists i :: 0 <= i < |refs| && refs[i].stream != "$all" && forall j | 0 <= j < |rows| :: rows[j].stream != refs[i].stream)
    ensures rows != [] && r.CaughtUpAll? ==>
      forall i: nat | i < |refs| && LastOfKey(refs, i) :: SeenAhead(probe(target), refs[i], start, t)
    ensures Stable(probe(target)) && rows != [] && r.CaughtUpAll? ==>
      forall i: nat | i < |refs| && LastOfKey(refs, i) :: probe(target)(t, refs[i]) == Yes
    ensures r.TimedOut? ==>
      && t >= start + timeout && r.missing != {}
      && forall k | k in r.missing :: WasBehind(probe(target), refs, k, swept, t)
    ensures r.Errored? ==> exists u: nat :: start <= u <= t && probe(target)(u, r.r) == OtherError
  {
    swept, target := start, 0;
    if rows == [] {
      return CaughtUpAll, start, target, swept;
    }
    var n := Greatest(rows);
    target := n;
    if refs == [] {
      return CaughtUpAll, start, target, swept;
    }
    var bad := CheckTargets(rows, refs);
    if bad.Some? {
      return TargetError(bad.value), start, target, swept;
    }
    var all := Index(refs);
    var world := probe(n);
    r, t, swept := Poll(world, delay, all, start, timeout, interval, slack);
    NotMoreKeys(refs, all);
    CallTimeGrows(|all|, |refs|, slack);
    if r.TimedOut? {
      MissingWasBehind(world, refs, all, r.missing, swept, t);
    }
    if r.CaughtUpAll? && Stable(world) {
      forall i: nat | i < |refs| && LastOfKey(refs, i) ensures world(t, refs[i]) == Yes {
        SeenAheadIsAhead(world, refs[i], start, t);
      }
    }
  }

  function KeysOf(refs: seq<SubscriptionRef>): set<string> {
    if refs == [] then {} else KeysOf(refs[..|refs| - 1]) + {RefKey(refs[|refs| - 1])}
  }

  lemma {:induction false} KeysOfHas(refs: seq<SubscriptionRef>)
    ensures |KeysOf(refs)| <= |refs| && forall i | 0 <= i < |refs| :: RefKey(refs[i]) in KeysOf(refs)
  {
    if refs != [] {
      KeysOfHas(refs[..|refs| - 1]);
    }
  }

  lemma NotMoreKeys(refs: seq<SubscriptionRef>, all: map<string, SubscriptionRef>)
    requires Indexes(refs, |refs|, all)
    ensures |all| <= |refs|
  {
    KeysOfHas(refs);
    assert all.Keys <= KeysOf(refs) && |all.Keys| == |all|;
    SubsetIsSmaller(all.Keys, KeysOf(refs));
  }

  // ---------------------------------------------------------------- which references are waited for

  lemma {:induction false} SomeLast(refs: seq<SubscriptionRef>, i: nat) returns (j: nat)
    requires i < |refs|
    ensures j < |refs| && RefKey(refs[j]) == RefKey(refs[i]) && LastOfKey(refs, j)
    decreases |refs| - i
  {
    if LastOfKey(refs, i) {
      j := i;
    } else {
      var later :| i < later < |refs| && RefKey(refs[later]) == RefKey(refs[i]);
      j := SomeLast(refs, later);
    }
  }

  /** With distinct keys no reference is overlooked. */
  lemma NormalReturnMeansAll(world: World, refs: seq<SubscriptionRef>, t: nat)
    requires DistinctKeys(refs)
    requires forall i: nat | i < |refs| && LastOfKey(refs, i) :: world(t, refs[i]) == Yes
    ensures forall i: nat | i < |refs| :: world(t, refs[i]) == Yes
  {
    forall i: nat | i < |refs| ensures world(t, refs[i]) == Yes {
      var j := SomeLast(refs, i);
    }
  }

  /** A reference is polled at all if and only if it equals the last one of its key. */
  lemma PolledIff(refs: seq<SubscriptionRef>, remaining: map<string, SubscriptionRef>, i: nat)
    requires Indexes(refs, |refs|, remaining) && i < |refs|
    ensures refs[i] in remaining.Values <==> exists j: nat :: j < |refs| && LastOfKey(refs, j) && refs[j] == refs[i]
  {
    if refs[i] in remaining.Values {
      var k :| k in remaining && remaining[k] == refs[i];
      var j: nat :| j < |refs| && refs[j] == remaining[k] && RefKey(refs[j]) == k && LastOfKey(refs, j);
    }
  }

  /** Names without a colon are enough. */
  lemma NoColonsNoLoss(refs: seq<SubscriptionRef>)
    requires forall i | 0 <= i < |refs| :: ':' !in refs[i].name
    ensures DistinctKeys(refs)
  {
    forall i, j | 0 <= i < |refs| && 0 <= j < |refs| && RefKey(refs[i]) == RefKey(refs[j]) ensures refs[i] == refs[j] {
      RefKeyInjective(refs[i], refs[j]);
    }
  }

  // ---------------------------------------------------------------- the worlds the queue protocol makes

  /** For each reference: its configuration and its run, one action per tick. */
  datatype Runs<!E> = Runs(cfg: SubscriptionRef -> Config<E>, log: seq<E>, act: (SubscriptionRef, nat) -> Action<E>)

  function At<E>(rs: Runs<E>, r: SubscriptionRef, t: nat): System<E> {
    if t == 0 then Initial(rs.log) else Do(rs.cfg(r), At(rs, r, t - 1), rs.act(r, t - 1))
  }

  function WorldOf<E>(rs: Runs<E>, target: nat): World {
    (t: nat, r: SubscriptionRef) =>
      var q := At(rs, r, t).queue;
      if q.sub.None? then NotFound else if CaughtUp(q, target) then Yes else No
  }

  ghost predicate NeverReset<E>(rs: Runs<E>) {
    forall r, t: nat :: !Resets(rs.act(r, t))
  }

  lemma {:induction false} AtIsReached<E>(rs: Runs<E>, r: SubscriptionRef, t: nat) returns (run: seq<Action<E>>)
    ensures |run| == t && Reached(rs.cfg(r), rs.log, run, At(rs, r, t))
  {
    run := [];
    if t > 0 {
      var before := AtIsReached(rs, r, t - 1);
      run := before + [rs.act(r, t - 1)];
      assert run[..|run| - 1] == before;
    }
  }

  lemma {:induction false} StaysCaughtUp<E>(rs: Runs<E>, r: SubscriptionRef, target: nat, t: nat, u: nat)
    requires NeverReset(rs) && t <= u && CaughtUp(At(rs, r, t).queue, target)
    ensures CaughtUp(At(rs, r, u).queue, target)
    decreases u
  {
    if t < u {
      StaysCaughtUp(rs, r, target, t, u - 1);
      var run := AtIsReached(rs, r, u - 1);
      ReachedInv(rs.cfg(r), rs.log, run, At(rs, r, u - 1));
      CaughtUpSurvivesStep(rs.cfg(r), At(rs, r, u - 1), rs.act(r, u - 1), target);
    }
  }

  /** Absent deletes and rebuilds, polling any number of `$all` subscriptions is polling a stable world. */
  lemma RunsAreStable<E>(rs: Runs<E>, target: nat)
    requires NeverReset(rs)
    ensures Stable(WorldOf(rs, target))
  {
    forall t: nat, u: nat, r ensures StableAt(WorldOf(rs, target), t, u, r) {
      if t <= u && WorldOf(rs, target)(t, r) == Yes {
        StaysCaughtUp(rs, r, target, t, u);
      }
    }
  }

  /**
   So when the wait returns normally, every listed projection has, at that one moment, handled
   every event in (start, target] it routes.
   */
  lemma WaitComposes<E>(rs: Runs<E>, refs: seq<SubscriptionRef>, target: nat, t: nat, i: nat, k: Key)
    requires NeverReset(rs) && DistinctKeys(refs) && i < |refs| && rs.cfg(refs[i]).kind == Projection
    requires forall j: nat | j < |refs| && LastOfKey(refs, j) :: WorldOf(rs, target)(t, refs[j]) == Yes
    requires var s := At(rs, refs[i], t); Routes(rs.cfg(refs[i]), s.log, k) && s.hist.start < k.event <= target
    ensures CaughtUp(At(rs, refs[i], t).queue, target) && k in At(rs, refs[i], t).hist.handled
  {
    NormalReturnMeansAll(WorldOf(rs, target), refs, t);
    var s := At(rs, refs[i], t);
    assert WorldOf(rs, target)(t, refs[i]) == Yes;
    var run := AtIsReached(rs, refs[i], t);
    ReachedInv(rs.cfg(refs[i]), rs.log, run, s);
    assert k in s.hist.inserted;
  }
}
