/** One process-manager worker: loading a partition's state, handling an event, acknowledging it. */
module PmSubstrate {
  import opened Wrappers
  import opened Replay
  import opened WorkQueue
  import opened QueueProtocol
  import opened ProcessManagerState
  import opened Keys
  import QueueStore

  /** What `handle` leaves for `complete`. */
  datatype StagedWork<+S> = StagedWork(state: S, complete: bool)

  /** `loadState`: the snapshot when its tag equals ours, both absent included; else the fold of the done events before `key`. */
  ghost function LoadSpec<S, E>(m: Module<S, E>, tag: Tag, log: seq<E>, rows: map<Key, RowState>, hasSub: bool,
                                snaps: map<Partition, Snapshot<S>>, key: Key): Option<S> {
    if key.partition in snaps && snaps[key.partition].tag == tag then Some(snaps[key.partition].data)
    else if !hasSub then None
    else Some(Fold(m, DoneEvents(log, rows, key.partition, Below(key.event))))
  }

  class Substrate<S, E> {
    const client: QueueStore.Store<S, E>
    const me: WorkerId
    const tag: Tag
    const def: Module<S, E>
    /** The user's `handle` on the staged state; None when it throws, else its `complete` flag. */
    const handle: (S, E) -> Option<bool>
    var staged: map<string, StagedWork<S>>

    constructor (client: QueueStore.Store<S, E>, me: WorkerId, tag: Tag, def: Module<S, E>, handle: (S, E) -> Option<bool>)
      ensures staged == map[] && this.client == client && this.me == me && this.tag == tag
      ensures this.def == def && this.handle == handle
    {
      this.client, this.me, this.tag, this.def, this.handle := client, me, tag, def, handle;
      staged := map[];
    }

    method LoadState(key: Key) returns (r: Option<S>)
      ensures r == LoadSpec(def, tag, client.log, client.rows, client.sub.Some?, client.snaps, key)
    {
      var p := key.partition;
      if p in client.snaps && client.snaps[p].tag == tag {
        return Some(client.snaps[p].data);
      }
      var prior := client.ListPmRebuildEvents(p, key.event);
      match prior
      case Ok(events) =>
        var state := def.initial;
        for i := 0 to |events|
          invariant state == FoldTo(def, events, i)
        {
          state := def.apply(state, events[i]);
        }
        return Some(state);
      case _ => return None;
    }

    /** `handle`: a throw leaves nothing staged that was not staged before; a retry overwrites. */
    method Handle(key: Key, event: E) returns (ok: bool)
      modifies this
      ensures var base := LoadSpec(def, tag, client.log, client.rows, client.sub.Some?, client.snaps, key);
        var k := StagedKey(key.partition, key.event);
        && ok == (base.Some? && handle(def.apply(base.value, event), event).Some?)
        && staged == if ok
             then var state := def.apply(base.value, event); old(staged)[k := StagedWork(state, handle(state, event).value)]
             else old(staged)
    {
      var base := LoadState(key);
      if base.None? {
        return false;
      }
      var state := def.apply(base.value, event);
      var result := handle(state, event);
      if result.None? {
        return false;
      }
      staged := staged[StagedKey(key.partition, key.event) := StagedWork(state, result.value)];
      return true;
    }

    /** `complete`; `bug` is the branch the source says should never be reached. */
    method Complete(key: Key) returns (bug: bool, ok: bool)
      modifies this, client`rows, client`snaps
      ensures bug == (StagedKey(key.partition, key.event) !in old(staged))
      ensures bug ==> !ok && staged == old(staged) && client.Q() == old(client.Q()) && client.snaps == old(client.snaps)
      ensures !bug ==>
        var k := StagedKey(key.partition, key.event);
        var work := old(staged)[k];
        && staged == old(staged) - {k}
        && if work.complete then
             && client.Q() == CompleteInstance(old(client.Q()), key.partition).1
             && ok == old(client.sub).Some?
             && client.snaps == if ok then old(client.snaps) - {key.partition} else old(client.snaps)
           else
             && client.Q() == CompletePm(old(client.Q()), me, key).1
             && ok == (old(client.sub).Some? && ClaimedBy(old(client.rows), key, me))
             && client.snaps == if ok then old(client.snaps)[key.partition := Snapshot(tag, key.event, work.state)]
                                else old(client.snaps)
    {
      var k := StagedKey(key.partition, key.event);
      if k !in staged {
        return true, false;
      }
      var work := staged[k];
      staged := staged - {k};
      if work.complete {
        var r := client.CompletePmInstance(key.partition);
        return false, r.Ok?;
      }
      var r := client.CompleteWorkItemPm(me, key, Snapshot(tag, key.event, work.state));
      return false, r.Ok?;
    }

    /**
     One item from `handle` to `complete`, whatever other workers do to the tables in between and
     whatever stale entries earlier items left in the map: the bug branch is never reached, and
     entries of other items stay.
     */
    method HandleThenComplete(key: Key, event: E, sub': Option<Subscription>, rows': map<Key, RowState>,
                              snaps': map<Partition, Snapshot<S>>) returns (handled: bool, bug: bool, ok: bool)
      modifies this, client`sub, client`rows, client`snaps
      ensures !bug
      ensures ok ==> handled
      ensures forall p, n: nat | Key(p, n) != key && StagedKey(p, n) in old(staged) ::
                StagedKey(p, n) in staged && staged[StagedKey(p, n)] == old(staged)[StagedKey(p, n)]
      ensures handled ==> StagedKey(key.partition, key.event) !in staged
    {
      forall p, n: nat ensures StagedKey(p, n) == StagedKey(key.partition, key.event) <==> Key(p, n) == key {
        StagedKeyInjective(p, n, key.partition, key.event);
      }
      bug, ok := false, false;
      handled := Handle(key, event);
      client.sub, client.rows, client.snaps := sub', rows', snaps';
      if handled {
        bug, ok := Complete(key);
      }
    }
  }

  /** Two steps of the protocol of ProcessManagerState load exactly what LoadState returns. */
  lemma LoadStateIsTheProtocol<S, E>(cfg: PmConfig<S, E>, s: PmSystem<S, E>, w: WorkerId, key: Key)
    requires ProcOf(s.sys, w).Working? && ProcOf(s.sys, w).key == key && s.sys.queue.sub.Some?
    ensures var read := DoPm(cfg, s, ReadSnapshot(w));
      var loaded := if StageOf(read, w).Missed? then DoPm(cfg, read, ListAndFold(w)) else read;
      var spec := LoadSpec(ModuleOf(cfg, w), cfg.tagOf(w), s.sys.log, s.sys.queue.rows, true, s.snaps, key);
      spec.Some? && StageOf(loaded, w) == Loaded(key, spec.value)
  {
    FoldDoneIsFold(ModuleOf(cfg, w), s.sys.log, s.sys.queue.rows, key.partition, Below(key.event));
  }
}
