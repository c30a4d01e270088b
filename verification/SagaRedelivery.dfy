/**
 The transfer saga when events are redelivered: the process manager may dispatch again what
 already took effect.  Only deletes are excluded, and amounts are not negative.
 */
module SagaRedelivery {
  import opened WorkQueue
  import opened QueueProtocol
  import opened QueueTheorems
  import opened Saga

  predicate SoundStep(a: SagaAction) {
    (a.User? ==> AmountOk(a.u)) && (a.Queue? ==> !Resets(a.a))
  }

  /** `s` is where a run from an empty log leads, with redeliveries anywhere. */
  ghost predicate Sound(run: seq<SagaAction>, s: System<BankEvent>) {
    s == Run(run) && forall i | 0 <= i < |run| :: SoundStep(run[i])
  }

  /** The amount of a debit that was handled before and whose credit is accepted once more. */
  function PaidAgain(log: Log, handled: set<Key>, key: Key): int
    requires 1 <= key.event <= |log|
  {
    var e := log[key.event - 1];
    if key in handled && IsDebit(e) && !IsStranded(e) && Dispatched(log, HandleTransfer(e).command).Some? then e.account.amount else 0
  }

  /** What one step creates. */
  function CreatedBy(s: System<BankEvent>, a: SagaAction): int {
    if a.HandleEvent? && ProcOf(s, a.w).Working? && 1 <= ProcOf(s, a.w).key.event <= |s.log|
    then PaidAgain(s.log, s.hist.handled, ProcOf(s, a.w).key)
    else 0
  }

  function Surplus(run: seq<SagaAction>): int
    decreases |run|
  {
    if run == [] then 0
    else Surplus(run[..|run| - 1]) + CreatedBy(Run(run[..|run| - 1]), run[|run| - 1])
  }

  // ---------------------------------------------------------------- the ledger under redelivery

  ghost predicate LooseInv(s: System<BankEvent>, surplus: int) {
    && Inv(PM, s)
    && s.hist.epoch == 0
    && BankInv(s.log)
    && Ledger(s.log, s.hist.handled, surplus)
  }

  lemma RedeliveryKeepsLedger(log: Log, handled: set<Key>, key: Key, surplus: int)
    requires BankInv(log) && Ledger(log, handled, surplus) && KeysRouted(log, handled) && Routes(PM, log, key) && key in handled
    requires Dispatched(log, HandleTransfer(log[key.event - 1]).command).Some?
    ensures var e := log[key.event - 1];
      Ledger(log + Dispatched(log, HandleTransfer(e).command).value, handled,
             surplus + if IsDebit(e) && !IsStranded(e) then e.account.amount else 0)
  {
    var e := log[key.event - 1];
    var events := Dispatched(log, HandleTransfer(e).command).value;
    HandlerAdds(log, e, key.partition);
    SumAppend(log, events, Each(Credited));
    SumAppend(log, events, Paid(handled));
    if events != [] {
      NotYetHandled(log, handled, events[0]);
      assert Each(Credited)(events[0], |log| + 1) == Credited(events[0]);
    }
  }

  /** Handling an event, for the first time or again, on the log and the history alone. */
  lemma HandlingKeepsLoose(log: Log, handled: set<Key>, key: Key, surplus: int, log': Log, handled': set<Key>)
    requires BankInv(log) && Ledger(log, handled, surplus) && KeysRouted(log, handled) && Routes(PM, log, key)
    requires var result := Dispatched(log, HandleTransfer(log[key.event - 1]).command);
      && log' == (if result.Some? then log + result.value else log)
      && handled' == (if result.Some? then handled + {key} else handled)
    ensures BankInv(log') && Ledger(log', handled', surplus + PaidAgain(log, handled, key))
  {
    if Dispatched(log, HandleTransfer(log[key.event - 1]).command).Some? {
      HandlingKeepsBank(log, key);
      if key in handled {
        assert handled + {key} == handled;
        RedeliveryKeepsLedger(log, handled, key, surplus);
      } else {
        HandlingKeepsLedger(log, handled, key, surplus);
      }
    }
  }

  lemma HandleKeepsQueue(s: System<BankEvent>, w: WorkerId)
    requires Inv(PM, s) && s.hist.epoch == 0 && Steps(s, HandleEvent(w)) != []
    ensures Inv(PM, DoSaga(s, HandleEvent(w))) && DoSaga(s, HandleEvent(w)).hist.epoch == 0
  {
    WorkerFacts(s, w);
    RunKeepsInv(PM, s, Steps(s, HandleEvent(w)));
    HandleOutcome(s, w);
  }

  lemma HandleKeepsBooks(s: System<BankEvent>, w: WorkerId, surplus: int)
    requires BankInv(s.log) && Ledger(s.log, s.hist.handled, surplus) && KeysRouted(s.log, s.hist.handled)
    requires ProcOf(s, w).Working? && ProcOf(s, w).epoch == s.hist.epoch && Routes(PM, s.log, ProcOf(s, w).key)
    ensures var t := DoSaga(s, HandleEvent(w));
      BankInv(t.log) && Ledger(t.log, t.hist.handled, surplus + CreatedBy(s, HandleEvent(w)))
  {
    var t := DoSaga(s, HandleEvent(w));
    HandleOutcome(s, w);
    HandlingKeepsLoose(s.log, s.hist.handled, ProcOf(s, w).key, surplus, t.log, t.hist.handled);
  }

  lemma LooseHandle(s: System<BankEvent>, w: WorkerId, surplus: int)
    requires LooseInv(s, surplus) && Steps(s, HandleEvent(w)) != []
    ensures LooseInv(DoSaga(s, HandleEvent(w)), surplus + CreatedBy(s, HandleEvent(w)))
  {
    WorkerFacts(s, w);
    HandledIsRouted(s);
    HandleKeepsQueue(s, w);
    HandleKeepsBooks(s, w, surplus);
  }

  lemma LooseUser(s: System<BankEvent>, u: UserCommand, surplus: int)
    requires LooseInv(s, surplus) && AmountOk(u) && Execute(s.log, Resolve(u)).Some?
    ensures LooseInv(Do(PM, s, Append(Execute(s.log, Resolve(u)).value)), surplus)
  {
    StepKeepsInv(PM, s, Append(Execute(s.log, Resolve(u)).value));
    HandledIsRouted(s);
    ExecuteKeepsBank(s.log, Resolve(u));
    UserKeepsLedger(s.log, s.hist.handled, u, surplus);
  }

  lemma LooseQueue(s: System<BankEvent>, q: Action<BankEvent>, surplus: int)
    requires LooseInv(s, surplus) && !Internal(q) && !Resets(q)
    ensures LooseInv(Do(PM, s, q), surplus)
  {
    StepKeepsInv(PM, s, q);
    QueueStepFrame(s, q);
  }

  lemma LooseAck(s: System<BankEvent>, w: WorkerId, surplus: int)
    requires LooseInv(s, surplus) && Steps(s, Ack(w)) != []
    ensures LooseInv(DoSaga(s, Ack(w)), surplus)
  {
    var a := Steps(s, Ack(w))[0];
    ExecOne(s, a);
    RowFacts(s);
    StepKeepsInv(PM, s, a);
    AckFrame(s, w, a);
  }

  lemma LooseStep(s: System<BankEvent>, a: SagaAction, surplus: int)
    requires LooseInv(s, surplus) && SoundStep(a)
    ensures LooseInv(DoSaga(s, a), surplus + CreatedBy(s, a))
  {
    var steps := Steps(s, a);
    if steps != [] {
      match a
      case User(u) =>
        ExecOne(s, steps[0]);
        LooseUser(s, u, surplus);
      case Queue(q) =>
        ExecOne(s, q);
        LooseQueue(s, q, surplus);
      case HandleEvent(w) => LooseHandle(s, w, surplus);
      case Ack(w) => LooseAck(s, w, surplus);
    }
  }

  lemma {:induction false} SoundRunKeeps(run: seq<SagaAction>)
    requires forall i | 0 <= i < |run| :: SoundStep(run[i])
    ensures LooseInv(Run(run), Surplus(run))
    decreases |run|
  {
    if run == [] {
      InitialInv<BankEvent>(PM, []);
      EmptyBank();
    } else {
      SoundRunKeeps(run[..|run| - 1]);
      LooseStep(Run(run[..|run| - 1]), run[|run| - 1], Surplus(run[..|run| - 1]));
    }
  }

  /**
   The exact law with redelivery: the books are off by the debits whose second credit was
   accepted, and by nothing else.
   */
  lemma RedeliveryCreates(run: seq<SagaAction>, s: System<BankEvent>)
    requires Sound(run, s)
    ensures Net(s.log) + InFlight(s.log, s.hist.handled) + StrandedTotal(s.log) == DirectTotal(s.log) + Surplus(run)
  {
    SoundRunKeeps(run);
    SumSplits(s.log, s.hist.handled);
  }

  lemma CreatedIsNotNegative(s: System<BankEvent>, a: SagaAction)
    requires BankInv(s.log)
    ensures CreatedBy(s, a) >= 0
  {
    if a.HandleEvent? && ProcOf(s, a.w).Working? && 1 <= ProcOf(s, a.w).key.event <= |s.log| {
      assert EventOk(s.log[ProcOf(s, a.w).key.event - 1]);
    }
  }

  /** No step of the run credits a debit that was credited before. */
  predicate NothingCreated(run: seq<SagaAction>)
    decreases |run|
  {
    run != [] ==>
      var before := run[..|run| - 1];
      NothingCreated(before) && CreatedBy(Run(before), run[|run| - 1]) == 0
  }

  lemma LastCreates(run: seq<SagaAction>)
    requires run != [] && forall i | 0 <= i < |run| :: SoundStep(run[i])
    ensures CreatedBy(Run(run[..|run| - 1]), run[|run| - 1]) >= 0
  {
    SoundRunKeeps(run[..|run| - 1]);
    CreatedIsNotNegative(Run(run[..|run| - 1]), run[|run| - 1]);
  }

  lemma {:induction false} SurplusAddsUp(run: seq<SagaAction>)
    requires forall i | 0 <= i < |run| :: SoundStep(run[i])
    ensures Surplus(run) >= 0 && (Surplus(run) == 0 <==> NothingCreated(run))
    decreases |run|
  {
    if run != [] {
      SurplusAddsUp(run[..|run| - 1]);
      LastCreates(run);
    }
  }

  /** Money is conserved if and only if no step of the run credits a debit that was credited before. */
  lemma ConservedIff(run: seq<SagaAction>, s: System<BankEvent>)
    requires Sound(run, s)
    ensures Net(s.log) + InFlight(s.log, s.hist.handled) + StrandedTotal(s.log) == DirectTotal(s.log) <==> NothingCreated(run)
  {
    RedeliveryCreates(run, s);
    SurplusAddsUp(run);
  }

  /** Redelivery overdraws no account. */
  lemma StillNeverOverdrawn(run: seq<SagaAction>, s: System<BankEvent>, account: string)
    requires Sound(run, s)
    ensures Balance(s.log, account) >= 0
  {
    SoundRunKeeps(run);
  }

  // ---------------------------------------------------------------- caught up, and still in flight

  /** `k` is the item of a debit of a positive amount that a credit would follow. */
  predicate LiveDebit(log: Log, k: Key) {
    && Routes(PM, log, k)
    && IsDebit(log[k.event - 1]) && !IsStranded(log[k.event - 1]) && log[k.event - 1].account.amount > 0
  }

  /** The debit's item went with its partition and was never handled: its credit will not come. */
  predicate Orphaned(log: Log, h: History, k: Key) {
    LiveDebit(log, k) && k in h.terminated && k !in h.handled
  }

  /** The acknowledgement about to be made takes the item of an unhandled debit with it. */
  ghost predicate DropsDebit(s: System<BankEvent>, a: SagaAction) {
    && a.Ack? && Steps(s, a) == [TerminateInstance(a.w)]
    && exists k :: k in PartitionRows(s.queue.rows, ProcOf(s, a.w).key.partition) && LiveDebit(s.log, k) && k !in s.hist.handled
  }

  lemma {:induction false} UnpaidNotNegative(log: Log, handled: set<Key>)
    requires forall i | 0 <= i < |log| :: EventOk(log[i])
    ensures InFlight(log, handled) >= 0
  {
    if log != [] {
      UnpaidNotNegative(log[..|log| - 1], handled);
      assert EventOk(log[|log| - 1]);
    }
  }

  /** Something is in flight if and only if some live debit is not handled. */
  lemma {:induction false} InFlightIff(log: Log, handled: set<Key>)
    requires forall i | 0 <= i < |log| :: EventOk(log[i])
    ensures InFlight(log, handled) > 0 <==> exists k :: LiveDebit(log, k) && k !in handled
  {
    if log != [] {
      var last, e := log[..|log| - 1], log[|log| - 1];
      InFlightIff(last, handled);
      UnpaidNotNegative(last, handled);
      assert EventOk(e);
      LastDebit(log, handled);
      if k :| LiveDebit(last, k) && k !in handled {
        assert LiveDebit(log, k);
      }
      if k :| LiveDebit(log, k) && k !in handled && k.event < |log| {
        assert LiveDebit(last, k);
      }
    }
  }

  lemma LastDebit(log: Log, handled: set<Key>)
    requires log != [] && EventOk(log[|log| - 1])
    ensures var term := Unpaid(handled)(log[|log| - 1], |log|);
      term >= 0 && (term > 0 <==> exists k :: LiveDebit(log, k) && k !in handled && k.event == |log|)
  {
    var e := log[|log| - 1];
    if IsDebit(e) && !IsStranded(e) && Unpaid(handled)(e, |log|) > 0 {
      assert LiveDebit(log, Key(e.account.transferId.value, |log|));
    }
  }

  /**
   Caught up with the whole log, redelivery or not: nothing is in flight if and only if no
   termination took the item of a debit that was never handled.
   */
  lemma CaughtUpIff(run: seq<SagaAction>, s: System<BankEvent>)
    requires Sound(run, s) && CaughtUp(s.queue, |s.log|) && s.hist.start == 0
    ensures InFlight(s.log, s.hist.handled) == 0 <==> forall k :: !Orphaned(s.log, s.hist, k)
  {
    SoundRunKeeps(run);
    GoneOrHandled(s);
    InFlightOrOrphaned(s.log, s.hist);
  }

  lemma InFlightOrOrphaned(log: Log, h: History)
    requires forall i | 0 <= i < |log| :: EventOk(log[i])
    requires forall k | Routes(PM, log, k) :: k in h.handled || k in h.terminated
    ensures InFlight(log, h.handled) == 0 <==> forall k :: !Orphaned(log, h, k)
  {
    InFlightIff(log, h.handled);
    UnpaidNotNegative(log, h.handled);
    if k :| LiveDebit(log, k) && k !in h.handled {
      assert Orphaned(log, h, k);
    }
    if k :| Orphaned(log, h, k) {
      assert LiveDebit(log, k);
    }
  }

  lemma GoneOrHandled(s: System<BankEvent>)
    requires Inv(PM, s) && CaughtUp(s.queue, |s.log|) && s.hist.start == 0
    ensures forall k | Routes(PM, s.log, k) :: k in s.hist.handled || k in s.hist.terminated
  {
    forall k | Routes(PM, s.log, k) ensures k in s.hist.handled || k in s.hist.terminated {
      assert k in s.hist.inserted;
    }
  }

  /** Every terminated item is that of a routed event, and of no debit that was not handled. */
  ghost predicate NoOrphans(log: Log, handled: set<Key>, terminated: set<Key>) {
    forall k | k in terminated :: Routes(PM, log, k) && (LiveDebit(log, k) ==> k in handled)
  }

  /** What a step can do to log and history. */
  ghost predicate Onward(s: System<BankEvent>, t: System<BankEvent>, gone: set<Key>) {
    && |s.log| <= |t.log| && t.log[..|s.log|] == s.log
    && s.hist.handled <= t.hist.handled && t.hist.terminated <= s.hist.terminated + gone
  }

  function Gone(s: System<BankEvent>, a: SagaAction): set<Key> {
    if a.Ack? && Steps(s, a) == [TerminateInstance(a.w)] then PartitionRows(s.queue.rows, ProcOf(s, a.w).key.partition) else {}
  }

  lemma AckOnward(s: System<BankEvent>, w: WorkerId)
    requires Inv(PM, s) && Steps(s, Ack(w)) != []
    ensures Onward(s, DoSaga(s, Ack(w)), Gone(s, Ack(w)))
  {
    var a := Steps(s, Ack(w))[0];
    assert Steps(s, Ack(w)) == [a];
    ExecOne(s, a);
    RowFacts(s);
    AckFrame(s, w, a);
  }

  lemma StepOnward(s: System<BankEvent>, a: SagaAction, surplus: int)
    requires LooseInv(s, surplus) && SoundStep(a)
    ensures Onward(s, DoSaga(s, a), Gone(s, a))
  {
    var steps := Steps(s, a);
    if steps != [] {
      match a
      case User(u) => ExecOne(s, steps[0]);
      case Queue(q) =>
        ExecOne(s, q);
        QueueStepFrame(s, q);
      case HandleEvent(w) =>
        WorkerFacts(s, w);
        HandleOutcome(s, w);
      case Ack(w) => AckOnward(s, w);
    }
  }

  lemma OrphansStep(s: System<BankEvent>, t: System<BankEvent>, gone: set<Key>)
    requires NoOrphans(s.log, s.hist.handled, s.hist.terminated) && Onward(s, t, gone)
    requires forall k | k in gone :: Routes(PM, s.log, k) && (LiveDebit(s.log, k) ==> k in s.hist.handled)
    ensures NoOrphans(t.log, t.hist.handled, t.hist.terminated)
  {
    forall k | k in t.hist.terminated ensures Routes(PM, t.log, k) && (LiveDebit(t.log, k) ==> k in t.hist.handled) {
      assert Routes(PM, s.log, k) && (LiveDebit(s.log, k) ==> k in s.hist.handled);
      assert t.log[k.event - 1] == t.log[..|s.log|][k.event - 1];
    }
  }

  /** No acknowledgement of the run drops an unhandled debit. */
  ghost predicate NeverDrops(run: seq<SagaAction>)
    decreases |run|
  {
    run != [] ==>
      var before := run[..|run| - 1];
      NeverDrops(before) && !DropsDebit(Run(before), run[|run| - 1])
  }

  lemma {:induction false} NothingDropped(run: seq<SagaAction>)
    requires NeverDrops(run) && forall i | 0 <= i < |run| :: SoundStep(run[i])
    ensures var s := Run(run); NoOrphans(s.log, s.hist.handled, s.hist.terminated)
    decreases |run|
  {
    if run != [] {
      var before, a := run[..|run| - 1], run[|run| - 1];
      NothingDropped(before);
      SoundRunKeeps(before);
      DropStep(Run(before), a, Surplus(before));
    }
  }

  lemma DropStep(s: System<BankEvent>, a: SagaAction, surplus: int)
    requires LooseInv(s, surplus) && SoundStep(a) && !DropsDebit(s, a)
    requires NoOrphans(s.log, s.hist.handled, s.hist.terminated)
    ensures var t := DoSaga(s, a); NoOrphans(t.log, t.hist.handled, t.hist.terminated)
  {
    StepOnward(s, a, surplus);
    RowFacts(s);
    OrphansStep(s, DoSaga(s, a), Gone(s, a));
  }

  /** As long as no acknowledgement drops an unhandled debit, catching up leaves nothing in flight. */
  lemma CaughtUpUnlessDropped(run: seq<SagaAction>, s: System<BankEvent>)
    requires Sound(run, s) && CaughtUp(s.queue, |s.log|) && s.hist.start == 0 && NeverDrops(run)
    ensures InFlight(s.log, s.hist.handled) == 0
  {
    NothingDropped(run);
    CaughtUpIff(run, s);
  }

  lemma LostStep(s: System<BankEvent>, a: SagaAction, surplus: int, k: Key)
    requires LooseInv(s, surplus) && SoundStep(a) && Lost(s, k) && LiveDebit(s.log, k)
    ensures Lost(DoSaga(s, a), k) && LiveDebit(DoSaga(s, a).log, k)
  {
    forall i | 0 <= i < |Steps(s, a)| ensures !Resets(Steps(s, a)[i]) {
    }
    LostForGood(PM, s, Steps(s, a), k);
    StepOnward(s, a, surplus);
    assert DoSaga(s, a).log[k.event - 1] == DoSaga(s, a).log[..|s.log|][k.event - 1];
  }

  /** The amount of a debit whose item is lost stays in flight for ever, whatever the run goes on to do. */
  lemma {:induction false} LostDebitForGood(run: seq<SagaAction>, more: seq<SagaAction>, k: Key)
    requires forall i | 0 <= i < |run + more| :: SoundStep((run + more)[i])
    requires Lost(Run(run), k) && LiveDebit(Run(run).log, k)
    ensures var s := Run(run + more); Lost(s, k) && LiveDebit(s.log, k) && InFlight(s.log, s.hist.handled) > 0
    decreases |more|
  {
    SoundRunKeeps(run + more);
    if more == [] {
      assert run + more == run;
    } else {
      var before := run + more[..|more| - 1];
      assert (run + more)[..|run + more| - 1] == before;
      assert forall i | 0 <= i < |before| :: before[i] == (run + more)[i];
      LostDebitForGood(run, more[..|more| - 1], k);
      SoundRunKeeps(before);
      LostStep(Run(before), more[|more| - 1], Surplus(before), k);
      assert (run + more)[|run + more| - 1] == more[|more| - 1];
    }
    InFlightIff(Run(run + more).log, Run(run + more).hist.handled);
  }
}
