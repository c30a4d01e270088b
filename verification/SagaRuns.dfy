/**
 Two runs of the transfer saga with a redelivered event: one creates money, the other leaves money
 in flight for ever although the process manager has caught up.
 */
module SagaRuns {
  import opened Wrappers
  import opened Replay
  import opened WorkQueue
  import opened QueueProtocol
  import opened QueueTheorems
  import opened QueueRuns
  import opened Bank
  import opened Saga
  import opened SagaRedelivery
  import AggregateProtocol

  type V = View<BankEvent>

  ghost predicate SoundlyReached(s: System<BankEvent>) {
    exists run :: Sound(run, s)
  }

  /** Some run with redeliveries leads to a system that looks like `v`. */
  ghost predicate Reaches(v: V) {
    exists s :: SoundlyReached(s) && ViewOf(s) == v
  }

  // ---------------------------------------------------------------- steps

  lemma Then(s: System<BankEvent>, a: SagaAction)
    requires SoundlyReached(s) && SoundStep(a)
    ensures SoundlyReached(DoSaga(s, a))
  {
    var run :| Sound(run, s);
    assert (run + [a])[..|run + [a]| - 1] == run;
    assert Sound(run + [a], DoSaga(s, a));
  }

  lemma ThenQueue(s: System<BankEvent>, q: Action<BankEvent>)
    requires SoundlyReached(s) && !Internal(q) && !Resets(q)
    ensures SoundlyReached(Do(PM, s, q))
  {
    Then(s, SagaAction.Queue(q));
    ExecOne(s, q);
  }

  /** One saga step whose effect on the view is known. */
  lemma Extend(v: V, s: System<BankEvent>, a: SagaAction, after: V)
    requires SoundlyReached(s) && ViewOf(s) == v && SoundStep(a) && ViewOf(DoSaga(s, a)) == after
    ensures Reaches(after)
  {
    Then(s, a);
  }

  lemma UserEffect(s: System<BankEvent>, u: UserCommand, e: BankEvent)
    requires Execute(s.log, Resolve(u)) == Some([e])
    ensures ViewOf(DoSaga(s, User(u))) == ViewOf(s).(log := s.log + [e])
  {
    ExecOne(s, Append([e]));
  }

  lemma UserStep(v: V, u: UserCommand, e: BankEvent)
    requires Reaches(v) && AmountOk(u) && Execute(v.log, Resolve(u)) == Some([e])
    ensures Reaches(v.(log := v.log + [e]))
  {
    var s :| SoundlyReached(s) && ViewOf(s) == v;
    UserEffect(s, u, e);
    Extend(v, s, User(u), v.(log := v.log + [e]));
  }

  /** The queue after the router has routed up to the head. */
  function RoutedTo(v: V): Queue
    requires Seen(v.queue) <= |v.log|
  {
    Queue.Queue(Some(Subscription(|v.log|, Some(Lease("r", v.now + 1)))),
                InsertPending(v.queue.rows, Decide(PM, v.log, Seen(v.queue), |v.log|)))
  }

  lemma RoutePassReached(s: System<BankEvent>)
    requires SoundlyReached(s)
    ensures SoundlyReached(RoutePass(PM, s, "r"))
  {
    ThenQueue(s, ClaimSub("r", 1, Origin));
    ThenQueue(Do(PM, s, ClaimSub("r", 1, Origin)), ReadAndRoute("r", |s.log|));
    ThenQueue(Do(PM, Do(PM, s, ClaimSub("r", 1, Origin)), ReadAndRoute("r", |s.log|)), CommitRoute("r"));
  }

  lemma RouteEffect(s: System<BankEvent>, v: V)
    requires ViewOf(s) == v && v.start == 0 && Seen(v.queue) < |v.log|
    requires v.queue.sub.None? || HeldBy(v.queue.sub, "r")
    ensures ViewOf(RoutePass(PM, s, "r")) == v.(queue := RoutedTo(v))
  {
    RoutePassRoutes(PM, s, "r");
  }

  ghost predicate RoutesTo(v: V, after: V) {
    v.start == 0 && Seen(v.queue) < |v.log| && (v.queue.sub.None? || HeldBy(v.queue.sub, "r")) && after == v.(queue := RoutedTo(v))
  }

  lemma RouteStep(v: V, after: V)
    requires Reaches(v) && RoutesTo(v, after)
    ensures Reaches(after)
  {
    var s :| SoundlyReached(s) && ViewOf(s) == v;
    RouteEffect(s, v);
    RoutePassReached(s);
  }

  function Taken(v: V, w: WorkerId, k: Key, seconds: nat): V {
    v.(queue := v.queue.(rows := v.queue.rows[k := Claimed(w, v.now + seconds)]), procs := v.procs[w := Working(k, v.epoch)])
  }

  ghost predicate Claims(v: V, w: WorkerId, k: Key, seconds: nat, after: V) {
    v.queue.sub.Some? && Claimable(v.queue.rows, k, v.now) && after == Taken(v, w, k, seconds)
  }

  lemma ClaimStep(v: V, w: WorkerId, k: Key, seconds: nat, after: V)
    requires Reaches(v) && Claims(v, w, k, seconds, after)
    ensures Reaches(after)
  {
    var s :| SoundlyReached(s) && ViewOf(s) == v;
    ClaimEffect(s, v, w, k, seconds);
    ThenQueue(s, ClaimItem(w, k, seconds));
  }

  lemma ClaimEffect(s: System<BankEvent>, v: V, w: WorkerId, k: Key, seconds: nat)
    requires ViewOf(s) == v && v.queue.sub.Some? && Claimable(v.queue.rows, k, v.now)
    ensures ViewOf(Do(PM, s, ClaimItem(w, k, seconds))) == Taken(v, w, k, seconds)
  {
    ClaimTakes(PM, s, w, k, seconds);
  }

  lemma TickStep(v: V, after: V)
    requires Reaches(v) && after == v.(now := v.now + 1)
    ensures Reaches(after)
  {
    var s :| SoundlyReached(s) && ViewOf(s) == v;
    TickEffect(s);
    ThenQueue(s, Tick(1));
  }

  lemma TickEffect(s: System<BankEvent>)
    ensures ViewOf(Do(PM, s, Tick(1))) == ViewOf(s).(now := s.now + 1)
  {
  }

  function AfterHandling(v: V, w: WorkerId, k: Key, events: Log): V {
    v.(log := v.log + events, procs := v.procs[w := Returned(k, v.epoch)], handled := v.handled + {k})
  }

  lemma HandleDo(s: System<BankEvent>, w: WorkerId, k: Key, events: Log)
    requires ProcOf(s, w) == Working(k, s.hist.epoch)
    ensures ViewOf(Do(PM, Do(PM, s, Append(events)), HandlerReturns(w))) == AfterHandling(ViewOf(s), w, k, events)
  {
  }

  lemma HandleEffect(s: System<BankEvent>, w: WorkerId, k: Key, events: Log)
    requires w in s.procs && s.procs[w] == Working(k, s.hist.epoch) && 1 <= k.event <= |s.log|
    requires Dispatched(s.log, HandleTransfer(s.log[k.event - 1]).command) == Some(events)
    ensures ViewOf(DoSaga(s, HandleEvent(w))) == AfterHandling(ViewOf(s), w, k, events)
  {
    HandleDo(s, w, k, events);
    ExecTwo(s, Append(events), HandlerReturns(w));
  }

  ghost predicate Handles(v: V, w: WorkerId, k: Key, events: Log, after: V) {
    && w in v.procs && v.procs[w] == Working(k, v.epoch) && 1 <= k.event <= |v.log|
    && Dispatched(v.log, HandleTransfer(v.log[k.event - 1]).command) == Some(events)
    && after == AfterHandling(v, w, k, events)
  }

  lemma HandleStep(v: V, w: WorkerId, k: Key, events: Log, after: V)
    requires Reaches(v) && Handles(v, w, k, events, after)
    ensures Reaches(after)
  {
    var s :| SoundlyReached(s) && ViewOf(s) == v;
    HandleEffect(s, w, k, events);
    Extend(v, s, HandleEvent(w), after);
  }

  function AfterAck(v: V, w: WorkerId, k: Key): V {
    v.(queue := v.queue.(rows := v.queue.rows[k := Done]), procs := v.procs[w := Free])
  }

  lemma AckEffect(s: System<BankEvent>, w: WorkerId, k: Key)
    requires w in s.procs && s.procs[w] == Returned(k, s.hist.epoch) && 1 <= k.event <= |s.log|
    requires s.queue.sub.Some? && ClaimedBy(s.queue.rows, k, w) && !HandleTransfer(s.log[k.event - 1]).complete
    ensures ViewOf(DoSaga(s, Ack(w))) == AfterAck(ViewOf(s), w, k)
  {
    ExecOne(s, CompleteItem(w));
  }

  ghost predicate Acks(v: V, w: WorkerId, k: Key, after: V) {
    && w in v.procs && v.procs[w] == Returned(k, v.epoch) && 1 <= k.event <= |v.log|
    && v.queue.sub.Some? && ClaimedBy(v.queue.rows, k, w) && !HandleTransfer(v.log[k.event - 1]).complete
    && after == AfterAck(v, w, k)
  }

  lemma AckStep(v: V, w: WorkerId, k: Key, after: V)
    requires Reaches(v) && Acks(v, w, k, after)
    ensures Reaches(after)
  {
    var s :| SoundlyReached(s) && ViewOf(s) == v;
    AckEffect(s, w, k);
    Extend(v, s, Ack(w), after);
  }

  function AfterTermination(v: V, w: WorkerId): V {
    v.(queue := v.queue.(rows := map[]), procs := v.procs[w := Free], terminated := v.terminated + v.queue.rows.Keys)
  }

  lemma WholePartition(rows: map<Key, RowState>, p: Partition)
    requires forall i | i in rows :: i.partition == p
    ensures PartitionRows(rows, p) == rows.Keys && rows - PartitionRows(rows, p) == map[] && rows.Keys - {} == rows.Keys
  {
  }

  lemma TerminateDo(s: System<BankEvent>, w: WorkerId, k: Key)
    requires ProcOf(s, w) == Returned(k, s.hist.epoch) && s.queue.sub.Some?
    requires PartitionRows(s.queue.rows, k.partition) == s.queue.rows.Keys && s.queue.rows - PartitionRows(s.queue.rows, k.partition) == map[]
    ensures ViewOf(Do(PM, s, TerminateInstance(w))) == AfterTermination(ViewOf(s), w)
  {
  }

  lemma TerminatesInOneStep(s: System<BankEvent>, w: WorkerId, k: Key)
    requires ProcOf(s, w) == Returned(k, s.hist.epoch) && 1 <= k.event <= |s.log| && HandleTransfer(s.log[k.event - 1]).complete
    ensures DoSaga(s, Ack(w)) == Do(PM, s, TerminateInstance(w))
  {
    assert Steps(s, Ack(w)) == [TerminateInstance(w)];
    ExecOne(s, TerminateInstance(w));
  }

  lemma TerminateEffect(s: System<BankEvent>, w: WorkerId, k: Key)
    requires w in s.procs && s.procs[w] == Returned(k, s.hist.epoch) && 1 <= k.event <= |s.log|
    requires s.queue.sub.Some? && HandleTransfer(s.log[k.event - 1]).complete
    requires forall i | i in s.queue.rows :: i.partition == k.partition
    ensures ViewOf(DoSaga(s, Ack(w))) == AfterTermination(ViewOf(s), w)
  {
    TerminatesInOneStep(s, w, k);
    WholePartition(s.queue.rows, k.partition);
    TerminateDo(s, w, k);
  }

  ghost predicate Terminates(v: V, w: WorkerId, k: Key, after: V) {
    && w in v.procs && v.procs[w] == Returned(k, v.epoch) && 1 <= k.event <= |v.log|
    && v.queue.sub.Some? && HandleTransfer(v.log[k.event - 1]).complete
    && (forall i | i in v.queue.rows :: i.partition == k.partition)
    && after == AfterTermination(v, w)
  }

  lemma TerminateStep(v: V, w: WorkerId, k: Key, after: V)
    requires Reaches(v) && Terminates(v, w, k, after)
    ensures Reaches(after)
  {
    var s :| SoundlyReached(s) && ViewOf(s) == v;
    TerminateEffect(s, w, k);
    Extend(v, s, Ack(w), after);
  }

  // ---------------------------------------------------------------- the bank's states along the way

  function StateOf(log: Log, id: string): AccountState {
    Fold(Account(), AccountEvents(log, id))
  }

  lemma AccountAfter(log: Log, e: BankEvent, id: string)
    ensures StateOf(log + [e], id) == if e.OnAccount? && e.id == id then ApplyAccount(StateOf(log, id), e.account) else StateOf(log, id)
    ensures TransferEvents(log + [e], id) == if e.OnTransfer? && e.id == id then TransferEvents(log, id) + [e.transfer] else TransferEvents(log, id)
  {
    assert (log + [e])[..|log|] == log;
    if e.OnAccount? && e.id == id {
      FoldSnoc(Account(), AccountEvents(log, id), e.account);
    }
  }

  lemma AccountExecutes(log: Log, id: string, command: AccountCommand, e: AccountEvent)
    requires ExecuteAccount(StateOf(log, id), command) == AggregateProtocol.Emits([e])
    ensures Execute(log, ToAccount(id, command)) == Some([OnAccount(id, e)])
  {
    var events := Execute(log, ToAccount(id, command)).value;
    assert events == [OnAccount(id, e)];
  }

  lemma TransferExecutes(log: Log, id: string, command: TransferCommand, e: TransferEvent)
    requires ExecuteTransfer(Fold(Transfer(), TransferEvents(log, id)), command) == AggregateProtocol.Emits([e])
    ensures Execute(log, ToTransfer(id, command)) == Some([OnTransfer(id, e)])
  {
    var events := Execute(log, ToTransfer(id, command)).value;
    assert events == [OnTransfer(id, e)];
  }

  /** The two accounts and the transfer's stream. */
  datatype Books = Books(a: AccountState, b: AccountState, t: seq<TransferEvent>)

  function BooksOf(log: Log): Books {
    Books(StateOf(log, "a"), StateOf(log, "b"), TransferEvents(log, "t"))
  }

  function Post(books: Books, e: BankEvent): Books {
    match e
    case OnAccount(id, account) =>
      if id == "a" then books.(a := ApplyAccount(books.a, account))
      else if id == "b" then books.(b := ApplyAccount(books.b, account))
      else books
    case OnTransfer(id, transfer) => if id == "t" then books.(t := books.t + [transfer]) else books
  }

  lemma BooksAfter(log: Log, e: BankEvent)
    ensures BooksOf(log + [e]) == Post(BooksOf(log), e)
  {
    AccountAfter(log, e, "a");
    AccountAfter(log, e, "b");
    AccountAfter(log, e, "t");
  }

  const OPEN_A: BankEvent := OnAccount("a", AccountOpened("o"))
  const FUND_A: BankEvent := OnAccount("a", AccountDepositedTo(20, None))
  const OPEN_B: BankEvent := OnAccount("b", AccountOpened("o"))
  const REQUEST: TransferEvent := TransferRequested("a", "b", 10, "t")
  const DEBIT: BankEvent := OnAccount("a", AccountWithdrawnFrom(10, Some("t"), Some("b")))
  const CREDIT: BankEvent := OnAccount("b", AccountDepositedTo(10, Some("t")))

  const K4: Key := Key("t", 4)
  const K5: Key := Key("t", 5)
  const K6: Key := Key("t", 6)
  const K7: Key := Key("t", 7)

  function Start(log: Log): V {
    View(log, 0, EMPTY, map[], 0, 0, {}, {})
  }

  function LOG4(): Log { [OPEN_A, FUND_A, OPEN_B, OnTransfer("t", REQUEST)] }

  function Holding(balance: int): AccountState { AccountState(true, Some("o"), balance) }

  function Fresh(): AccountState { AccountState(false, None, 0) }

  lemma UserEvent(log: Log, u: UserCommand, e: BankEvent)
    requires Reaches(Start(log)) && AmountOk(u) && Execute(log, Resolve(u)) == Some([e])
    ensures Reaches(Start(log + [e])) && BooksOf(log + [e]) == Post(BooksOf(log), e)
  {
    UserStep(Start(log), u, e);
    BooksAfter(log, e);
  }

  lemma NothingYet()
    ensures Reaches(Start([])) && BooksOf([]) == Books(Fresh(), Fresh(), [])
  {
    assert Sound([], Run([])) && ViewOf(Run([])) == Start([]);
    assert SoundlyReached(Run([]));
  }

  lemma Opened()
    ensures Reaches(Start([OPEN_A])) && BooksOf([OPEN_A]) == Books(Holding(0), Fresh(), [])
  {
    NothingYet();
    AccountExecutes([], "a", OpenAccount("o"), AccountOpened("o"));
    UserEvent([], OpenFor("a", "o"), OPEN_A);
    assert [] + [OPEN_A] == [OPEN_A];
  }

  lemma Funded()
    ensures Reaches(Start([OPEN_A, FUND_A])) && BooksOf([OPEN_A, FUND_A]) == Books(Holding(20), Fresh(), [])
  {
    Opened();
    AccountExecutes([OPEN_A], "a", DepositToAccount(20, None), AccountDepositedTo(20, None));
    UserEvent([OPEN_A], Deposit("a", 20), FUND_A);
    assert [OPEN_A] + [FUND_A] == [OPEN_A, FUND_A];
  }

  function LOG3(): Log { [OPEN_A, FUND_A, OPEN_B] }

  lemma BothOpen()
    ensures Reaches(Start(LOG3())) && BooksOf(LOG3()) == Books(Holding(20), Holding(0), [])
  {
    Funded();
    var log := [OPEN_A, FUND_A];
    AccountExecutes(log, "b", OpenAccount("o"), AccountOpened("o"));
    UserEvent(log, OpenFor("b", "o"), OPEN_B);
    assert log + [OPEN_B] == LOG3();
  }

  /** Two accounts, 20 in the first, and a transfer of 10 requested. */
  lemma Requested()
    ensures Reaches(Start(LOG4())) && BooksOf(LOG4()) == Books(Holding(20), Holding(0), [REQUEST])
  {
    BothOpen();
    assert Fold(Transfer(), []).stage == NotRequested;
    TransferExecutes(LOG3(), "t", RequestTransfer("t", "a", "b", 10), REQUEST);
    UserEvent(LOG3(), Request("t", "a", "b", 10), OnTransfer("t", REQUEST));
    assert LOG3() + [OnTransfer("t", REQUEST)] == LOG4();
  }

  // ---------------------------------------------------------------- the states the two runs pass through

  function LOG5(): Log { [OPEN_A, FUND_A, OPEN_B, OnTransfer("t", REQUEST), DEBIT] }

  function LOG6(): Log { [OPEN_A, FUND_A, OPEN_B, OnTransfer("t", REQUEST), DEBIT, CREDIT] }

  /** The subscription as router `r` leaves it. */
  function At(lastSeen: nat, until: nat): Option<Subscription> {
    Some(Subscription(lastSeen, Some(Lease("r", until))))
  }

  function Look(log: Log, now: nat, sub: Option<Subscription>, rows: map<Key, RowState>, w: Processor, v: Processor, handled: set<Key>): V {
    View(log, now, Queue.Queue(sub, rows), map["w" := w, "v" := v], 0, 0, handled, {})
  }

  function Requested4(): V { Start(LOG4()).(queue := Queue.Queue(At(4, 1), map[K4 := Pending])) }

  function Stalled4(now: nat): V {
    View(LOG4(), now, Queue.Queue(At(4, 1), map[K4 := Claimed("w", 0)]), map["w" := Working(K4, 0)], 0, 0, {}, {})
  }

  /** `w` claimed the request and stalled; `v` has taken it over. */
  function TakenOver4(): V { Look(LOG4(), 1, At(4, 1), map[K4 := Claimed("v", 1001)], Working(K4, 0), Working(K4, 0), {}) }

  function Answered4(): V { Look(LOG5(), 1, At(4, 1), map[K4 := Claimed("v", 1001)], Working(K4, 0), Returned(K4, 0), {K4}) }

  function Acked4(): V { Look(LOG5(), 1, At(4, 1), map[K4 := Done], Working(K4, 0), Free, {K4}) }

  /** The debit is routed; `w` still believes it holds the request. */
  function Routed5(): V { Look(LOG5(), 1, At(5, 2), map[K4 := Done, K5 := Pending], Working(K4, 0), Free, {K4}) }

  lemma DecideRequest()
    ensures Decide(PM, LOG4(), 0, 4) == [K4]
  {
    assert Decide(PM, LOG4(), 0, 1) == [] && Decide(PM, LOG4(), 0, 2) == [] && Decide(PM, LOG4(), 0, 3) == [];
  }

  lemma RequestRouted()
    ensures RoutesTo(Start(LOG4()), Requested4())
  {
    DecideRequest();
    assert InsertPending(map[], [K4]) == map[K4 := Pending];
  }

  lemma RequestClaimed()
    ensures Claims(Requested4(), "w", K4, 0, Stalled4(0))
    ensures Claims(Stalled4(1), "v", K4, 1000, TakenOver4())
  {
    assert map[K4 := Pending][K4 := Claimed("w", 0)] == map[K4 := Claimed("w", 0)];
    assert map["w" := Working(K4, 0)]["v" := Working(K4, 0)] == map["w" := Working(K4, 0), "v" := Working(K4, 0)];
    assert map[K4 := Claimed("w", 0)][K4 := Claimed("v", 1001)] == map[K4 := Claimed("v", 1001)];
  }

  lemma WithdrawalAnswers(log: Log, balance: int)
    requires StateOf(log, "a") == Holding(balance) && balance >= 10
    ensures Dispatched(log, HandleTransfer(OnTransfer("t", REQUEST)).command) == Some([DEBIT])
  {
    AccountExecutes(log, "a", WithdrawFromAccount(10, Some("t"), Some("b")), AccountWithdrawnFrom(10, Some("t"), Some("b")));
  }

  lemma CreditAnswers(log: Log, balance: int)
    requires StateOf(log, "b") == Holding(balance)
    ensures Dispatched(log, HandleTransfer(DEBIT).command) == Some([CREDIT])
  {
    AccountExecutes(log, "b", DepositToAccount(10, Some("t")), AccountDepositedTo(10, Some("t")));
  }

  lemma RequestAnswered()
    requires BooksOf(LOG4()) == Books(Holding(20), Holding(0), [REQUEST])
    ensures Handles(TakenOver4(), "v", K4, [DEBIT], Answered4())
    ensures BooksOf(LOG5()) == Books(Holding(10), Holding(0), [REQUEST])
  {
    WithdrawalAnswers(LOG4(), 20);
    BooksAfter(LOG4(), DEBIT);
    assert LOG4() + [DEBIT] == LOG5();
    assert map["w" := Working(K4, 0), "v" := Working(K4, 0)]["v" := Returned(K4, 0)] == map["w" := Working(K4, 0), "v" := Returned(K4, 0)];
  }

  lemma RequestAcked()
    ensures Acks(Answered4(), "v", K4, Acked4())
  {
    assert LOG5()[3] == OnTransfer("t", REQUEST);
    assert map[K4 := Claimed("v", 1001)][K4 := Done] == map[K4 := Done];
    assert map["w" := Working(K4, 0), "v" := Returned(K4, 0)]["v" := Free] == map["w" := Working(K4, 0), "v" := Free];
  }

  /** One new event above the cursor. */
  lemma DecideOne(log: Log, lo: nat)
    requires |log| == lo + 1
    ensures Decide(PM, log, lo, lo + 1) == match RouteTransfer(log[lo]) case None => [] case Some(p) => [Key(p, lo + 1)]
  {
    assert Decide(PM, log, lo, lo) == [];
  }

  lemma DebitRouted()
    ensures RoutesTo(Acked4(), Routed5())
  {
    DecideOne(LOG5(), 4);
    assert InsertPending(map[K4 := Done], [K5]) == map[K4 := Done, K5 := Pending];
  }

  /** The debit of the request is routed, and one worker is left behind on the request. */
  lemma UpToTheDebit()
    ensures Reaches(Routed5()) && BooksOf(LOG5()) == Books(Holding(10), Holding(0), [REQUEST])
  {
    Requested();
    RequestRouted();
    RouteStep(Start(LOG4()), Requested4());
    RequestClaimed();
    ClaimStep(Requested4(), "w", K4, 0, Stalled4(0));
    TickStep(Stalled4(0), Stalled4(1));
    ClaimStep(Stalled4(1), "v", K4, 1000, TakenOver4());
    RequestAnswered();
    HandleStep(TakenOver4(), "v", K4, [DEBIT], Answered4());
    RequestAcked();
    AckStep(Answered4(), "v", K4, Acked4());
    DebitRouted();
    RouteStep(Acked4(), Routed5());
  }

  // ---------------------------------------------------------------- a run that creates money

  const ROWS5: map<Key, RowState> := map[K4 := Done, K5 := Claimed("v", 1002)]

  function Stalled5(now: nat): V { Look(LOG5(), now, At(5, 2), map[K4 := Done, K5 := Claimed("w", 1)], Working(K5, 0), Free, {K4}) }

  function TakenOver5(): V { Look(LOG5(), 2, At(5, 2), ROWS5, Working(K5, 0), Working(K5, 0), {K4}) }

  /** `v` has credited the destination; `w` still believes it holds the debit. */
  function Credited5(): V { Look(LOG6(), 2, At(5, 2), ROWS5, Working(K5, 0), Returned(K5, 0), {K4, K5}) }

  lemma DebitClaimed()
    ensures Claims(Routed5(), "w", K5, 0, Stalled5(1))
    ensures Claims(Stalled5(2), "v", K5, 1000, TakenOver5())
  {
    assert map[K4 := Done, K5 := Pending][K5 := Claimed("w", 1)] == map[K4 := Done, K5 := Claimed("w", 1)];
    assert map["w" := Working(K4, 0), "v" := Free]["w" := Working(K5, 0)] == map["w" := Working(K5, 0), "v" := Free];
    assert map[K4 := Done, K5 := Claimed("w", 1)][K5 := Claimed("v", 1002)] == ROWS5;
    assert map["w" := Working(K5, 0), "v" := Free]["v" := Working(K5, 0)] == map["w" := Working(K5, 0), "v" := Working(K5, 0)];
  }

  lemma DebitAnswered()
    requires BooksOf(LOG5()) == Books(Holding(10), Holding(0), [REQUEST])
    ensures Handles(TakenOver5(), "v", K5, [CREDIT], Credited5())
    ensures BooksOf(LOG6()) == Books(Holding(10), Holding(10), [REQUEST])
  {
    CreditAnswers(LOG5(), 0);
    BooksAfter(LOG5(), CREDIT);
    assert LOG5() + [CREDIT] == LOG6();
    assert {K4} + {K5} == {K4, K5};
    assert map["w" := Working(K5, 0), "v" := Working(K5, 0)]["v" := Returned(K5, 0)] == map["w" := Working(K5, 0), "v" := Returned(K5, 0)];
  }

  lemma UpToTheCredit()
    ensures Reaches(Credited5()) && BooksOf(LOG6()) == Books(Holding(10), Holding(10), [REQUEST])
  {
    UpToTheDebit();
    DebitClaimed();
    ClaimStep(Routed5(), "w", K5, 0, Stalled5(1));
    TickStep(Stalled5(1), Stalled5(2));
    ClaimStep(Stalled5(2), "v", K5, 1000, TakenOver5());
    DebitAnswered();
    HandleStep(TakenOver5(), "v", K5, [CREDIT], Credited5());
  }

  /**
   A stalled worker handles the debit after its successor did: the destination is credited twice
   and the books are off by the amount.
   */
  lemma RedeliveryRun() returns (run: seq<SagaAction>, s: System<BankEvent>)
    ensures Sound(run, s) && s.log == LOG6() + [CREDIT]
    ensures Net(s.log) + InFlight(s.log, s.hist.handled) + StrandedTotal(s.log) > DirectTotal(s.log)
  {
    UpToTheCredit();
    var before :| SoundlyReached(before) && ViewOf(before) == Credited5();
    CreatesTen(before);
    run, s := OneMore(before, HandleEvent("w"));
    SurplusAddsUp(run[..|run| - 1]);
    RedeliveryCreates(run, s);
  }

  lemma OneMore(before: System<BankEvent>, a: SagaAction) returns (run: seq<SagaAction>, s: System<BankEvent>)
    requires SoundlyReached(before) && SoundStep(a)
    ensures Sound(run, s) && run != [] && run[|run| - 1] == a && Run(run[..|run| - 1]) == before && s == DoSaga(before, a)
  {
    var first :| Sound(first, before);
    run, s := first + [a], DoSaga(before, a);
    assert run[..|run| - 1] == first;
  }

  lemma CreatesTen(before: System<BankEvent>)
    requires ViewOf(before) == Credited5() && BooksOf(LOG6()) == Books(Holding(10), Holding(10), [REQUEST])
    ensures CreatedBy(before, HandleEvent("w")) == 10
    ensures DoSaga(before, HandleEvent("w")).log == LOG6() + [CREDIT]
  {
    CreditAnswers(LOG6(), 10);
    assert before.procs["w"] == Working(K5, 0) && LOG6()[4] == DEBIT;
    HandleEffect(before, "w", K5, [CREDIT]);
  }

  // ---------------------------------------------------------------- a run that leaves money in flight

  const COMPLETED: BankEvent := OnTransfer("t", TransferCompleted("t"))

  function LOG7(): Log { [OPEN_A, FUND_A, OPEN_B, OnTransfer("t", REQUEST), DEBIT, CREDIT, DEBIT] }

  function LOG8(): Log { [OPEN_A, FUND_A, OPEN_B, OnTransfer("t", REQUEST), DEBIT, CREDIT, DEBIT, COMPLETED] }

  const STALE: Processor := Working(K4, 0)

  const HELD5: map<Key, RowState> := map[K4 := Done, K5 := Claimed("v", 1001)]
  const DONE5: map<Key, RowState> := map[K4 := Done, K5 := Done]
  const OPEN6: map<Key, RowState> := map[K4 := Done, K5 := Done, K6 := Pending]
  const HELD6: map<Key, RowState> := map[K4 := Done, K5 := Done, K6 := Claimed("v", 1001)]
  const OPEN7: map<Key, RowState> := map[K4 := Done, K5 := Done, K6 := Claimed("v", 1001), K7 := Pending]

  function Held5(): V { Look(LOG5(), 1, At(5, 2), HELD5, STALE, Working(K5, 0), {K4}) }
  function Answered5(): V { Look(LOG6(), 1, At(5, 2), HELD5, STALE, Returned(K5, 0), {K4, K5}) }
  function Acked5(): V { Look(LOG6(), 1, At(5, 2), DONE5, STALE, Free, {K4, K5}) }
  function Routed6(): V { Look(LOG6(), 1, At(6, 2), OPEN6, STALE, Free, {K4, K5}) }
  function Held6(): V { Look(LOG6(), 1, At(6, 2), HELD6, STALE, Working(K6, 0), {K4, K5}) }

  /** The stale worker has handled the request again: a second debit is in the log. */
  function SecondDebit(): V { Look(LOG7(), 1, At(6, 2), HELD6, Returned(K4, 0), Working(K6, 0), {K4, K5}) }

  function Routed7(): V { Look(LOG7(), 1, At(7, 2), OPEN7, Returned(K4, 0), Working(K6, 0), {K4, K5}) }
  function Answered6(): V { Look(LOG8(), 1, At(7, 2), OPEN7, Returned(K4, 0), Returned(K6, 0), {K4, K5, K6}) }

  /** The acknowledged credit has taken the whole partition, the second debit's row included. */
  function Terminated(lastSeen: nat): V {
    View(LOG8(), 1, Queue.Queue(At(lastSeen, 2), map[]), map["w" := Returned(K4, 0), "v" := Free], 0, 0, {K4, K5, K6}, {K4, K5, K6, K7})
  }

  lemma CreditTaken()
    ensures Claims(Routed5(), "v", K5, 1000, Held5())
    ensures Acks(Answered5(), "v", K5, Acked5())
  {
    assert map[K4 := Done, K5 := Pending][K5 := Claimed("v", 1001)] == HELD5 && HELD5[K5 := Done] == DONE5;
    assert LOG6()[4] == DEBIT;
    assert map["w" := STALE, "v" := Free]["v" := Working(K5, 0)] == map["w" := STALE, "v" := Working(K5, 0)];
    assert map["w" := STALE, "v" := Returned(K5, 0)]["v" := Free] == map["w" := STALE, "v" := Free];
  }

  lemma CreditHeld()
    ensures Claims(Routed6(), "v", K6, 1000, Held6())
  {
    assert OPEN6[K6 := Claimed("v", 1001)] == HELD6;
    assert map["w" := STALE, "v" := Free]["v" := Working(K6, 0)] == map["w" := STALE, "v" := Working(K6, 0)];
  }

  lemma CreditAnswered()
    requires BooksOf(LOG5()) == Books(Holding(10), Holding(0), [REQUEST])
    ensures Handles(Held5(), "v", K5, [CREDIT], Answered5())
    ensures BooksOf(LOG6()) == Books(Holding(10), Holding(10), [REQUEST])
  {
    CreditAnswers(LOG5(), 0);
    BooksAfter(LOG5(), CREDIT);
    assert LOG5() + [CREDIT] == LOG6();
    assert {K4} + {K5} == {K4, K5};
    assert map["w" := STALE, "v" := Working(K5, 0)]["v" := Returned(K5, 0)] == map["w" := STALE, "v" := Returned(K5, 0)];
  }

  lemma CreditInserted()
    ensures InsertPending(DONE5, [K6]) == OPEN6
  {
  }

  lemma CreditRouted()
    ensures RoutesTo(Acked5(), Routed6())
  {
    DecideOne(LOG6(), 5);
    CreditInserted();
  }

  lemma UpToTheCreditHeld()
    ensures Reaches(Held6()) && BooksOf(LOG6()) == Books(Holding(10), Holding(10), [REQUEST])
  {
    UpToTheDebit();
    CreditTaken();
    CreditHeld();
    ClaimStep(Routed5(), "v", K5, 1000, Held5());
    CreditAnswered();
    HandleStep(Held5(), "v", K5, [CREDIT], Answered5());
    AckStep(Answered5(), "v", K5, Acked5());
    CreditRouted();
    RouteStep(Acked5(), Routed6());
    ClaimStep(Routed6(), "v", K6, 1000, Held6());
  }

  lemma RequestAnsweredAgain()
    requires BooksOf(LOG6()) == Books(Holding(10), Holding(10), [REQUEST])
    ensures Handles(Held6(), "w", K4, [DEBIT], SecondDebit())
  {
    WithdrawalAnswers(LOG6(), 10);
    assert LOG6()[3] == OnTransfer("t", REQUEST) && LOG6() + [DEBIT] == LOG7();
    assert {K4, K5} + {K4} == {K4, K5};
    assert map["w" := STALE, "v" := Working(K6, 0)]["w" := Returned(K4, 0)] == map["w" := Returned(K4, 0), "v" := Working(K6, 0)];
  }

  lemma DebitedTwice()
    requires BooksOf(LOG6()) == Books(Holding(10), Holding(10), [REQUEST])
    ensures BooksOf(LOG7()) == Books(Holding(0), Holding(10), [REQUEST])
  {
    BooksAfter(LOG6(), DEBIT);
    assert LOG6() + [DEBIT] == LOG7();
  }

  lemma SecondDebitInserted()
    ensures InsertPending(HELD6, [K7]) == OPEN7
  {
  }

  lemma SecondDebitRouted()
    ensures RoutesTo(SecondDebit(), Routed7())
  {
    DecideOne(LOG7(), 6);
    SecondDebitInserted();
  }

  lemma CompletionAnswers(log: Log)
    requires TransferEvents(log, "t") == [REQUEST]
    ensures Dispatched(log, HandleTransfer(CREDIT).command) == Some([COMPLETED])
  {
    FoldSnoc(Transfer(), [], REQUEST);
    assert [] + [REQUEST] == [REQUEST];
    TransferExecutes(log, "t", MarkTransferCompleted("t"), TransferCompleted("t"));
  }

  lemma CompletionAnswered()
    requires BooksOf(LOG7()) == Books(Holding(0), Holding(10), [REQUEST])
    ensures Handles(Routed7(), "v", K6, [COMPLETED], Answered6())
    ensures Terminates(Answered6(), "v", K6, Terminated(7))
  {
    CompletionAnswers(LOG7());
    assert LOG7()[5] == CREDIT && LOG8()[5] == CREDIT && LOG7() + [COMPLETED] == LOG8();
    assert {K4, K5} + {K6} == {K4, K5, K6};
    assert OPEN7.Keys == {K4, K5, K6, K7} && {} + OPEN7.Keys == {K4, K5, K6, K7};
    assert map["w" := Returned(K4, 0), "v" := Working(K6, 0)]["v" := Returned(K6, 0)] == map["w" := Returned(K4, 0), "v" := Returned(K6, 0)];
    assert map["w" := Returned(K4, 0), "v" := Returned(K6, 0)]["v" := Free] == map["w" := Returned(K4, 0), "v" := Free];
  }

  lemma CompletionRouted()
    ensures RoutesTo(Terminated(7), Terminated(8))
  {
    DecideOne(LOG8(), 7);
    assert InsertPending(map[], []) == map[];
  }

  lemma UpToTheEnd()
    ensures Reaches(Terminated(8))
  {
    UpToTheCreditHeld();
    RequestAnsweredAgain();
    DebitedTwice();
    HandleStep(Held6(), "w", K4, [DEBIT], SecondDebit());
    SecondDebitRouted();
    RouteStep(SecondDebit(), Routed7());
    CompletionAnswered();
    HandleStep(Routed7(), "v", K6, [COMPLETED], Answered6());
    TerminateStep(Answered6(), "v", K6, Terminated(7));
    CompletionRouted();
    RouteStep(Terminated(7), Terminated(8));
  }

  /**
   The stale worker handles the request again, and the acknowledged credit takes the row of that
   second debit with it: the process manager is caught up, and the money is in flight whatever
   happens from then on.
   */
  lemma CaughtUpInFlightRun() returns (run: seq<SagaAction>, s: System<BankEvent>)
    ensures Sound(run, s) && CaughtUp(s.queue, |s.log|) && s.hist.start == 0
    ensures forall more, t | Sound(run + more, t) :: InFlight(t.log, t.hist.handled) > 0
  {
    UpToTheEnd();
    s :| SoundlyReached(s) && ViewOf(s) == Terminated(8);
    run :| Sound(run, s);
    SoundRunKeeps(run);
    SecondDebitIsLost(s);
    forall more, t | Sound(run + more, t) ensures InFlight(t.log, t.hist.handled) > 0 {
      LostDebitForGood(run, more, K7);
    }
  }

  lemma SecondDebitIsLost(s: System<BankEvent>)
    requires Inv(PM, s) && ViewOf(s) == Terminated(8)
    ensures Lost(s, K7) && LiveDebit(s.log, K7)
  {
    assert LOG8()[6] == DEBIT;
    assert Routes(PM, s.log, K7);
  }
}
