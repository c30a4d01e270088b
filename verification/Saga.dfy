/**
 The transfer process manager running on the work queue over the bank's `$all` log.  Every
 append is a command executed on the full fold of its stream (AggregateProtocol), and the
 queue underneath is QueueProtocol with all its takeovers, crashes and late calls.
 */
module Saga {
  import opened Wrappers
  import opened Replay
  import opened WorkQueue
  import opened QueueProtocol
  import opened QueueTheorems
  import opened Bank

  /** One event of `$all`, with the stream it was appended to. */
  datatype BankEvent =
    | OnAccount(id: string, account: AccountEvent)
    | OnTransfer(id: string, transfer: TransferEvent)

  /** A command with the aggregate the command router resolves it to. */
  datatype Command =
    | ToAccount(id: string, account: AccountCommand)
    | ToTransfer(id: string, transfer: TransferCommand)

  type Log = seq<BankEvent>

  function AccountEvents(log: Log, id: string): seq<AccountEvent> {
    if log == [] then []
    else
      var before := AccountEvents(log[..|log| - 1], id);
      match log[|log| - 1]
      case OnAccount(i, e) => if i == id then before + [e] else before
      case OnTransfer(_, _) => before
  }

  function TransferEvents(log: Log, id: string): seq<TransferEvent> {
    if log == [] then []
    else
      var before := TransferEvents(log[..|log| - 1], id);
      match log[|log| - 1]
      case OnTransfer(i, e) => if i == id then before + [e] else before
      case OnAccount(_, _) => before
  }

  /** `execute` on the full fold of the command's stream; None when it throws. */
  function Execute(log: Log, c: Command): Option<Log> {
    match c
    case ToAccount(id, command) =>
      (match ExecuteAccount(Fold(Account(), AccountEvents(log, id)), command)
       case Rejected => None
       case Emits(es) => Some(seq(|es|, i requires 0 <= i < |es| => OnAccount(id, es[i]))))
    case ToTransfer(id, command) =>
      (match ExecuteTransfer(Fold(Transfer(), TransferEvents(log, id)), command)
       case Rejected => None
       case Emits(es) => Some(seq(|es|, i requires 0 <= i < |es| => OnTransfer(id, es[i]))))
  }

  // ---------------------------------------------------------------- the process manager

  /** JavaScript truthiness of an optional string. */
  predicate Blank(s: Option<string>) {
    s.None? || s.value == ""
  }

  function RouteTransfer(e: BankEvent): Option<Partition> {
    match e
    case OnTransfer(_, TransferRequested(_, _, _, transferId)) => Some(transferId)
    case OnAccount(_, AccountWithdrawnFrom(_, transferId, _)) => if Blank(transferId) then None else transferId
    case OnAccount(_, AccountDepositedTo(_, transferId)) => if Blank(transferId) then None else transferId
    case OnAccount(_, AccountWithdrawalRefused(_, _, transferId)) => if Blank(transferId) then None else transferId
    case _ => None
  }

  datatype Handled = Handled(command: Option<Command>, complete: bool)

  /** `transferHandle`: at most one command for each event, and no use of the state. */
  function HandleTransfer(e: BankEvent): Handled {
    match e
    case OnTransfer(_, TransferRequested(source, to, amount, transferId)) =>
      Handled(Some(ToAccount(source, WithdrawFromAccount(amount, Some(transferId), Some(to)))), false)
    case OnAccount(_, AccountWithdrawnFrom(amount, transferId, to)) =>
      if Blank(to) || Blank(transferId) then Handled(None, false)
      else Handled(Some(ToAccount(to.value, DepositToAccount(amount, transferId))), false)
    case OnAccount(_, AccountDepositedTo(_, transferId)) =>
      if Blank(transferId) then Handled(None, true)
      else Handled(Some(ToTransfer(transferId.value, MarkTransferCompleted(transferId.value))), true)
    case OnAccount(_, AccountWithdrawalRefused(reason, _, transferId)) =>
      if Blank(transferId) then Handled(None, true)
      else Handled(Some(ToTransfer(transferId.value, MarkTransferFailed(transferId.value, reason))), true)
    case _ => Handled(None, false)
  }

  const PM: Config<BankEvent> := Config(RouteTransfer, ProcessManager)

  // ---------------------------------------------------------------- the machine

  /** What application code sends; only the process manager sets a transfer id or marks a transfer. */
  datatype UserCommand =
    | OpenFor(account: string, owner: string)
    | Deposit(account: string, amount: int)
    | Withdraw(account: string, amount: int)
    | Request(transferId: string, source: string, to: string, amount: int)

  function Resolve(u: UserCommand): Command {
    match u
    case OpenFor(account, owner) => ToAccount(account, OpenAccount(owner))
    case Deposit(account, amount) => ToAccount(account, DepositToAccount(amount, None))
    case Withdraw(account, amount) => ToAccount(account, WithdrawFromAccount(amount, None, None))
    case Request(transferId, source, to, amount) => ToTransfer(transferId, RequestTransfer(transferId, source, to, amount))
  }

  datatype SagaAction =
    | User(u: UserCommand)
    | Queue(a: Action<BankEvent>)
    | HandleEvent(w: WorkerId)
    | Ack(w: WorkerId)

  /** Moves that only happen as part of a saga action. */
  predicate Internal(a: Action<BankEvent>) {
    a.Append? || a.HandlerReturns? || a.CompleteItem? || a.TerminateInstance?
  }

  function Dispatched(log: Log, c: Option<Command>): Option<Log> {
    if c.None? then Some([]) else Execute(log, c.value)
  }

  /** The queue actions that one saga action consists of. */
  function Steps(s: System<BankEvent>, a: SagaAction): seq<Action<BankEvent>> {
    match a
    case User(u) => (match Execute(s.log, Resolve(u))
                     case None => []
                     case Some(events) => [Append(events)])
    case Queue(q) => if Internal(q) then [] else [q]
    case HandleEvent(w) =>
      var p := ProcOf(s, w);
      if !p.Working? || !(1 <= p.key.event <= |s.log|) then []
      else (match Dispatched(s.log, HandleTransfer(s.log[p.key.event - 1]).command)
            case None => [HandlerThrows(w)]
            case Some(events) => [Append(events), HandlerReturns(w)])
    case Ack(w) =>
      var p := ProcOf(s, w);
      if !p.Returned? || !(1 <= p.key.event <= |s.log|) then []
      else if HandleTransfer(s.log[p.key.event - 1]).complete then [TerminateInstance(w)]
      else [CompleteItem(w)]
  }

  function DoSaga(s: System<BankEvent>, a: SagaAction): System<BankEvent> {
    Exec(PM, s, Steps(s, a))
  }

  function Run(run: seq<SagaAction>): System<BankEvent>
    decreases |run|
  {
    if run == [] then Initial([]) else DoSaga(Run(run[..|run| - 1]), run[|run| - 1])
  }

  // ---------------------------------------------------------------- hypotheses on runs

  predicate AmountOk(u: UserCommand) {
    u.OpenFor? || u.amount >= 0
  }

  /** The event about to be handled was already handled: its command would be dispatched again. */
  predicate Redelivers(s: System<BankEvent>, a: SagaAction) {
    a.HandleEvent? && ProcOf(s, a.w).Working? && ProcOf(s, a.w).key in s.hist.handled
  }

  predicate FairStep(s: System<BankEvent>, a: SagaAction) {
    && (a.User? ==> AmountOk(a.u))
    && (a.Queue? ==> !Resets(a.a))
    && !Redelivers(s, a)
  }

  /** Non-negative amounts, no subscription delete, and no redelivery after a dispatch. */
  predicate FairRun(run: seq<SagaAction>)
    decreases |run|
  {
    run != [] ==>
      var before := run[..|run| - 1];
      FairRun(before) && FairStep(Run(before), run[|run| - 1])
  }

  /** `s` is where a fair run from an empty log leads. */
  ghost predicate Fair(run: seq<SagaAction>, s: System<BankEvent>) {
    FairRun(run) && s == Run(run)
  }

  // ---------------------------------------------------------------- money

  function Sum(log: Log, f: (BankEvent, nat) -> int): int {
    if log == [] then 0 else Sum(log[..|log| - 1], f) + f(log[|log| - 1], |log|)
  }

  function Change(e: BankEvent): int {
    match e
    case OnAccount(_, AccountDepositedTo(amount, _)) => amount
    case OnAccount(_, AccountWithdrawnFrom(amount, _, _)) => -amount
    case _ => 0
  }

  predicate ByTransfer(e: BankEvent) {
    e.OnAccount? && (e.account.AccountDepositedTo? || e.account.AccountWithdrawnFrom?) && e.account.transferId.Some?
  }

  predicate IsDebit(e: BankEvent) {
    ByTransfer(e) && e.account.AccountWithdrawnFrom?
  }

  /** A debit the process manager will never turn into a credit. */
  predicate IsStranded(e: BankEvent) {
    IsDebit(e) && (Blank(e.account.transferId) || Blank(e.account.to))
  }

  function Direct(e: BankEvent): int { if ByTransfer(e) then 0 else Change(e) }

  function Credited(e: BankEvent): int { if ByTransfer(e) && !IsDebit(e) then Change(e) else 0 }

  function Stranded(e: BankEvent): int { if IsStranded(e) then -Change(e) else 0 }

  predicate Pays(e: BankEvent, n: nat, handled: set<Key>) {
    IsDebit(e) && !IsStranded(e) && Key(e.account.transferId.value, n) in handled
  }

  function Paid(handled: set<Key>): (BankEvent, nat) -> int {
    (e: BankEvent, n: nat) => if Pays(e, n, handled) then -Change(e) else 0
  }

  function Unpaid(handled: set<Key>): (BankEvent, nat) -> int {
    (e: BankEvent, n: nat) => if IsDebit(e) && !IsStranded(e) && !Pays(e, n, handled) then -Change(e) else 0
  }

  function Each(f: BankEvent -> int): (BankEvent, nat) -> int {
    (e: BankEvent, n: nat) => f(e)
  }

  function SumOf(log: Log, f: BankEvent -> int): int {
    Sum(log, Each(f))
  }

  /** The total of all balances, read off the log. */
  function Net(log: Log): int { SumOf(log, Change) }

  function DirectTotal(log: Log): int { SumOf(log, Direct) }

  function StrandedTotal(log: Log): int { SumOf(log, Stranded) }

  /** Debited by a transfer and not yet credited. */
  function InFlight(log: Log, handled: set<Key>): int { Sum(log, Unpaid(handled)) }

  // ---------------------------------------------------------------- the ledger

  lemma {:induction false} SumSplits(log: Log, handled: set<Key>)
    ensures Net(log) == DirectTotal(log) + SumOf(log, Credited) - Sum(log, Paid(handled)) - InFlight(log, handled) - StrandedTotal(log)
  {
    if log != [] {
      var last, e, n := log[..|log| - 1], log[|log| - 1], |log|;
      SumSplits(last, handled);
      assert Each(Change)(e, n) == Change(e) && Each(Direct)(e, n) == Direct(e);
      assert Each(Credited)(e, n) == Credited(e) && Each(Stranded)(e, n) == Stranded(e);
      assert Change(e) == Direct(e) + Credited(e) - Paid(handled)(e, n) - Unpaid(handled)(e, n) - Stranded(e);
    }
  }

  lemma {:induction false} SumAgrees(log: Log, f: (BankEvent, nat) -> int, g: (BankEvent, nat) -> int)
    requires forall i | 0 <= i < |log| :: f(log[i], i + 1) == g(log[i], i + 1)
    ensures Sum(log, f) == Sum(log, g)
  {
    if log != [] {
      SumAgrees(log[..|log| - 1], f, g);
    }
  }

  lemma {:induction false} SumAppend(log: Log, more: Log, f: (BankEvent, nat) -> int)
    requires |more| <= 1
    ensures Sum(log + more, f) == Sum(log, f) + if more == [] then 0 else f(more[0], |log| + 1)
  {
    if more == [] {
      assert log + more == log;
    } else {
      assert (log + more)[..|log|] == log;
    }
  }

  /** Marking one event handled moves exactly its own amount from unpaid to paid. */
  lemma {:induction false} PaidOneMore(log: Log, handled: set<Key>, key: Key)
    requires 1 <= key.event <= |log| && key !in handled
    ensures var e := log[key.event - 1];
      Sum(log, Paid(handled + {key})) == Sum(log, Paid(handled)) + if Pays(e, key.event, {key}) then -Change(e) else 0
  {
    var last := log[..|log| - 1];
    if key.event == |log| {
      SumAgrees(last, Paid(handled + {key}), Paid(handled));
    } else {
      PaidOneMore(last, handled, key);
    }
  }

  // ---------------------------------------------------------------- the bank's streams

  predicate EventOk(e: BankEvent) {
    match e
    case OnAccount(_, AccountOpened(_)) => true
    case OnAccount(_, account) => account.amount >= 0
    case OnTransfer(_, TransferRequested(_, _, amount, transferId)) => amount >= 0 && transferId == e.id
    case OnTransfer(_, transfer) => transfer.transferId == e.id
  }

  function Balance(log: Log, id: string): int {
    Fold(Account(), AccountEvents(log, id)).balance
  }

  ghost predicate BankInv(log: Log) {
    && (forall i | 0 <= i < |log| :: EventOk(log[i]))
    && (forall id :: Balance(log, id) >= 0)
    && (forall id :: OneOutcome(TransferEvents(log, id)))
  }

  predicate CommandOk(c: Command) {
    match c
    case ToAccount(_, OpenAccount(_)) => true
    case ToAccount(_, account) => account.amount >= 0
    case ToTransfer(id, RequestTransfer(transferId, _, _, amount)) => amount >= 0 && transferId == id
    case ToTransfer(id, transfer) => transfer.transferId == id
  }

  /** The event one command adds, if it is accepted. */
  lemma ExecuteKeepsBank(log: Log, c: Command)
    requires BankInv(log) && CommandOk(c) && Execute(log, c).Some?
    ensures |Execute(log, c).value| <= 1 && BankInv(log + Execute(log, c).value)
  {
    var events := Execute(log, c).value;
    if events == [] {
      assert log + events == log;
    } else if c.ToAccount? {
      assert events == [OnAccount(c.id, events[0].account)];
      AccountGrows(log, c.id, events[0].account);
    } else {
      var before := TransferEvents(log, c.id);
      assert events == [OnTransfer(c.id, events[0].transfer)];
      TransferGrows(before, c.transfer);
      TransferStreamGrows(log, c.id, events[0].transfer);
    }
  }

  /** The stream of one transfer gains the event, every other stream stays. */
  lemma StreamsAfter(log: Log, id: string, e: TransferEvent, i: string)
    ensures var all := log + [OnTransfer(id, e)];
      && TransferEvents(all, i) == (if i == id then TransferEvents(log, i) + [e] else TransferEvents(log, i))
      && AccountEvents(all, i) == AccountEvents(log, i)
  {
    var all := log + [OnTransfer(id, e)];
    assert all[..|all| - 1] == log;
  }

  lemma TransferStreamGrows(log: Log, id: string, e: TransferEvent)
    requires BankInv(log) && EventOk(OnTransfer(id, e)) && OneOutcome(TransferEvents(log, id) + [e])
    ensures BankInv(log + [OnTransfer(id, e)])
  {
    var all := log + [OnTransfer(id, e)];
    forall i ensures OneOutcome(TransferEvents(all, i)) {
      StreamsAfter(log, id, e, i);
    }
    forall i ensures Balance(all, i) >= 0 {
      assert Balance(log, i) >= 0;
      StreamsAfter(log, id, e, i);
    }
  }

  lemma AccountGrows(log: Log, id: string, e: AccountEvent)
    requires BankInv(log)
    requires e.AccountOpened? || e.amount >= 0
    requires e.AccountWithdrawnFrom? ==> e.amount <= Balance(log, id)
    ensures BankInv(log + [OnAccount(id, e)])
  {
    var all := log + [OnAccount(id, e)];
    assert all[..|all| - 1] == log;
    forall i ensures Balance(all, i) >= 0 {
      assert Balance(log, i) >= 0;
      var before := AccountEvents(log, i);
      FoldSnoc(Account(), before, e);
    }
    forall i ensures OneOutcome(TransferEvents(all, i)) {
      assert OneOutcome(TransferEvents(log, i));
    }
  }

  // ---------------------------------------------------------------- the course of one transfer

  predicate IsRequest(e: BankEvent) { e.OnTransfer? && e.transfer.TransferRequested? }

  predicate IsCredit(e: BankEvent) { e.OnAccount? && e.account.AccountDepositedTo? }

  /** Routed events of one transfer come in this order: request, then debit and credit, or refusal. */
  predicate Precedes(a: BankEvent, b: BankEvent) {
    (IsRequest(a) && !IsRequest(b)) || (IsDebit(a) && IsCredit(b))
  }

  ghost predicate HandledAt(log: Log, handled: set<Key>, i: nat, p: Partition)
    requires i < |log|
  {
    RouteTransfer(log[i]) == Some(p) && Key(p, i + 1) in handled
  }

  /** `b` is an outcome of the command the process manager dispatches for `a`. */
  predicate Answers(a: BankEvent, b: BankEvent) {
    match HandleTransfer(a).command
    case Some(ToAccount(id, WithdrawFromAccount(amount, transferId, to))) =>
      || b == OnAccount(id, AccountWithdrawnFrom(amount, transferId, to))
      || b == OnAccount(id, AccountWithdrawalRefused("insufficient funds", amount, transferId))
    case Some(ToAccount(id, DepositToAccount(amount, transferId))) => b == OnAccount(id, AccountDepositedTo(amount, transferId))
    case Some(ToTransfer(id, MarkTransferCompleted(transferId))) => b == OnTransfer(id, TransferCompleted(transferId))
    case Some(ToTransfer(id, MarkTransferFailed(transferId, reason))) => b == OnTransfer(id, TransferFailed(transferId, reason))
    case _ => false
  }

  /** The transfer on whose behalf the process manager caused `e`. */
  function Subject(e: BankEvent): Option<Partition> {
    match e
    case OnTransfer(id, transfer) => if transfer.TransferRequested? then None else Some(id)
    case OnAccount(_, account) => if account.AccountOpened? then None else account.transferId
  }

  /** Everything done for a transfer answers an event of that transfer handled before. */
  ghost predicate Caused(log: Log, handled: set<Key>, e: BankEvent) {
    Subject(e).Some? ==> exists i: nat :: i < |log| && HandledAt(log, handled, i, Subject(e).value) && Answers(log[i], e)
  }

  ghost predicate Orderly(log: Log, e: BankEvent) {
    forall i | 0 <= i < |log| && RouteTransfer(e).Some? && RouteTransfer(log[i]) == RouteTransfer(e) :: Precedes(log[i], e)
  }

  ghost predicate TransferInv(log: Log, handled: set<Key>) {
    forall j | 0 <= j < |log| :: Caused(log[..j], handled, log[j]) && Orderly(log[..j], log[j])
  }

  /** What was credited is what was paid, and `surplus` credited beyond that. */
  ghost predicate Ledger(log: Log, handled: set<Key>, surplus: int) {
    SumOf(log, Credited) == Sum(log, Paid(handled)) + surplus
  }

  ghost predicate KeysRouted(log: Log, handled: set<Key>) {
    forall k | k in handled :: Routes(PM, log, k)
  }

  lemma CausedStays(log: Log, more: Log, handled: set<Key>, handled': set<Key>, e: BankEvent)
    requires Caused(log, handled, e) && handled <= handled'
    ensures Caused(log + more, handled', e)
  {
    if Subject(e).Some? {
      var i: nat :| i < |log| && HandledAt(log, handled, i, Subject(e).value) && Answers(log[i], e);
      assert HandledAt(log + more, handled', i, Subject(e).value) && Answers((log + more)[i], e);
    }
  }

  lemma TransferInvGrows(log: Log, handled: set<Key>, handled': set<Key>, events: Log)
    requires TransferInv(log, handled) && handled <= handled' && |events| <= 1
    requires events != [] ==> Caused(log, handled', events[0]) && Orderly(log, events[0])
    ensures TransferInv(log + events, handled')
  {
    var all := log + events;
    forall j | 0 <= j < |all| ensures Caused(all[..j], handled', all[j]) && Orderly(all[..j], all[j]) {
      if j < |log| {
        CausedStays(log[..j], [], handled, handled', log[j]);
        assert all[..j] == log[..j] && log[..j] + [] == log[..j];
      } else {
        assert all[..j] == log;
      }
    }
  }

  /** Two routed events of one transfer, in log order. */
  lemma PairInOrder(log: Log, handled: set<Key>, i: nat, j: nat)
    requires TransferInv(log, handled) && i < j < |log|
    requires RouteTransfer(log[i]).Some? && RouteTransfer(log[i]) == RouteTransfer(log[j])
    ensures Precedes(log[i], log[j])
  {
    assert Orderly(log[..j], log[j]);
    assert log[..j][i] == log[i];
  }

  lemma PairOrdered(log: Log, handled: set<Key>, i: nat, j: nat)
    requires TransferInv(log, handled) && i < |log| && j < |log|
    requires RouteTransfer(log[i]).Some? && RouteTransfer(log[i]) == RouteTransfer(log[j])
    ensures i < j ==> Precedes(log[i], log[j])
  {
    if i < j {
      PairInOrder(log, handled, i, j);
    }
  }

  /** A debit or refusal of `p` in the log means the one request of `p` was handled; a credit, the one debit. */
  lemma CauseHandled(log: Log, handled: set<Key>, j: nat, i: nat, p: Partition)
    requires TransferInv(log, handled) && j < |log| && i < |log|
    requires RouteTransfer(log[j]) == Some(p) && RouteTransfer(log[i]) == Some(p)
    requires (IsRequest(log[i]) && !IsRequest(log[j])) || (IsDebit(log[i]) && IsCredit(log[j]))
    ensures Key(p, i + 1) in handled
  {
    var c := CauseOf(log, handled, j);
    if IsDebit(c.0) && IsRequest(log[i]) {
      CauseHandled(log, handled, c.1, i, p);
    } else if i < c.1 {
      PairInOrder(log, handled, i, c.1);
    } else if c.1 < i {
      PairInOrder(log, handled, c.1, i);
    }
  }

  /** The handled event that `log[j]` answers. */
  lemma CauseOf(log: Log, handled: set<Key>, j: nat) returns (cause: (BankEvent, nat))
    requires TransferInv(log, handled) && j < |log| && Subject(log[j]).Some?
    ensures cause.1 < j && log[cause.1] == cause.0 && Answers(cause.0, log[j])
    ensures HandledAt(log, handled, cause.1, Subject(log[j]).value)
  {
    assert Caused(log[..j], handled, log[j]);
    var i: nat :| i < j && HandledAt(log[..j], handled, i, Subject(log[j]).value) && Answers(log[..j][i], log[j]);
    cause := (log[i], i);
  }

  // ---------------------------------------------------------------- one saga step on the log

  lemma NotYetHandled(log: Log, handled: set<Key>, e: BankEvent)
    requires KeysRouted(log, handled)
    ensures Paid(handled)(e, |log| + 1) == 0
  {
  }

  /** A user command neither pays nor credits a transfer, and a new request is the first of its transfer. */
  lemma UserKeepsLog(log: Log, handled: set<Key>, u: UserCommand)
    requires BankInv(log) && TransferInv(log, handled) && Ledger(log, handled, 0) && KeysRouted(log, handled)
    requires AmountOk(u) && Execute(log, Resolve(u)).Some?
    ensures var all := log + Execute(log, Resolve(u)).value;
      BankInv(all) && TransferInv(all, handled) && Ledger(all, handled, 0)
  {
    ExecuteKeepsBank(log, Resolve(u));
    UserKeepsLedger(log, handled, u, 0);
    UserKeepsTransfers(log, handled, u);
  }

  lemma UserKeepsLedger(log: Log, handled: set<Key>, u: UserCommand, surplus: int)
    requires Ledger(log, handled, surplus) && KeysRouted(log, handled)
    requires Execute(log, Resolve(u)).Some?
    ensures Ledger(log + Execute(log, Resolve(u)).value, handled, surplus)
  {
    var events := Execute(log, Resolve(u)).value;
    SumAppend(log, events, Each(Credited));
    SumAppend(log, events, Paid(handled));
    if events != [] {
      NotYetHandled(log, handled, events[0]);
      assert Each(Credited)(events[0], |log| + 1) == Credited(events[0]) == 0;
    }
  }

  lemma UserKeepsTransfers(log: Log, handled: set<Key>, u: UserCommand)
    requires BankInv(log) && TransferInv(log, handled) && Execute(log, Resolve(u)).Some?
    ensures TransferInv(log + Execute(log, Resolve(u)).value, handled)
  {
    var events := Execute(log, Resolve(u)).value;
    if events != [] && u.Request? {
      FirstRequest(log, handled, u.transferId);
    }
    TransferInvGrows(log, handled, handled, events);
  }

  lemma {:induction false} NoSuchStream(log: Log, id: string, i: nat)
    requires TransferEvents(log, id) == [] && i < |log|
    ensures !(log[i].OnTransfer? && log[i].id == id)
  {
    if i < |log| - 1 {
      NoSuchStream(log[..|log| - 1], id, i);
    }
  }

  /** Every routed event of a transfer presupposes its request. */
  lemma HasRequest(log: Log, handled: set<Key>, i: nat, id: string) returns (r: nat)
    requires TransferInv(log, handled) && i < |log| && RouteTransfer(log[i]) == Some(id)
    ensures r < |log| && IsRequest(log[r]) && RouteTransfer(log[r]) == Some(id)
  {
    r := i;
    if !IsRequest(log[i]) {
      var c := CauseOf(log, handled, i);
      r := HasRequest(log, handled, c.1, id);
    }
  }

  lemma FirstRequest(log: Log, handled: set<Key>, id: string)
    requires BankInv(log) && TransferInv(log, handled)
    requires Fold(Transfer(), TransferEvents(log, id)).stage == NotRequested
    ensures forall i | 0 <= i < |log| :: RouteTransfer(log[i]) != Some(id)
  {
    assert OneOutcome(TransferEvents(log, id));
    forall i: nat | i < |log| ensures RouteTransfer(log[i]) != Some(id) {
      if RouteTransfer(log[i]) == Some(id) {
        var r := HasRequest(log, handled, i, id);
        NoSuchStream(log, id, r);
        assert false;
      }
    }
  }

  /** The answer to a request is the first routed event after it. */
  lemma RequestHandled(log: Log, handled: set<Key>, key: Key, f: BankEvent)
    requires TransferInv(log, handled) && Routes(PM, log, key) && key !in handled
    requires IsRequest(log[key.event - 1]) && Answers(log[key.event - 1], f)
    ensures Orderly(log, f)
  {
    var n, p := key.event - 1, key.partition;
    forall i: nat | i < |log| && RouteTransfer(f).Some? && RouteTransfer(log[i]) == RouteTransfer(f)
      ensures Precedes(log[i], f)
    {
      if !IsRequest(log[i]) {
        CauseHandled(log, handled, i, n, p);
      }
    }
  }

  /** The answer to a debit follows the request and the debit, and nothing else. */
  lemma DebitHandled(log: Log, handled: set<Key>, key: Key, f: BankEvent)
    requires TransferInv(log, handled) && Routes(PM, log, key) && key !in handled
    requires IsDebit(log[key.event - 1]) && Answers(log[key.event - 1], f)
    ensures Orderly(log, f)
  {
    var n, p := key.event - 1, key.partition;
    forall i: nat | i < |log| && RouteTransfer(log[i]) == Some(p) ensures Precedes(log[i], f) {
      if IsCredit(log[i]) {
        CauseHandled(log, handled, i, n, p);
      } else if i < n {
        PairInOrder(log, handled, i, n);
      } else if n < i {
        PairInOrder(log, handled, n, i);
      }
    }
  }

  /** The event the process manager's command for `e` adds. */
  lemma HandlerAdds(log: Log, e: BankEvent, p: Partition)
    requires RouteTransfer(e) == Some(p) && EventOk(e)
    requires Dispatched(log, HandleTransfer(e).command).Some?
    ensures var events := Dispatched(log, HandleTransfer(e).command).value;
      && |events| <= 1
      && (HandleTransfer(e).command.Some? ==> CommandOk(HandleTransfer(e).command.value))
      && (events != [] ==> Answers(e, events[0]) && (Subject(events[0]).Some? ==> Subject(events[0]) == Some(p)))
      && (if events == [] then 0 else Credited(events[0])) == (if IsDebit(e) && !IsStranded(e) then -Change(e) else 0)
  {
  }

  /** The command of the process manager keeps balances and streams sound, however often it is sent. */
  lemma HandlingKeepsBank(log: Log, key: Key)
    requires BankInv(log) && Routes(PM, log, key)
    requires Dispatched(log, HandleTransfer(log[key.event - 1]).command).Some?
    ensures BankInv(log + Dispatched(log, HandleTransfer(log[key.event - 1]).command).value)
  {
    var e := log[key.event - 1];
    HandlerAdds(log, e, key.partition);
    if HandleTransfer(e).command.Some? {
      ExecuteKeepsBank(log, HandleTransfer(e).command.value);
    } else {
      assert log + [] == log;
    }
  }

  lemma HandlingKeepsTransfers(log: Log, handled: set<Key>, key: Key)
    requires BankInv(log) && TransferInv(log, handled) && Routes(PM, log, key) && key !in handled
    requires Dispatched(log, HandleTransfer(log[key.event - 1]).command).Some?
    ensures TransferInv(log + Dispatched(log, HandleTransfer(log[key.event - 1]).command).value, handled + {key})
  {
    var e := log[key.event - 1];
    var events := Dispatched(log, HandleTransfer(e).command).value;
    HandlerAdds(log, e, key.partition);
    if events != [] {
      assert HandledAt(log, handled + {key}, key.event - 1, key.partition);
      if IsRequest(e) {
        RequestHandled(log, handled, key, events[0]);
      } else if IsDebit(e) {
        DebitHandled(log, handled, key, events[0]);
      }
    }
    TransferInvGrows(log, handled, handled + {key}, events);
  }

  /** The event just handled is paid in the same step in which its credit is appended. */
  lemma HandlingKeepsLedger(log: Log, handled: set<Key>, key: Key, surplus: int)
    requires BankInv(log) && Ledger(log, handled, surplus) && KeysRouted(log, handled) && Routes(PM, log, key) && key !in handled
    requires Dispatched(log, HandleTransfer(log[key.event - 1]).command).Some?
    ensures var all := log + Dispatched(log, HandleTransfer(log[key.event - 1]).command).value;
      Ledger(all, handled + {key}, surplus)
  {
    var e := log[key.event - 1];
    var events := Dispatched(log, HandleTransfer(e).command).value;
    HandlerAdds(log, e, key.partition);
    SumAppend(log, events, Each(Credited));
    SumAppend(log, events, Paid(handled + {key}));
    PaidOneMore(log, handled, key);
    if events != [] {
      NotYetHandled(log, handled + {key}, events[0]);
      assert Each(Credited)(events[0], |log| + 1) == Credited(events[0]);
    }
  }

  // ---------------------------------------------------------------- what handling an event brings about

  function StageOf(log: Log, id: string): Stage {
    Fold(Transfer(), TransferEvents(log, id)).stage
  }

  /** The command dispatched for `log[i]` has taken effect. */
  ghost predicate TookEffect(log: Log, i: nat)
    requires i < |log|
  {
    match HandleTransfer(log[i]).command
    case None => true
    case Some(ToAccount(_, _)) => exists j: nat :: j < |log| && Answers(log[i], log[j])
    case Some(ToTransfer(id, command)) => StageOf(log, id) == if command.MarkTransferCompleted? then StageCompleted else StageFailed
  }

  ghost predicate Effected(log: Log, handled: set<Key>) {
    forall k | k in handled && 1 <= k.event <= |log| :: TookEffect(log, k.event - 1)
  }

  /** A settled transfer stays as it settled. */
  lemma StageStays(log: Log, c: Command, id: string)
    requires BankInv(log) && Execute(log, c).Some? && (StageOf(log, id) == StageCompleted || StageOf(log, id) == StageFailed)
    ensures StageOf(log + Execute(log, c).value, id) == StageOf(log, id)
  {
    var events := Execute(log, c).value;
    assert OneOutcome(TransferEvents(log, id));
    if events == [] {
      assert log + events == log;
    } else {
      var all := log + events;
      assert all[..|all| - 1] == log && all[|all| - 1] == events[0];
    }
  }

  lemma EffectStays(log: Log, c: Option<Command>, i: nat)
    requires BankInv(log) && Dispatched(log, c).Some? && i < |log| && TookEffect(log, i)
    ensures TookEffect(log + Dispatched(log, c).value, i)
  {
    var all := log + Dispatched(log, c).value;
    match HandleTransfer(log[i]).command
    case None =>
    case Some(ToAccount(_, _)) =>
      var j: nat :| j < |log| && Answers(log[i], log[j]);
      assert Answers(all[i], all[j]);
    case Some(ToTransfer(id, command)) =>
      if c.Some? {
        StageStays(log, c.value, id);
      } else {
        assert all == log;
      }
  }

  lemma EffectHappens(log: Log, i: nat)
    requires BankInv(log) && i < |log| && Dispatched(log, HandleTransfer(log[i]).command).Some?
    ensures TookEffect(log + Dispatched(log, HandleTransfer(log[i]).command).value, i)
  {
    var all := log + Dispatched(log, HandleTransfer(log[i]).command).value;
    match HandleTransfer(log[i]).command
    case None =>
    case Some(ToAccount(id, command)) =>
      assert Answers(all[i], all[|log|]);
    case Some(ToTransfer(id, command)) =>
      MarkSettles(log, id, command);
  }

  /** An accepted mark leaves the transfer in the stage it asks for. */
  lemma MarkSettles(log: Log, id: string, command: TransferCommand)
    requires OneOutcome(TransferEvents(log, id)) && !command.RequestTransfer? && Execute(log, ToTransfer(id, command)).Some?
    ensures StageOf(log + Execute(log, ToTransfer(id, command)).value, id)
            == if command.MarkTransferCompleted? then StageCompleted else StageFailed
  {
    var events := Execute(log, ToTransfer(id, command)).value;
    var all := log + events;
    if events == [] {
      assert all == log;
    } else {
      assert all[..|all| - 1] == log;
      assert TransferEvents(all, id)[..|TransferEvents(log, id)|] == TransferEvents(log, id);
    }
  }

  lemma EffectedGrows(log: Log, handled: set<Key>, c: Option<Command>)
    requires BankInv(log) && Effected(log, handled) && KeysRouted(log, handled) && Dispatched(log, c).Some?
    ensures Effected(log + Dispatched(log, c).value, handled)
  {
    var all := log + Dispatched(log, c).value;
    forall k | k in handled && 1 <= k.event <= |all| ensures TookEffect(all, k.event - 1) {
      assert Routes(PM, log, k);
      EffectStays(log, c, k.event - 1);
    }
  }

  lemma HandlingKeepsLog(log: Log, handled: set<Key>, key: Key)
    requires LogInv(log, handled) && KeysRouted(log, handled) && Routes(PM, log, key) && key !in handled
    requires Dispatched(log, HandleTransfer(log[key.event - 1]).command).Some?
    ensures LogInv(log + Dispatched(log, HandleTransfer(log[key.event - 1]).command).value, handled + {key})
  {
    HandlingKeepsBank(log, key);
    HandlingKeepsTransfers(log, handled, key);
    HandlingKeepsLedger(log, handled, key, 0);
    HandlingKeepsEffects(log, handled, key);
  }

  lemma HandlingKeepsEffects(log: Log, handled: set<Key>, key: Key)
    requires BankInv(log) && Effected(log, handled) && KeysRouted(log, handled) && Routes(PM, log, key)
    requires Dispatched(log, HandleTransfer(log[key.event - 1]).command).Some?
    ensures Effected(log + Dispatched(log, HandleTransfer(log[key.event - 1]).command).value, handled + {key})
  {
    EffectedGrows(log, handled, HandleTransfer(log[key.event - 1]).command);
    EffectHappens(log, key.event - 1);
  }

  // ---------------------------------------------------------------- the invariant over runs

  ghost predicate LogInv(log: Log, handled: set<Key>) {
    BankInv(log) && TransferInv(log, handled) && Ledger(log, handled, 0) && Effected(log, handled)
  }

  ghost predicate SagaInv(s: System<BankEvent>) {
    && Inv(PM, s)
    && s.hist.epoch == 0
    && LogInv(s.log, s.hist.handled)
    && s.hist.terminated <= s.hist.handled
  }

  lemma ExecOne(s: System<BankEvent>, a: Action<BankEvent>)
    ensures Exec(PM, s, [a]) == Do(PM, s, a)
  {
    assert [a][..0] == [];
  }

  lemma ExecTwo(s: System<BankEvent>, a: Action<BankEvent>, b: Action<BankEvent>)
    ensures Exec(PM, s, [a, b]) == Do(PM, Do(PM, s, a), b)
  {
    assert [a, b][..1] == [a];
    ExecOne(s, a);
  }

  lemma HandledIsRouted(s: System<BankEvent>)
    requires Inv(PM, s)
    ensures KeysRouted(s.log, s.hist.handled)
  {
  }

  /** What the saga needs to know of a worker that claimed an item. */
  lemma WorkerFacts(s: System<BankEvent>, w: WorkerId)
    requires Inv(PM, s) && s.hist.epoch == 0 && !ProcOf(s, w).Free?
    ensures ProcOf(s, w).epoch == 0 && Routes(PM, s.log, ProcOf(s, w).key)
    ensures Settled(s.queue.rows, s.hist.inserted, ProcOf(s, w).key)
    ensures ProcOf(s, w).Returned? ==> ProcOf(s, w).key in s.hist.handled
  {
    assert ProcessorFits(s.queue.rows, s.hist, w, s.procs[w]);
  }

  lemma QueueStepFrame(s: System<BankEvent>, q: Action<BankEvent>)
    requires !Internal(q) && !Resets(q)
    ensures var t := Do(PM, s, q);
      t.log == s.log && t.hist.handled == s.hist.handled && t.hist.terminated == s.hist.terminated && t.hist.epoch == s.hist.epoch
  {
  }

  lemma RowFacts(s: System<BankEvent>)
    requires Inv(PM, s)
    ensures forall k | k in s.queue.rows :: k in s.hist.inserted && Routes(PM, s.log, k)
    ensures forall k | k in s.queue.rows && !Open(s.queue.rows, k) :: k in s.hist.handled
    ensures s.queue.sub.None? ==> s.queue.rows == map[]
  {
  }

  /** Nothing of a transfer is routed after the event that completes its partition. */
  lemma TerminalIsLast(log: Log, handled: set<Key>, i: nat, j: nat)
    requires TransferInv(log, handled) && i < |log| && j < |log| && HandleTransfer(log[i]).complete
    requires RouteTransfer(log[i]).Some? && RouteTransfer(log[i]) == RouteTransfer(log[j])
    ensures j <= i
  {
    PairOrdered(log, handled, i, j);
  }

  /** When a terminal event of `p` is acknowledged, every row of `p` was handled. */
  lemma TerminatedWasHandled(log: Log, rows: map<Key, RowState>, inserted: set<Key>, handled: set<Key>, key: Key, k: Key)
    requires TransferInv(log, handled) && Settled(rows, inserted, key) && key in handled
    requires Routes(PM, log, key) && HandleTransfer(log[key.event - 1]).complete
    requires k in rows && k.partition == key.partition && k in inserted && Routes(PM, log, k)
    requires !Open(rows, k) ==> k in handled
    ensures k in handled
  {
    TerminalIsLast(log, handled, key.event - 1, k.event - 1);
    if k.event == key.event {
      assert k == key;
    } else {
      assert !Open(rows, k);
    }
  }

  lemma QueueStepKeeps(s: System<BankEvent>, q: Action<BankEvent>)
    requires SagaInv(s) && !Internal(q) && !Resets(q)
    ensures SagaInv(Do(PM, s, q))
  {
    StepKeepsInv(PM, s, q);
    QueueStepFrame(s, q);
  }

  lemma UserStepKeeps(s: System<BankEvent>, u: UserCommand)
    requires SagaInv(s) && AmountOk(u) && Execute(s.log, Resolve(u)).Some?
    ensures SagaInv(Do(PM, s, Append(Execute(s.log, Resolve(u)).value)))
  {
    StepKeepsInv(PM, s, Append(Execute(s.log, Resolve(u)).value));
    HandledIsRouted(s);
    UserKeepsLog(s.log, s.hist.handled, u);
    EffectedGrows(s.log, s.hist.handled, Some(Resolve(u)));
  }

  /** Appending what the handler dispatched and recording its return, as one change of log and history. */
  lemma AppendThenReturn(s: System<BankEvent>, w: WorkerId, events: Log)
    requires ProcOf(s, w).Working? && ProcOf(s, w).epoch == s.hist.epoch
    ensures var t := Do(PM, Do(PM, s, Append(events)), HandlerReturns(w));
      && t.log == s.log + events && t.hist.handled == s.hist.handled + {ProcOf(s, w).key}
      && t.hist.terminated == s.hist.terminated && t.hist.epoch == s.hist.epoch
  {
  }

  /** What handling an event does to the log and the history. */
  lemma HandleOutcome(s: System<BankEvent>, w: WorkerId)
    requires ProcOf(s, w).Working? && ProcOf(s, w).epoch == s.hist.epoch && 1 <= ProcOf(s, w).key.event <= |s.log|
    ensures var t, key := DoSaga(s, HandleEvent(w)), ProcOf(s, w).key;
      var result := Dispatched(s.log, HandleTransfer(s.log[key.event - 1]).command);
      && t.log == (if result.Some? then s.log + result.value else s.log)
      && t.hist.handled == (if result.Some? then s.hist.handled + {key} else s.hist.handled)
      && t.hist.terminated == s.hist.terminated && t.hist.epoch == s.hist.epoch
  {
    match Dispatched(s.log, HandleTransfer(s.log[ProcOf(s, w).key.event - 1]).command)
    case None =>
      ExecOne(s, HandlerThrows(w));
      QueueStepFrame(s, HandlerThrows(w));
    case Some(events) =>
      ExecTwo(s, Append(events), HandlerReturns(w));
      AppendThenReturn(s, w, events);
  }

  lemma HandleKeepsLogInv(log: Log, handled: set<Key>, key: Key, log': Log, handled': set<Key>)
    requires LogInv(log, handled) && KeysRouted(log, handled) && Routes(PM, log, key) && key !in handled
    requires var result := Dispatched(log, HandleTransfer(log[key.event - 1]).command);
      && log' == (if result.Some? then log + result.value else log)
      && handled' == (if result.Some? then handled + {key} else handled)
    ensures LogInv(log', handled')
  {
    if Dispatched(log, HandleTransfer(log[key.event - 1]).command).Some? {
      HandlingKeepsLog(log, handled, key);
    }
  }

  lemma HandleStepKeeps(s: System<BankEvent>, w: WorkerId)
    requires SagaInv(s) && ProcOf(s, w).Working? && ProcOf(s, w).key !in s.hist.handled
    ensures SagaInv(DoSaga(s, HandleEvent(w)))
  {
    var t := DoSaga(s, HandleEvent(w));
    WorkerFacts(s, w);
    HandledIsRouted(s);
    RunKeepsInv(PM, s, Steps(s, HandleEvent(w)));
    HandleOutcome(s, w);
    HandleKeepsLogInv(s.log, s.hist.handled, ProcOf(s, w).key, t.log, t.hist.handled);
  }

  lemma AckFrame(s: System<BankEvent>, w: WorkerId, a: Action<BankEvent>)
    requires a == CompleteItem(w) || a == TerminateInstance(w)
    requires s.queue.sub.None? ==> s.queue.rows == map[]
    ensures var t := Do(PM, s, a);
      && t.log == s.log && t.hist.handled == s.hist.handled && t.hist.epoch == s.hist.epoch
      && t.hist.terminated <= s.hist.terminated +
           (if a.TerminateInstance? && !ProcOf(s, w).Free? then PartitionRows(s.queue.rows, ProcOf(s, w).key.partition) else {})
  {
  }

  lemma AckStepKeeps(s: System<BankEvent>, w: WorkerId, a: Action<BankEvent>)
    requires SagaInv(s) && ProcOf(s, w).Returned? && 1 <= ProcOf(s, w).key.event <= |s.log|
    requires a == if HandleTransfer(s.log[ProcOf(s, w).key.event - 1]).complete then TerminateInstance(w) else CompleteItem(w)
    ensures SagaInv(Do(PM, s, a))
  {
    var key := ProcOf(s, w).key;
    WorkerFacts(s, w);
    RowFacts(s);
    StepKeepsInv(PM, s, a);
    AckFrame(s, w, a);
    if a.TerminateInstance? {
      forall k | k in PartitionRows(s.queue.rows, key.partition) ensures k in s.hist.handled {
        TerminatedWasHandled(s.log, s.queue.rows, s.hist.inserted, s.hist.handled, key, k);
      }
    }
  }

  lemma SagaStepKeeps(s: System<BankEvent>, a: SagaAction)
    requires SagaInv(s) && FairStep(s, a)
    ensures SagaInv(DoSaga(s, a))
  {
    var run := Steps(s, a);
    match a
    case User(u) =>
      if run != [] {
        ExecOne(s, run[0]);
        UserStepKeeps(s, u);
      }
    case Queue(q) =>
      if run != [] {
        ExecOne(s, q);
        QueueStepKeeps(s, q);
      }
    case HandleEvent(w) =>
      if run != [] {
        HandleStepKeeps(s, w);
      }
    case Ack(w) =>
      if run != [] {
        AckStep(s, w);
      }
  }

  lemma AckStep(s: System<BankEvent>, w: WorkerId)
    requires SagaInv(s) && Steps(s, Ack(w)) != []
    ensures SagaInv(DoSaga(s, Ack(w)))
  {
    var a := Steps(s, Ack(w))[0];
    ExecOne(s, a);
    AckStepKeeps(s, w, a);
  }

  lemma {:induction false} FairRunKeepsInv(run: seq<SagaAction>)
    requires FairRun(run)
    ensures SagaInv(Run(run))
    decreases |run|
  {
    if run == [] {
      InitialInv<BankEvent>(PM, []);
      EmptyBank();
    } else {
      var before := run[..|run| - 1];
      FairRunKeepsInv(before);
      SagaStepKeeps(Run(before), run[|run| - 1]);
    }
  }

  lemma EmptyBank()
    ensures LogInv([], {})
  {
    forall id ensures OneOutcome(TransferEvents([], id)) && Balance([], id) >= 0 {
    }
  }
}
