/**
 The saga told from the commands that were sent.  What each command does is said here of the
 log it meets and of the run it is part of, so that the money in the bank is traced back to
 the user's own deposits, withdrawals and requests.
 */
module SagaCommands {
  import opened Wrappers
  import opened Replay
  import opened WorkQueue
  import opened QueueProtocol
  import opened Bank
  import opened Saga
  import opened SagaTheorems
  import opened ReadModels

  // ---------------------------------------------------------------- one command, told from the log

  ghost predicate Opened(log: Log, account: string) {
    exists i :: 0 <= i < |log| && log[i].OnAccount? && log[i].id == account && log[i].account.AccountOpened?
  }

  ghost predicate Requested(log: Log, id: string) {
    exists i :: 0 <= i < |log| && log[i].OnTransfer? && log[i].id == id
  }

  /** What came to one account less what left it. */
  function Held(log: Log, account: string): int {
    if log == [] then 0
    else
      var before, e := Held(log[..|log| - 1], account), log[|log| - 1];
      if e.OnAccount? && e.id == account then
        match e.account
        case AccountDepositedTo(amount, _) => before + amount
        case AccountWithdrawnFrom(amount, _, _) => before - amount
        case _ => before
      else before
  }

  /** The event a user command lands; None when it is rejected. */
  ghost function Landed(log: Log, u: UserCommand): Option<BankEvent> {
    match u
    case OpenFor(account, owner) =>
      if Opened(log, account) then None else Some(OnAccount(account, AccountOpened(owner)))
    case Deposit(account, amount) =>
      if Opened(log, account) then Some(OnAccount(account, AccountDepositedTo(amount, None))) else None
    case Withdraw(account, amount) =>
      if !Opened(log, account) then None
      else if amount <= Held(log, account) then Some(OnAccount(account, AccountWithdrawnFrom(amount, None, None)))
      else Some(OnAccount(account, AccountWithdrawalRefused("insufficient funds", amount, None)))
    case Request(id, source, to, amount) =>
      if Requested(log, id) then None else Some(OnTransfer(id, TransferRequested(source, to, amount, id)))
  }

  lemma {:induction false} StateTold(log: Log, id: string)
    ensures Fold(Account(), AccountEvents(log, id)).isOpen <==> Opened(log, id)
    ensures Balance(log, id) == Held(log, id)
    ensures StageOf(log, id) != NotRequested <==> Requested(log, id)
  {
    if log != [] {
      var last, e := log[..|log| - 1], log[|log| - 1];
      StateTold(last, id);
      assert Opened(log, id) <==> Opened(last, id) || (e.OnAccount? && e.id == id && e.account.AccountOpened?);
      assert Requested(log, id) <==> Requested(last, id) || (e.OnTransfer? && e.id == id);
      match e
      case OnAccount(_, event) => FoldSnoc(Account(), AccountEvents(last, id), event);
      case OnTransfer(_, event) => FoldSnoc(Transfer(), TransferEvents(last, id), event);
    }
  }

  /** In every state a user command appends exactly the event it is told to land, or throws and appends nothing. */
  lemma UserCommandLands(s: System<BankEvent>, u: UserCommand)
    ensures var landed := Landed(s.log, u);
      && (Execute(s.log, Resolve(u)).None? <==> landed.None?)
      && DoSaga(s, User(u)).log == s.log + if landed.Some? then [landed.value] else []
  {
    StateTold(s.log, Resolve(u).id);
    match Execute(s.log, Resolve(u))
    case None => assert DoSaga(s, User(u)) == s;
    case Some(events) => ExecOne(s, Append(events));
  }

  /**
   Every event of an account was due when it was appended: money leaves an account that holds it,
   and is refused to one that does not.
   */
  lemma EventsAreDue(log: Log, i: nat)
    requires Generated(log) && i < |log| && log[i].OnAccount?
    ensures var before, account := log[..i], log[i].id;
      match log[i].account
      case AccountOpened(_) => !Opened(before, account)
      case AccountDepositedTo(_, _) => Opened(before, account)
      case AccountWithdrawnFrom(amount, _, _) => Opened(before, account) && amount <= Held(before, account)
      case AccountWithdrawalRefused(_, amount, _) => Opened(before, account) && Held(before, account) < amount
  {
    StateTold(log[..i], log[i].id);
    assert GeneratedAt(log, i);
    var c :| WellRouted(c) && AddsOne(log[..i], c, log[i]);
  }

  /** `log` marks transfer `id` as completed, or as failed. */
  ghost predicate Marked(log: Log, id: string, completed: bool) {
    exists i :: 0 <= i < |log| && log[i].OnTransfer? && log[i].id == id
             && if completed then log[i].transfer.TransferCompleted? else log[i].transfer.TransferFailed?
  }

  lemma {:induction false} InItsStream(log: Log, id: string, i: nat)
    requires i < |log| && log[i].OnTransfer? && log[i].id == id
    ensures log[i].transfer in TransferEvents(log, id)
  {
    if i < |log| - 1 {
      InItsStream(log[..|log| - 1], id, i);
    }
  }

  lemma MarkTold(log: Log, id: string, completed: bool)
    requires OneOutcome(TransferEvents(log, id))
    ensures Marked(log, id, completed) <==> StageOf(log, id) == if completed then StageCompleted else StageFailed
  {
    if i :| 0 <= i < |log| && log[i].OnTransfer? && log[i].id == id && !log[i].transfer.TransferRequested? {
      InItsStream(log, id, i);
    }
    if StageOf(log, id) == StageCompleted || StageOf(log, id) == StageFailed {
      var m := StageHasEvent(log, id);
    }
  }

  function Mark(id: string, completed: bool, reason: string): TransferCommand {
    if completed then MarkTransferCompleted(id) else MarkTransferFailed(id, reason)
  }

  lemma MarkByStage(log: Log, id: string, completed: bool, reason: string)
    ensures var stage, result := StageOf(log, id), Execute(log, ToTransfer(id, Mark(id, completed, reason)));
      if stage == (if completed then StageCompleted else StageFailed) then result == Some([])
      else if stage != StageRequested then result.None?
      else result == Some([OnTransfer(id, if completed then TransferCompleted(id) else TransferFailed(id, reason))])
  {
    var result := Execute(log, ToTransfer(id, Mark(id, completed, reason)));
    if result.Some? && result.value != [] {
      assert result.value == [result.value[0]];
    }
  }

  /**
   A mark lands once, on a transfer that was requested and is not settled: repeated it lands
   nothing, and on an unknown or otherwise settled transfer it throws.
   */
  lemma MarkLands(run: seq<SagaAction>, log: Log, id: string, completed: bool, reason: string)
    requires log == Run(run).log
    ensures var result := Execute(log, ToTransfer(id, Mark(id, completed, reason)));
      if Marked(log, id, completed) then result == Some([])
      else if Marked(log, id, !completed) || !Requested(log, id) then result.None?
      else result == Some([OnTransfer(id, if completed then TransferCompleted(id) else TransferFailed(id, reason))])
  {
    SagaLogIsGenerated(run);
    GeneratedTransfers(log, |log|, id);
    assert log[..|log|] == log;
    StateTold(log, id);
    MarkTold(log, id, true);
    MarkTold(log, id, false);
    MarkByStage(log, id, completed, reason);
  }

  // ---------------------------------------------------------------- a run, told from its commands

  /** The events that the user commands of a run landed, in the order of the run. */
  ghost function UserEvents(run: seq<SagaAction>): Log
    decreases |run|
  {
    if run == [] then []
    else
      var before, a := run[..|run| - 1], run[|run| - 1];
      if a.User? && Landed(Run(before).log, a.u).Some? then UserEvents(before) + [Landed(Run(before).log, a.u).value]
      else UserEvents(before)
  }

  /** What no transfer was the cause of. */
  function Unprompted(log: Log): Log {
    if log == [] then []
    else
      var before, e := Unprompted(log[..|log| - 1]), log[|log| - 1];
      if Subject(e).None? then before + [e] else before
  }

  /** Only a user's command lands an event that no transfer caused. */
  lemma OtherStep(s: System<BankEvent>, a: SagaAction) returns (more: Log)
    requires !a.User?
    ensures DoSaga(s, a).log == s.log + more && |more| <= 1
    ensures more != [] ==> Subject(more[0]).Some? && Direct(more[0]) == 0
  {
    more := [];
    var steps := Steps(s, a);
    if a.HandleEvent? && |steps| == 2 {
      more := steps[0].events;
      ExecTwo(s, steps[0], steps[1]);
      LogStays(Do(PM, s, steps[0]), steps[1]);
      HandlerPrompts(s.log, s.log[ProcOf(s, a.w).key.event - 1]);
    } else if steps != [] {
      ExecOne(s, steps[0]);
      LogStays(s, steps[0]);
    }
  }

  lemma LogStays(s: System<BankEvent>, q: Action<BankEvent>)
    requires !q.Append?
    ensures Do(PM, s, q).log == s.log
  {
  }

  lemma HandlerPrompts(log: Log, e: BankEvent)
    ensures match Dispatched(log, HandleTransfer(e).command)
      case None => true
      case Some(events) => |events| <= 1 && (events != [] ==> Subject(events[0]).Some? && Direct(events[0]) == 0)
  {
  }

  lemma UnpromptedGrows(log: Log, more: Log)
    requires |more| <= 1
    ensures Unprompted(log + more) == Unprompted(log) + if more != [] && Subject(more[0]).None? then more else []
  {
    if more == [] {
      assert log + more == log;
    } else {
      assert (log + more)[..|log|] == log;
    }
  }

  lemma UnpromptedStep(s: System<BankEvent>, a: SagaAction)
    ensures Unprompted(DoSaga(s, a).log)
            == Unprompted(s.log) + if a.User? && Landed(s.log, a.u).Some? then [Landed(s.log, a.u).value] else []
  {
    if a.User? {
      UserCommandLands(s, a.u);
      var landed := Landed(s.log, a.u);
      UnpromptedGrows(s.log, if landed.Some? then [landed.value] else []);
    } else {
      var more := OtherStep(s, a);
      UnpromptedGrows(s.log, more);
    }
  }

  /** In every run, what no transfer caused is exactly what the user's commands landed, in order. */
  lemma {:induction false} LogIsWhatWasSent(run: seq<SagaAction>)
    ensures Unprompted(Run(run).log) == UserEvents(run)
    decreases |run|
  {
    if run != [] {
      LogIsWhatWasSent(run[..|run| - 1]);
      UnpromptedStep(Run(run[..|run| - 1]), run[|run| - 1]);
    }
  }

  /** What one step brings into the bank: a deposit to an open account, or a withdrawal of what an open account holds. */
  ghost function Brings(log: Log, a: SagaAction): int {
    match a
    case User(Deposit(account, amount)) => if Opened(log, account) then amount else 0
    case User(Withdraw(account, amount)) => if Opened(log, account) && amount <= Held(log, account) then -amount else 0
    case _ => 0
  }

  ghost function BroughtIn(run: seq<SagaAction>): int
    decreases |run|
  {
    if run == [] then 0
    else BroughtIn(run[..|run| - 1]) + Brings(Run(run[..|run| - 1]).log, run[|run| - 1])
  }

  lemma DirectStep(s: System<BankEvent>, a: SagaAction)
    ensures DirectTotal(DoSaga(s, a).log) == DirectTotal(s.log) + Brings(s.log, a)
  {
    if a.User? {
      UserCommandLands(s, a.u);
      var landed := Landed(s.log, a.u);
      DirectGrows(s.log, if landed.Some? then [landed.value] else []);
    } else {
      var more := OtherStep(s, a);
      DirectGrows(s.log, more);
    }
  }

  /** The direct total of the log is what the user's own commands brought in, in every run. */
  lemma {:induction false} DirectIsBroughtIn(run: seq<SagaAction>)
    ensures DirectTotal(Run(run).log) == BroughtIn(run)
    decreases |run|
  {
    if run != [] {
      DirectIsBroughtIn(run[..|run| - 1]);
      DirectStep(Run(run[..|run| - 1]), run[|run| - 1]);
    }
  }

  lemma DirectGrows(log: Log, more: Log)
    requires |more| <= 1
    ensures DirectTotal(log + more) == DirectTotal(log) + if more == [] then 0 else Direct(more[0])
  {
    SumAppend(log, more, Each(Direct));
    if more != [] {
      assert Each(Direct)(more[0], |log| + 1) == Direct(more[0]);
    }
  }

  /** All that any list of all accounts holds. */
  function HeldByAll(log: Log, ids: seq<string>): int {
    if ids == [] then 0 else HeldByAll(log, ids[..|ids| - 1]) + Held(log, ids[|ids| - 1])
  }

  lemma {:induction false} HeldIsTotal(log: Log, ids: seq<string>)
    ensures HeldByAll(log, ids) == TotalOf(log, ids)
  {
    if ids != [] {
      HeldIsTotal(log, ids[..|ids| - 1]);
      StateTold(log, ids[|ids| - 1]);
    }
  }

  /**
   Conservation from the commands: in every fair run the accounts hold what the user brought in,
   less what is on its way from one account to another and what is stranded for good.
   */
  lemma AccountsHoldWhatWasBroughtIn(run: seq<SagaAction>, s: System<BankEvent>, ids: seq<string>)
    requires Fair(run, s)
    requires forall i, j | 0 <= i < j < |ids| :: ids[i] != ids[j]
    requires forall i | 0 <= i < |s.log| && s.log[i].OnAccount? :: s.log[i].id in ids
    ensures HeldByAll(s.log, ids) + InFlight(s.log, s.hist.handled) + StrandedTotal(s.log) == BroughtIn(run)
    ensures CaughtUp(s.queue, |s.log|) && s.hist.start == 0 ==> HeldByAll(s.log, ids) + StrandedTotal(s.log) == BroughtIn(run)
  {
    MoneyIsConserved(run, s);
    DirectIsBroughtIn(run);
    HeldIsTotal(s.log, ids);
    TotalIsNet(s.log, ids);
    if CaughtUp(s.queue, |s.log|) && s.hist.start == 0 {
      CaughtUpMeansNothingInFlight(run, s);
    }
  }

  // ---------------------------------------------------------------- an accepted request, to its end

  lemma {:induction false} LogGrows(run: seq<SagaAction>, n: nat)
    requires n <= |run|
    ensures Run(run[..n]).log <= Run(run).log
    decreases |run|
  {
    if n == |run| {
      assert run[..n] == run;
    } else {
      var before := run[..|run| - 1];
      LogGrows(before, n);
      assert before[..n] == run[..n];
      var c := WhatRan(Run(before), run[|run| - 1]);
    }
  }

  /** The step that asks for a transfer nobody asked for before lands its request at the end of the log. */
  lemma RequestLands(run: seq<SagaAction>, n: nat, id: string, source: string, to: string, amount: int) returns (r: nat)
    requires n < |run| && run[n] == User(Request(id, source, to, amount)) && !Requested(Run(run[..n]).log, id)
    ensures r == |Run(run[..n]).log| < |Run(run).log|
    ensures Run(run).log[r] == OnTransfer(id, TransferRequested(source, to, amount, id))
  {
    r := |Run(run[..n]).log|;
    UserCommandLands(Run(run[..n]), run[n].u);
    assert run[..n + 1][..n] == run[..n];
    LogGrows(run, n + 1);
  }

  lemma {:induction false} StageHasEvent(log: Log, id: string) returns (m: nat)
    requires StageOf(log, id) == StageCompleted || StageOf(log, id) == StageFailed
    ensures m < |log| && log[m].OnTransfer? && log[m].id == id
    ensures if StageOf(log, id) == StageCompleted then log[m].transfer.TransferCompleted? else log[m].transfer.TransferFailed?
  {
    var last, e := log[..|log| - 1], log[|log| - 1];
    if e.OnTransfer? && e.id == id {
      FoldSnoc(Transfer(), TransferEvents(last, id), e.transfer);
    }
    if e.OnTransfer? && e.id == id && !e.transfer.TransferRequested? {
      m := |log| - 1;
    } else {
      m := StageHasEvent(last, id);
    }
  }

  /** Debited and credited in this order, each when due, and completed then. */
  ghost predicate MovedAt(log: Log, q: TransferEvent, d: nat, c: nat)
    requires q.TransferRequested?
  {
    && d < c < |log|
    && log[d] == OnAccount(q.from, AccountWithdrawnFrom(q.amount, Some(q.transferId), Some(q.to)))
    && log[c] == OnAccount(q.to, AccountDepositedTo(q.amount, Some(q.transferId)))
    && q.amount <= Held(log[..d], q.from) && Opened(log[..c], q.to)
    && exists m: nat :: c < m < |log| && log[m] == OnTransfer(q.transferId, TransferCompleted(q.transferId))
  }

  ghost predicate RefusedAt(log: Log, q: TransferEvent, f: nat)
    requires q.TransferRequested?
  {
    && f < |log|
    && log[f] == OnAccount(q.from, AccountWithdrawalRefused("insufficient funds", q.amount, Some(q.transferId)))
    && Held(log[..f], q.from) < q.amount
    && exists m: nat :: f < m < |log| && log[m] == OnTransfer(q.transferId, TransferFailed(q.transferId, "insufficient funds"))
  }

  lemma SettledAs(log: Log, handled: set<Key>, r: nat) returns (d: nat, c: nat)
    requires LogInv(log, handled) && Generated(log) && forall k | Routes(PM, log, k) :: k in handled
    requires r < |log| && IsRequest(log[r]) && log[r].transfer.transferId != "" && log[r].transfer.to != ""
    ensures var q := log[r].transfer;
      && r < d && AllOf(log, q.transferId, {r, d, c})
      && if c < |log| then MovedAt(log, q, d, c) else RefusedAt(log, q, d)
  {
    var id := log[r].transfer.transferId;
    d, c := SettlesIn(log, handled, r);
    var m := StageHasEvent(log, id);
    assert EventOk(log[m]);
    if StageOf(log, id) == StageCompleted {
      d, c := MovedPath(log, handled, r, m);
    } else {
      d := RefusedPath(log, handled, r, m);
      c := |log|;
    }
  }

  lemma MovedPath(log: Log, handled: set<Key>, r: nat, m: nat) returns (d: nat, c: nat)
    requires TransferInv(log, handled) && Generated(log) && r < |log| && IsRequest(log[r]) && m < |log|
    requires log[m] == OnTransfer(log[r].transfer.transferId, TransferCompleted(log[r].transfer.transferId))
    ensures r < d && AllOf(log, log[r].transfer.transferId, {r, d, c}) && MovedAt(log, log[r].transfer, d, c)
  {
    var id := log[r].transfer.transferId;
    var request;
    request, d, c := CompletedPath(log, handled, m, id);
    assert RouteTransfer(log[r]) == Some(id);
    EventsAreDue(log, d);
    EventsAreDue(log, c);
  }

  lemma RefusedPath(log: Log, handled: set<Key>, r: nat, m: nat) returns (f: nat)
    requires TransferInv(log, handled) && Generated(log) && r < |log| && IsRequest(log[r]) && m < |log|
    requires log[m].OnTransfer? && log[m].transfer.TransferFailed?
    requires log[m].id == log[m].transfer.transferId == log[r].transfer.transferId
    ensures r < f && AllOf(log, log[r].transfer.transferId, {r, f, |log|}) && RefusedAt(log, log[r].transfer, f)
  {
    var id := log[r].transfer.transferId;
    var request;
    request, f := FailedPath(log, handled, m, id, log[m].transfer.reason);
    assert RouteTransfer(log[r]) == Some(id);
    EventsAreDue(log, f);
  }

  /**
   The promise of the saga to the one who asks for a transfer: in a fair run that has caught up,
   a first request of a transfer with an id and a destination has moved its amount from its
   source to its destination, or was refused because the source did not hold it.
   */
  lemma RequestedTransfersSettle(run: seq<SagaAction>, s: System<BankEvent>, n: nat, id: string, source: string, to: string, amount: int)
    returns (r: nat, d: nat, c: nat)
    requires Fair(run, s) && CaughtUp(s.queue, |s.log|) && s.hist.start == 0
    requires n < |run| && run[n] == User(Request(id, source, to, amount)) && !Requested(Run(run[..n]).log, id)
    requires id != "" && to != ""
    ensures r == |Run(run[..n]).log| < d && AllOf(s.log, id, {r, d, c})
    ensures var request := TransferRequested(source, to, amount, id);
      if c < |s.log| then MovedAt(s.log, request, d, c) else RefusedAt(s.log, request, d)
  {
    r := RequestLands(run, n, id, source, to, amount);
    SagaLogIsGenerated(run);
    FairLog(run, s);
    d, c := SettledAs(s.log, s.hist.handled, r);
  }

  // ---------------------------------------------------------------- what an acknowledgement does

  /**
   A transfer's instance goes on after a request or a debit, whose row is done, and ends with a
   credit or a refusal, after which no row of it is left.
   */
  lemma AckEndsInstance(run: seq<SagaAction>, s: System<BankEvent>, w: WorkerId)
    requires Fair(run, s) && ProcOf(s, w).Returned? && s.queue.sub.Some?
    ensures var key := ProcOf(s, w).key;
      && Routes(PM, s.log, key)
      && AckDoes(s.queue.rows, s.log[key.event - 1], key, w, DoSaga(s, Ack(w)).queue.rows)
  {
    FairRunKeepsInv(run);
    WorkerFacts(s, w);
    AckStepDoes(s, w);
  }

  predicate IsRefusal(e: BankEvent) { e.OnAccount? && e.account.AccountWithdrawalRefused? }

  ghost predicate AckDoes(rows: map<Key, RowState>, e: BankEvent, key: Key, w: WorkerId, after: map<Key, RowState>) {
    if IsRequest(e) || IsDebit(e) then after == if ClaimedBy(rows, key, w) then rows[key := Done] else rows
    else
      && (IsCredit(e) || IsRefusal(e))
      && (forall k | k in after :: k in rows && after[k] == rows[k] && k.partition != key.partition)
      && forall k | k in rows && k.partition != key.partition :: k in after
  }

  lemma AckStepDoes(s: System<BankEvent>, w: WorkerId)
    requires ProcOf(s, w).Returned? && s.queue.sub.Some? && Routes(PM, s.log, ProcOf(s, w).key)
    ensures var key := ProcOf(s, w).key;
      AckDoes(s.queue.rows, s.log[key.event - 1], key, w, DoSaga(s, Ack(w)).queue.rows)
  {
    ExecOne(s, if HandleTransfer(s.log[ProcOf(s, w).key.event - 1]).complete then TerminateInstance(w) else CompleteItem(w));
  }
}
