/** What the transfer saga guarantees in every fair run, and exactly what breaks it. */
module SagaTheorems {
  import opened Wrappers
  import opened Replay
  import opened WorkQueue
  import opened QueueProtocol
  import opened Bank
  import opened Saga

  // ---------------------------------------------------------------- conservation

  /**
   Conservation at every step: all balances together, plus what is debited and not yet
   credited, plus what can never be credited, is what was deposited and withdrawn directly.
   */
  lemma MoneyIsConserved(run: seq<SagaAction>, s: System<BankEvent>)
    requires Fair(run, s)
    ensures Net(s.log) + InFlight(s.log, s.hist.handled) + StrandedTotal(s.log) == DirectTotal(s.log)
  {
    FairRunKeepsInv(run);
    SumSplits(s.log, s.hist.handled);
  }

  /** `log` holds a credit for transfer `id`. */
  ghost predicate HasCredit(log: Log, id: string) {
    exists c: nat :: c < |log| && IsCredit(log[c]) && RouteTransfer(log[c]) == Some(id)
  }

  /**
   What is in flight can be read off the log alone: in a fair run a debit is unpaid if and only
   if no credit in the log carries its transfer id.
   */
  lemma UnpaidIffNoCredit(run: seq<SagaAction>, s: System<BankEvent>, log: Log, d: nat)
    requires Fair(run, s) && log == s.log
    requires d < |log| && IsDebit(log[d]) && !IsStranded(log[d])
    ensures Pays(log[d], d + 1, s.hist.handled) <==> HasCredit(log, log[d].account.transferId.value)
  {
    FairLog(run, s);
    CreditIffPaid(log, s.hist.handled, d);
  }

  lemma CreditIffPaid(log: Log, handled: set<Key>, d: nat)
    requires TransferInv(log, handled) && Effected(log, handled)
    requires d < |log| && IsDebit(log[d]) && !IsStranded(log[d])
    ensures Pays(log[d], d + 1, handled) <==> HasCredit(log, log[d].account.transferId.value)
  {
    var id := log[d].account.transferId.value;
    if Pays(log[d], d + 1, handled) {
      assert TookEffect(log, d);
      var j: nat :| j < |log| && Answers(log[d], log[j]);
      assert IsCredit(log[j]) && RouteTransfer(log[j]) == Some(id);
    }
    if c: nat :| c < |log| && IsCredit(log[c]) && RouteTransfer(log[c]) == Some(id) {
      CauseHandled(log, handled, c, d, id);
    }
  }

  /** No account is ever overdrawn. */
  lemma NeverOverdrawn(run: seq<SagaAction>, s: System<BankEvent>, account: string)
    requires Fair(run, s)
    ensures Balance(s.log, account) >= 0
  {
    FairRunKeepsInv(run);
  }

  lemma {:induction false} NothingUnpaid(log: Log, handled: set<Key>)
    requires forall k | Routes(PM, log, k) :: k in handled
    ensures InFlight(log, handled) == 0
  {
    if log != [] {
      var last := log[..|log| - 1];
      forall k | Routes(PM, last, k) ensures k in handled {
        assert Routes(PM, log, k);
      }
      NothingUnpaid(last, handled);
      var e := log[|log| - 1];
      if IsDebit(e) && !IsStranded(e) {
        assert Routes(PM, log, Key(e.account.transferId.value, |log|));
      }
    }
  }

  /** Once the process manager has caught up with the whole log, nothing is in flight. */
  lemma CaughtUpMeansNothingInFlight(run: seq<SagaAction>, s: System<BankEvent>)
    requires Fair(run, s) && CaughtUp(s.queue, |s.log|) && s.hist.start == 0
    ensures InFlight(s.log, s.hist.handled) == 0 && Net(s.log) + StrandedTotal(s.log) == DirectTotal(s.log)
  {
    FairRunKeepsInv(run);
    AllRoutedHandled(s);
    NothingUnpaid(s.log, s.hist.handled);
    MoneyIsConserved(run, s);
  }

  lemma AllRoutedHandled(s: System<BankEvent>)
    requires Inv(PM, s) && s.hist.terminated <= s.hist.handled && CaughtUp(s.queue, |s.log|) && s.hist.start == 0
    ensures forall k | Routes(PM, s.log, k) :: k in s.hist.handled
  {
    forall k | Routes(PM, s.log, k) ensures k in s.hist.handled {
      assert k in s.hist.inserted;
    }
  }

  /** All balances of the accounts `ids`. */
  function TotalOf(log: Log, ids: seq<string>): int {
    if ids == [] then 0 else TotalOf(log, ids[..|ids| - 1]) + Balance(log, ids[|ids| - 1])
  }

  /** Over any duplicate-free list of all accounts, the balances add up to Net. */
  lemma {:induction false} TotalIsNet(log: Log, ids: seq<string>)
    requires forall i, j | 0 <= i < j < |ids| :: ids[i] != ids[j]
    requires forall i | 0 <= i < |log| && log[i].OnAccount? :: log[i].id in ids
    ensures TotalOf(log, ids) == Net(log)
  {
    if log == [] {
      NobodyHasAnything(ids);
    } else {
      var last, e := log[..|log| - 1], log[|log| - 1];
      TotalIsNet(last, ids);
      TotalChanges(log, ids);
      assert Each(Change)(e, |log|) == Change(e);
    }
  }

  lemma {:induction false} NobodyHasAnything(ids: seq<string>)
    ensures TotalOf([], ids) == 0
  {
    if ids != [] {
      NobodyHasAnything(ids[..|ids| - 1]);
    }
  }

  lemma {:induction false} TotalChanges(log: Log, ids: seq<string>)
    requires log != [] && forall i, j | 0 <= i < j < |ids| :: ids[i] != ids[j]
    ensures var e := log[|log| - 1];
      TotalOf(log, ids) == TotalOf(log[..|log| - 1], ids) + if e.OnAccount? && e.id in ids then Change(e) else 0
  {
    if ids != [] {
      var n, e := |ids| - 1, log[|log| - 1];
      TotalChanges(log, ids[..n]);
      assert ids == ids[..n] + [ids[n]];
      BalanceChanges(log, ids[n]);
    }
  }

  lemma BalanceChanges(log: Log, id: string)
    requires log != []
    ensures var e := log[|log| - 1];
      Balance(log, id) == Balance(log[..|log| - 1], id) + if e.OnAccount? && e.id == id then Change(e) else 0
  {
    var before, e := AccountEvents(log[..|log| - 1], id), log[|log| - 1];
    if e.OnAccount? && e.id == id {
      FoldSnoc(Account(), before, e.account);
    }
  }

  /** The log of a fair run, and the events handled so far; all routed ones once caught up. */
  lemma FairLog(run: seq<SagaAction>, s: System<BankEvent>)
    requires Fair(run, s)
    ensures LogInv(s.log, s.hist.handled)
    ensures CaughtUp(s.queue, |s.log|) && s.hist.start == 0 ==> forall k | Routes(PM, s.log, k) :: k in s.hist.handled
  {
    FairRunKeepsInv(run);
    if CaughtUp(s.queue, |s.log|) && s.hist.start == 0 {
      AllRoutedHandled(s);
    }
  }

  // ---------------------------------------------------------------- outcomes

  /** Debited, credited with the same amount, and completed. */
  ghost predicate PaidInFull(log: Log, q: TransferEvent, d: nat, c: nat)
    requires q.TransferRequested?
  {
    && d < |log| && c < |log|
    && log[d] == OnAccount(q.from, AccountWithdrawnFrom(q.amount, Some(q.transferId), Some(q.to)))
    && log[c] == OnAccount(q.to, AccountDepositedTo(q.amount, Some(q.transferId)))
  }

  ghost predicate RefusedBy(log: Log, q: TransferEvent, f: nat)
    requires q.TransferRequested?
  {
    && f < |log|
    && log[f] == OnAccount(q.from, AccountWithdrawalRefused("insufficient funds", q.amount, Some(q.transferId)))
  }

  /**
   Quiescence settles every transfer: once caught up, a requested transfer with an id and a
   destination was either debited, credited with the same amount and completed, or refused and failed.
   */
  lemma EveryTransferSettles(run: seq<SagaAction>, s: System<BankEvent>, log: Log, r: nat) returns (d: nat, c: nat)
    requires Fair(run, s) && log == s.log && CaughtUp(s.queue, |log|) && s.hist.start == 0
    requires r < |log| && IsRequest(log[r]) && log[r].transfer.transferId != "" && log[r].transfer.to != ""
    ensures var q := log[r].transfer;
      || (PaidInFull(log, q, d, c) && StageOf(log, q.transferId) == StageCompleted)
      || (RefusedBy(log, q, d) && StageOf(log, q.transferId) == StageFailed)
  {
    FairLog(run, s);
    d, c := SettlesIn(log, s.hist.handled, r);
  }

  lemma SettlesIn(log: Log, handled: set<Key>, r: nat) returns (d: nat, c: nat)
    requires Effected(log, handled) && forall k | Routes(PM, log, k) :: k in handled
    requires r < |log| && IsRequest(log[r]) && log[r].transfer.transferId != "" && log[r].transfer.to != ""
    ensures var q := log[r].transfer;
      || (PaidInFull(log, q, d, c) && StageOf(log, q.transferId) == StageCompleted)
      || (RefusedBy(log, q, d) && StageOf(log, q.transferId) == StageFailed)
  {
    var id := log[r].transfer.transferId;
    d := EffectIn(log, handled, r, id);
    if IsDebit(log[d]) {
      c := EffectIn(log, handled, d, id);
      assert Routes(PM, log, Key(id, c + 1)) && TookEffect(log, c);
    } else {
      c := d;
      assert Routes(PM, log, Key(id, d + 1)) && TookEffect(log, d);
    }
  }

  /** The answer to an account command of the process manager, once everything routed was handled. */
  lemma EffectIn(log: Log, handled: set<Key>, i: nat, id: string) returns (j: nat)
    requires Effected(log, handled) && forall k | Routes(PM, log, k) :: k in handled
    requires i < |log| && RouteTransfer(log[i]) == Some(id)
    requires HandleTransfer(log[i]).command.Some? && HandleTransfer(log[i]).command.value.ToAccount?
    ensures j < |log| && Answers(log[i], log[j])
  {
    assert Routes(PM, log, Key(id, i + 1)) && TookEffect(log, i);
    j :| j < |log| && Answers(log[i], log[j]);
  }

  /** Nothing but these events was ever done for transfer `id`. */
  ghost predicate AllOf(log: Log, id: string, only: set<nat>) {
    forall i: nat | i < |log| && RouteTransfer(log[i]) == Some(id) :: i in only
  }

  /** A completed transfer was requested, debited once and credited once, with the same amount, in this order. */
  lemma CompletedMeansPaid(run: seq<SagaAction>, s: System<BankEvent>, log: Log, m: nat, id: string) returns (r: nat, d: nat, c: nat)
    requires Fair(run, s) && log == s.log
    requires m < |log| && log[m] == OnTransfer(id, TransferCompleted(id))
    ensures r < d < c < m && IsRequest(log[r]) && log[r].transfer.transferId == id
    ensures PaidInFull(log, log[r].transfer, d, c) && AllOf(log, id, {r, d, c})
  {
    FairLog(run, s);
    var handled := s.hist.handled;
    r, d, c := CompletedPath(log, handled, m, id);
  }

  lemma CompletedPath(log: Log, handled: set<Key>, m: nat, id: string) returns (r: nat, d: nat, c: nat)
    requires TransferInv(log, handled) && m < |log| && log[m] == OnTransfer(id, TransferCompleted(id))
    ensures r < d < c < m && IsRequest(log[r]) && log[r].transfer.transferId == id
    ensures PaidInFull(log, log[r].transfer, d, c) && AllOf(log, id, {r, d, c})
  {
    var credit := CauseOf(log, handled, m);
    c := credit.1;
    var debit := CauseOf(log, handled, c);
    d := debit.1;
    var request := CauseOf(log, handled, d);
    r := request.1;
    OnlyThese(log, handled, id, r, d, c);
  }

  lemma OnlyThese(log: Log, handled: set<Key>, id: string, r: nat, d: nat, c: nat)
    requires TransferInv(log, handled) && r < |log| && d < |log| && c < |log|
    requires RouteTransfer(log[r]) == RouteTransfer(log[d]) == RouteTransfer(log[c]) == Some(id)
    requires IsRequest(log[r]) && IsDebit(log[d]) && IsCredit(log[c])
    ensures AllOf(log, id, {r, d, c})
  {
    forall i: nat | i < |log| && RouteTransfer(log[i]) == Some(id) ensures i in {r, d, c} {
      OnlyOneOf(log, handled, i, if IsRequest(log[i]) then r else if IsDebit(log[i]) then d else c, id);
    }
  }

  /** A failed transfer was refused for the reason it names, and no account was debited or credited for it. */
  lemma FailedMeansUntouched(run: seq<SagaAction>, s: System<BankEvent>, log: Log, m: nat, id: string, reason: string) returns (r: nat, f: nat)
    requires Fair(run, s) && log == s.log
    requires m < |log| && log[m] == OnTransfer(id, TransferFailed(id, reason))
    ensures r < f < m && IsRequest(log[r]) && log[r].transfer.transferId == id
    ensures RefusedBy(log, log[r].transfer, f) && reason == log[f].account.reason && AllOf(log, id, {r, f})
  {
    FairLog(run, s);
    var handled := s.hist.handled;
    r, f := FailedPath(log, handled, m, id, reason);
  }

  lemma FailedPath(log: Log, handled: set<Key>, m: nat, id: string, reason: string) returns (r: nat, f: nat)
    requires TransferInv(log, handled) && m < |log| && log[m] == OnTransfer(id, TransferFailed(id, reason))
    ensures r < f < m && IsRequest(log[r]) && log[r].transfer.transferId == id
    ensures RefusedBy(log, log[r].transfer, f) && reason == log[f].account.reason && AllOf(log, id, {r, f})
  {
    var refusal := CauseOf(log, handled, m);
    f := refusal.1;
    var request := CauseOf(log, handled, f);
    r := request.1;
    forall i: nat | i < |log| && RouteTransfer(log[i]) == Some(id) ensures i in {r, f} {
      OnlyOneOf(log, handled, i, if IsRequest(log[i]) then r else f, id);
    }
  }

  /** Two events of one transfer neither of which may precede the other are the same event. */
  lemma OnlyOneOf(log: Log, handled: set<Key>, i: nat, j: nat, id: string)
    requires TransferInv(log, handled) && i < |log| && j < |log|
    requires RouteTransfer(log[i]) == Some(id) && RouteTransfer(log[j]) == Some(id)
    requires !Precedes(log[i], log[j]) && !Precedes(log[j], log[i])
    ensures i == j
  {
    if i < j {
      PairInOrder(log, handled, i, j);
    } else if j < i {
      PairInOrder(log, handled, j, i);
    }
  }

  // ---------------------------------------------------------------- what is stranded

  /** Handling a request strands its amount if and only if id or destination is blank and the debit is accepted. */
  lemma RequestStrandsIff(log: Log, id: string, source: string, to: string, amount: int)
    requires amount > 0
    ensures var e := OnTransfer(id, TransferRequested(source, to, amount, id));
      var state := Fold(Account(), AccountEvents(log, source));
      var result := Dispatched(log, HandleTransfer(e).command);
      && (result.Some? <==> state.isOpen)
      && (result.Some? ==>
            StrandedTotal(log + result.value) ==
              StrandedTotal(log) + if (id == "" || to == "") && state.balance >= amount then amount else 0)
  {
    var e := OnTransfer(id, TransferRequested(source, to, amount, id));
    var result := Dispatched(log, HandleTransfer(e).command);
    if result.Some? {
      SumAppend(log, result.value, Each(Stranded));
      assert Each(Stranded)(result.value[0], |log| + 1) == Stranded(result.value[0]);
    }
  }

  /** With an id and a destination in every request nothing is ever stranded. */
  lemma NothingStranded(run: seq<SagaAction>, s: System<BankEvent>, log: Log)
    requires Fair(run, s) && log == s.log
    requires forall i | 0 <= i < |log| && IsRequest(log[i]) :: log[i].id != "" && log[i].transfer.to != ""
    ensures StrandedTotal(log) == 0
  {
    FairLog(run, s);
    var handled := s.hist.handled;
    forall j: nat | j < |log| ensures !IsStranded(log[j]) {
      DebitNotStranded(log, handled, j);
    }
    NoneStranded(log);
  }

  lemma DebitNotStranded(log: Log, handled: set<Key>, j: nat)
    requires TransferInv(log, handled) && j < |log| && forall i | 0 <= i < |log| :: EventOk(log[i])
    requires forall i | 0 <= i < |log| && IsRequest(log[i]) :: log[i].id != "" && log[i].transfer.to != ""
    ensures !IsStranded(log[j])
  {
    if IsDebit(log[j]) {
      var request := CauseOf(log, handled, j);
      assert EventOk(log[request.1]);
    }
  }

  lemma {:induction false} NoneStranded(log: Log)
    requires forall j | 0 <= j < |log| :: !IsStranded(log[j])
    ensures StrandedTotal(log) == 0
  {
    if log != [] {
      NoneStranded(log[..|log| - 1]);
      assert !IsStranded(log[|log| - 1]);
      assert Each(Stranded)(log[|log| - 1], |log|) == Stranded(log[|log| - 1]);
    }
  }
}
