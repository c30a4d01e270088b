/** The Balances and Transfers projections of the bank, and their agreement with the aggregates. */
module ReadModels {
  import opened Wrappers
  import opened Replay
  import opened WorkQueue
  import opened QueueProtocol
  import opened QueueTheorems
  import opened GuardedDelivery
  import opened Bank
  import opened Saga
  import AggregateProtocol

  // ---------------------------------------------------------------- Balances

  datatype BalanceRow = BalanceRow(owner: string, balance: int, lastEventNumber: nat)

  /** `insert … on conflict do update … where excluded.last_event_number > last_event_number`; a conflict keeps the balance. */
  function UpsertOpened(row: Option<BalanceRow>, owner: string, n: nat): Option<BalanceRow> {
    match row
    case None => Some(BalanceRow(owner, 0, n))
    case Some(r) => if n > r.lastEventNumber then Some(BalanceRow(owner, r.balance, n)) else row
  }

  /** A guarded update; no row, no effect. */
  function BumpBalance(row: Option<BalanceRow>, delta: int, n: nat): Option<BalanceRow> {
    match row
    case None => None
    case Some(r) => if n > r.lastEventNumber then Some(BalanceRow(r.owner, r.balance + delta, n)) else row
  }

  function WriteBalance(row: Option<BalanceRow>, n: nat, e: BankEvent): Option<BalanceRow> {
    match e
    case OnAccount(_, AccountOpened(owner)) => UpsertOpened(row, owner, n)
    case OnAccount(_, AccountDepositedTo(amount, _)) => BumpBalance(row, amount, n)
    case OnAccount(_, AccountWithdrawnFrom(amount, _, _)) => BumpBalance(row, -amount, n)
    case _ => row
  }

  /** One partition per account stream, three event types. */
  function RouteBalances(e: BankEvent): Option<Partition> {
    match e
    case OnAccount(id, account) => if account.AccountWithdrawalRefused? then None else Some(id)
    case OnTransfer(_, _) => None
  }

  const BALANCES: Config<BankEvent> := Config(RouteBalances, Projection)

  const BALANCES_HANDLER: Handler<BalanceRow, BankEvent> :=
    Handler(WriteBalance, (r: BalanceRow) => r.lastEventNumber, (e: BankEvent) => e.OnAccount? && e.account.AccountOpened?)

  // ---------------------------------------------------------------- Transfers

  datatype TransferRow = TransferRow(source: string, to: string, amount: int, status: Stage, reason: Option<string>, lastEventNumber: nat)

  /** A conflict rewrites the details and keeps the status. */
  function UpsertRequested(row: Option<TransferRow>, source: string, to: string, amount: int, n: nat): Option<TransferRow> {
    match row
    case None => Some(TransferRow(source, to, amount, StageRequested, None, n))
    case Some(r) =>
      if n > r.lastEventNumber then Some(TransferRow(source, to, amount, r.status, r.reason, n)) else row
  }

  function MarkCompleted(row: Option<TransferRow>, n: nat): Option<TransferRow> {
    match row
    case None => None
    case Some(r) => if n > r.lastEventNumber then Some(r.(status := StageCompleted, lastEventNumber := n)) else row
  }

  function MarkFailed(row: Option<TransferRow>, reason: string, n: nat): Option<TransferRow> {
    match row
    case None => None
    case Some(r) =>
      if n > r.lastEventNumber then Some(r.(status := StageFailed, reason := Some(reason), lastEventNumber := n)) else row
  }

  function WriteTransfer(row: Option<TransferRow>, n: nat, e: BankEvent): Option<TransferRow> {
    match e
    case OnTransfer(_, TransferRequested(source, to, amount, _)) => UpsertRequested(row, source, to, amount, n)
    case OnTransfer(_, TransferCompleted(_)) => MarkCompleted(row, n)
    case OnTransfer(_, TransferFailed(_, reason)) => MarkFailed(row, reason, n)
    case OnAccount(_, _) => row
  }

  function RouteTransfers(e: BankEvent): Option<Partition> {
    match e
    case OnTransfer(_, transfer) => Some(transfer.transferId)
    case OnAccount(_, _) => None
  }

  const TRANSFERS: Config<BankEvent> := Config(RouteTransfers, Projection)

  const TRANSFERS_HANDLER: Handler<TransferRow, BankEvent> :=
    Handler(WriteTransfer, (r: TransferRow) => r.lastEventNumber, (e: BankEvent) => IsRequest(e))

  /** A write of an event the row has not seen moves its balance by what the event moves, an opening that meets a row included. */
  lemma BalanceWrites(r: BalanceRow, n: nat, e: BankEvent)
    requires e.OnAccount? && !e.account.AccountWithdrawalRefused?
    ensures WriteBalance(Some(r), n, e) == Some(
        if n <= r.lastEventNumber then r
        else BalanceRow(if e.account.AccountOpened? then e.account.owner else r.owner, r.balance + Change(e), n))
    ensures WriteBalance(None, n, e).Some? <==> e.account.AccountOpened?
    ensures e.account.AccountOpened? ==> WriteBalance(None, n, e) == Some(BalanceRow(e.account.owner, 0, n))
  {
  }

  /** Likewise for transfers: a request that meets a row rewrites its details and settles nothing. */
  lemma TransferWrites(r: TransferRow, n: nat, e: BankEvent)
    requires e.OnTransfer?
    ensures WriteTransfer(Some(r), n, e).Some?
    ensures var w := WriteTransfer(Some(r), n, e).value;
      if n <= r.lastEventNumber then w == r
      else
        && w.lastEventNumber == n
        && (if IsRequest(e) then (w.source, w.to, w.amount) == (e.transfer.from, e.transfer.to, e.transfer.amount)
            else (w.source, w.to, w.amount) == (r.source, r.to, r.amount))
        && w.status == (if IsRequest(e) then r.status else if e.transfer.TransferCompleted? then StageCompleted else StageFailed)
        && w.reason == if e.transfer.TransferFailed? then Some(e.transfer.reason) else r.reason
    ensures WriteTransfer(None, n, e).Some? <==> IsRequest(e)
  {
  }

  // ---------------------------------------------------------------- the read store

  function RowAt<R>(rows: map<string, R>, key: string): Option<R> {
    if key in rows then Some(rows[key]) else None
  }

  /** The two read tables, written in place by the handlers. */
  class ReadStore {
    var balances: map<string, BalanceRow>
    var transfers: map<string, TransferRow>

    constructor ()
      ensures balances == map[] && transfers == map[]
    {
      balances, transfers := map[], map[];
    }

    method UpsertOpenedRow(stream: string, owner: string, n: nat)
      modifies this`balances
      ensures RowAt(balances, stream) == UpsertOpened(RowAt(old(balances), stream), owner, n)
      ensures forall k | k != stream :: RowAt(balances, k) == RowAt(old(balances), k)
    {
      if stream !in balances {
        balances := balances[stream := BalanceRow(owner, 0, n)];
      } else if n > balances[stream].lastEventNumber {
        balances := balances[stream := balances[stream].(owner := owner, lastEventNumber := n)];
      }
    }

    method BumpBalanceRow(stream: string, delta: int, n: nat)
      modifies this`balances
      ensures RowAt(balances, stream) == BumpBalance(RowAt(old(balances), stream), delta, n)
      ensures forall k | k != stream :: RowAt(balances, k) == RowAt(old(balances), k)
    {
      if stream in balances && n > balances[stream].lastEventNumber {
        balances := balances[stream := balances[stream].(balance := balances[stream].balance + delta, lastEventNumber := n)];
      }
    }

    /** The Balances handler on one delivered event. */
    method HandleBalances(e: BankEvent, n: nat)
      requires RouteBalances(e).Some?
      modifies this`balances
      ensures RowAt(balances, e.id) == WriteBalance(RowAt(old(balances), e.id), n, e)
      ensures forall k | k != e.id :: RowAt(balances, k) == RowAt(old(balances), k)
    {
      match e.account
      case AccountOpened(owner) => UpsertOpenedRow(e.id, owner, n);
      case AccountDepositedTo(amount, _) => BumpBalanceRow(e.id, amount, n);
      case AccountWithdrawnFrom(amount, _, _) => BumpBalanceRow(e.id, -amount, n);
    }

    /** The Transfers handler on one delivered event. */
    method HandleTransfers(e: BankEvent, n: nat)
      requires RouteTransfers(e).Some?
      modifies this`transfers
      ensures var id := e.transfer.transferId; RowAt(transfers, id) == WriteTransfer(RowAt(old(transfers), id), n, e)
      ensures forall k | k != e.transfer.transferId :: RowAt(transfers, k) == RowAt(old(transfers), k)
    {
      var id := e.transfer.transferId;
      match e.transfer
      case TransferRequested(source, to, amount, _) =>
        if id !in transfers {
          transfers := transfers[id := TransferRow(source, to, amount, StageRequested, None, n)];
        } else if n > transfers[id].lastEventNumber {
          transfers := transfers[id := transfers[id].(source := source, to := to, amount := amount, lastEventNumber := n)];
        }
      case TransferCompleted(_) =>
        if id in transfers && n > transfers[id].lastEventNumber {
          transfers := transfers[id := transfers[id].(status := StageCompleted, lastEventNumber := n)];
        }
      case TransferFailed(_, reason) =>
        if id in transfers && n > transfers[id].lastEventNumber {
          transfers := transfers[id := transfers[id].(status := StageFailed, reason := Some(reason), lastEventNumber := n)];
        }
    }
  }

  // ---------------------------------------------------------------- logs that commands generate

  /** The command router addresses a transfer by its transfer id. */
  predicate WellRouted(c: Command) {
    c.ToTransfer? ==> c.transfer.transferId == c.id
  }

  /** `e` is the one event command `c` adds to `log`. */
  predicate AddsOne(log: Log, c: Command, e: BankEvent) {
    match c
    case ToAccount(id, command) =>
      e.OnAccount? && e.id == id && ExecuteAccount(Fold(Account(), AccountEvents(log, id)), command) == AggregateProtocol.Emits([e.account])
    case ToTransfer(id, command) =>
      e.OnTransfer? && e.id == id && ExecuteTransfer(Fold(Transfer(), TransferEvents(log, id)), command) == AggregateProtocol.Emits([e.transfer])
  }

  /** Every event is what one command added on the fold of everything before it. */
  ghost predicate GeneratedAt(log: Log, i: nat)
    requires i < |log|
  {
    exists c :: WellRouted(c) && AddsOne(log[..i], c, log[i])
  }

  ghost predicate Generated(log: Log) {
    forall i: nat | i < |log| :: GeneratedAt(log, i)
  }

  lemma ExecuteAddsOne(log: Log, c: Command)
    requires Execute(log, c).Some?
    ensures var events := Execute(log, c).value; events == [] || (|events| == 1 && AddsOne(log, c, events[0]))
  {
  }

  lemma GeneratedGrows(log: Log, c: Command)
    requires Generated(log) && WellRouted(c) && Execute(log, c).Some?
    ensures Generated(log + Execute(log, c).value)
  {
    ExecuteAddsOne(log, c);
    var all := log + Execute(log, c).value;
    forall i: nat | i < |all| ensures GeneratedAt(all, i) {
      if i < |log| {
        assert GeneratedAt(log, i) && all[..i] == log[..i];
      } else {
        assert all[..i] == log;
      }
    }
  }

  /** The log of every saga run, fair or not, is generated by commands. */
  lemma {:induction false} SagaLogIsGenerated(run: seq<SagaAction>)
    ensures Generated(Run(run).log)
    decreases |run|
  {
    if run != [] {
      var s, a := Run(run[..|run| - 1]), run[|run| - 1];
      SagaLogIsGenerated(run[..|run| - 1]);
      var c := WhatRan(s, a);
      if c.Some? {
        GeneratedGrows(s.log, c.value);
      }
    }
  }

  lemma WhatRan(s: System<BankEvent>, a: SagaAction) returns (c: Option<Command>)
    ensures match c
      case None => DoSaga(s, a).log == s.log
      case Some(command) =>
        WellRouted(command) && Execute(s.log, command).Some? && DoSaga(s, a).log == s.log + Execute(s.log, command).value
  {
    var steps := Steps(s, a);
    c := None;
    if |steps| == 1 {
      ExecOne(s, steps[0]);
      assert steps == [steps[0]];
      if steps[0].Append? {
        c := Some(Resolve(a.u));
      } else {
        LogStays(s, steps[0]);
      }
    } else if |steps| == 2 {
      ExecTwo(s, steps[0], steps[1]);
      assert steps == [steps[0], steps[1]];
      LogStays(Do(PM, s, steps[0]), steps[1]);
      c := HandleTransfer(s.log[ProcOf(s, a.w).key.event - 1]).command;
    }
  }

  lemma LogStays(s: System<BankEvent>, a: Action<BankEvent>)
    requires !a.Append?
    ensures Do(PM, s, a).log == s.log
  {
  }

  lemma {:induction false} GeneratedTransfers(log: Log, n: nat, id: string)
    requires Generated(log) && n <= |log|
    ensures OneOutcome(TransferEvents(log[..n], id))
  {
    if n != 0 {
      GeneratedTransfers(log, n - 1, id);
      assert log[..n][..n - 1] == log[..n - 1];
      assert GeneratedAt(log, n - 1);
      var c :| WellRouted(c) && AddsOne(log[..n - 1], c, log[n - 1]);
      if c.ToTransfer? && c.id == id {
        TransferGrows(TransferEvents(log[..n - 1], id), c.transfer);
      }
    }
  }

  lemma GeneratedIds(log: Log, n: nat)
    requires Generated(log) && 1 <= n <= |log|
    ensures log[n - 1].OnTransfer? ==> log[n - 1].transfer.transferId == log[n - 1].id
    ensures log[n - 1].OnAccount? && !log[n - 1].account.AccountOpened? ==> AccountEvents(log[..n - 1], log[n - 1].id) != []
  {
    assert GeneratedAt(log, n - 1);
    var c :| WellRouted(c) && AddsOne(log[..n - 1], c, log[n - 1]);
  }

  // ---------------------------------------------------------------- agreement with Account

  predicate OpensAt(log: Log, m: nat, id: string) {
    1 <= m <= |log| && log[m - 1].OnAccount? && log[m - 1].id == id && log[m - 1].account.AccountOpened?
  }

  /** The first event of an account opens it. */
  lemma {:induction false} OpenedBefore(log: Log, n: nat, id: string) returns (m: nat)
    requires Generated(log) && n <= |log| && AccountEvents(log[..n], id) != []
    ensures m <= n && OpensAt(log, m, id)
  {
    assert log[..n][..n - 1] == log[..n - 1];
    if AccountEvents(log[..n - 1], id) != [] {
      m := OpenedBefore(log, n - 1, id);
    } else {
      GeneratedIds(log, n);
      m := n;
    }
  }

  /** So the first event routed to the account's partition inserts the row. */
  lemma EarlierOpening(log: Log, id: string, n: nat) returns (m: nat)
    requires Generated(log) && Routes(BALANCES, log, Key(id, n)) && !OpensAt(log, n, id)
    ensures m < n && Routes(BALANCES, log, Key(id, m))
  {
    GeneratedIds(log, n);
    m := OpenedBefore(log, n - 1, id);
  }

  lemma BalancesCreateFirst(log: Log, id: string)
    requires Generated(log)
    ensures CreatesFirst(BALANCES_HANDLER, BALANCES, log, id)
  {
    forall n: nat ensures CreatesAt(BALANCES_HANDLER, BALANCES, log, id, n) {
      if Routes(BALANCES, log, Key(id, n)) && !OpensAt(log, n, id) {
        var m := EarlierOpening(log, id, n);
      }
    }
  }

  lemma BalancesGuarded()
    ensures Guarded(BALANCES_HANDLER, BALANCES)
  {
  }

  ghost predicate BalanceAgrees(log: Log, id: string, row: Option<BalanceRow>) {
    match row
    case None => AccountEvents(log, id) == []
    case Some(r) => Fold(Account(), AccountEvents(log, id)) == AccountState(true, Some(r.owner), r.balance)
  }

  /** One event, on a row older than it. */
  lemma BalanceOneMore(log: Log, id: string, row: Option<BalanceRow>, e: BankEvent, n: nat)
    requires BalanceAgrees(log, id, row) && (row.Some? ==> row.value.lastEventNumber < n)
    requires e.OnAccount? && !e.account.AccountOpened? ==> AccountEvents(log, e.id) != []
    ensures BalanceAgrees(log + [e], id, if RouteBalances(e) == Some(id) then WriteBalance(row, n, e) else row)
  {
    assert (log + [e])[..|log|] == log;
    var before := AccountEvents(log, id);
    if e.OnAccount? && e.id == id {
      FoldSnoc(Account(), before, e.account);
    }
  }

  /** In order, a Balances row is the account's own fold. */
  lemma {:induction false} BalanceRowIsFold(log: Log, id: string, n: nat)
    requires Generated(log) && n <= |log|
    ensures BalanceAgrees(log[..n], id, RowUpTo(BALANCES_HANDLER, BALANCES, log, id, n))
  {
    if n != 0 {
      BalanceRowIsFold(log, id, n - 1);
      GeneratedIds(log, n);
      BalancesGuarded();
      BalancesCreateFirst(log, id);
      RowLast(BALANCES_HANDLER, BALANCES, log, id, n - 1);
      BalanceOneMore(log[..n - 1], id, RowUpTo(BALANCES_HANDLER, BALANCES, log, id, n - 1), log[n - 1], n);
      assert log[..n] == log[..n - 1] + [log[n - 1]];
    }
  }

  /**
   A Balances row, at any point of any run and after any repeats, is the account folded up to
   the row's last_event_number; once caught up it is the account as it stands.
   */
  lemma BalancesAgree(log: Log, run: seq<Action<BankEvent>>, s: System<BankEvent>, id: string)
    requires Reached(BALANCES, log, run, s) && NoResets(run) && s.hist.start == 0 && Generated(s.log)
    ensures var row := Deliver(BALANCES_HANDLER, s.log, s.hist.effects, id);
      && (row.Some? ==> row.value.lastEventNumber <= |s.log| && BalanceAgrees(s.log[..row.value.lastEventNumber], id, row))
      && (CaughtUp(s.queue, |s.log|) ==> BalanceAgrees(s.log, id, row))
  {
    BalancesGuarded();
    BalancesCreateFirst(s.log, id);
    RowOfAnyRun(BALANCES_HANDLER, BALANCES, log, run, s, id);
    var row := Deliver(BALANCES_HANDLER, s.log, s.hist.effects, id);
    if row.Some? {
      BalanceRowIsFold(s.log, id, row.value.lastEventNumber);
    }
    BalanceRowIsFold(s.log, id, |s.log|);
    assert s.log[..|s.log|] == s.log;
  }

  // ---------------------------------------------------------------- agreement with Transfer

  ghost predicate TransferAgrees(log: Log, id: string, row: Option<TransferRow>) {
    match row
    case None => TransferEvents(log, id) == []
    case Some(r) =>
      Fold(Transfer(), TransferEvents(log, id)) == TransferState(r.status, Some(TransferRequested(r.source, r.to, r.amount, id)), r.reason)
  }

  lemma TransfersGuarded()
    ensures Guarded(TRANSFERS_HANDLER, TRANSFERS)
  {
  }

  lemma {:induction false} TransferEventBefore(log: Log, n: nat, id: string) returns (m: nat)
    requires Generated(log) && n <= |log| && TransferEvents(log[..n], id) != []
    ensures m <= n && Routes(TRANSFERS, log, Key(id, m))
  {
    assert log[..n][..n - 1] == log[..n - 1];
    if TransferEvents(log[..n - 1], id) != [] {
      m := TransferEventBefore(log, n - 1, id);
    } else {
      GeneratedIds(log, n);
      m := n;
    }
  }

  lemma EarlierTransferEvent(log: Log, id: string, n: nat) returns (m: nat)
    requires Generated(log) && Routes(TRANSFERS, log, Key(id, n)) && !IsRequest(log[n - 1])
    ensures m < n && Routes(TRANSFERS, log, Key(id, m))
  {
    GeneratedIds(log, n);
    GeneratedTransfers(log, n, id);
    assert log[..n][..n - 1] == log[..n - 1];
    m := TransferEventBefore(log, n - 1, id);
  }

  lemma TransfersCreateFirst(log: Log, id: string)
    requires Generated(log)
    ensures CreatesFirst(TRANSFERS_HANDLER, TRANSFERS, log, id)
  {
    forall n: nat ensures CreatesAt(TRANSFERS_HANDLER, TRANSFERS, log, id, n) {
      if Routes(TRANSFERS, log, Key(id, n)) && !IsRequest(log[n - 1]) {
        var m := EarlierTransferEvent(log, id, n);
      }
    }
  }

  lemma TransferOneMore(log: Log, id: string, row: Option<TransferRow>, e: BankEvent, n: nat)
    requires TransferAgrees(log, id, row) && (row.Some? ==> row.value.lastEventNumber < n)
    requires OneOutcome(TransferEvents(log, id)) && OneOutcome(TransferEvents(log + [e], id))
    requires e.OnTransfer? ==> e.transfer.transferId == e.id
    ensures TransferAgrees(log + [e], id, if RouteTransfers(e) == Some(id) then WriteTransfer(row, n, e) else row)
  {
    assert (log + [e])[..|log|] == log;
    var before := TransferEvents(log, id);
    if e.OnTransfer? && e.id == id {
      FoldSnoc(Transfer(), before, e.transfer);
    }
  }

  lemma TransferRowIsOlder(log: Log, id: string, n: nat)
    requires Generated(log) && 1 <= n <= |log|
    ensures var row := RowUpTo(TRANSFERS_HANDLER, TRANSFERS, log, id, n - 1); row.Some? ==> row.value.lastEventNumber < n
  {
    TransfersGuarded();
    TransfersCreateFirst(log, id);
    RowLast(TRANSFERS_HANDLER, TRANSFERS, log, id, n - 1);
  }

  lemma GeneratedTransferStep(log: Log, id: string, n: nat, row: Option<TransferRow>)
    requires Generated(log) && 1 <= n <= |log|
    requires TransferAgrees(log[..n - 1], id, row) && (row.Some? ==> row.value.lastEventNumber < n)
    ensures TransferAgrees(log[..n], id, if RouteTransfers(log[n - 1]) == Some(id) then WriteTransfer(row, n, log[n - 1]) else row)
  {
    GeneratedIds(log, n);
    GeneratedTransfers(log, n - 1, id);
    GeneratedTransfers(log, n, id);
    assert log[..n] == log[..n - 1] + [log[n - 1]];
    TransferOneMore(log[..n - 1], id, row, log[n - 1], n);
  }

  lemma {:induction false} TransferRowIsFold(log: Log, id: string, n: nat)
    requires Generated(log) && n <= |log|
    ensures TransferAgrees(log[..n], id, RowUpTo(TRANSFERS_HANDLER, TRANSFERS, log, id, n))
  {
    if n != 0 {
      TransferRowIsFold(log, id, n - 1);
      TransferRowIsOlder(log, id, n);
      GeneratedTransferStep(log, id, n, RowUpTo(TRANSFERS_HANDLER, TRANSFERS, log, id, n - 1));
    }
  }

  /** A Transfers row, after any repeats, shows the Transfer's details, stage and reason up to its last_event_number. */
  lemma TransfersAgree(log: Log, run: seq<Action<BankEvent>>, s: System<BankEvent>, id: string)
    requires Reached(TRANSFERS, log, run, s) && NoResets(run) && s.hist.start == 0 && Generated(s.log)
    ensures var row := Deliver(TRANSFERS_HANDLER, s.log, s.hist.effects, id);
      && (row.Some? ==> row.value.lastEventNumber <= |s.log| && TransferAgrees(s.log[..row.value.lastEventNumber], id, row))
      && (CaughtUp(s.queue, |s.log|) ==> TransferAgrees(s.log, id, row))
  {
    TransfersGuarded();
    TransfersCreateFirst(s.log, id);
    RowOfAnyRun(TRANSFERS_HANDLER, TRANSFERS, log, run, s, id);
    var row := Deliver(TRANSFERS_HANDLER, s.log, s.hist.effects, id);
    if row.Some? {
      TransferRowIsFold(s.log, id, row.value.lastEventNumber);
    }
    TransferRowIsFold(s.log, id, |s.log|);
    assert s.log[..|s.log|] == s.log;
  }
}
