/** The two aggregates of the bank-account example and the streams they generate. */
module Bank {
  import opened Wrappers
  import opened Replay
  import opened AggregateProtocol

  // ---------------------------------------------------------------- Account

  datatype AccountEvent =
    | AccountOpened(owner: string)
    | AccountDepositedTo(amount: int, transferId: Option<string>)
    | AccountWithdrawnFrom(amount: int, transferId: Option<string>, to: Option<string>)
    | AccountWithdrawalRefused(reason: string, amount: int, transferId: Option<string>)

  datatype AccountState = AccountState(isOpen: bool, owner: Option<string>, balance: int)

  datatype AccountCommand =
    | OpenAccount(owner: string)
    | DepositToAccount(amount: int, transferId: Option<string>)
    | WithdrawFromAccount(amount: int, transferId: Option<string>, to: Option<string>)

  function ApplyAccount(state: AccountState, event: AccountEvent): AccountState {
    match event
    case AccountOpened(owner) => state.(isOpen := true, owner := Some(owner))
    case AccountDepositedTo(amount, _) => state.(balance := state.balance + amount)
    case AccountWithdrawnFrom(amount, _, _) => state.(balance := state.balance - amount)
    case AccountWithdrawalRefused(_, _, _) => state
  }

  function ExecuteAccount(state: AccountState, command: AccountCommand): Outcome<AccountEvent> {
    match command
    case OpenAccount(owner) => if state.isOpen then Rejected else Emits([AccountOpened(owner)])
    case DepositToAccount(amount, transferId) =>
      if !state.isOpen then Rejected else Emits([AccountDepositedTo(amount, transferId)])
    case WithdrawFromAccount(amount, transferId, to) =>
      if !state.isOpen then Rejected
      else if state.balance < amount then Emits([AccountWithdrawalRefused("insufficient funds", amount, transferId)])
      else Emits([AccountWithdrawnFrom(amount, transferId, to)])
  }

  function Account(): Module<AccountState, AccountEvent> {
    Module(AccountState(false, None, 0), ApplyAccount)
  }

  // ---------------------------------------------------------------- Transfer

  datatype TransferEvent =
    | TransferRequested(from: string, to: string, amount: int, transferId: string)
    | TransferCompleted(transferId: string)
    | TransferFailed(transferId: string, reason: string)

  datatype Stage = NotRequested | StageRequested | StageCompleted | StageFailed

  datatype TransferState = TransferState(stage: Stage, details: Option<TransferEvent>, reason: Option<string>)

  datatype TransferCommand =
    | RequestTransfer(transferId: string, from: string, to: string, amount: int)
    | MarkTransferCompleted(transferId: string)
    | MarkTransferFailed(transferId: string, reason: string)

  function ApplyTransfer(state: TransferState, event: TransferEvent): TransferState {
    match event
    case TransferRequested(_, _, _, _) => TransferState(StageRequested, Some(event), None)
    case TransferCompleted(_) => state.(stage := StageCompleted)
    case TransferFailed(_, reason) => state.(stage := StageFailed, reason := Some(reason))
  }

  function ExecuteTransfer(state: TransferState, command: TransferCommand): Outcome<TransferEvent> {
    match command
    case RequestTransfer(transferId, from, to, amount) =>
      if state.stage != NotRequested then Rejected else Emits([TransferRequested(from, to, amount, transferId)])
    case MarkTransferCompleted(transferId) =>
      if state.stage == StageCompleted then Emits([])
      else if state.stage != StageRequested then Rejected
      else Emits([TransferCompleted(transferId)])
    case MarkTransferFailed(transferId, reason) =>
      if state.stage == StageFailed then Emits([])
      else if state.stage != StageRequested then Rejected
      else Emits([TransferFailed(transferId, reason)])
  }

  function Transfer(): Module<TransferState, TransferEvent> {
    Module(TransferState(NotRequested, None, None), ApplyTransfer)
  }

  // ---------------------------------------------------------------- one outcome per transfer

  /** Command runners on one Transfer stream. */
  function TransferRunners(): Config<TransferState, TransferCommand, TransferEvent> {
    Config((w: Writer) => None, (tag: Tag) => Transfer(),
           (w: Writer, s: TransferState, c: TransferCommand) => ExecuteTransfer(s, c))
  }

  ghost predicate CommandsOnly<C, E>(commits: seq<Commit<C, E>>) {
    forall i | 0 <= i < |commits| :: commits[i].ByCommand?
  }

  /** At most one request, first; then at most one terminal event; and the stage says which. */
  ghost predicate OneOutcome(events: seq<TransferEvent>) {
    && |events| <= 2
    && (|events| >= 1 ==> events[0].TransferRequested?)
    && (|events| == 2 ==> events[1].TransferCompleted? || events[1].TransferFailed?)
    && Fold(Transfer(), events).stage ==
         (if |events| == 0 then NotRequested
          else if |events| == 1 then StageRequested
          else if events[1].TransferCompleted? then StageCompleted
          else StageFailed)
  }

  lemma TransferGrows(before: seq<TransferEvent>, command: TransferCommand)
    requires OneOutcome(before)
    ensures match ExecuteTransfer(Fold(Transfer(), before), command)
      case Rejected => true
      case Emits(events) => OneOutcome(before + events)
  {
    match ExecuteTransfer(Fold(Transfer(), before), command)
    case Rejected =>
    case Emits(events) =>
      if events == [] {
        assert before + events == before;
      } else {
        FoldSnoc(Transfer(), before, events[0]);
        assert before + events == before + [events[0]];
      }
  }

  lemma {:induction false} SerialTransferHasOneOutcome(commits: seq<Commit<TransferCommand, TransferEvent>>, n: nat)
    requires CommandsOnly(commits) && n <= |commits|
    ensures OneOutcome(SerialTo(TransferRunners(), commits, n))
  {
    if n > 0 {
      var before := SerialTo(TransferRunners(), commits, n - 1);
      SerialTransferHasOneOutcome(commits, n - 1);
      TransferGrows(before, commits[n - 1].command);
      assert commits[n - 1].ByCommand? && before + [] == before;
    }
  }

  lemma {:induction false} OnlyCommandsCommit<S, C, E>(cfg: Config<S, C, E>, s: System<S, C, E>, run: seq<Action<C, E>>)
    requires CommandsOnly(s.store.commits) && forall a | a in run :: !a.RawAppend?
    ensures CommandsOnly(Exec(cfg, s, run).store.commits)
    decreases |run|
  {
    if run != [] {
      assert run[|run| - 1] in run;
      OnlyCommandsCommit(cfg, s, run[..|run| - 1]);
    }
  }

  /**
   Whatever commands any number of racing runners send to one Transfer stream, it holds at most
   one request and then at most one terminal event.
   */
  lemma RacingRunnersGiveOneOutcome(run: seq<Action<TransferCommand, TransferEvent>>)
    requires forall a | a in run :: !a.RawAppend? && (a.Begin? ==> a.explicit.None?)
    ensures OneOutcome(Exec(TransferRunners(), Initial(), run).store.events)
  {
    DefaultRunsAreSafe(TransferRunners(), run);
    StreamIsSerialRun(TransferRunners(), run, Exec(TransferRunners(), Initial(), run));
    OnlyCommandsCommit(TransferRunners(), Initial(), run);
    SerialTransferHasOneOutcome(Exec(TransferRunners(), Initial(), run).store.commits,
                                |Exec(TransferRunners(), Initial(), run).store.commits|);
  }

  /** Repeating a mark that took effect adds nothing, and the opposite mark is then refused. */
  lemma MarksAreIdempotent(before: seq<TransferEvent>, mark: TransferCommand, opposite: TransferCommand)
    requires OneOutcome(before)
    requires ExecuteTransfer(Fold(Transfer(), before), mark).Emits?
    requires (mark.MarkTransferCompleted? && opposite.MarkTransferFailed?) || (mark.MarkTransferFailed? && opposite.MarkTransferCompleted?)
    ensures var after := before + ExecuteTransfer(Fold(Transfer(), before), mark).events;
      && ExecuteTransfer(Fold(Transfer(), after), mark) == Emits([])
      && ExecuteTransfer(Fold(Transfer(), after), opposite) == Rejected
  {
    var events := ExecuteTransfer(Fold(Transfer(), before), mark).events;
    if events == [] {
      assert before + events == before;
    } else {
      FoldSnoc(Transfer(), before, events[0]);
      assert before + events == before + [events[0]];
    }
  }
}
