// Calls that overlap. Withdrawals and transfers read first and write later, in a transaction of their own;
// an invalidation reads its payment through another client than its transaction's
// (apps/api/src/donations/donations.service.ts:456-468, 699-726). What they read may be out of date when
// they write. A removal deletes the withdrawal first and gives the money back later, in no transaction at
// all (apps/api/src/withdrawal/withdrawal.service.ts:14-145, apps/api/src/transfer/transfer.service.ts:21-156).
module Overlaps {
  import opened Wrappers
  import opened Totals
  import opened PaymentStatuses
  import opened Ledgers
  import opened Conservation
  import opened AvailableBalance

  // ---- the two halves of a call ----

  // What a request to update must satisfy, judged on the request that was read.
  predicate MayUpdate(status: RequestStatus, source: Id, amount: int, change: RequestChange) {
    && !IsClosed(status) && change.source == Some(source) && change.amount == Some(amount)
    && (change.status == Some(SucceededRequest) ==> change.approved)
  }

  predicate HasRoom(l: Ledger, vault: Id, amount: int) {
    vault in l.vaults && l.vaults[vault].amount - l.vaults[vault].blocked - amount >= 0
  }

  function CommitCreateWithdrawal(l: Ledger, newId: Id, w: Withdrawal): Result<Ledger> {
    if w.vault !in l.vaults then Failure(NotFound)
    else Success(AddTo(WriteWithdrawal(l, newId, w), w.vault, 0, w.amount))
  }

  function CommitUpdateWithdrawal(l: Ledger, id: Id, read: Withdrawal, change: RequestChange): Result<Ledger> {
    if read.vault !in l.vaults || id !in l.withdrawals then Failure(NotFound)
    else
      var row := l.withdrawals[id];
      var l' := WriteWithdrawal(l, id, row.(status := change.status.GetOr(row.status)));
      Success(
        if change.status == Some(SucceededRequest) then AddTo(l', read.vault, -read.amount, -read.amount)
        else if change.status == Some(DeclinedRequest) || change.status == Some(CancelledRequest) then
          AddTo(l', read.vault, 0, -read.amount)
        else l')
  }

  function CommitCreateTransfer(l: Ledger, newId: Id, t: Transfer): Result<Ledger> {
    if t.source !in l.vaults || t.target !in l.vaults then Failure(NotFound)
    else Success(AddTo(WriteTransfer(l, newId, t), t.source, 0, t.amount))
  }

  function CommitUpdateTransfer(l: Ledger, id: Id, read: Transfer, change: RequestChange): Result<Ledger> {
    if read.source !in l.vaults || read.target !in l.vaults || id !in l.transfers then Failure(NotFound)
    else if change.target.GetOr(read.target) !in l.vaults then Failure(NotFound)
    else
      var l' := WriteTransfer(l, id, EditedTransfer(l.transfers[id], change));
      Success(
        if change.status == Some(SucceededRequest) then
          AddTo(AddTo(l', read.source, -read.amount, -read.amount), read.target, read.amount, 0)
        else if change.status == Some(DeclinedRequest) || change.status == Some(CancelledRequest) then
          AddTo(l', read.source, 0, -read.amount)
        else l')
  }

  // The second statement of a removal.
  function CommitRemoval(l: Ledger, w: Withdrawal): Result<Ledger> {
    if w.vault !in l.vaults then Failure(NotFound) else Success(AddTo(l, w.vault, TakenBy(w), -OpenBy(w)))
  }

  function DeleteWithdrawal(l: Ledger, id: Id): Ledger {
    l.(withdrawals := l.withdrawals - {id})
  }

  // The transaction of an invalidation, judging by the payment that was read.
  function CommitInvalidation(l: Ledger, id: Id, read: Payment): Result<Ledger> {
    if id !in l.payments then Failure(NotFound)
    else
      var debited := if read.status == Succeeded then DecrementVaultAmount(l, read.donation.vault, read.amount)
                     else Success(l);
      match debited
      case Failure(_) => Failure(NotFound)
      case Success(l') => Success(WritePayment(l', id, l.payments[id].(status := Invalid)))
  }

  lemma HalvesMakeAnInvalidation(l: Ledger, id: Id)
    ensures InvalidatePayment(l, id)
         == if id in l.payments then CommitInvalidation(l, id, l.payments[id]) else Failure(NotFound)
  {
  }

  // Read and written in the same tables, the two halves are the whole call.
  lemma HalvesMakeWithdrawalCalls(l: Ledger, id: Id, w: Withdrawal, change: RequestChange)
    ensures CreateWithdrawal(l, id, w).Success?
        <==> HasRoom(l, w.vault, w.amount) && CommitCreateWithdrawal(l, id, w).Success?
    ensures CreateWithdrawal(l, id, w).Success? ==> CreateWithdrawal(l, id, w) == CommitCreateWithdrawal(l, id, w)
    ensures UpdateWithdrawal(l, id, change).Success?
       <==> id in l.withdrawals
            && MayUpdate(l.withdrawals[id].status, l.withdrawals[id].vault, l.withdrawals[id].amount, change)
            && CommitUpdateWithdrawal(l, id, l.withdrawals[id], change).Success?
    ensures UpdateWithdrawal(l, id, change).Success? ==>
              UpdateWithdrawal(l, id, change) == CommitUpdateWithdrawal(l, id, l.withdrawals[id], change)
    ensures id in l.withdrawals && l.withdrawals[id].vault in l.vaults ==>
              RemoveWithdrawal(l, id) == CommitRemoval(DeleteWithdrawal(l, id), l.withdrawals[id])
  {
  }

  lemma HalvesMakeTransferCalls(l: Ledger, id: Id, t: Transfer, change: RequestChange)
    ensures CreateTransfer(l, id, t).Success?
        <==> HasRoom(l, t.source, t.amount) && CommitCreateTransfer(l, id, t).Success?
    ensures CreateTransfer(l, id, t).Success? ==> CreateTransfer(l, id, t) == CommitCreateTransfer(l, id, t)
    ensures UpdateTransfer(l, id, change).Success?
       <==> id in l.transfers
            && MayUpdate(l.transfers[id].status, l.transfers[id].source, l.transfers[id].amount, change)
            && CommitUpdateTransfer(l, id, l.transfers[id], change).Success?
    ensures UpdateTransfer(l, id, change).Success? ==>
              UpdateTransfer(l, id, change) == CommitUpdateTransfer(l, id, l.transfers[id], change)
  {
  }

  // ---- calls under way ----

  datatype Call =
    | NewWithdrawal(withdrawal: Withdrawal)
    | NewTransfer(transfer: Transfer)
    | ChangeWithdrawal(id: Id, seen: Withdrawal, change: RequestChange)
    | ChangeTransfer(id: Id, sent: Transfer, change: RequestChange)
    | Removal(deleted: Withdrawal)
    | Invalidation(id: Id, paid: Payment)

  datatype State = State(ledger: Ledger, calls: map<nat, Call>)

  // A call that overlaps nothing, the first half of a call, or its second half. A call that crashes
  // between its halves is never finished.
  datatype Step =
    | Whole(op: Op)
    | Begin(call: nat, started: Call)
    | BeginRemoval(call: nat, id: Id)
    | Finish(call: nat, newId: Id)

  // A new row's id is nobody's yet.
  predicate IsFresh(s: State, newId: Id) {
    && newId !in s.ledger.withdrawals && newId !in s.ledger.transfers
    && forall c :: c in s.calls ==>
         match s.calls[c]
         case ChangeWithdrawal(id, _, _) => id != newId
         case ChangeTransfer(id, _, _) => id != newId
         case _ => true
  }

  // What the first half lets through.
  predicate Starts(l: Ledger, call: Call) {
    match call
    case NewWithdrawal(w) => w.amount > 0 && HasRoom(l, w.vault, w.amount)
    case NewTransfer(t) => t.amount > 0 && HasRoom(l, t.source, t.amount)
    case ChangeWithdrawal(id, seen, change) =>
      id in l.withdrawals && seen == l.withdrawals[id] && MayUpdate(seen.status, seen.vault, seen.amount, change)
    case ChangeTransfer(id, sent, change) =>
      id in l.transfers && sent == l.transfers[id] && MayUpdate(sent.status, sent.source, sent.amount, change)
    case Removal(_) => false
    case Invalidation(id, paid) => id in l.payments && paid == l.payments[id]
  }

  ghost predicate Enabled(s: State, step: Step) {
    match step
    case Whole(op) =>
      && !op.WithdrawRemove? && !op.Invalidate? && Possible(s.ledger, op) && IsPositive(op)
      && (op.WithdrawCreate? || op.TransferCreate? ==> IsFresh(s, op.newId))
    case Begin(call, started) => call !in s.calls && Starts(s.ledger, started)
    case BeginRemoval(call, id) => call !in s.calls && id in s.ledger.withdrawals
    case Finish(call, newId) => call in s.calls && IsFresh(s, newId)
  }

  function Commit(l: Ledger, call: Call, newId: Id): Result<Ledger> {
    match call
    case NewWithdrawal(w) => CommitCreateWithdrawal(l, newId, w)
    case NewTransfer(t) => CommitCreateTransfer(l, newId, t)
    case ChangeWithdrawal(id, seen, change) => CommitUpdateWithdrawal(l, id, seen, change)
    case ChangeTransfer(id, sent, change) => CommitUpdateTransfer(l, id, sent, change)
    case Removal(w) => CommitRemoval(l, w)
    case Invalidation(id, paid) => CommitInvalidation(l, id, paid)
  }

  function Committed(l: Ledger, call: Call, newId: Id): Ledger {
    match Commit(l, call, newId)
    case Success(l') => l'
    case Failure(_) => l
  }

  ghost function Next(s: State, step: Step): State
    requires Enabled(s, step)
  {
    match step
    case Whole(op) => s.(ledger := After(s.ledger, op))
    case Begin(call, started) => s.(calls := s.calls[call := started])
    case BeginRemoval(call, id) =>
      State(DeleteWithdrawal(s.ledger, id), s.calls[call := Removal(s.ledger.withdrawals[id])])
    case Finish(call, newId) => State(Committed(s.ledger, s.calls[call], newId), s.calls - {call})
  }

  ghost predicate IsSchedule(s: State, steps: seq<Step>)
    decreases |steps|
  {
    steps == [] || (Enabled(s, steps[0]) && IsSchedule(Next(s, steps[0]), steps[1..]))
  }

  ghost function Execute(s: State, steps: seq<Step>): State
    requires IsSchedule(s, steps)
    decreases |steps|
  {
    if steps == [] then s else Execute(Next(s, steps[0]), steps[1..])
  }

  // A call's request is still for the vault and the amount that were read, its payment for the vault: no
  // call changes these.
  predicate CallFits(l: Ledger, call: Call) {
    match call
    case NewWithdrawal(w) => w.amount > 0 && w.vault in l.vaults
    case NewTransfer(t) => t.amount > 0 && t.source in l.vaults
    case ChangeWithdrawal(id, seen, change) =>
      && MayUpdate(seen.status, seen.vault, seen.amount, change) && seen.vault in l.vaults
      && (id in l.withdrawals ==> l.withdrawals[id].vault == seen.vault && l.withdrawals[id].amount == seen.amount)
    case ChangeTransfer(id, sent, change) =>
      && MayUpdate(sent.status, sent.source, sent.amount, change) && sent.source in l.vaults && sent.target in l.vaults
      && (id in l.transfers ==> l.transfers[id].source == sent.source && l.transfers[id].amount == sent.amount)
    case Removal(w) => w.amount > 0 && w.vault in l.vaults
    case Invalidation(id, paid) =>
      id in l.payments && l.payments[id].donation.vault == paid.donation.vault && paid.donation.vault in l.vaults
  }

  ghost predicate Sane(s: State) {
    WellFormed(s.ledger) && forall c :: c in s.calls ==> CallFits(s.ledger, s.calls[c])
  }

  // ---- the sums, up to the removals under way ----

  ghost function OwedAmount(v: Id): Call -> int {
    (c: Call) => if c.Removal? && c.deleted.vault == v then TakenBy(c.deleted) else 0
  }

  ghost function OwedBlocked(v: Id): Call -> int {
    (c: Call) => if c.Removal? && c.deleted.vault == v then OpenBy(c.deleted) else 0
  }

  // How far a vault is from its records once the removals under way have given back what they owe.
  ghost function Gap(s: State, v: Id): Drift
    requires v in s.ledger.vaults
  {
    Drift(AmountGap(s.ledger, v) + SumOf(s.calls, OwedAmount(v)),
          BlockedGap(s.ledger, v) - SumOf(s.calls, OwedBlocked(v)))
  }

  ghost predicate BooksUpToRemovals(s: State) {
    Sane(s) && forall v :: v in s.ledger.vaults ==> Gap(s, v) == STEADY
  }

  function Plus(a: Drift, b: Drift): Drift {
    Drift(a.amount + b.amount, a.blocked + b.blocked)
  }

  // The second half of an update decides a request that is closed by now.
  predicate DecidesAgain(l: Ledger, call: Call) {
    match call
    case ChangeWithdrawal(id, _, change) => change.status.Some? && id in l.withdrawals
        && IsClosed(l.withdrawals[id].status)
    case ChangeTransfer(id, sent, change) =>
      && change.status.Some? && id in l.transfers && IsClosed(l.transfers[id].status)
      && change.target.GetOr(sent.target) in l.vaults
    case _ => false
  }

  // How far the second half of a call moves a vault away from its records.
  ghost function CommitDrift(l: Ledger, call: Call, newId: Id, v: Id): Drift {
    if Commit(l, call, newId).Failure? then STEADY
    else match call
      case NewWithdrawal(w) => if IsClosed(w.status) && w.vault == v then Drift(TakenBy(w), w.amount) else STEADY
      case NewTransfer(t) =>
        if IsClosed(t.status) then Drift(-NetBy(t, v), if t.source == v then t.amount else 0) else STEADY
      case ChangeWithdrawal(id, _, _) =>
        var row := l.withdrawals[id];
        if DecidesAgain(l, call) && row.vault == v then Drift(-TakenBy(row), -row.amount) else STEADY
      case ChangeTransfer(id, sent, change) =>
        var row := l.transfers[id];
        var moved := if change.status == Some(SucceededRequest) then NetBy(sent.(status := SucceededRequest), v) else 0;
        Drift(moved - NetBy(EditedTransfer(row, change), v) + NetBy(row, v),
              if DecidesAgain(l, call) && row.source == v then -row.amount else 0)
      case Removal(_) => STEADY
      case Invalidation(id, paid) =>
        if paid.donation.vault == v then Drift(PaidBy(l.payments[id]) - PaidBy(paid), 0) else STEADY
  }

  ghost function StepDrift(s: State, step: Step, v: Id): Drift
    requires Enabled(s, step)
  {
    match step
    case Whole(op) => DriftOf(s.ledger, op, v)
    case Finish(call, newId) => CommitDrift(s.ledger, s.calls[call], newId, v)
    case _ => STEADY
  }

  ghost function DriftInAll(s: State, steps: seq<Step>, v: Id): Drift
    requires IsSchedule(s, steps)
    decreases |steps|
  {
    if steps == [] then STEADY else Plus(StepDrift(s, steps[0], v), DriftInAll(Next(s, steps[0]), steps[1..], v))
  }

  lemma UpdateWithdrawalWrites(l: Ledger, id: Id, read: Withdrawal, change: RequestChange)
    requires CommitUpdateWithdrawal(l, id, read, change).Success? && l.withdrawals[id].vault == read.vault
    ensures var row := l.withdrawals[id];
            var move := DecisionMove(change.status, read.amount);
            CommitUpdateWithdrawal(l, id, read, change).value
            == AddTo(WriteWithdrawal(l, id, row.(status := change.status.GetOr(row.status))), row.vault,
                     move.amount, move.blocked)
  {
    NoMove(WriteWithdrawal(l, id, l.withdrawals[id].(status := change.status.GetOr(l.withdrawals[id].status))),
           read.vault);
  }

  lemma LateWithdrawalUpdateDrift(l: Ledger, call: Call, newId: Id, v: Id)
    requires call.ChangeWithdrawal? && CallFits(l, call) && v in l.vaults && Commit(l, call, newId).Success?
    ensures Drifts(l, Committed(l, call, newId), v, CommitDrift(l, call, newId, v))
  {
    var row := l.withdrawals[call.id];
    var move := DecisionMove(call.change.status, call.seen.amount);
    UpdateWithdrawalWrites(l, call.id, call.seen, call.change);
    WithdrawalDrift(l, Committed(l, call, newId), call.id, row.(status := call.change.status.GetOr(row.status)),
                    move.amount, move.blocked, v);
  }

  lemma UpdateTransferWrites(l: Ledger, id: Id, read: Transfer, change: RequestChange, v: Id)
    requires CommitUpdateTransfer(l, id, read, change).Success? && v in l.vaults
    ensures var l' := CommitUpdateTransfer(l, id, read, change).value;
            && TransferWrite(l, l', id, EditedTransfer(l.transfers[id], change))
            && l'.vaults[v].amount
               == l.vaults[v].amount
                  + (if change.status == Some(SucceededRequest) then NetBy(read.(status := SucceededRequest), v) else 0)
            && l'.vaults[v].blocked
               == l.vaults[v].blocked
                   + (if v == read.source then DecisionMove(change.status, read.amount).blocked else 0)
  {
  }

  lemma LateTransferUpdateDrift(l: Ledger, call: Call, newId: Id, v: Id)
    requires call.ChangeTransfer? && CallFits(l, call) && v in l.vaults && Commit(l, call, newId).Success?
    ensures Drifts(l, Committed(l, call, newId), v, CommitDrift(l, call, newId, v))
  {
    UpdateTransferWrites(l, call.id, call.sent, call.change, v);
    TransferDrift(l, Committed(l, call, newId), call.id, EditedTransfer(l.transfers[call.id], call.change), v);
  }

  lemma InvalidationWrites(l: Ledger, id: Id, paid: Payment)
    requires CommitInvalidation(l, id, paid).Success? && paid.donation.vault in l.vaults
    ensures var l' := CommitInvalidation(l, id, paid).value;
            && l'.payments == l.payments[id := l.payments[id].(status := Invalid)]
            && l'.withdrawals == l.withdrawals && l'.transfers == l.transfers
            && l'.vaults == AddTo(l, paid.donation.vault, -PaidBy(paid), 0).vaults
            && PaidBy(paid) >= (if paid.status == Succeeded then 1 else 0)
  {
    if paid.status != Succeeded { NoMove(l, paid.donation.vault); }
  }

  lemma LateInvalidationDrift(l: Ledger, id: Id, paid: Payment, newId: Id, v: Id)
    requires CallFits(l, Invalidation(id, paid)) && v in l.vaults && CommitInvalidation(l, id, paid).Success?
    ensures Drifts(l, CommitInvalidation(l, id, paid).value, v, CommitDrift(l, Invalidation(id, paid), newId, v))
  {
    InvalidationWrites(l, id, paid);
    PaymentDrift(l, CommitInvalidation(l, id, paid).value, id, l.payments[id].(status := Invalid), -PaidBy(paid), v);
  }

  lemma LateCreationDrift(l: Ledger, call: Call, newId: Id, v: Id)
    requires (call.NewWithdrawal? || call.NewTransfer?) && v in l.vaults && Commit(l, call, newId).Success?
    requires newId !in l.withdrawals && newId !in l.transfers
    ensures Drifts(l, Committed(l, call, newId), v, CommitDrift(l, call, newId, v))
  {
    match call
    case NewWithdrawal(w) => WithdrawalDrift(l, Committed(l, call, newId), newId, w, 0, w.amount, v);
    case NewTransfer(t) => TransferDrift(l, Committed(l, call, newId), newId, t, v);
  }

  lemma RemovalPaysBack(s: State, call: nat, newId: Id, v: Id)
    requires Sane(s) && call in s.calls && s.calls[call].Removal? && v in s.ledger.vaults
    requires Enabled(s, Finish(call, newId))
    ensures v in Next(s, Finish(call, newId)).ledger.vaults && Gap(Next(s, Finish(call, newId)), v) == Gap(s, v)
  {
    SumRemove(s.calls, call, OwedAmount(v));
    SumRemove(s.calls, call, OwedBlocked(v));
    RecordsOnly(s.ledger, Committed(s.ledger, s.calls[call], newId), v);
  }

  lemma CommitDrifts(l: Ledger, call: Call, newId: Id, v: Id)
    requires !call.Removal? && CallFits(l, call) && v in l.vaults
    requires call.NewWithdrawal? || call.NewTransfer? ==> newId !in l.withdrawals && newId !in l.transfers
    ensures Drifts(l, Committed(l, call, newId), v, CommitDrift(l, call, newId, v))
  {
    if Commit(l, call, newId).Success? {
      match call
      case ChangeWithdrawal(_, _, _) => LateWithdrawalUpdateDrift(l, call, newId, v);
      case ChangeTransfer(_, _, _) => LateTransferUpdateDrift(l, call, newId, v);
      case Invalidation(id, paid) => LateInvalidationDrift(l, id, paid, newId, v);
      case _ => LateCreationDrift(l, call, newId, v);
    }
  }

  lemma OwedWithout(s: State, call: nat, v: Id)
    requires call in s.calls && !s.calls[call].Removal?
    ensures SumOf(s.calls - {call}, OwedAmount(v)) == SumOf(s.calls, OwedAmount(v))
    ensures SumOf(s.calls - {call}, OwedBlocked(v)) == SumOf(s.calls, OwedBlocked(v))
  {
    SumRemove(s.calls, call, OwedAmount(v));
    SumRemove(s.calls, call, OwedBlocked(v));
  }

  lemma FinishDrifts(s: State, call: nat, newId: Id, v: Id)
    requires Sane(s) && Enabled(s, Finish(call, newId)) && v in s.ledger.vaults
    ensures v in Next(s, Finish(call, newId)).ledger.vaults
    ensures Gap(Next(s, Finish(call, newId)), v) == Plus(Gap(s, v), CommitDrift(s.ledger, s.calls[call], newId, v))
  {
    if s.calls[call].Removal? {
      RemovalPaysBack(s, call, newId, v);
    } else {
      OwedWithout(s, call, v);
      CommitDrifts(s.ledger, s.calls[call], newId, v);
    }
  }

  // Deleting the row moves its share of the sums to what the removal owes.
  lemma DeletionOwes(s: State, call: nat, id: Id, v: Id)
    requires Enabled(s, BeginRemoval(call, id)) && v in s.ledger.vaults
    ensures v in Next(s, BeginRemoval(call, id)).ledger.vaults && Gap(Next(s, BeginRemoval(call, id)), v) == Gap(s, v)
  {
    var w := s.ledger.withdrawals[id];
    WithdrawalRemoved(s.ledger, id, v);
    SumUpdate(s.calls, call, Removal(w), OwedAmount(v));
    SumUpdate(s.calls, call, Removal(w), OwedBlocked(v));
  }

  lemma StepDriftsState(s: State, step: Step, v: Id)
    requires Sane(s) && Enabled(s, step) && v in s.ledger.vaults
    ensures v in Next(s, step).ledger.vaults && Gap(Next(s, step), v) == Plus(Gap(s, v), StepDrift(s, step, v))
  {
    match step
    case Whole(op) => StepDrifts(s.ledger, op, v);
    case Begin(call, started) =>
      SumUpdate(s.calls, call, started, OwedAmount(v));
      SumUpdate(s.calls, call, started, OwedBlocked(v));
    case BeginRemoval(call, id) => DeletionOwes(s, call, id, v);
    case Finish(call, newId) => FinishDrifts(s, call, newId, v);
  }

  // ---- one late write on balanced books ----

  lemma LateSteadyExactly(l: Ledger, call: Call, newId: Id)
    requires Books(l) && CallFits(l, call) && !call.Removal?
    requires call.NewWithdrawal? || call.NewTransfer? ==> newId !in l.withdrawals && newId !in l.transfers
    requires WellFormed(Committed(l, call, newId)) && Committed(l, call, newId).vaults.Keys == l.vaults.Keys
    ensures Books(Committed(l, call, newId)) <==> forall v :: v in l.vaults ==> CommitDrift(l, call, newId, v) == STEADY
  {
    forall v | v in l.vaults
      ensures Drifts(l, Committed(l, call, newId), v, STEADY) <==> CommitDrift(l, call, newId, v) == STEADY
    {
      CommitDrifts(l, call, newId, v);
    }
    SteadyExactly(l, Committed(l, call, newId));
  }

  // A reservation decided earlier keeps the books whenever it is written; it overdraws exactly when the
  // room it saw is gone.
  lemma LateWithdrawalExactly(l: Ledger, newId: Id, w: Withdrawal)
    requires Books(l) && newId !in l.withdrawals && newId !in l.transfers
    requires w.amount > 0 && !IsClosed(w.status) && w.vault in l.vaults
    ensures var l' := CommitCreateWithdrawal(l, newId, w).value;
            && CommitCreateWithdrawal(l, newId, w).Success? && Books(l')
            && (Free(l', w.vault) >= 0 <==> HasRoom(l, w.vault, w.amount))
  {
    LateSteadyExactly(l, NewWithdrawal(w), newId);
  }

  lemma LateTransferExactly(l: Ledger, newId: Id, t: Transfer)
    requires Books(l) && newId !in l.withdrawals && newId !in l.transfers && t.amount > 0 && !IsClosed(t.status)
    requires t.source in l.vaults && t.target in l.vaults
    ensures var l' := CommitCreateTransfer(l, newId, t).value;
            && CommitCreateTransfer(l, newId, t).Success? && Books(l')
            && (Free(l', t.source) >= 0 <==> HasRoom(l, t.source, t.amount))
  {
    TransferStepWellFormed(l, CommitCreateTransfer(l, newId, t).value, newId, t);
    LateSteadyExactly(l, NewTransfer(t), newId);
  }

  // An update decided on an open withdrawal keeps the books exactly when the withdrawal is still open as
  // it is written, or the update leaves the status alone: settling or rejecting twice never balances.
  lemma LateWithdrawalUpdateExactly(l: Ledger, id: Id, read: Withdrawal, change: RequestChange)
    requires Books(l) && id in l.withdrawals && MayUpdate(read.status, read.vault, read.amount, change)
    requires l.withdrawals[id].vault == read.vault && l.withdrawals[id].amount == read.amount
    ensures CommitUpdateWithdrawal(l, id, read, change).Success?
    ensures Books(CommitUpdateWithdrawal(l, id, read, change).value)
       <==> (change.status.Some? ==> !IsClosed(l.withdrawals[id].status))
  {
    WithdrawalChangeWellFormed(l, id, read, change);
    WithdrawalChangeDrift(l, id, read, change);
    LateSteadyExactly(l, ChangeWithdrawal(id, read, change), "");
  }

  lemma WithdrawalChangeWellFormed(l: Ledger, id: Id, read: Withdrawal, change: RequestChange)
    requires WellFormed(l) && id in l.withdrawals && l.withdrawals[id].vault == read.vault
    ensures CommitUpdateWithdrawal(l, id, read, change).Success?
    ensures WellFormed(CommitUpdateWithdrawal(l, id, read, change).value)
    ensures CommitUpdateWithdrawal(l, id, read, change).value.vaults.Keys == l.vaults.Keys
  {
    UpdateWithdrawalWrites(l, id, read, change);
  }

  lemma WithdrawalChangeDrift(l: Ledger, id: Id, read: Withdrawal, change: RequestChange)
    requires WellFormed(l) && id in l.withdrawals && CallFits(l, ChangeWithdrawal(id, read, change))
    ensures (forall v :: v in l.vaults ==> CommitDrift(l, ChangeWithdrawal(id, read, change), "", v) == STEADY)
       <==> !DecidesAgain(l, ChangeWithdrawal(id, read, change))
  {
    var call := ChangeWithdrawal(id, read, change);
    assert DecidesAgain(l, call) ==> CommitDrift(l, call, "", read.vault) != STEADY;
  }

  // The update of a transfer, decided on what was read, fits the transfer as it is when written.
  predicate StillFits(row: Transfer, read: Transfer, change: RequestChange) {
    match change.status
    case Some(status) =>
      !IsClosed(row.status) && (status == SucceededRequest ==> change.target.GetOr(row.target) == read.target)
    case None => row.status == SucceededRequest ==> change.target.GetOr(row.target) == row.target
  }

  lemma FittingDrift(l: Ledger, call: Call)
    requires WellFormed(l) && call.ChangeTransfer? && CallFits(l, call) && call.id in l.transfers
    requires Commit(l, call, "").Success?
    ensures (forall v :: v in l.vaults ==> CommitDrift(l, call, "", v) == STEADY)
       <==> StillFits(l.transfers[call.id], call.sent, call.change)
  {
    var row := l.transfers[call.id];
    if !StillFits(row, call.sent, call.change) {
      assert CommitDrift(l, call, "", call.sent.source) != STEADY
          || CommitDrift(l, call, "", call.sent.target) != STEADY
          || CommitDrift(l, call, "", row.target) != STEADY;
    }
  }

  // It keeps the books exactly when it fits: the transfer is still open and is settled towards the vault
  // that was read, or the update changes neither the status nor where a settled transfer went.
  lemma LateTransferUpdateExactly(l: Ledger, id: Id, read: Transfer, change: RequestChange)
    requires Books(l) && id in l.transfers && CommitUpdateTransfer(l, id, read, change).Success?
    requires MayUpdate(read.status, read.source, read.amount, change)
    requires l.transfers[id].source == read.source && l.transfers[id].amount == read.amount
    ensures Books(CommitUpdateTransfer(l, id, read, change).value) <==> StillFits(l.transfers[id], read, change)
  {
    UpdateTransferWrites(l, id, read, change, read.source);
    TransferStepWellFormed(l, CommitUpdateTransfer(l, id, read, change).value, id,
                           EditedTransfer(l.transfers[id], change));
    LateSteadyExactly(l, ChangeTransfer(id, read, change), "");
    FittingDrift(l, ChangeTransfer(id, read, change));
  }

  lemma LateInvalidationWellFormed(l: Ledger, id: Id, paid: Payment)
    requires WellFormed(l) && CallFits(l, Invalidation(id, paid)) && CommitInvalidation(l, id, paid).Success?
    ensures var l' := CommitInvalidation(l, id, paid).value;
            WellFormed(l') && l'.vaults.Keys == l.vaults.Keys
  {
    InvalidationWrites(l, id, paid);
    PaymentStepWellFormed(l, CommitInvalidation(l, id, paid).value, id, l.payments[id].(status := Invalid));
  }

  // An invalidation keeps the books exactly when the payment as it is written has paid what it had as it
  // was read: not after another invalidation of it, nor after its money arrived or went in between.
  lemma LateInvalidationExactly(l: Ledger, id: Id, paid: Payment)
    requires Books(l) && CallFits(l, Invalidation(id, paid)) && CommitInvalidation(l, id, paid).Success?
    ensures Books(CommitInvalidation(l, id, paid).value) <==> PaidBy(l.payments[id]) == PaidBy(paid)
  {
    LateInvalidationWellFormed(l, id, paid);
    LateSteadyExactly(l, Invalidation(id, paid), "");
    assert CommitDrift(l, Invalidation(id, paid), "", paid.donation.vault).amount == PaidBy(l.payments[id])
        - PaidBy(paid);
  }

  // ---- what the calls under way rely on ----

  // Between two states no request changes vault or amount, no payment its vault, and only fresh ids are added.
  predicate TermsKept(s: State, l': Ledger) {
    && l'.vaults.Keys == s.ledger.vaults.Keys
    && (forall id :: id in s.ledger.payments ==>
          id in l'.payments && l'.payments[id].donation.vault == s.ledger.payments[id].donation.vault)
    && (forall id :: id in l'.withdrawals ==>
          if id in s.ledger.withdrawals then
            l'.withdrawals[id].vault == s.ledger.withdrawals[id].vault
            && l'.withdrawals[id].amount == s.ledger.withdrawals[id].amount
          else IsFresh(s, id))
    && (forall id :: id in l'.transfers ==>
          if id in s.ledger.transfers then
            l'.transfers[id].source == s.ledger.transfers[id].source
            && l'.transfers[id].amount == s.ledger.transfers[id].amount
          else IsFresh(s, id))
  }

  lemma CallsStillFit(s: State, l': Ledger)
    requires Sane(s) && TermsKept(s, l')
    ensures forall c :: c in s.calls ==> CallFits(l', s.calls[c])
  {
    forall c | c in s.calls
      ensures CallFits(l', s.calls[c])
    {
      assert CallFits(s.ledger, s.calls[c]);
    }
  }

  lemma PaymentCallsKeepTerms(s: State, op: Op)
    requires op.Event? || op.BankImport? || op.AdminUpdate? || op.Invalidate?
    requires WellFormed(s.ledger) && Possible(s.ledger, op)
    ensures TermsKept(s, After(s.ledger, op))
  {
    StepKeepsWellFormed(s.ledger, op);
    var l := s.ledger;
    if Perform(l, op).Success? {
      match op
      case Event(_, data, status, None, home, newId) => CreateIncomingShape(l, home.value, newId, data, status);
      case Event(_, data, status, Some(id), _, _) => UpdateIfAllowedShape(l, id, data, status);
      case BankImport(bank, newId) => BankImportShape(l, newId, bank);
      case AdminUpdate(id, change) => AdminUpdateShape(l, id, change);
      case Invalidate(id) => InvalidateShape(l, id);
    }
  }

  lemma RequestCallsKeepTerms(s: State, op: Op)
    requires op.WithdrawCreate? || op.WithdrawUpdate? || op.TransferCreate? || op.TransferUpdate?
    requires WellFormed(s.ledger) && Enabled(s, Whole(op))
    ensures TermsKept(s, After(s.ledger, op))
  {
    StepKeepsWellFormed(s.ledger, op);
    if Perform(s.ledger, op).Success? {
      match op
      case WithdrawUpdate(id, edit) => UpdateWithdrawalShape(s.ledger, id, edit);
      case TransferUpdate(id, edit) => UpdateTransferShape(s.ledger, id, edit);
      case _ =>
    }
  }

  lemma CommitKeepsSane(s: State, call: nat, newId: Id)
    requires Sane(s) && Enabled(s, Finish(call, newId))
    ensures WellFormed(Committed(s.ledger, s.calls[call], newId))
    ensures TermsKept(s, Committed(s.ledger, s.calls[call], newId))
  {
    var l, c := s.ledger, s.calls[call];
    assert CallFits(l, c);
    if Commit(l, c, newId).Success? {
      match c
      case NewWithdrawal(_) =>
      case NewTransfer(t) => TransferStepWellFormed(l, Committed(l, c, newId), newId, t);
      case ChangeWithdrawal(id, seen, change) => UpdateWithdrawalWrites(l, id, seen, change);
      case ChangeTransfer(id, sent, change) =>
        UpdateTransferWrites(l, id, sent, change, sent.source);
        TransferStepWellFormed(l, Committed(l, c, newId), id, EditedTransfer(l.transfers[id], change));
      case Removal(_) =>
      case Invalidation(id, paid) =>
        InvalidationWrites(l, id, paid);
        LateInvalidationWellFormed(l, id, paid);
    }
  }

  lemma StepKeepsSane(s: State, step: Step)
    requires Sane(s) && Enabled(s, step)
    ensures Sane(Next(s, step)) && Next(s, step).ledger.vaults.Keys == s.ledger.vaults.Keys
  {
    match step
    case Whole(op) =>
      StepKeepsWellFormed(s.ledger, op);
      if op.Event? || op.BankImport? || op.AdminUpdate? || op.Invalidate? {
        PaymentCallsKeepTerms(s, op);
      } else {
        RequestCallsKeepTerms(s, op);
      }
      CallsStillFit(s, After(s.ledger, op));
    case Begin(_, _) =>
    case BeginRemoval(_, id) => CallsStillFit(s, DeleteWithdrawal(s.ledger, id));
    case Finish(call, newId) =>
      CommitKeepsSane(s, call, newId);
      CallsStillFit(s, Committed(s.ledger, s.calls[call], newId));
  }

  // Under every interleaving each vault is as far from its records, up to the removals under way, as the
  // drifts of the steps add up to.
  lemma {:induction false} OverlapsDrift(s: State, steps: seq<Step>, v: Id)
    requires Sane(s) && IsSchedule(s, steps) && v in s.ledger.vaults
    ensures var s' := Execute(s, steps);
            && Sane(s') && s'.ledger.vaults.Keys == s.ledger.vaults.Keys
            && Gap(s', v) == Plus(Gap(s, v), DriftInAll(s, steps, v))
    decreases |steps|
  {
    if steps != [] {
      StepDriftsState(s, steps[0], v);
      StepKeepsSane(s, steps[0]);
      OverlapsDrift(Next(s, steps[0]), steps[1..], v);
    }
  }

  // ---- exactly when overlapping calls keep the books ----

  // No redirected settlement: a transfer that is or becomes settled keeps the target that was read.
  predicate IsDirected(row: Transfer, sent: Transfer, change: RequestChange) {
    change.status == Some(SucceededRequest) || row.status == SucceededRequest ==>
      change.target.GetOr(row.target) == row.target == sent.target
  }

  // What the code leaves to its callers.
  ghost predicate IsProper(s: State, step: Step)
    requires Enabled(s, step)
  {
    match step
    case Whole(op) => IsFaithful(s.ledger, op)
    case Finish(call, _) =>
      (match s.calls[call]
       case NewWithdrawal(w) => !IsClosed(w.status)
       case NewTransfer(t) => !IsClosed(t.status)
       case ChangeTransfer(id, sent, change) =>
         id in s.ledger.transfers ==> IsDirected(s.ledger.transfers[id], sent, change)
       case _ => true)
    case _ => true
  }

  ghost predicate AllProper(s: State, steps: seq<Step>)
    requires IsSchedule(s, steps)
    decreases |steps|
  {
    steps == [] || (IsProper(s, steps[0]) && AllProper(Next(s, steps[0]), steps[1..]))
  }

  predicate StepDecidesAgain(s: State, step: Step) {
    step.Finish? && step.call in s.calls && DecidesAgain(s.ledger, s.calls[step.call])
  }

  ghost predicate NeverDecidesAgain(s: State, steps: seq<Step>)
    requires IsSchedule(s, steps)
    decreases |steps|
  {
    steps == [] || (!StepDecidesAgain(s, steps[0]) && NeverDecidesAgain(Next(s, steps[0]), steps[1..]))
  }

  lemma WholeDoesNotDrift(s: State, op: Op, v: Id)
    requires Sane(s) && Enabled(s, Whole(op)) && IsFaithful(s.ledger, op) && v in s.ledger.vaults
    ensures DriftOf(s.ledger, op, v) == STEADY
  {
    if Perform(s.ledger, op).Success? {
      FaithfulExactly(s.ledger, op);
    }
  }

  // What an invalidation that judges by an outdated payment leaves in a vault too much, or too little.
  ghost function Stale(s: State, step: Step, v: Id): int
    requires Enabled(s, step)
  {
    if step.Finish? && s.calls[step.call].Invalidation? then CommitDrift(s.ledger, s.calls[step.call], step.newId,
                                                                         v).amount
    else 0
  }

  ghost function StaleInAll(s: State, steps: seq<Step>, v: Id): int
    requires IsSchedule(s, steps)
    decreases |steps|
  {
    if steps == [] then 0 else Stale(s, steps[0], v) + StaleInAll(Next(s, steps[0]), steps[1..], v)
  }

  // Deciding a closed request takes its amount out of the blocked amount once more; nothing ever puts
  // it back.
  lemma ProperDrift(s: State, step: Step, v: Id)
    requires Sane(s) && Enabled(s, step) && IsProper(s, step) && v in s.ledger.vaults
    ensures StepDrift(s, step, v).blocked <= 0
    ensures !StepDecidesAgain(s, step) ==> StepDrift(s, step, v) == Drift(Stale(s, step, v), 0)
  {
    match step
    case Whole(op) => WholeDoesNotDrift(s, op, v);
    case Finish(call, newId) =>
      var c := s.calls[call];
      assert CallFits(s.ledger, c);
    case _ =>
  }

  lemma DecidingAgainDrifts(s: State, step: Step) returns (v: Id)
    requires Sane(s) && Enabled(s, step) && StepDecidesAgain(s, step)
    ensures v in s.ledger.vaults && StepDrift(s, step, v).blocked < 0
  {
    var c := s.calls[step.call];
    assert CallFits(s.ledger, c);
    v := if c.ChangeWithdrawal? then c.seen.vault else c.sent.source;
  }

  lemma {:induction false} ProperDriftInAll(s: State, steps: seq<Step>, v: Id)
    requires Sane(s) && IsSchedule(s, steps) && AllProper(s, steps) && v in s.ledger.vaults
    ensures DriftInAll(s, steps, v).blocked <= 0
    decreases |steps|
  {
    if steps != [] {
      ProperDrift(s, steps[0], v);
      StepKeepsSane(s, steps[0]);
      ProperDriftInAll(Next(s, steps[0]), steps[1..], v);
    }
  }

  lemma {:induction false} StaleDrift(s: State, steps: seq<Step>, v: Id)
    requires Sane(s) && IsSchedule(s, steps) && AllProper(s, steps) && NeverDecidesAgain(s, steps)
    requires v in s.ledger.vaults
    ensures DriftInAll(s, steps, v) == Drift(StaleInAll(s, steps, v), 0)
    decreases |steps|
  {
    if steps != [] {
      ProperDrift(s, steps[0], v);
      StepKeepsSane(s, steps[0]);
      StaleDrift(Next(s, steps[0]), steps[1..], v);
    }
  }

  lemma {:induction false} DecidedAgain(s: State, steps: seq<Step>) returns (v: Id)
    requires Sane(s) && IsSchedule(s, steps) && AllProper(s, steps) && !NeverDecidesAgain(s, steps)
    ensures v in s.ledger.vaults && DriftInAll(s, steps, v).blocked < 0
    decreases |steps|
  {
    StepKeepsSane(s, steps[0]);
    if StepDecidesAgain(s, steps[0]) {
      v := DecidingAgainDrifts(s, steps[0]);
      ProperDriftInAll(Next(s, steps[0]), steps[1..], v);
    } else {
      v := DecidedAgain(Next(s, steps[0]), steps[1..]);
      ProperDrift(s, steps[0], v);
    }
  }

  // However reads, writes, deletions and repayments interleave, the two sums hold for every vault, up to
  // the removals under way, exactly if no update decided a request that was closed by then, and what
  // invalidations got wrong about outdated payments cancels out for every vault.
  lemma OverlapsKeepBooksExactly(s: State, steps: seq<Step>)
    requires BooksUpToRemovals(s) && IsSchedule(s, steps) && AllProper(s, steps)
    ensures BooksUpToRemovals(Execute(s, steps))
       <==> NeverDecidesAgain(s, steps) && forall v :: v in s.ledger.vaults ==> StaleInAll(s, steps, v) == 0
  {
    var s' := Execute(s, steps);
    StaysSane(s, steps);
    forall v | v in s.ledger.vaults
      ensures Gap(s', v) == DriftInAll(s, steps, v)
    {
      OverlapsDrift(s, steps, v);
    }
    if NeverDecidesAgain(s, steps) {
      forall v | v in s.ledger.vaults
        ensures Gap(s', v) == Drift(StaleInAll(s, steps, v), 0)
      {
        StaleDrift(s, steps, v);
      }
    } else {
      var v := DecidedAgain(s, steps);
      assert Gap(s', v) != STEADY;
    }
  }

  // An invalidation is fresh if the payment has paid what it had as it was read.
  predicate IsFreshlyRead(s: State, step: Step) {
    step.Finish? && step.call in s.calls && s.calls[step.call].Invalidation? ==>
      s.calls[step.call].id in s.ledger.payments
      && PaidBy(s.ledger.payments[s.calls[step.call].id]) == PaidBy(s.calls[step.call].paid)
  }

  ghost predicate AllFreshlyRead(s: State, steps: seq<Step>)
    requires IsSchedule(s, steps)
    decreases |steps|
  {
    steps == [] || (IsFreshlyRead(s, steps[0]) && AllFreshlyRead(Next(s, steps[0]), steps[1..]))
  }

  lemma {:induction false} NothingStale(s: State, steps: seq<Step>, v: Id)
    requires IsSchedule(s, steps) && AllFreshlyRead(s, steps)
    ensures StaleInAll(s, steps, v) == 0
    decreases |steps|
  {
    if steps != [] {
      NothingStale(Next(s, steps[0]), steps[1..], v);
    }
  }

  // In particular they hold as long as no update decides a closed request and every invalidation is fresh.
  lemma FreshOverlapsKeepBooks(s: State, steps: seq<Step>)
    requires BooksUpToRemovals(s) && IsSchedule(s, steps) && AllProper(s, steps)
    requires NeverDecidesAgain(s, steps) && AllFreshlyRead(s, steps)
    ensures BooksUpToRemovals(Execute(s, steps))
  {
    forall v | v in s.ledger.vaults ensures StaleInAll(s, steps, v) == 0 { NothingStale(s, steps, v); }
    OverlapsKeepBooksExactly(s, steps);
  }

  lemma {:induction false} StaysSane(s: State, steps: seq<Step>)
    requires Sane(s) && IsSchedule(s, steps)
    ensures Sane(Execute(s, steps)) && Execute(s, steps).ledger.vaults.Keys == s.ledger.vaults.Keys
    decreases |steps|
  {
    if steps != [] {
      StepKeepsSane(s, steps[0]);
      StaysSane(Next(s, steps[0]), steps[1..]);
    }
  }

  // A removal under way owes nothing if its withdrawal was rejected.
  predicate OwesNothing(call: Call) {
    call.Removal? ==> IsClosed(call.deleted.status) && call.deleted.status != SucceededRequest
  }

  lemma OwedByCall(l: Ledger, call: Call, v: Id)
    requires CallFits(l, call)
    ensures OwedAmount(v)(call) >= 0 && OwedBlocked(v)(call) >= 0
    ensures OwesNothing(call) ==> OwedAmount(v)(call) == 0 && OwedBlocked(v)(call) == 0
    ensures !OwesNothing(call) && v == call.deleted.vault ==> OwedAmount(v)(call) + OwedBlocked(v)(call) > 0
  {
  }

  lemma OwedExactly(l: Ledger, calls: map<nat, Call>, v: Id)
    requires forall c :: c in calls ==> CallFits(l, calls[c])
    ensures SumOf(calls, OwedAmount(v)) >= 0 && SumOf(calls, OwedBlocked(v)) >= 0
    ensures (forall c :: c in calls ==> OwesNothing(calls[c])) ==>
              SumOf(calls, OwedAmount(v)) == 0 && SumOf(calls, OwedBlocked(v)) == 0
  {
    forall c | c in calls
      ensures OwedAmount(v)(calls[c]) >= 0 && OwedBlocked(v)(calls[c]) >= 0
      ensures OwesNothing(calls[c]) ==> OwedAmount(v)(calls[c]) == 0 && OwedBlocked(v)(calls[c]) == 0
    {
      OwedByCall(l, calls[c], v);
    }
    SumNonNegative(calls, OwedAmount(v));
    SumNonNegative(calls, OwedBlocked(v));
    if forall c :: c in calls ==> OwesNothing(calls[c]) {
      SumZero(calls, OwedAmount(v));
      SumZero(calls, OwedBlocked(v));
    }
  }

  lemma OwedByOne(l: Ledger, calls: map<nat, Call>, c: nat)
    requires forall d :: d in calls ==> CallFits(l, calls[d])
    requires c in calls && !OwesNothing(calls[c])
    ensures var v := calls[c].deleted.vault;
            SumOf(calls, OwedAmount(v)) + SumOf(calls, OwedBlocked(v)) > 0
  {
    var v := calls[c].deleted.vault;
    OwedByCall(l, calls[c], v);
    SumRemove(calls, c, OwedAmount(v));
    SumRemove(calls, c, OwedBlocked(v));
    OwedExactly(l, calls - {c}, v);
  }

  // The books themselves hold, in such a state, exactly when no removal under way owes anything: between
  // its two statements, and for good after a crash there, a removal leaves the vault short or blocked.
  lemma BooksExactlyWithoutRemovals(s: State)
    requires BooksUpToRemovals(s)
    ensures Books(s.ledger) <==> forall c :: c in s.calls ==> OwesNothing(s.calls[c])
  {
    forall v | v in s.ledger.vaults
      ensures Balanced(s.ledger, v) <==> SumOf(s.calls, OwedAmount(v)) == 0 && SumOf(s.calls, OwedBlocked(v)) == 0
    {
      assert Gap(s, v) == STEADY;
    }
    if forall c :: c in s.calls ==> OwesNothing(s.calls[c]) {
      forall v | v in s.ledger.vaults ensures Balanced(s.ledger, v) { OwedExactly(s.ledger, s.calls, v); }
    } else {
      var c :| c in s.calls && !OwesNothing(s.calls[c]);
      OwedByOne(s.ledger, s.calls, c);
      assert CallFits(s.ledger, s.calls[c]);
      assert !Balanced(s.ledger, s.calls[c].deleted.vault);
    }
  }

  // ---- what is free ----

  // What a step takes from the free balance of a vault without room for it: reversals, and reservations
  // written when their room was gone.
  ghost function Overdrawn(s: State, step: Step, v: Id): nat
    requires Enabled(s, step) && Sane(s)
  {
    match step
    case Whole(op) => Reversed(s.ledger, op, v)
    case Finish(call, _) =>
      assert CallFits(s.ledger, s.calls[call]);
      (match s.calls[call]
       case NewWithdrawal(w) => if w.vault == v && !HasRoom(s.ledger, v, w.amount) then w.amount else 0
       case NewTransfer(t) => if t.source == v && !HasRoom(s.ledger, v, t.amount) then t.amount else 0
       case Invalidation(_, paid) => if paid.donation.vault == v && PaidBy(paid) > 0 then PaidBy(paid) else 0
       case _ => 0)
    case _ => 0
  }

  ghost function OverdrawnInAll(s: State, steps: seq<Step>, v: Id): nat
    requires IsSchedule(s, steps) && Sane(s)
    decreases |steps|
  {
    if steps == [] then 0
    else
      StepKeepsSane(s, steps[0]);
      Overdrawn(s, steps[0], v) + OverdrawnInAll(Next(s, steps[0]), steps[1..], v)
  }

  lemma ChangeFrees(l: Ledger, call: Call, newId: Id, v: Id)
    requires (call.ChangeWithdrawal? || call.ChangeTransfer?) && WellFormed(l) && CallFits(l, call) && v in l.vaults
    ensures v in Committed(l, call, newId).vaults && Free(Committed(l, call, newId), v) >= Free(l, v)
  {
    if Commit(l, call, newId).Success? {
      match call
      case ChangeWithdrawal(id, seen, change) => UpdateWithdrawalWrites(l, id, seen, change);
      case ChangeTransfer(id, sent, change) => UpdateTransferWrites(l, id, sent, change, v);
    }
  }

  lemma CommitFrees(s: State, call: nat, newId: Id, v: Id)
    requires Sane(s) && Enabled(s, Finish(call, newId)) && v in s.ledger.vaults
    ensures var l' := Committed(s.ledger, s.calls[call], newId);
            && v in l'.vaults
            && (Free(l', v) + Overdrawn(s, Finish(call, newId), v) >= Free(s.ledger, v) || Free(l', v) >= 0)
  {
    assert CallFits(s.ledger, s.calls[call]);
    match s.calls[call]
    case ChangeWithdrawal(_, _, _) => ChangeFrees(s.ledger, s.calls[call], newId, v);
    case ChangeTransfer(_, _, _) => ChangeFrees(s.ledger, s.calls[call], newId, v);
    case Invalidation(id, paid) =>
      if CommitInvalidation(s.ledger, id, paid).Success? { InvalidationWrites(s.ledger, id, paid); }
    case _ =>
  }

  lemma FreeAfter(s: State, step: Step, v: Id)
    requires Sane(s) && Enabled(s, step) && v in s.ledger.vaults
    ensures v in Next(s, step).ledger.vaults
    ensures Free(Next(s, step).ledger, v) + Overdrawn(s, step, v) >= Free(s.ledger, v)
        || Free(Next(s, step).ledger, v) >= 0
  {
    match step
    case Whole(op) => FreeStep(s.ledger, op, v);
    case Finish(call, newId) => CommitFrees(s, call, newId, v);
    case _ =>
  }

  // What the missing lock can cost a vault is bounded by the reversals and the reservations written
  // after their room was gone.
  lemma {:induction false} OverlapsOverdraw(s: State, steps: seq<Step>, v: Id, taken: nat)
    requires Sane(s) && IsSchedule(s, steps) && v in s.ledger.vaults && Free(s.ledger, v) + taken >= 0
    ensures v in Execute(s, steps).ledger.vaults
    ensures Free(Execute(s, steps).ledger, v) + taken + OverdrawnInAll(s, steps, v) >= 0
    decreases |steps|
  {
    if steps != [] {
      FreeAfter(s, steps[0], v);
      StepKeepsSane(s, steps[0]);
      OverlapsOverdraw(Next(s, steps[0]), steps[1..], v, taken + Overdrawn(s, steps[0], v));
    }
  }
}
