// What the vault balances mean: `amount` and `blockedAmount` are sums over the records.
module Conservation {
  import opened Wrappers
  import opened Totals
  import opened PaymentStatuses
  import opened Ledgers

  ghost function Paid(vault: Id): Payment -> int {
    (p: Payment) => if p.status == Succeeded && p.donation.vault == vault then p.amount else 0
  }

  function PaidBy(p: Payment): int {
    if p.status == Succeeded then p.amount else 0
  }

  function PaidBefore(l: Ledger, id: Id): int {
    if id in l.payments then PaidBy(l.payments[id]) else 0
  }

  ghost function Withdrawn(vault: Id): Withdrawal -> int {
    (w: Withdrawal) => if w.status == SucceededRequest && w.vault == vault then w.amount else 0
  }

  ghost function HeldForWithdrawal(vault: Id): Withdrawal -> int {
    (w: Withdrawal) => if !IsClosed(w.status) && w.vault == vault then w.amount else 0
  }

  ghost function Sent(vault: Id): Transfer -> int {
    (t: Transfer) => if t.status == SucceededRequest && t.source == vault then t.amount else 0
  }

  ghost function Received(vault: Id): Transfer -> int {
    (t: Transfer) => if t.status == SucceededRequest && t.target == vault then t.amount else 0
  }

  ghost function HeldForTransfer(vault: Id): Transfer -> int {
    (t: Transfer) => if !IsClosed(t.status) && t.source == vault then t.amount else 0
  }

  ghost function AmountOnRecord(l: Ledger, v: Id): int {
    SumOf(l.payments, Paid(v)) - SumOf(l.withdrawals, Withdrawn(v))
    - SumOf(l.transfers, Sent(v)) + SumOf(l.transfers, Received(v))
  }

  ghost function BlockedOnRecord(l: Ledger, v: Id): int {
    SumOf(l.withdrawals, HeldForWithdrawal(v)) + SumOf(l.transfers, HeldForTransfer(v))
  }

  ghost predicate Balanced(l: Ledger, v: Id)
    requires v in l.vaults
  {
    l.vaults[v].amount == AmountOnRecord(l, v) && l.vaults[v].blocked == BlockedOnRecord(l, v)
  }

  ghost predicate Conserved(l: Ledger) {
    forall v :: v in l.vaults ==> Balanced(l, v)
  }

  // Constraints the database keeps: references resolve and payment intents are unique; and the
  // facts the services keep: a donation mirrors its payment, a request is for a positive amount.
  ghost predicate WellFormed(l: Ledger) {
    && (forall id :: id in l.payments ==>
          l.payments[id].donation.vault in l.vaults && l.payments[id].donation.amount == l.payments[id].amount)
    && (forall id :: id in l.withdrawals ==> l.withdrawals[id].vault in l.vaults && l.withdrawals[id].amount > 0)
    && (forall id :: id in l.transfers ==>
          l.transfers[id].source in l.vaults && l.transfers[id].target in l.vaults && l.transfers[id].amount > 0)
    && (forall a, b :: a in l.payments && b in l.payments && l.payments[a].intent == l.payments[b].intent ==> a == b)
  }

  // A new request is for a positive amount.
  predicate IsPositive(op: Op) {
    match op
    case WithdrawCreate(w, _) => w.amount > 0
    case TransferCreate(t, _) => t.amount > 0
    case _ => true
  }

  // What the code leaves to its callers: an event on a succeeded payment carries the stored amount, a
  // new request starts open, a settlement keeps its target.
  predicate IsFaithful(l: Ledger, op: Op) {
    match op
    case Event(_, data, status, Some(id), _, _) =>
      id in l.payments && l.payments[id].status == Succeeded && status in {Succeeded, Refund} ==>
        data.net == l.payments[id].amount
    case WithdrawCreate(w, _) => !IsClosed(w.status)
    case TransferCreate(t, _) => !IsClosed(t.status)
    case TransferUpdate(id, edit) =>
      id in l.transfers && edit.status == Some(SucceededRequest) ==>
        edit.target.GetOr(l.transfers[id].target) == l.transfers[id].target
    case _ => true
  }

  predicate Honest(l: Ledger, op: Op) {
    IsPositive(op) && IsFaithful(l, op)
  }

  ghost predicate Books(l: Ledger) {
    WellFormed(l) && Conserved(l)
  }

  // ---- how one row write moves the sums ----

  lemma PaymentWritten(l: Ledger, id: Id, p: Payment, v: Id)
    ensures AmountOnRecord(WritePayment(l, id, p), v)
         == AmountOnRecord(l, v) + Paid(v)(p) - (if id in l.payments then Paid(v)(l.payments[id]) else 0)
    ensures BlockedOnRecord(WritePayment(l, id, p), v) == BlockedOnRecord(l, v)
  {
    SumUpdate(l.payments, id, p, Paid(v));
  }

  lemma WithdrawalWritten(l: Ledger, id: Id, w: Withdrawal, v: Id)
    ensures AmountOnRecord(WriteWithdrawal(l, id, w), v)
         == AmountOnRecord(l, v) - Withdrawn(v)(w)
            + (if id in l.withdrawals then Withdrawn(v)(l.withdrawals[id]) else 0)
    ensures BlockedOnRecord(WriteWithdrawal(l, id, w), v)
         == BlockedOnRecord(l, v) + HeldForWithdrawal(v)(w)
            - (if id in l.withdrawals then HeldForWithdrawal(v)(l.withdrawals[id]) else 0)
  {
    SumUpdate(l.withdrawals, id, w, Withdrawn(v));
    SumUpdate(l.withdrawals, id, w, HeldForWithdrawal(v));
  }

  lemma WithdrawalRemoved(l: Ledger, id: Id, v: Id)
    requires id in l.withdrawals
    ensures var l' := l.(withdrawals := l.withdrawals - {id});
            AmountOnRecord(l', v) == AmountOnRecord(l, v) + Withdrawn(v)(l.withdrawals[id])
            && BlockedOnRecord(l', v) == BlockedOnRecord(l, v) - HeldForWithdrawal(v)(l.withdrawals[id])
  {
    SumRemove(l.withdrawals, id, Withdrawn(v));
    SumRemove(l.withdrawals, id, HeldForWithdrawal(v));
  }

  lemma TransferWritten(l: Ledger, id: Id, t: Transfer, v: Id)
    ensures AmountOnRecord(WriteTransfer(l, id, t), v)
         == AmountOnRecord(l, v) + Received(v)(t) - Sent(v)(t)
            - (if id in l.transfers then Received(v)(l.transfers[id]) - Sent(v)(l.transfers[id]) else 0)
    ensures BlockedOnRecord(WriteTransfer(l, id, t), v)
         == BlockedOnRecord(l, v) + HeldForTransfer(v)(t)
            - (if id in l.transfers then HeldForTransfer(v)(l.transfers[id]) else 0)
  {
    SumUpdate(l.transfers, id, t, Sent(v));
    SumUpdate(l.transfers, id, t, Received(v));
    SumUpdate(l.transfers, id, t, HeldForTransfer(v));
  }

  // Vault and campaign writes leave the records alone.
  lemma RecordsOnly(l: Ledger, l': Ledger, v: Id)
    requires l.payments == l'.payments && l.withdrawals == l'.withdrawals && l.transfers == l'.transfers
    ensures AmountOnRecord(l, v) == AmountOnRecord(l', v) && BlockedOnRecord(l, v) == BlockedOnRecord(l', v)
  {
  }

  // ---- gaps: how far a vault is from its records ----

  ghost function AmountGap(l: Ledger, v: Id): int
    requires v in l.vaults
  {
    l.vaults[v].amount - AmountOnRecord(l, v)
  }

  ghost function BlockedGap(l: Ledger, v: Id): int
    requires v in l.vaults
  {
    l.vaults[v].blocked - BlockedOnRecord(l, v)
  }

  datatype Drift = Drift(amount: int, blocked: int)

  const STEADY := Drift(0, 0)

  // From l to l' the gaps of a vault grow by the drift.
  ghost predicate Drifts(l: Ledger, l': Ledger, v: Id, drift: Drift) {
    && v in l.vaults && v in l'.vaults
    && AmountGap(l', v) == AmountGap(l, v) + drift.amount
    && BlockedGap(l', v) == BlockedGap(l, v) + drift.blocked
  }

  ghost predicate IsSteady(l: Ledger, l': Ledger) {
    l'.vaults.Keys == l.vaults.Keys && forall v :: v in l.vaults ==> Drifts(l, l', v, STEADY)
  }

  // Steadiness is what carries the books from one state to the next.
  lemma SteadyExactly(l: Ledger, l': Ledger)
    requires Books(l) && WellFormed(l') && l'.vaults.Keys == l.vaults.Keys
    ensures Books(l') <==> IsSteady(l, l')
  {
    forall v | v in l.vaults
      ensures Balanced(l', v) <==> Drifts(l, l', v, STEADY)
    {
      assert Balanced(l, v);
    }
  }

  // ---- the three kinds of row write ----

  lemma PaymentDrift(l: Ledger, l': Ledger, id: Id, p: Payment, moved: int, v: Id)
    requires p.donation.vault in l.vaults && v in l.vaults
    requires id in l.payments ==> l.payments[id].donation.vault == p.donation.vault
    requires l'.payments == l.payments[id := p] && l'.withdrawals == l.withdrawals && l'.transfers == l.transfers
    requires l'.vaults == AddTo(l, p.donation.vault, moved, 0).vaults
    ensures Drifts(l, l', v, Drift(if v == p.donation.vault then moved - PaidBy(p) + PaidBefore(l, id) else 0, 0))
  {
    PaymentWritten(l, id, p, v);
    RecordsOnly(WritePayment(l, id, p), l', v);
  }

  lemma WithdrawalDrift(l: Ledger, l': Ledger, id: Id, w: Withdrawal, amount: int, blocked: int, v: Id)
    requires w.vault in l.vaults && v in l.vaults
    requires id in l.withdrawals ==> l.withdrawals[id].vault == w.vault
    requires l' == AddTo(WriteWithdrawal(l, id, w), w.vault, amount, blocked)
    ensures Drifts(l, l', v, if v == w.vault then Drift(amount + TakenBy(w) - TakenBefore(l, id),
                                                        blocked - OpenBy(w) + OpenBefore(l, id)) else STEADY)
  {
    WithdrawalWritten(l, id, w, v);
    RecordsOnly(WriteWithdrawal(l, id, w), l', v);
  }

  lemma TransferDrift(l: Ledger, l': Ledger, id: Id, t: Transfer, v: Id)
    requires v in l.vaults && TransferWrite(l, l', id, t)
    ensures Drifts(l, l', v,
                   Drift(l'.vaults[v].amount - l.vaults[v].amount - NetBy(t, v) + NetBefore(l, id, v),
                         l'.vaults[v].blocked - l.vaults[v].blocked - HeldBy(t, v) + HeldBefore(l, id, v)))
  {
    TransferWritten(l, id, t, v);
    RecordsOnly(WriteTransfer(l, id, t), l', v);
  }

  function TakenBy(w: Withdrawal): int {
    if w.status == SucceededRequest then w.amount else 0
  }

  function TakenBefore(l: Ledger, id: Id): int {
    if id in l.withdrawals then TakenBy(l.withdrawals[id]) else 0
  }

  function OpenBy(w: Withdrawal): int {
    if IsClosed(w.status) then 0 else w.amount
  }

  function OpenBefore(l: Ledger, id: Id): int {
    if id in l.withdrawals then OpenBy(l.withdrawals[id]) else 0
  }

  // What a transfer contributes to a vault's amount and blocked amount.
  function NetBy(t: Transfer, v: Id): int {
    if t.status != SucceededRequest then 0
    else (if t.target == v then t.amount else 0) - (if t.source == v then t.amount else 0)
  }

  function NetBefore(l: Ledger, id: Id, v: Id): int {
    if id in l.transfers then NetBy(l.transfers[id], v) else 0
  }

  function HeldBy(t: Transfer, v: Id): int {
    if !IsClosed(t.status) && t.source == v then t.amount else 0
  }

  function HeldBefore(l: Ledger, id: Id, v: Id): int {
    if id in l.transfers then HeldBy(l.transfers[id], v) else 0
  }

  predicate TransferWrite(l: Ledger, l': Ledger, id: Id, t: Transfer) {
    && l'.payments == l.payments && l'.withdrawals == l.withdrawals && l'.transfers == l.transfers[id := t]
    && l'.vaults.Keys == l.vaults.Keys
  }

  // ---- what each call writes ----

  lemma IncrementShape(l: Ledger, vault: Id, amount: int)
    requires vault in l.vaults && amount > 0
    ensures var r := IncrementVaultAmount(l, vault, amount);
            && r.Success?
            && r.value.vaults == AddTo(l, vault, amount, 0).vaults
            && r.value.payments == l.payments && r.value.withdrawals == l.withdrawals
            && r.value.transfers == l.transfers
  {
  }

  lemma NoMove(l: Ledger, vault: Id)
    requires vault in l.vaults
    ensures AddTo(l, vault, 0, 0) == l
  {
    assert AddTo(l, vault, 0, 0).vaults == l.vaults;
  }

  // A provider event writes nothing, or one payment and what it moves.
  lemma CreateIncomingShape(l: Ledger, home: Id, newId: Id, data: PaymentData, status: PaymentStatus)
    requires home in l.vaults && newId !in l.payments
    requires CreateIncomingDonation(l, Some(home), newId, data, status).Success?
    ensures var l' := CreateIncomingDonation(l, Some(home), newId, data, status).value;
            var p := Incoming(data, status, home);
            && l'.payments == l.payments[newId := p]
            && l'.withdrawals == l.withdrawals && l'.transfers == l.transfers
            && l'.vaults == AddTo(l, home, PaidBy(p), 0).vaults
  {
    if status == Succeeded {
      IncrementShape(WritePayment(l, newId, Incoming(data, status, home)), home, data.net);
    } else {
      NoMove(l, home);
    }
  }

  // What an event for a known payment moves.
  function EventMove(before: PaymentStatus, after: PaymentStatus, net: int): int {
    if before != Succeeded && after == Succeeded then net
    else if before == Succeeded && after == Refund then -net
    else 0
  }

  lemma UpdateIfAllowedShape(l: Ledger, id: Id, data: PaymentData, status: PaymentStatus)
    requires id in l.payments && l.payments[id].donation.vault in l.vaults
    requires UpdateDonationIfAllowed(l, id, data, status).Success?
    ensures var l' := UpdateDonationIfAllowed(l, id, data, status).value;
            var p := l.payments[id];
            if Allowed(p.status, status) then
              && l'.payments == l.payments[id := Rewritten(p, data, status)]
              && l'.withdrawals == l.withdrawals && l'.transfers == l.transfers
              && l'.vaults == AddTo(l, p.donation.vault, EventMove(p.status, status, data.net), 0).vaults
            else l' == l
  {
    var p := l.payments[id];
    StatusPolicy(p.status, status);
    if Allowed(p.status, status) {
      if p.status != Succeeded && status == Succeeded {
        IncrementShape(WritePayment(l, id, Rewritten(p, data, status)), p.donation.vault, data.net);
      } else {
        NoMove(l, p.donation.vault);
      }
    }
  }

  lemma BankImportShape(l: Ledger, newId: Id, bank: BankPayment)
    requires newId !in l.payments && CreateUpdateBankPayment(l, newId, bank).Success?
    ensures var l' := CreateUpdateBankPayment(l, newId, bank).value;
            if HasIntent(l.payments, bank.intent) then l' == l
            else
              && bank.vault in l.vaults && bank.amount > 0
              && l'.payments == l.payments[newId := ImportedPayment(bank)]
              && l'.withdrawals == l.withdrawals && l'.transfers == l.transfers
              && l'.vaults == AddTo(l, bank.vault, bank.amount, 0).vaults
  {
    if !HasIntent(l.payments, bank.intent) {
      IncrementShape(WritePayment(l, newId, ImportedPayment(bank)), bank.vault, bank.amount);
    }
  }

  lemma AdminUpdateShape(l: Ledger, id: Id, change: PaymentChange)
    requires id in l.payments && l.payments[id].donation.vault in l.vaults
    requires UpdatePayment(l, id, change).Success?
    ensures var l' := UpdatePayment(l, id, change).value;
            var p := l.payments[id];
            && l'.payments == l.payments[id := Adjusted(p, change)]
            && l'.withdrawals == l.withdrawals && l'.transfers == l.transfers
            && l'.vaults == AddTo(l, p.donation.vault, PaidBy(Adjusted(p, change)) - PaidBy(p), 0).vaults
  {
    var p := l.payments[id];
    if p.status != Succeeded && change.status == Some(Succeeded) {
      IncrementShape(WritePayment(l, id, Adjusted(p, change)), p.donation.vault, p.amount);
    } else {
      NoMove(l, p.donation.vault);
    }
  }

  lemma InvalidateShape(l: Ledger, id: Id)
    requires id in l.payments && l.payments[id].donation.vault in l.vaults && InvalidatePayment(l, id).Success?
    ensures var l' := InvalidatePayment(l, id).value;
            var p := l.payments[id];
            && l'.payments == l.payments[id := p.(status := Invalid)]
            && l'.withdrawals == l.withdrawals && l'.transfers == l.transfers
            && l'.vaults == AddTo(l, p.donation.vault, -PaidBy(p), 0).vaults
  {
    if l.payments[id].status != Succeeded {
      NoMove(l, l.payments[id].donation.vault);
    }
  }

  // What a decision on a withdrawal moves in its vault.
  function DecisionMove(decision: Option<RequestStatus>, amount: int): Drift {
    match decision
    case Some(status) =>
      if status == SucceededRequest then Drift(-amount, -amount)
      else if IsClosed(status) then Drift(0, -amount)
      else STEADY
    case None => STEADY
  }

  lemma UpdateWithdrawalShape(l: Ledger, id: Id, edit: RequestChange)
    requires UpdateWithdrawal(l, id, edit).Success?
    ensures var w := l.withdrawals[id];
            var w' := w.(status := edit.status.GetOr(w.status));
            var move := DecisionMove(edit.status, w.amount);
            && !IsClosed(w.status) && w.vault in l.vaults
            && UpdateWithdrawal(l, id, edit).value
               == AddTo(WriteWithdrawal(l, id, w'), w.vault, move.amount, move.blocked)
  {
    var w := l.withdrawals[id];
    NoMove(WriteWithdrawal(l, id, w.(status := edit.status.GetOr(w.status))), w.vault);
  }

  function EditedTransfer(t: Transfer, edit: RequestChange): Transfer {
    t.(status := edit.status.GetOr(t.status), target := edit.target.GetOr(t.target))
  }

  lemma UpdateTransferShape(l: Ledger, id: Id, edit: RequestChange)
    requires UpdateTransfer(l, id, edit).Success?
    ensures var t := l.transfers[id];
            var l' := UpdateTransfer(l, id, edit).value;
            && !IsClosed(t.status) && TransferWrite(l, l', id, EditedTransfer(t, edit))
            && t.source in l.vaults && edit.target.GetOr(t.target) in l.vaults
            && forall v :: v in l.vaults ==>
                 && l'.vaults[v].amount
                    == l.vaults[v].amount
                       + (if edit.status == Some(SucceededRequest) then NetBy(t.(status := SucceededRequest), v) else 0)
                 && l'.vaults[v].blocked
                    == l.vaults[v].blocked
                       + (if v == t.source then DecisionMove(edit.status, t.amount).blocked else 0)
  {
  }

  // ---- what every call does to the gaps ----

  // How far one call moves a vault away from its records.
  ghost function DriftOf(l: Ledger, op: Op, v: Id): Drift
    requires Possible(l, op)
  {
    if Perform(l, op).Failure? then STEADY
    else match op
      case Event(_, data, status, Some(id), _, _) =>
        var p := l.payments[id];
        if p.status == Succeeded && status in {Succeeded, Refund} && p.donation.vault == v
        then Drift(p.amount - data.net, 0) else STEADY
      case WithdrawCreate(w, _) =>
        if IsClosed(w.status) && w.vault == v then Drift(TakenBy(w), w.amount) else STEADY
      case TransferCreate(t, _) =>
        if IsClosed(t.status) then Drift(-NetBy(t, v), if t.source == v then t.amount else 0) else STEADY
      case TransferUpdate(id, edit) =>
        var t := l.transfers[id];
        if edit.status == Some(SucceededRequest) then
          Drift((if v == t.target then t.amount else 0) - (if v == edit.target.GetOr(t.target) then t.amount else 0), 0)
        else STEADY
      case _ => STEADY
  }

  lemma EventDrift(l: Ledger, op: Op, v: Id)
    requires op.Event? && WellFormed(l) && Possible(l, op) && v in l.vaults && Perform(l, op).Success?
    ensures Drifts(l, After(l, op), v, DriftOf(l, op, v))
  {
    match op
    case Event(_, data, status, None, home, newId) =>
      CreateIncomingShape(l, home.value, newId, data, status);
      PaymentDrift(l, After(l, op), newId, Incoming(data, status, home.value),
                   PaidBy(Incoming(data, status, home.value)), v);
    case Event(_, data, status, Some(id), _, _) =>
      var p := l.payments[id];
      UpdateIfAllowedShape(l, id, data, status);
      StatusPolicy(p.status, status);
      if Allowed(p.status, status) {
        PaymentDrift(l, After(l, op), id, Rewritten(p, data, status), EventMove(p.status, status, data.net), v);
      }
  }

  lemma PaymentCallDrift(l: Ledger, op: Op, v: Id)
    requires (op.BankImport? || op.AdminUpdate? || op.Invalidate?) && WellFormed(l) && Possible(l, op) && v in l.vaults
    requires Perform(l, op).Success?
    ensures Drifts(l, After(l, op), v, STEADY)
  {
    match op
    case BankImport(bank, newId) =>
      BankImportShape(l, newId, bank);
      if !HasIntent(l.payments, bank.intent) {
        PaymentDrift(l, After(l, op), newId, ImportedPayment(bank), bank.amount, v);
      }
    case AdminUpdate(id, change) =>
      var p := l.payments[id];
      AdminUpdateShape(l, id, change);
      PaymentDrift(l, After(l, op), id, Adjusted(p, change), PaidBy(Adjusted(p, change)) - PaidBy(p), v);
    case Invalidate(id) =>
      var p := l.payments[id];
      InvalidateShape(l, id);
      PaymentDrift(l, After(l, op), id, p.(status := Invalid), -PaidBy(p), v);
  }

  lemma RemovalDrift(l: Ledger, id: Id, v: Id)
    requires id in l.withdrawals && l.withdrawals[id].vault in l.vaults && v in l.vaults
    ensures Drifts(l, RemoveWithdrawal(l, id).value, v, STEADY)
  {
    WithdrawalRemoved(l, id, v);
    RecordsOnly(l.(withdrawals := l.withdrawals - {id}), RemoveWithdrawal(l, id).value, v);
  }

  lemma WithdrawalCallDrift(l: Ledger, op: Op, v: Id)
    requires op.WithdrawCreate? || op.WithdrawUpdate? || op.WithdrawRemove?
    requires WellFormed(l) && Possible(l, op) && v in l.vaults && Perform(l, op).Success?
    ensures Drifts(l, After(l, op), v, DriftOf(l, op, v))
  {
    match op
    case WithdrawCreate(w, newId) => WithdrawalDrift(l, After(l, op), newId, w, 0, w.amount, v);
    case WithdrawUpdate(id, edit) =>
      var w := l.withdrawals[id];
      var move := DecisionMove(edit.status, w.amount);
      UpdateWithdrawalShape(l, id, edit);
      WithdrawalDrift(l, After(l, op), id, w.(status := edit.status.GetOr(w.status)), move.amount, move.blocked, v);
    case WithdrawRemove(id) => RemovalDrift(l, id, v);
  }

  lemma CreateTransferDrift(l: Ledger, newId: Id, t: Transfer, v: Id)
    requires newId !in l.transfers && CreateTransfer(l, newId, t).Success? && v in l.vaults
    ensures Drifts(l, CreateTransfer(l, newId, t).value, v,
                   if IsClosed(t.status) then Drift(-NetBy(t, v), if t.source == v then t.amount else 0) else STEADY)
  {
    TransferDrift(l, CreateTransfer(l, newId, t).value, newId, t, v);
  }

  lemma UpdateTransferDrift(l: Ledger, id: Id, edit: RequestChange, v: Id)
    requires UpdateTransfer(l, id, edit).Success? && v in l.vaults
    ensures var t := l.transfers[id];
            Drifts(l, UpdateTransfer(l, id, edit).value, v,
                   if edit.status == Some(SucceededRequest) then
                     Drift((if v == t.target then t.amount else 0)
                           - (if v == edit.target.GetOr(t.target) then t.amount else 0), 0)
                   else STEADY)
  {
    UpdateTransferShape(l, id, edit);
    TransferDrift(l, UpdateTransfer(l, id, edit).value, id, EditedTransfer(l.transfers[id], edit), v);
  }

  // Every call moves every vault away from its records by its drift, in whatever state the books are.
  lemma StepDrifts(l: Ledger, op: Op, v: Id)
    requires WellFormed(l) && Possible(l, op) && v in l.vaults
    ensures Drifts(l, After(l, op), v, DriftOf(l, op, v))
  {
    if Perform(l, op).Success? {
      match op
      case Event(_, _, _, _, _, _) => EventDrift(l, op, v);
      case BankImport(_, _) => PaymentCallDrift(l, op, v);
      case AdminUpdate(_, _) => PaymentCallDrift(l, op, v);
      case Invalidate(_) => PaymentCallDrift(l, op, v);
      case WithdrawCreate(_, _) => WithdrawalCallDrift(l, op, v);
      case WithdrawUpdate(_, _) => WithdrawalCallDrift(l, op, v);
      case WithdrawRemove(_) => WithdrawalCallDrift(l, op, v);
      case TransferCreate(t, newId) => CreateTransferDrift(l, newId, t, v);
      case TransferUpdate(id, edit) => UpdateTransferDrift(l, id, edit, v);
    }
  }

  // A call that goes through moves no vault away from its records exactly if it is faithful.
  lemma FaithfulExactly(l: Ledger, op: Op)
    requires WellFormed(l) && Possible(l, op) && IsPositive(op) && Perform(l, op).Success?
    ensures (forall v :: v in l.vaults ==> DriftOf(l, op, v) == STEADY) <==> IsFaithful(l, op)
  {
    match op
    case Event(_, data, status, Some(id), _, _) =>
      assert DriftOf(l, op, l.payments[id].donation.vault) == STEADY
          || (l.payments[id].status == Succeeded && status in {Succeeded, Refund});
    case WithdrawCreate(w, _) => assert DriftOf(l, op, w.vault) == STEADY || IsClosed(w.status);
    case TransferCreate(t, _) => assert DriftOf(l, op, t.source) == STEADY || IsClosed(t.status);
    case TransferUpdate(id, edit) =>
      assert DriftOf(l, op, l.transfers[id].target) == STEADY || edit.status == Some(SucceededRequest);
    case _ =>
  }

  // ---- references and amounts stay in order ----

  predicate IntentFree(l: Ledger, intent: string, id: Id) {
    forall other :: other in l.payments && l.payments[other].intent == intent ==> other == id
  }

  lemma PaymentStepWellFormed(l: Ledger, l': Ledger, id: Id, p: Payment)
    requires WellFormed(l) && p.donation.vault in l.vaults && p.amount == p.donation.amount
    requires IntentFree(l, p.intent, id)
    requires l'.payments == l.payments[id := p] && l'.withdrawals == l.withdrawals && l'.transfers == l.transfers
    requires l'.vaults.Keys == l.vaults.Keys
    ensures WellFormed(l')
  {
  }

  lemma TransferStepWellFormed(l: Ledger, l': Ledger, id: Id, t: Transfer)
    requires WellFormed(l) && TransferWrite(l, l', id, t)
    requires t.source in l.vaults && t.target in l.vaults && t.amount > 0
    ensures WellFormed(l')
  {
  }

  lemma EventKeepsWellFormed(l: Ledger, op: Op)
    requires op.Event? && WellFormed(l) && Possible(l, op)
    ensures WellFormed(After(l, op)) && After(l, op).vaults.Keys == l.vaults.Keys
  {
    if Perform(l, op).Success? {
      match op
      case Event(_, data, status, None, home, newId) =>
        CreateIncomingShape(l, home.value, newId, data, status);
        PaymentStepWellFormed(l, After(l, op), newId, Incoming(data, status, home.value));
      case Event(_, data, status, Some(id), _, _) =>
        UpdateIfAllowedShape(l, id, data, status);
        if Allowed(l.payments[id].status, status) {
          PaymentStepWellFormed(l, After(l, op), id, Rewritten(l.payments[id], data, status));
        }
    }
  }

  lemma PaymentCallKeepsWellFormed(l: Ledger, op: Op)
    requires (op.BankImport? || op.AdminUpdate? || op.Invalidate?) && WellFormed(l) && Possible(l, op)
    ensures WellFormed(After(l, op)) && After(l, op).vaults.Keys == l.vaults.Keys
  {
    if Perform(l, op).Success? {
      match op
      case BankImport(bank, newId) =>
        BankImportShape(l, newId, bank);
        if !HasIntent(l.payments, bank.intent) {
          PaymentStepWellFormed(l, After(l, op), newId, ImportedPayment(bank));
        }
      case AdminUpdate(id, change) =>
        AdminUpdateShape(l, id, change);
        PaymentStepWellFormed(l, After(l, op), id, Adjusted(l.payments[id], change));
      case Invalidate(id) =>
        InvalidateShape(l, id);
        PaymentStepWellFormed(l, After(l, op), id, l.payments[id].(status := Invalid));
    }
  }

  lemma RequestCallKeepsWellFormed(l: Ledger, op: Op)
    requires op.WithdrawCreate? || op.WithdrawUpdate? || op.WithdrawRemove? || op.TransferCreate? || op.TransferUpdate?
    requires WellFormed(l) && Possible(l, op) && IsPositive(op)
    ensures WellFormed(After(l, op)) && After(l, op).vaults.Keys == l.vaults.Keys
  {
    if Perform(l, op).Success? {
      match op
      case WithdrawCreate(_, _) =>
      case WithdrawUpdate(id, edit) => UpdateWithdrawalShape(l, id, edit);
      case WithdrawRemove(_) =>
      case TransferCreate(t, newId) => TransferStepWellFormed(l, After(l, op), newId, t);
      case TransferUpdate(id, edit) =>
        UpdateTransferShape(l, id, edit);
        TransferStepWellFormed(l, After(l, op), id, EditedTransfer(l.transfers[id], edit));
    }
  }

  lemma StepKeepsWellFormed(l: Ledger, op: Op)
    requires WellFormed(l) && Possible(l, op) && IsPositive(op)
    ensures WellFormed(After(l, op)) && After(l, op).vaults.Keys == l.vaults.Keys
  {
    match op
    case Event(_, _, _, _, _, _) => EventKeepsWellFormed(l, op);
    case BankImport(_, _) => PaymentCallKeepsWellFormed(l, op);
    case AdminUpdate(_, _) => PaymentCallKeepsWellFormed(l, op);
    case Invalidate(_) => PaymentCallKeepsWellFormed(l, op);
    case _ => RequestCallKeepsWellFormed(l, op);
  }

  // ---- the ledger invariant ----

  lemma SteadyFromDrifts(l: Ledger, op: Op)
    requires WellFormed(l) && Possible(l, op) && IsPositive(op)
    ensures IsSteady(l, After(l, op)) <==> forall v :: v in l.vaults ==> DriftOf(l, op, v) == STEADY
  {
    StepKeepsWellFormed(l, op);
    forall v | v in l.vaults
      ensures Drifts(l, After(l, op), v, STEADY) <==> DriftOf(l, op, v) == STEADY
    {
      StepDrifts(l, op, v);
    }
  }

  // A call that goes through on balanced books leaves them balanced exactly if it is faithful; one that
  // throws leaves them as they were.
  lemma StepKeepsBooksExactly(l: Ledger, op: Op)
    requires Books(l) && Possible(l, op) && IsPositive(op)
    ensures Books(After(l, op)) <==> Perform(l, op).Failure? || IsFaithful(l, op)
  {
    if Perform(l, op).Success? {
      StepKeepsWellFormed(l, op);
      SteadyFromDrifts(l, op);
      FaithfulExactly(l, op);
      SteadyExactly(l, After(l, op));
    }
  }

  // An allowed event on a succeeded payment: exactly when it carries the stored amount, or is a
  // refund of nothing, which is thrown out.
  lemma SucceededPaymentEventExactly(l: Ledger, op: Op)
    requires Books(l) && op.Event? && Possible(l, op) && op.found.Some?
    requires l.payments[op.found.value].status == Succeeded && op.status in {Succeeded, Refund}
    ensures Perform(l, op).Failure? <==> op.status == Refund && op.data.net <= 0
    ensures Perform(l, op).Success? ==> (Books(After(l, op)) <==> op.data.net == l.payments[op.found.value].amount)
  {
    StepKeepsBooksExactly(l, op);
  }

  // Creating a withdrawal for a positive amount: exactly when it starts open.
  lemma CreatedWithdrawalExactly(l: Ledger, newId: Id, w: Withdrawal)
    requires Books(l) && newId !in l.withdrawals && w.amount > 0 && CreateWithdrawal(l, newId, w).Success?
    ensures Books(CreateWithdrawal(l, newId, w).value) <==> !IsClosed(w.status)
  {
    StepKeepsBooksExactly(l, WithdrawCreate(w, newId));
  }

  // Updating a transfer: exactly when a settlement leaves the target vault alone.
  lemma UpdateTransferExactly(l: Ledger, id: Id, edit: RequestChange)
    requires Books(l) && UpdateTransfer(l, id, edit).Success?
    ensures Books(UpdateTransfer(l, id, edit).value)
       <==> (edit.status == Some(SucceededRequest) ==>
               edit.target.GetOr(l.transfers[id].target) == l.transfers[id].target)
  {
    StepKeepsBooksExactly(l, TransferUpdate(id, edit));
  }

  lemma StepKeepsBooks(l: Ledger, op: Op)
    requires Books(l) && Possible(l, op) && Honest(l, op)
    ensures Books(After(l, op))
  {
    StepKeepsBooksExactly(l, op);
  }

  predicate AllPositive(ops: seq<Op>) {
    forall op :: op in ops ==> IsPositive(op)
  }

  ghost function DriftOver(l: Ledger, ops: seq<Op>, v: Id): Drift
    requires IsRun(l, ops)
    decreases |ops|
  {
    if ops == [] then STEADY
    else
      var first, rest := DriftOf(l, ops[0], v), DriftOver(After(l, ops[0]), ops[1..], v);
      Drift(first.amount + rest.amount, first.blocked + rest.blocked)
  }

  // Over every run whatever, faithful or not, a vault is as far from its records as the drifts of the
  // run's calls add up to.
  lemma {:induction false} LedgerDrift(l: Ledger, ops: seq<Op>, v: Id)
    requires WellFormed(l) && IsRun(l, ops) && AllPositive(ops) && v in l.vaults
    ensures WellFormed(Run(l, ops)) && Drifts(l, Run(l, ops), v, DriftOver(l, ops, v))
    decreases |ops|
  {
    if ops != [] {
      StepDrifts(l, ops[0], v);
      StepKeepsWellFormed(l, ops[0]);
      LedgerDrift(After(l, ops[0]), ops[1..], v);
    }
  }

  // Every call of the run is honest in the tables it meets.
  ghost predicate HonestRun(l: Ledger, ops: seq<Op>)
    requires IsRun(l, ops)
    decreases |ops|
  {
    ops == [] || (Honest(l, ops[0]) && HonestRun(After(l, ops[0]), ops[1..]))
  }

  // Over every honest run each vault's amount is what succeeded payments brought in, less what succeeded
  // withdrawals and transfers took out, plus what succeeded transfers brought in; its blocked
  // amount is what its open withdrawals and outgoing transfers hold.
  lemma {:induction false} LedgerInvariant(l: Ledger, ops: seq<Op>)
    requires Books(l) && IsRun(l, ops) && HonestRun(l, ops)
    ensures Books(Run(l, ops))
    decreases |ops|
  {
    if ops != [] {
      StepKeepsBooks(l, ops[0]);
      LedgerInvariant(After(l, ops[0]), ops[1..]);
    }
  }
}
