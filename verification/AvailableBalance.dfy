// Reservations never promise money a vault does not have.
module AvailableBalance {
  import opened Totals
  import opened Ledgers
  import opened Conservation

  function Free(l: Ledger, v: Id): int
    requires v in l.vaults
  {
    l.vaults[v].amount - l.vaults[v].blocked
  }

  // What a refund or an invalidation took out of the vault.
  ghost function Reversed(l: Ledger, op: Op, v: Id): nat
    requires Possible(l, op)
  {
    var l' := After(l, op);
    if (op.Event? || op.Invalidate?) && v in l.vaults && v in l'.vaults && l'.vaults[v].amount < l.vaults[v].amount
    then l.vaults[v].amount - l'.vaults[v].amount
    else 0
  }

  ghost function ReversedOver(l: Ledger, ops: seq<Op>, v: Id): nat
    requires IsRun(l, ops)
    decreases |ops|
  {
    if ops == [] then 0 else Reversed(l, ops[0], v) + ReversedOver(After(l, ops[0]), ops[1..], v)
  }

  lemma EventMoves(l: Ledger, op: Op, v: Id)
    requires op.Event? && WellFormed(l) && Possible(l, op) && v in l.vaults
    ensures var l' := After(l, op);
            v in l'.vaults && l'.vaults[v].blocked == l.vaults[v].blocked
  {
    if Perform(l, op).Success? {
      match op
      case Event(_, data, status, None, home, newId) =>
        if home.Some? { CreateIncomingShape(l, home.value, newId, data, status); }
      case Event(_, data, status, Some(id), _, _) => UpdateIfAllowedShape(l, id, data, status);
    }
  }

  lemma PaymentMoves(l: Ledger, op: Op, v: Id)
    requires (op.BankImport? || op.AdminUpdate? || op.Invalidate?) && WellFormed(l) && Possible(l, op) && v in l.vaults
    ensures var l' := After(l, op);
            && v in l'.vaults && l'.vaults[v].blocked == l.vaults[v].blocked
            && (!op.Invalidate? ==> l'.vaults[v].amount >= l.vaults[v].amount)
  {
    if Perform(l, op).Success? {
      match op
      case BankImport(bank, newId) =>
        if !HasIntent(l.payments, bank.intent) {
          IncrementShape(WritePayment(l, newId, ImportedPayment(bank)), bank.vault, bank.amount);
        }
      case AdminUpdate(id, change) =>
        AdminUpdateShape(l, id, change);
        assert PaidBy(Adjusted(l.payments[id], change)) >= PaidBy(l.payments[id]);
      case Invalidate(id) => InvalidateShape(l, id);
    }
  }

  // A reservation fits.
  lemma CreationFits(l: Ledger, op: Op, v: Id)
    requires (op.WithdrawCreate? || op.TransferCreate?) && Possible(l, op) && v in l.vaults
    ensures v in After(l, op).vaults && (Free(After(l, op), v) >= Free(l, v) || Free(After(l, op), v) >= 0)
  {
  }

  // Deciding or removing a request never lowers what is free.
  lemma WithdrawalFrees(l: Ledger, op: Op, v: Id)
    requires (op.WithdrawUpdate? || op.WithdrawRemove?) && WellFormed(l) && Possible(l, op) && v in l.vaults
    ensures v in After(l, op).vaults && Free(After(l, op), v) >= Free(l, v)
  {
    if op.WithdrawUpdate? && Perform(l, op).Success? {
      UpdateWithdrawalShape(l, op.request, op.edit);
    }
  }

  lemma TransferFrees(l: Ledger, op: Op, v: Id)
    requires op.TransferUpdate? && WellFormed(l) && Possible(l, op) && v in l.vaults
    ensures v in After(l, op).vaults && Free(After(l, op), v) >= Free(l, v)
  {
    if Perform(l, op).Success? {
      UpdateTransferShape(l, op.request, op.edit);
    }
  }

  // Only a reversal lowers what is free, apart from a reservation that fits.
  lemma FreeStep(l: Ledger, op: Op, v: Id)
    requires WellFormed(l) && Possible(l, op) && v in l.vaults
    ensures v in After(l, op).vaults
    ensures Free(After(l, op), v) + Reversed(l, op, v) >= Free(l, v) || Free(After(l, op), v) >= 0
  {
    match op
    case Event(_, _, _, _, _, _) => EventMoves(l, op, v);
    case BankImport(_, _) => PaymentMoves(l, op, v);
    case AdminUpdate(_, _) => PaymentMoves(l, op, v);
    case Invalidate(_) => PaymentMoves(l, op, v);
    case WithdrawCreate(_, _) => CreationFits(l, op, v);
    case WithdrawUpdate(_, _) => WithdrawalFrees(l, op, v);
    case WithdrawRemove(_) => WithdrawalFrees(l, op, v);
    case TransferCreate(_, _) => CreationFits(l, op, v);
    case TransferUpdate(_, _) => TransferFrees(l, op, v);
  }

  // With R the total that refunds and invalidations took from a vault, every run keeps
  // amount - blockedAmount + R >= 0, whether or not its vaults agree with their records.
  lemma {:induction false} AvailableBalanceBound(l: Ledger, ops: seq<Op>, v: Id, taken: nat)
    requires WellFormed(l) && IsRun(l, ops) && AllPositive(ops) && v in l.vaults
    requires Free(l, v) + taken >= 0
    ensures v in Run(l, ops).vaults
    ensures Free(Run(l, ops), v) + taken + ReversedOver(l, ops, v) >= 0
    decreases |ops|
  {
    if ops != [] {
      FreeStep(l, ops[0], v);
      StepKeepsWellFormed(l, ops[0]);
      AvailableBalanceBound(After(l, ops[0]), ops[1..], v, taken + Reversed(l, ops[0], v));
    }
  }

  // What the records hold is never negative.
  lemma RecordedBlocked(l: Ledger, v: Id)
    requires WellFormed(l)
    ensures BlockedOnRecord(l, v) >= 0
  {
    SumNonNegative(l.withdrawals, HeldForWithdrawal(v));
    SumNonNegative(l.transfers, HeldForTransfer(v));
  }

  // No call leaves less blocked than its records hold.
  lemma {:induction false} BlockedNeverShort(l: Ledger, ops: seq<Op>, v: Id)
    requires WellFormed(l) && IsRun(l, ops) && AllPositive(ops) && v in l.vaults
    ensures DriftOver(l, ops, v).blocked >= 0
    decreases |ops|
  {
    if ops != [] {
      StepKeepsWellFormed(l, ops[0]);
      BlockedNeverShort(After(l, ops[0]), ops[1..], v);
      assert IsPositive(ops[0]);
    }
  }

  // A run that reverses nothing never blocks more than the vault holds, nor less than nothing, faithful or
  // not: it is enough that at its start the blocked amount covers its records and the vault covers it.
  lemma BlockedWithinAmount(l: Ledger, ops: seq<Op>, v: Id)
    requires WellFormed(l) && IsRun(l, ops) && AllPositive(ops) && v in l.vaults
    requires BlockedGap(l, v) >= 0 && l.vaults[v].blocked <= l.vaults[v].amount && ReversedOver(l, ops, v) == 0
    ensures v in Run(l, ops).vaults
    ensures 0 <= Run(l, ops).vaults[v].blocked <= Run(l, ops).vaults[v].amount
  {
    AvailableBalanceBound(l, ops, v, 0);
    LedgerDrift(l, ops, v);
    BlockedNeverShort(l, ops, v);
    RecordedBlocked(Run(l, ops), v);
  }
}
