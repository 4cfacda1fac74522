// When a campaign is marked complete (apps/api/src/campaign/campaign.service.ts:629-661).
module CampaignCompletion {
  import opened Wrappers
  import opened Totals
  import opened PaymentStatuses
  import opened Ledgers
  import opened Conservation

  ghost predicate BelowTarget(l: Ledger, c: Id)
    requires c in l.campaigns
  {
    l.campaigns[c].target > 0 && l.campaigns[c].state != Complete ==> CampaignTotal(l, c) < l.campaigns[c].target
  }

  ghost predicate OnTarget(l: Ledger) {
    forall c :: c in l.campaigns ==> BelowTarget(l, c)
  }

  predicate StaysComplete(l: Ledger, l': Ledger) {
    forall c :: c in l.campaigns ==>
      c in l'.campaigns && l'.campaigns[c].target == l.campaigns[c].target
      && (l.campaigns[c].state == Complete ==> l'.campaigns[c].state == Complete)
  }

  // What a call adds to a campaign's total without checking its target: removing a succeeded withdrawal
  // gives its money back, settling a transfer brings money from another campaign.
  ghost function Unchecked(l: Ledger, op: Op, c: Id): int
    requires WellFormed(l) && Possible(l, op)
  {
    match op
    case WithdrawRemove(id) =>
      if id in l.withdrawals && l.withdrawals[id].status == SucceededRequest
          && l.vaults[l.withdrawals[id].vault].campaign == c
      then l.withdrawals[id].amount else 0
    case TransferUpdate(id, edit) =>
      if UpdateTransfer(l, id, edit).Success? && edit.status == Some(SucceededRequest) then
        var t := l.transfers[id];
        (if l.vaults[t.target].campaign == c then t.amount else 0)
            - (if l.vaults[t.source].campaign == c then t.amount else 0)
      else 0
    case _ => 0
  }

  // Such a call takes an open campaign to its target.
  ghost predicate Overshoots(l: Ledger, op: Op)
    requires WellFormed(l) && Possible(l, op)
  {
    (op.WithdrawRemove? || op.TransferUpdate?)
    && exists c :: c in l.campaigns && l.campaigns[c].target > 0 && l.campaigns[c].state != Complete
                   && CampaignTotal(l, c) + Unchecked(l, op, c) >= l.campaigns[c].target
  }

  lemma TotalAfterMove(l: Ledger, vault: Id, amount: int, blocked: int, c: Id)
    requires vault in l.vaults
    ensures CampaignTotal(AddTo(l, vault, amount, blocked), c)
         == CampaignTotal(l, c) + (if l.vaults[vault].campaign == c then amount else 0)
  {
    SumUpdate(l.vaults, vault, AddTo(l, vault, amount, blocked).vaults[vault], AmountIn(c));
  }

  // Taking money out, or only blocking it, keeps every open campaign below its target.
  lemma MoveDown(l: Ledger, l': Ledger, vault: Id, amount: int, blocked: int)
    requires OnTarget(l) && vault in l.vaults && amount <= 0
    requires l'.vaults == AddTo(l, vault, amount, blocked).vaults && l'.campaigns == l.campaigns
    ensures OnTarget(l')
  {
    forall c | c in l'.campaigns
      ensures BelowTarget(l', c)
    {
      assert BelowTarget(l, c);
      TotalAfterMove(l, vault, amount, blocked, c);
    }
  }

  lemma SameMoney(l: Ledger, l': Ledger)
    requires OnTarget(l) && l'.vaults == l.vaults && l'.campaigns == l.campaigns
    ensures OnTarget(l')
  {
    forall c | c in l'.campaigns
      ensures BelowTarget(l', c)
    {
      assert BelowTarget(l, c);
    }
  }

  // A credit completes exactly the campaigns it brings to a nonzero target.
  lemma CreditCompletesExactly(l: Ledger, vault: Id, amount: int)
    requires vault in l.vaults && amount > 0
    ensures var l' := IncrementVaultAmount(l, vault, amount).value;
            l'.campaigns.Keys == l.campaigns.Keys
            && forall c :: c in l.campaigns ==>
                 l'.campaigns[c] ==
                 if c == l.vaults[vault].campaign && l.campaigns[c].target != 0
                    && CampaignTotal(l, c) + amount >= l.campaigns[c].target
                 then l.campaigns[c].(state := Complete) else l.campaigns[c]
  {
    TotalAfterMove(l, vault, amount, 0, l.vaults[vault].campaign);
  }

  lemma CreditStaysOnTarget(l: Ledger, vault: Id, amount: int)
    requires OnTarget(l) && IncrementVaultAmount(l, vault, amount).Success?
    ensures var l' := IncrementVaultAmount(l, vault, amount).value;
            OnTarget(l')
  {
    var l' := IncrementVaultAmount(l, vault, amount).value;
    CreditCompletesExactly(l, vault, amount);
    IncrementShape(l, vault, amount);
    forall c | c in l'.campaigns
      ensures BelowTarget(l', c)
    {
      assert BelowTarget(l, c);
      TotalAfterMove(l, vault, amount, 0, c);
    }
  }

  lemma EventStaysOnTarget(l: Ledger, op: Op)
    requires op.Event? && WellFormed(l) && Possible(l, op) && OnTarget(l)
    ensures OnTarget(After(l, op))
  {
    if Perform(l, op).Success? {
      match op
      case Event(_, data, status, None, home, newId) =>
        if home.Some? {
          var l0 := WritePayment(l, newId, Incoming(data, status, home.value));
          SameMoney(l, l0);
          if status == Succeeded { CreditStaysOnTarget(l0, home.value, data.net); }
        }
      case Event(_, data, status, Some(id), _, _) =>
        var p := l.payments[id];
        var l0 := WritePayment(l, id, Rewritten(p, data, status));
        SameMoney(l, l0);
        if Allowed(p.status, status) {
          if p.status != Succeeded && status == Succeeded {
            CreditStaysOnTarget(l0, p.donation.vault, data.net);
          } else if p.status == Succeeded && status == Refund {
            MoveDown(l0, After(l, op), p.donation.vault, -data.net, 0);
          }
        }
    }
  }

  lemma PaymentStaysOnTarget(l: Ledger, op: Op)
    requires (op.BankImport? || op.AdminUpdate? || op.Invalidate?) && WellFormed(l) && Possible(l, op) && OnTarget(l)
    ensures OnTarget(After(l, op))
  {
    if Perform(l, op).Success? {
      match op
      case BankImport(bank, newId) =>
        if !HasIntent(l.payments, bank.intent) {
          SameMoney(l, WritePayment(l, newId, ImportedPayment(bank)));
          CreditStaysOnTarget(WritePayment(l, newId, ImportedPayment(bank)), bank.vault, bank.amount);
        }
      case AdminUpdate(id, change) =>
        var p := l.payments[id];
        SameMoney(l, WritePayment(l, id, Adjusted(p, change)));
        if p.status != Succeeded && change.status == Some(Succeeded) {
          CreditStaysOnTarget(WritePayment(l, id, Adjusted(p, change)), p.donation.vault, p.amount);
        }
      case Invalidate(id) =>
        InvalidateShape(l, id);
        var p := l.payments[id];
        MoveDown(l, After(l, op), p.donation.vault, -PaidBy(p), 0);
    }
  }

  lemma ReservationStaysOnTarget(l: Ledger, op: Op)
    requires (op.WithdrawCreate? || op.WithdrawUpdate? || op.TransferCreate?)
    requires WellFormed(l) && Possible(l, op) && OnTarget(l)
    ensures OnTarget(After(l, op))
  {
    if Perform(l, op).Success? {
      match op
      case WithdrawCreate(w, _) => MoveDown(l, After(l, op), w.vault, 0, w.amount);
      case TransferCreate(t, _) => MoveDown(l, After(l, op), t.source, 0, t.amount);
      case WithdrawUpdate(id, edit) =>
        var w := l.withdrawals[id];
        NoMove(l, w.vault);
        MoveDown(l, After(l, op), w.vault,
                 if edit.status == Some(SucceededRequest) then -w.amount else 0,
                 if edit.status.Some? && IsClosed(edit.status.value) then -w.amount else 0);
    }
  }

  lemma UncheckedRemoval(l: Ledger, op: Op, c: Id)
    requires op.WithdrawRemove? && WellFormed(l) && Possible(l, op)
    ensures After(l, op).campaigns == l.campaigns
    ensures CampaignTotal(After(l, op), c) == CampaignTotal(l, c) + Unchecked(l, op, c)
  {
    if op.request in l.withdrawals {
      var w := l.withdrawals[op.request];
      TotalAfterMove(l, w.vault, if w.status == SucceededRequest then w.amount else 0,
                     if IsClosed(w.status) then 0 else -w.amount, c);
    }
  }

  lemma UnsettledTransfer(l: Ledger, id: Id, edit: RequestChange, c: Id)
    requires WellFormed(l) && UpdateTransfer(l, id, edit).Success? && edit.status != Some(SucceededRequest)
    ensures UpdateTransfer(l, id, edit).value.campaigns == l.campaigns
    ensures CampaignTotal(UpdateTransfer(l, id, edit).value, c) == CampaignTotal(l, c)
  {
    TotalAfterMove(l, l.transfers[id].source, 0, -l.transfers[id].amount, c);
  }

  function Settled(l: Ledger, t: Transfer): Ledger
    requires t.source in l.vaults && t.target in l.vaults
  {
    AddTo(AddTo(l, t.source, -t.amount, -t.amount), t.target, t.amount, 0)
  }

  lemma TotalAfterSettlement(l: Ledger, t: Transfer, c: Id)
    requires t.source in l.vaults && t.target in l.vaults
    ensures CampaignTotal(Settled(l, t), c)
         == CampaignTotal(l, c) + (if l.vaults[t.target].campaign == c then t.amount else 0)
                                - (if l.vaults[t.source].campaign == c then t.amount else 0)
  {
    TotalAfterMove(l, t.source, -t.amount, -t.amount, c);
    TotalAfterMove(AddTo(l, t.source, -t.amount, -t.amount), t.target, t.amount, 0, c);
  }

  lemma SettlementMoves(l: Ledger, id: Id, edit: RequestChange)
    requires WellFormed(l) && UpdateTransfer(l, id, edit).Success? && edit.status == Some(SucceededRequest)
    ensures UpdateTransfer(l, id, edit).value.vaults == Settled(l, l.transfers[id]).vaults
    ensures UpdateTransfer(l, id, edit).value.campaigns == l.campaigns
  {
  }

  lemma SettledTransfer(l: Ledger, l': Ledger, t: Transfer, c: Id)
    requires t.source in l.vaults && t.target in l.vaults && l'.vaults == Settled(l, t).vaults
    ensures CampaignTotal(l', c)
         == CampaignTotal(l, c) + (if l.vaults[t.target].campaign == c then t.amount else 0)
                                - (if l.vaults[t.source].campaign == c then t.amount else 0)
  {
    TotalAfterSettlement(l, t, c);
  }

  lemma UncheckedSettlement(l: Ledger, op: Op, c: Id)
    requires op.TransferUpdate? && WellFormed(l) && Possible(l, op)
    ensures After(l, op).campaigns == l.campaigns
    ensures CampaignTotal(After(l, op), c) == CampaignTotal(l, c) + Unchecked(l, op, c)
  {
    if Perform(l, op).Success? {
      if op.edit.status == Some(SucceededRequest) {
        SettlementMoves(l, op.request, op.edit);
        SettledTransfer(l, After(l, op), l.transfers[op.request], c);
      } else {
        UnsettledTransfer(l, op.request, op.edit, c);
      }
    }
  }

  lemma UncheckedStaysOnTarget(l: Ledger, op: Op)
    requires (op.WithdrawRemove? || op.TransferUpdate?) && WellFormed(l) && Possible(l, op) && OnTarget(l)
    ensures OnTarget(After(l, op)) <==> !Overshoots(l, op)
  {
    forall c | c in l.campaigns
      ensures c in After(l, op).campaigns
      ensures !BelowTarget(After(l, op), c)
         <==> l.campaigns[c].target > 0 && l.campaigns[c].state != Complete
              && CampaignTotal(l, c) + Unchecked(l, op, c) >= l.campaigns[c].target
    {
      if op.WithdrawRemove? { UncheckedRemoval(l, op, c); } else { UncheckedSettlement(l, op, c); }
    }
    if op.WithdrawRemove? { UncheckedRemoval(l, op, ""); } else { UncheckedSettlement(l, op, ""); }
  }

  // A call keeps every open campaign below its target exactly when it is none of the two that raise a
  // balance unchecked, or what it raises does not reach a target.
  lemma StepStaysOnTargetExactly(l: Ledger, op: Op)
    requires WellFormed(l) && Possible(l, op) && OnTarget(l)
    ensures OnTarget(After(l, op)) <==> !Overshoots(l, op)
  {
    match op
    case Event(_, _, _, _, _, _) => EventStaysOnTarget(l, op);
    case BankImport(_, _) => PaymentStaysOnTarget(l, op);
    case AdminUpdate(_, _) => PaymentStaysOnTarget(l, op);
    case Invalidate(_) => PaymentStaysOnTarget(l, op);
    case WithdrawCreate(_, _) => ReservationStaysOnTarget(l, op);
    case WithdrawUpdate(_, _) => ReservationStaysOnTarget(l, op);
    case TransferCreate(_, _) => ReservationStaysOnTarget(l, op);
    case WithdrawRemove(_) => UncheckedStaysOnTarget(l, op);
    case TransferUpdate(_, _) => UncheckedStaysOnTarget(l, op);
  }

  lemma CreditStaysComplete(l: Ledger, vault: Id, amount: int)
    requires IncrementVaultAmount(l, vault, amount).Success?
    ensures StaysComplete(l, IncrementVaultAmount(l, vault, amount).value)
  {
  }

  lemma EventStaysComplete(l: Ledger, op: Op)
    requires op.Event? && Possible(l, op)
    ensures StaysComplete(l, After(l, op))
  {
    if Perform(l, op).Success? && op.status == Succeeded {
      match op
      case Event(_, data, status, None, home, newId) =>
        CreditStaysComplete(WritePayment(l, newId, Incoming(data, status, home.value)), home.value, data.net);
      case Event(_, data, status, Some(id), _, _) =>
        if l.payments[id].status != Succeeded && Allowed(l.payments[id].status, status) {
          CreditStaysComplete(WritePayment(l, id, Rewritten(l.payments[id], data, status)),
                              l.payments[id].donation.vault, data.net);
        }
    }
  }

  lemma PaymentStaysComplete(l: Ledger, op: Op)
    requires (op.BankImport? || op.AdminUpdate? || op.Invalidate?) && Possible(l, op)
    ensures StaysComplete(l, After(l, op))
  {
  }

  lemma StepStaysComplete(l: Ledger, op: Op)
    requires Possible(l, op)
    ensures StaysComplete(l, After(l, op))
  {
    match op
    case Event(_, _, _, _, _, _) => EventStaysComplete(l, op);
    case BankImport(_, _) => PaymentStaysComplete(l, op);
    case AdminUpdate(_, _) => PaymentStaysComplete(l, op);
    case Invalidate(_) => PaymentStaysComplete(l, op);
    case _ =>
  }

  // A complete campaign stays complete over every run, refunds and invalidations included.
  lemma {:induction false} CompleteForGood(l: Ledger, ops: seq<Op>)
    requires IsRun(l, ops)
    ensures StaysComplete(l, Run(l, ops))
    decreases |ops|
  {
    if ops != [] {
      StepStaysComplete(l, ops[0]);
      CompleteForGood(After(l, ops[0]), ops[1..]);
    }
  }

  ghost predicate NeverOvershoots(l: Ledger, ops: seq<Op>)
    requires WellFormed(l) && IsRun(l, ops) && AllPositive(ops)
    decreases |ops|
  {
    ops == []
    || (!Overshoots(l, ops[0])
        && (StepKeepsWellFormed(l, ops[0]); NeverOvershoots(After(l, ops[0]), ops[1..])))
  }

  // Over every run an unfinished campaign with a positive target has less than it, as long as no
  // transfer settled and no withdrawal removed takes one there unchecked. Payment calls never do.
  lemma {:induction false} CompletionInvariant(l: Ledger, ops: seq<Op>)
    requires WellFormed(l) && IsRun(l, ops) && AllPositive(ops) && OnTarget(l)
    requires NeverOvershoots(l, ops)
    ensures OnTarget(Run(l, ops))
    decreases |ops|
  {
    if ops != [] {
      StepStaysOnTargetExactly(l, ops[0]);
      StepKeepsWellFormed(l, ops[0]);
      CompletionInvariant(After(l, ops[0]), ops[1..]);
    }
  }
}
