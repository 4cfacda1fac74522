// Withdrawals and transfers from their creation to their decision
// (apps/api/src/withdrawal/withdrawal.service.ts, apps/api/src/transfer/transfer.service.ts).
module Requests {
  import opened Wrappers
  import opened Ledgers

  predicate IsPending(status: RequestStatus) {
    status in {InitialRequest, InvalidRequest, IncompleteRequest}
  }

  // Both sums of one vault move, and nothing else in the vaults.
  predicate Moved(l: Ledger, l': Ledger, v: Id, amount: int, blocked: int) {
    && v in l.vaults
    && l'.vaults == l.vaults[v := Vault(l.vaults[v].campaign, l.vaults[v].amount + amount,
                                        l.vaults[v].blocked + blocked)]
  }

  predicate WroteWithdrawal(l: Ledger, l': Ledger, id: Id, w: Withdrawal) {
    && l'.withdrawals == l.withdrawals[id := w]
    && l'.payments == l.payments && l'.transfers == l.transfers && l'.campaigns == l.campaigns
  }

  predicate WroteTransfer(l: Ledger, l': Ledger, id: Id, t: Transfer) {
    && l'.transfers == l.transfers[id := t]
    && l'.payments == l.payments && l'.withdrawals == l.withdrawals && l'.campaigns == l.campaigns
  }

  // The change names what it is about, and a settlement is approved.
  predicate Fits(change: RequestChange, source: Id, amount: int) {
    && change.source == Some(source) && change.amount == Some(amount)
    && (change.status == Some(SucceededRequest) ==> change.approved)
  }

  // ---- the calls ----

  // A withdrawal is accepted exactly if what is free in its vault covers it.
  lemma CreateWithdrawalExactly(l: Ledger, newId: Id, w: Withdrawal)
    ensures var r := CreateWithdrawal(l, newId, w);
            && (r.Success? <==> w.vault in l.vaults && l.vaults[w.vault].blocked + w.amount <= l.vaults[w.vault].amount)
            && (r.Failure? ==> r.error == if w.vault in l.vaults then BadRequest else NotFound)
            && (r.Success? ==> WroteWithdrawal(l, r.value, newId, w) && Moved(l, r.value, w.vault, 0, w.amount))
  {
  }

  // It can be changed exactly while it is open. The change sets its status alone, settling pays it out of
  // what is blocked, declining or cancelling frees that, anything else moves nothing.
  lemma UpdateWithdrawalExactly(l: Ledger, id: Id, change: RequestChange)
    requires id in l.withdrawals && l.withdrawals[id].vault in l.vaults
    ensures var w, r := l.withdrawals[id], UpdateWithdrawal(l, id, change);
            && (r.Success? <==> IsPending(w.status) && Fits(change, w.vault, w.amount))
            && (r.Failure? ==> r.error == BadRequest)
            && (r.Success? ==>
                  && WroteWithdrawal(l, r.value, id, w.(status := change.status.GetOr(w.status)))
                  && match change.status
                     case Some(SucceededRequest) => Moved(l, r.value, w.vault, -w.amount, -w.amount)
                     case Some(DeclinedRequest) => Moved(l, r.value, w.vault, 0, -w.amount)
                     case Some(CancelledRequest) => Moved(l, r.value, w.vault, 0, -w.amount)
                     case _ => r.value.vaults == l.vaults)
  {
  }

  // A removal gives back what was paid out, or frees what was blocked.
  lemma RemoveWithdrawalExactly(l: Ledger, id: Id)
    requires id in l.withdrawals && l.withdrawals[id].vault in l.vaults
    ensures var w, r := l.withdrawals[id], RemoveWithdrawal(l, id);
            && r.Success? && r.value.withdrawals == l.withdrawals - {id}
            && r.value.payments == l.payments && r.value.transfers == l.transfers && r.value.campaigns == l.campaigns
            && match w.status
               case SucceededRequest => Moved(l, r.value, w.vault, w.amount, 0)
               case DeclinedRequest => r.value.vaults == l.vaults
               case CancelledRequest => r.value.vaults == l.vaults
               case _ => Moved(l, r.value, w.vault, 0, -w.amount)
  {
    var r := RemoveWithdrawal(l, id);
    assert l.withdrawals[id].status in {DeclinedRequest, CancelledRequest} ==> r.value.vaults == l.vaults;
  }

  // A transfer is accepted exactly if what is free in its source covers it and its target exists.
  lemma CreateTransferExactly(l: Ledger, newId: Id, t: Transfer)
    ensures var r := CreateTransfer(l, newId, t);
            && (r.Success? <==>
                  && t.source in l.vaults && t.target in l.vaults
                  && l.vaults[t.source].blocked + t.amount <= l.vaults[t.source].amount)
            && (r == Failure(BadRequest) <==>
                  t.source in l.vaults && l.vaults[t.source].blocked + t.amount > l.vaults[t.source].amount)
            && (r.Failure? ==> r.error in {BadRequest, NotFound})
            && (r.Success? ==> WroteTransfer(l, r.value, newId, t) && Moved(l, r.value, t.source, 0, t.amount))
  {
  }

  // It can be changed exactly while it is open, its target too.
  lemma UpdateTransferGoesThroughExactly(l: Ledger, id: Id, change: RequestChange)
    requires id in l.transfers && l.transfers[id].source in l.vaults && l.transfers[id].target in l.vaults
    ensures var t, r := l.transfers[id], UpdateTransfer(l, id, change);
            && (r.Success? <==>
                  && IsPending(t.status) && Fits(change, t.source, t.amount)
                  && (change.target.Some? ==> change.target.value in l.vaults))
            && (r == Failure(BadRequest) <==> !IsPending(t.status) || !Fits(change, t.source, t.amount))
            && (r.Failure? ==> r.error in {BadRequest, NotFound})
            && (r.Success? ==>
                  && WroteTransfer(l, r.value, id, Transfer(t.source, change.target.GetOr(t.target), t.amount,
                                                            change.status.GetOr(t.status)))
                  && (change.status in {Some(DeclinedRequest), Some(CancelledRequest)} ==>
                        Moved(l, r.value, t.source, 0, -t.amount))
                  && (change.status in {None, Some(InitialRequest), Some(InvalidRequest), Some(IncompleteRequest)} ==>
                        r.value.vaults == l.vaults))
  {
  }

  // Settling it takes the money out of what its source blocks and puts it into the target it had.
  lemma SettlementMovesTheMoney(l: Ledger, id: Id, change: RequestChange)
    requires id in l.transfers && l.transfers[id].source in l.vaults && l.transfers[id].target in l.vaults
    requires UpdateTransfer(l, id, change).Success? && change.status == Some(SucceededRequest)
    ensures var t, vaults, vaults' := l.transfers[id], l.vaults, UpdateTransfer(l, id, change).value.vaults;
            && vaults'.Keys == vaults.Keys
            && vaults'[t.source].blocked == vaults[t.source].blocked - t.amount
            && (t.source != t.target ==>
                  && vaults'[t.source].amount == vaults[t.source].amount - t.amount
                  && vaults'[t.target] == vaults[t.target].(amount := vaults[t.target].amount + t.amount))
            && (t.source == t.target ==> vaults'[t.source].amount == vaults[t.source].amount)
            && forall v :: v in vaults && v !in {t.source, t.target} ==> vaults'[v] == vaults[v]
  {
  }

  lemma UnknownRequestsAreRefused(l: Ledger, id: Id, change: RequestChange)
    ensures id !in l.withdrawals ==> UpdateWithdrawal(l, id, change) == Failure(NotFound)
    ensures id !in l.withdrawals ==> RemoveWithdrawal(l, id) == Failure(BadRequest)
    ensures id !in l.transfers ==> UpdateTransfer(l, id, change) == Failure(NotFound)
  {
  }

  // ---- their lives ----

  predicate IsPaymentCall(op: Op) {
    op.Event? || op.BankImport? || op.AdminUpdate? || op.Invalidate?
  }

  lemma EventsLeaveRequests(l: Ledger, op: Op)
    requires Possible(l, op) && op.Event?
    ensures After(l, op).withdrawals == l.withdrawals && After(l, op).transfers == l.transfers
  {
    if op.found.Some? {
      var r := UpdateDonationIfAllowed(l, op.found.value, op.data, op.status);
      assert r.Success? ==> r.value.withdrawals == l.withdrawals && r.value.transfers == l.transfers;
    } else {
      var r := CreateIncomingDonation(l, op.home, op.newId, op.data, op.status);
      assert r.Success? ==> r.value.withdrawals == l.withdrawals && r.value.transfers == l.transfers;
    }
  }

  lemma PaymentCallsLeaveRequests(l: Ledger, op: Op)
    requires Possible(l, op) && IsPaymentCall(op)
    ensures After(l, op).withdrawals == l.withdrawals && After(l, op).transfers == l.transfers
  {
    if op.Event? { EventsLeaveRequests(l, op); }
  }

  predicate ApprovesWithdrawal(op: Op, id: Id, w: Withdrawal) {
    && op.WithdrawUpdate? && op.request == id && op.edit.status == Some(SucceededRequest) && op.edit.approved
    && op.edit.source == Some(w.vault) && op.edit.amount == Some(w.amount)
  }

  // The withdrawal names the same vault and amount, and once closed it is the same row.
  predicate LivesOn(w: Withdrawal, w': Withdrawal) {
    w'.vault == w.vault && w'.amount == w.amount && (!IsPending(w.status) ==> w' == w)
  }

  lemma WithdrawalStep(l: Ledger, op: Op, id: Id)
    requires Possible(l, op) && id in l.withdrawals && op != WithdrawRemove(id)
    ensures id in After(l, op).withdrawals
    ensures var w, w' := l.withdrawals[id], After(l, op).withdrawals[id];
            && LivesOn(w, w')
            && (IsPending(w.status) && w'.status == SucceededRequest ==> ApprovesWithdrawal(op, id, w))
  {
    if IsPaymentCall(op) { PaymentCallsLeaveRequests(l, op); }
  }

  // Over any run of any calls, as long as it is not removed: a withdrawal keeps vault and amount, no call
  // changes it once it is closed, and it is settled only by an approved update that names both.
  lemma {:induction false} WithdrawalLife(l: Ledger, ops: seq<Op>, id: Id)
    requires IsRun(l, ops) && id in l.withdrawals && WithdrawRemove(id) !in ops
    ensures id in Run(l, ops).withdrawals
    ensures var w, w' := l.withdrawals[id], Run(l, ops).withdrawals[id];
            && LivesOn(w, w')
            && (IsPending(w.status) && w'.status == SucceededRequest ==>
                  exists k :: 0 <= k < |ops| && ApprovesWithdrawal(ops[k], id, w))
    decreases |ops|
  {
    if ops != [] {
      var w1 := After(l, ops[0]).withdrawals[id];
      WithdrawalStep(l, ops[0], id);
      WithdrawalLife(After(l, ops[0]), ops[1..], id);
      if k :| 0 <= k < |ops| - 1 && ApprovesWithdrawal(ops[1..][k], id, w1) {
        assert ApprovesWithdrawal(ops[k + 1], id, l.withdrawals[id]);
      }
    }
  }

  predicate ApprovesTransfer(op: Op, id: Id, t: Transfer) {
    && op.TransferUpdate? && op.request == id && op.edit.status == Some(SucceededRequest) && op.edit.approved
    && op.edit.source == Some(t.source) && op.edit.amount == Some(t.amount)
  }

  predicate TransferLivesOn(t: Transfer, t': Transfer) {
    t'.source == t.source && t'.amount == t.amount && (!IsPending(t.status) ==> t' == t)
  }

  lemma TransferStep(l: Ledger, op: Op, id: Id)
    requires Possible(l, op) && id in l.transfers
    ensures id in After(l, op).transfers
    ensures var t, t' := l.transfers[id], After(l, op).transfers[id];
            && TransferLivesOn(t, t')
            && (IsPending(t.status) && t'.status == SucceededRequest ==> ApprovesTransfer(op, id, t))
  {
    if IsPaymentCall(op) { PaymentCallsLeaveRequests(l, op); }
  }

  // The same for a transfer, which is never removed; its target may change while it is open.
  lemma {:induction false} TransferLife(l: Ledger, ops: seq<Op>, id: Id)
    requires IsRun(l, ops) && id in l.transfers
    ensures id in Run(l, ops).transfers
    ensures var t, t' := l.transfers[id], Run(l, ops).transfers[id];
            && TransferLivesOn(t, t')
            && (IsPending(t.status) && t'.status == SucceededRequest ==>
                  exists k :: 0 <= k < |ops| && ApprovesTransfer(ops[k], id, t))
    decreases |ops|
  {
    if ops != [] {
      var t1 := After(l, ops[0]).transfers[id];
      TransferStep(l, ops[0], id);
      TransferLife(After(l, ops[0]), ops[1..], id);
      if k :| 0 <= k < |ops| - 1 && ApprovesTransfer(ops[1..][k], id, t1) {
        assert ApprovesTransfer(ops[k + 1], id, l.transfers[id]);
      }
    }
  }
}
