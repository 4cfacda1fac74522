// The services over the stored tables, step by step as they write them. Each call is tied to the
// function in Ledgers that says what it leaves.
module Databases {
  import opened Wrappers
  import opened Totals
  import opened PaymentStatuses
  import opened Ledgers
  import L = Ledgers
  import opened Conservation
  import opened AvailableBalance
  import C = CampaignCompletion
  import opened BankImports
  import opened BatchVaults
  import opened PaymentCalls
  import B = BatchVaults
  import I = IrisPay

  // A call that returns leaves the tables the function says; one that throws leaves them alone.
  ghost predicate Outcome<T>(before: Ledger, specified: Result<Ledger>, r: Result<T>, after: Ledger) {
    match r
    case Success(_) => specified == Success(after)
    case Failure(e) => specified == Failure(e) && after == before
  }

  // Inside a transaction a throw may leave writes behind for the transaction to undo.
  ghost predicate OutcomeInside<T>(specified: Result<Ledger>, r: Result<T>, after: Ledger) {
    match r
    case Success(_) => specified == Success(after)
    case Failure(e) => specified == Failure(e)
  }

  // What callers can count on after a call. On balanced books a faithful call leaves balanced books, and
  // no other that goes through does. Open campaigns stay below their targets unless the call overshoots
  // one. A new reservation leaves the free balance of its vault non-negative, and no decision on a
  // request lowers what is free.
  ghost predicate Upheld(before: Ledger, op: Op, after: Ledger)
    requires Possible(before, op)
  {
    && (Books(before) && IsPositive(op) ==>
          (Books(after) <==> Perform(before, op).Failure? || IsFaithful(before, op)))
    && (WellFormed(before) && C.OnTarget(before) ==> (C.OnTarget(after) <==> !C.Overshoots(before, op)))
    && (WellFormed(before) && (op.WithdrawUpdate? || op.WithdrawRemove? || op.TransferUpdate?) ==>
          forall v :: v in before.vaults ==> v in after.vaults && Free(after, v) >= Free(before, v))
    && (op.WithdrawCreate? && Perform(before, op).Success? ==>
          op.withdrawal.vault in after.vaults && Free(after, op.withdrawal.vault) >= 0)
    && (op.TransferCreate? && Perform(before, op).Success? ==>
          op.transfer.source in after.vaults && Free(after, op.transfer.source) >= 0)
  }

  lemma CallsUphold(l: Ledger, op: Op)
    requires Possible(l, op)
    ensures Upheld(l, op, After(l, op))
  {
    if Books(l) && IsPositive(op) { StepKeepsBooksExactly(l, op); }
    if WellFormed(l) && C.OnTarget(l) { C.StepStaysOnTargetExactly(l, op); }
    if WellFormed(l) && (op.WithdrawUpdate? || op.WithdrawRemove? || op.TransferUpdate?) {
      forall v | v in l.vaults
        ensures v in After(l, op).vaults && Free(After(l, op), v) >= Free(l, v)
      {
        if op.TransferUpdate? { TransferFrees(l, op, v); } else { WithdrawalFrees(l, op, v); }
      }
    }
  }

  function RowsOf(vaults: map<Id, Vault>, campaign: Id): map<Id, Vault> {
    map v | v in vaults && vaults[v].campaign == campaign :: vaults[v]
  }

  lemma RowsWithout(vaults: map<Id, Vault>, campaign: Id, v: Id)
    requires v in vaults
    ensures RowsOf(vaults - {v}, campaign) == RowsOf(vaults, campaign) - {v}
  {
  }

  // The vaults of one campaign hold all the money the campaign has.
  lemma {:induction false} CampaignRows(vaults: map<Id, Vault>, campaign: Id)
    ensures SumOf(RowsOf(vaults, campaign), AmountIn(campaign)) == SumOf(vaults, AmountIn(campaign))
    decreases |vaults|
  {
    if vaults != map[] {
      var rows := RowsOf(vaults, campaign);
      var v :| v in vaults;
      CampaignRows(vaults - {v}, campaign);
      RowsWithout(vaults, campaign, v);
      SumRemove(vaults, v, AmountIn(campaign));
      if v in rows {
        SumRemove(rows, v, AmountIn(campaign));
      } else {
        assert rows - {v} == rows;
      }
    } else {
      assert RowsOf(vaults, campaign) == map[];
    }
  }

  class Database {
    var vaults: map<Id, Vault>
    var payments: map<Id, Payment>
    var withdrawals: map<Id, Withdrawal>
    var transfers: map<Id, Transfer>
    var campaigns: map<Id, Campaign>

    constructor (tables: Ledger)
      ensures Tables() == tables
    {
      vaults := tables.vaults;
      payments := tables.payments;
      withdrawals := tables.withdrawals;
      transfers := tables.transfers;
      campaigns := tables.campaigns;
    }

    function Tables(): Ledger
      reads this
    {
      Ledger(vaults, payments, withdrawals, transfers, campaigns)
    }

    // The end of a transaction that threw.
    method Rollback(saved: Ledger)
      modifies this
      ensures Tables() == saved
    {
      vaults := saved.vaults;
      payments := saved.payments;
      withdrawals := saved.withdrawals;
      transfers := saved.transfers;
      campaigns := saved.campaigns;
    }

    // ---- vault.service.ts, campaign.service.ts ----

    method UpdateVaultAmount(vaultId: Id, amount: int, up: bool) returns (r: Result<Vault>)
      modifies this`vaults
      ensures Outcome(old(Tables()), L.UpdateVaultAmount(old(Tables()), vaultId, amount, up), r, Tables())
      ensures r.Success? ==> vaultId in vaults && r.value == vaults[vaultId]
    {
      if amount <= 0 {
        return Failure(Internal);
      }
      if vaultId !in vaults {
        return Failure(NotFound);
      }
      var row := vaults[vaultId];
      vaults := vaults[vaultId := row.(amount := if up then row.amount + amount else row.amount - amount)];
      return Success(vaults[vaultId]);
    }

    // The reduce over the campaign's vaults.
    method CampaignAmount(campaignId: Id) returns (actualAmount: int)
      ensures actualAmount == CampaignTotal(Tables(), campaignId)
    {
      var rest := RowsOf(vaults, campaignId);
      CampaignRows(vaults, campaignId);
      actualAmount := 0;
      while rest != map[]
        invariant forall v :: v in rest ==> rest[v].campaign == campaignId
        invariant actualAmount + SumOf(rest, AmountIn(campaignId)) == SumOf(vaults, AmountIn(campaignId))
        decreases |rest|
      {
        var v :| v in rest;
        SumRemove(rest, v, AmountIn(campaignId));
        actualAmount := actualAmount + rest[v].amount;
        rest := rest - {v};
      }
    }

    method UpdateCampaignStatusIfTargetReached(campaignId: Id)
      modifies this`campaigns
      ensures Tables() == CompleteIfReached(old(Tables()), campaignId)
    {
      if campaignId in campaigns {
        var campaign := campaigns[campaignId];
        if campaign.state != Complete && campaign.target != 0 {
          var actualAmount := CampaignAmount(campaignId);
          if actualAmount >= campaign.target {
            campaigns := campaigns[campaignId := campaign.(state := Complete)];
          }
        }
      }
    }

    method IncrementVaultAmount(vaultId: Id, amount: int) returns (r: Result<Vault>)
      modifies this`vaults, this`campaigns
      ensures Outcome(old(Tables()), L.IncrementVaultAmount(old(Tables()), vaultId, amount), r, Tables())
    {
      r := UpdateVaultAmount(vaultId, amount, true);
      if r.Success? {
        UpdateCampaignStatusIfTargetReached(r.value.campaign);
      }
    }

    method DecrementVaultAmount(vaultId: Id, amount: int) returns (r: Result<Vault>)
      modifies this`vaults
      ensures Outcome(old(Tables()), L.DecrementVaultAmount(old(Tables()), vaultId, amount), r, Tables())
    {
      r := UpdateVaultAmount(vaultId, amount, false);
    }

    method UpdateManyVaults(updates: VaultUpdate, up: bool) returns (r: Result<()>)
      modifies this`vaults
      ensures Outcome(old(Tables()), B.UpdateManyVaults(old(Tables()), updates, up), r, Tables())
    {
      if updates == map[] {
        return Failure(Internal);
      }
      vaults := map v | v in vaults ::
        if v in updates && vaults[v].amount - updates[v] > 0 then
          vaults[v].(amount := if up then vaults[v].amount + updates[v] else vaults[v].amount - updates[v])
        else vaults[v];
      assert vaults == B.UpdateManyVaults(old(Tables()), updates, up).value.vaults;
      return Success(());
    }

    method DecrementManyVaults(updates: VaultUpdate) returns (r: Result<()>)
      modifies this`vaults
      ensures Outcome(old(Tables()), B.DecrementManyVaults(old(Tables()), updates), r, Tables())
    {
      var rest := set v | v in updates && v in vaults;
      var failed: set<Id> := {};
      while rest != {}
        invariant forall v :: v in failed ==> WouldFail(Tables(), updates, v)
        invariant forall v :: v in updates && WouldFail(Tables(), updates, v) ==> v in failed || v in rest
        invariant forall v :: v in rest ==> v in updates && v in vaults
        decreases rest
      {
        var v :| v in rest;
        if !(vaults[v].amount - updates[v] > 0) {
          failed := failed + {v};
        }
        rest := rest - {v};
      }
      if failed != {} {
        var v :| v in failed;
        assert WouldFail(Tables(), updates, v);
        return Failure(Internal);
      }
      r := UpdateManyVaults(updates, false);
    }

    // ---- donations.service.ts ----

    method FindExistingDonation(data: PaymentData) returns (found: Option<Id>)
      ensures Finds(Tables(), data, found)
    {
      if id :| id in payments && payments[id].intent == data.intent {
        return Some(id);
      }
      if data.person.Some? && |data.person.value| == 36 {
        if id :| id in payments && payments[id].status == Initial && payments[id].charged == data.charged
                 && payments[id].methodId == SUBSCRIPTION && payments[id].donation.person == data.person {
          return Some(id);
        }
      }
      return None;
    }

    method FindVault(campaign: Id) returns (home: Option<Id>)
      ensures FindsVault(Tables(), campaign, home)
    {
      if v :| v in vaults && vaults[v].campaign == campaign {
        return Some(v);
      }
      return None;
    }

    method CreateIncomingDonation(home: Option<Id>, newId: Id, data: PaymentData, status: PaymentStatus)
        returns (r: Result<Id>)
      requires newId !in payments
      modifies this
      ensures OutcomeInside(L.CreateIncomingDonation(old(Tables()), home, newId, data, status), r, Tables())
      ensures r.Success? ==> r.value == newId
    {
      if home.None? {
        return Failure(NotFound);
      }
      var donation := Donation(data.net, home.value, data.person);
      payments := payments[newId := Payment(data.intent, data.methodId.GetOr(""), status, data.net, data.charged,
                                            donation)];
      if status == Succeeded {
        var credited := IncrementVaultAmount(donation.vault, payments[newId].amount);
        if credited.Failure? {
          return Failure(credited.error);
        }
      }
      return Success(newId);
    }

    method UpdateDonationIfAllowed(id: Id, data: PaymentData, status: PaymentStatus) returns (r: Result<Option<Id>>)
      requires id in payments
      modifies this
      ensures OutcomeInside(L.UpdateDonationIfAllowed(old(Tables()), id, data, status), r, Tables())
      ensures r.Success? ==> r.value == if Allowed(old(payments)[id].status, status) then Some(id) else None
      ensures old(payments)[id].donation.vault in old(vaults) ==>
                && (r.Success? <==> KnownGoesThrough(old(Tables()), id, data, status))
                && (r.Success? ==> KnownLeaves(old(Tables()), Tables(), id, data, status))
    {
      if payments[id].donation.vault in vaults { KnownPaymentExactly(Tables(), id, data, status); }
      var payment := payments[id];
      var allowed := ShouldAllowStatusChange(payment.status, status);
      if allowed.Failure? {
        return Failure(allowed.error);
      }
      if !allowed.value {
        return Success(None);
      }
      payments := payments[id := payment.(
        status := status,
        amount := data.net,
        methodId := data.methodId.GetOr(payment.methodId),
        intent := data.intent,
        donation := payment.donation.(amount := data.net))];
      if payment.status != Succeeded && status == Succeeded {
        var credited := IncrementVaultAmount(payment.donation.vault, data.net);
        if credited.Failure? {
          return Failure(credited.error);
        }
      } else if payment.status == Succeeded && status == Refund {
        var debited := DecrementVaultAmount(payment.donation.vault, data.net);
        if debited.Failure? {
          return Failure(debited.error);
        }
      }
      return Success(Some(id));
    }

    // The id of the created or updated payment; None when the event is skipped. `op` names the rows the
    // database chose.
    method UpdateDonationPayment(campaign: Id, data: PaymentData, status: PaymentStatus, newId: Id)
      returns (r: Result<Option<Id>>, ghost op: Op)
      requires newId !in payments
      modifies this
      ensures op.Event? && op == Event(campaign, data, status, op.found, op.home, newId) && Possible(old(Tables()), op)
      ensures Outcome(old(Tables()), Perform(old(Tables()), op), r, Tables())
      ensures r.Success? ==> r.value == match op.found
                                        case None => Some(newId)
                                        case Some(id) => if Allowed(old(payments)[id].status, status) then op.found
                                            else None
      ensures WellFormed(old(Tables())) ==> EventLeaves(old(Tables()), op, Tables())
    {
      var saved := Tables();
      var existing := FindExistingDonation(data);
      var home := FindVault(campaign);
      op := Event(campaign, data, status, existing, home, newId);
      if WellFormed(saved) { EventExactly(saved, op); }
      if existing.None? {
        var created := CreateIncomingDonation(home, newId, data, status);
        r := if created.Success? then Success(Some(created.value)) else Failure(created.error);
      } else {
        r := UpdateDonationIfAllowed(existing.value, data, status);
      }
      if r.Failure? {
        Rollback(saved);
      }
    }

    method CreateUpdateBankPayment(bank: BankPayment, newId: Id) returns (r: Result<ImportStatus>)
      requires newId !in payments
      modifies this
      ensures Outcome(old(Tables()), L.CreateUpdateBankPayment(old(Tables()), newId, bank), r, Tables())
      ensures r.Success? ==> r.value == if HasIntent(old(payments), bank.intent) then UPDATED else SUCCESS
    {
      var saved := Tables();
      if id :| id in payments && payments[id].intent == bank.intent {
        return Success(UPDATED);
      }
      var row := Payment(bank.intent, "imported bank payment", Succeeded, bank.amount, 0,
                         Donation(bank.amount, bank.vault, None));
      payments := payments[newId := row];
      var credited := IncrementVaultAmount(row.donation.vault, row.donation.amount);
      if credited.Failure? {
        Rollback(saved);
        return Failure(credited.error);
      }
      return Success(SUCCESS);
    }

    method ImportBankPayments(movements: seq<Movement>) returns (results: seq<ImportStatus>)
      requires FreshIds(Tables(), movements)
      modifies this
      ensures ImportAll(old(Tables()), movements) == Imported(Tables(), results)
    {
      results := [];
      var k := 0;
      while k < |movements|
        invariant 0 <= k <= |movements|
        invariant ImportAll(old(Tables()), movements[..k]) == Imported(Tables(), results)
      {
        var m := movements[k];
        assert movements[..k + 1][..k] == movements[..k];
        var status := FAILED;
        if m.campaignKnown {
          ImportRecords(old(Tables()), movements[..k]);
          assert m.newId !in payments by {
            assert forall j :: 0 <= j < k ==> movements[..k][j].newId != m.newId;
          }
          var r := CreateUpdateBankPayment(m.bank, m.newId);
          if r.Success? {
            status := r.value;
          }
        }
        results := results + [status];
        k := k + 1;
      }
      assert movements[..k] == movements;
    }

    method Update(paymentId: Id, change: PaymentChange) returns (r: Result<Payment>)
      modifies this
      ensures Outcome(old(Tables()), L.UpdatePayment(old(Tables()), paymentId, change), r, Tables())
      ensures Upheld(old(Tables()), AdminUpdate(paymentId, change), Tables())
    {
      CallsUphold(Tables(), AdminUpdate(paymentId, change));
      if paymentId !in payments {
        return Failure(NotFound);
      }
      var current := payments[paymentId];
      if current.status == Succeeded && change.status.Some? && change.status.value != Succeeded {
        return Failure(BadRequest);
      }
      r := EditPayment(paymentId, current, change);
    }

    // The transaction of an update that passed its check.
    method EditPayment(paymentId: Id, current: Payment, change: PaymentChange) returns (r: Result<Payment>)
      requires paymentId in payments && payments[paymentId] == current
      requires current.status == Succeeded ==> change.status.GetOr(Succeeded) == Succeeded
      modifies this
      ensures Outcome(old(Tables()), L.UpdatePayment(old(Tables()), paymentId, change), r, Tables())
    {
      var saved := Tables();
      var status := if change.status.Some? then change.status.value else current.status;
      if change.donor.UnknownDonor? || !change.donationKnown {
        return Failure(NotFound);
      }
      var person := if change.donor.SetDonor? then Some(change.donor.person) else current.donation.person;
      payments := payments[paymentId := current.(status := status, donation := current.donation.(person := person))];
      if current.status != Succeeded && change.status == Some(Succeeded) {
        var credited := IncrementVaultAmount(current.donation.vault, current.amount);
        if credited.Failure? {
          Rollback(saved);
          return Failure(credited.error);
        }
      }
      return Success(payments[paymentId]);
    }

    method Invalidate(id: Id) returns (r: Result<()>)
      modifies this
      ensures Outcome(old(Tables()), L.InvalidatePayment(old(Tables()), id), r, Tables())
      ensures Upheld(old(Tables()), Op.Invalidate(id), Tables())
    {
      CallsUphold(Tables(), Op.Invalidate(id));
      if id !in payments {
        return Failure(NotFound);
      }
      var payment := payments[id];
      if payment.status == Succeeded {
        var debited := DecrementVaultAmount(payment.donation.vault, payment.amount);
        if debited.Failure? {
          return Failure(NotFound);
        }
      }
      payments := payments[id := payment.(status := Invalid)];
      return Success(());
    }

    // ---- withdrawal.service.ts ----

    method CreateWithdrawal(newId: Id, withdrawal: Withdrawal) returns (r: Result<()>)
      modifies this`vaults, this`withdrawals
      ensures Outcome(old(Tables()), L.CreateWithdrawal(old(Tables()), newId, withdrawal), r, Tables())
      ensures newId !in old(withdrawals) ==> Upheld(old(Tables()), WithdrawCreate(withdrawal, newId), Tables())
    {
      if newId !in withdrawals { CallsUphold(Tables(), WithdrawCreate(withdrawal, newId)); }
      if withdrawal.vault !in vaults {
        return Failure(NotFound);
      }
      var vault := vaults[withdrawal.vault];
      if vault.amount - vault.blocked - withdrawal.amount < 0 {
        return Failure(BadRequest);
      }
      withdrawals := withdrawals[newId := withdrawal];
      vaults := vaults[withdrawal.vault := vault.(blocked := vault.blocked + withdrawal.amount)];
      return Success(());
    }

    method UpdateWithdrawal(id: Id, change: RequestChange) returns (r: Result<()>)
      modifies this`vaults, this`withdrawals
      ensures Outcome(old(Tables()), L.UpdateWithdrawal(old(Tables()), id, change), r, Tables())
      ensures Upheld(old(Tables()), WithdrawUpdate(id, change), Tables())
    {
      CallsUphold(Tables(), WithdrawUpdate(id, change));
      if id !in withdrawals {
        return Failure(NotFound);
      }
      var w := withdrawals[id];
      if IsClosed(w.status) {
        return Failure(BadRequest);
      }
      if change.source != Some(w.vault) || change.amount != Some(w.amount) {
        return Failure(BadRequest);
      }
      if w.vault !in vaults {
        return Failure(NotFound);
      }
      if change.status == Some(SucceededRequest) && !change.approved {
        return Failure(BadRequest);
      }
      DecideWithdrawal(id, w, change);
      return Success(());
    }

    // The transaction of an update that passed its checks.
    method DecideWithdrawal(id: Id, w: Withdrawal, change: RequestChange)
      requires L.UpdateWithdrawal(Tables(), id, change).Success? && withdrawals[id] == w
      modifies this`vaults, this`withdrawals
      ensures L.UpdateWithdrawal(old(Tables()), id, change) == Success(Tables())
    {
      var vault := vaults[w.vault];
      if change.status == Some(SucceededRequest) {
        vaults := vaults[w.vault := vault.(blocked := vault.blocked - w.amount, amount := vault.amount - w.amount)];
      } else if change.status == Some(DeclinedRequest) || change.status == Some(CancelledRequest) {
        vaults := vaults[w.vault := vault.(blocked := vault.blocked - w.amount)];
      }
      withdrawals := withdrawals[id := w.(status := change.status.GetOr(w.status))];
    }

    method RemoveWithdrawal(id: Id) returns (r: Result<()>)
      requires id in withdrawals ==> withdrawals[id].vault in vaults
      modifies this`vaults, this`withdrawals
      ensures Outcome(old(Tables()), L.RemoveWithdrawal(old(Tables()), id), r, Tables())
      ensures Upheld(old(Tables()), WithdrawRemove(id), Tables())
    {
      CallsUphold(Tables(), WithdrawRemove(id));
      if id !in withdrawals {
        return Failure(BadRequest);
      }
      var removed := withdrawals[id];
      withdrawals := withdrawals - {id};
      GiveBack(removed);
      return Success(());
    }

    // The second statement of a removal.
    method GiveBack(removed: Withdrawal)
      requires removed.vault in vaults
      modifies this`vaults
      ensures Tables() == AddTo(old(Tables()), removed.vault, TakenBy(removed), -OpenBy(removed))
    {
      var isSucceeded := removed.status == SucceededRequest;
      var isCancelled := removed.status == CancelledRequest || removed.status == DeclinedRequest;
      var vault := vaults[removed.vault];
      vaults := vaults[removed.vault := vault.(
        amount := vault.amount + (if isSucceeded then removed.amount else 0),
        blocked := vault.blocked - (if isCancelled || isSucceeded then 0 else removed.amount))];
    }

    // ---- transfer.service.ts ----

    method CreateTransfer(newId: Id, transfer: Transfer) returns (r: Result<()>)
      modifies this`vaults, this`transfers
      ensures Outcome(old(Tables()), L.CreateTransfer(old(Tables()), newId, transfer), r, Tables())
      ensures newId !in old(transfers) ==> Upheld(old(Tables()), TransferCreate(transfer, newId), Tables())
    {
      if newId !in transfers { CallsUphold(Tables(), TransferCreate(transfer, newId)); }
      if transfer.source !in vaults {
        return Failure(NotFound);
      }
      var source := vaults[transfer.source];
      if source.amount - source.blocked - transfer.amount < 0 {
        return Failure(BadRequest);
      }
      if transfer.target !in vaults {
        return Failure(NotFound);
      }
      transfers := transfers[newId := transfer];
      vaults := vaults[transfer.source := source.(blocked := source.blocked + transfer.amount)];
      return Success(());
    }

    method UpdateTransfer(id: Id, change: RequestChange) returns (r: Result<()>)
      modifies this`vaults, this`transfers
      ensures Outcome(old(Tables()), L.UpdateTransfer(old(Tables()), id, change), r, Tables())
      ensures Upheld(old(Tables()), TransferUpdate(id, change), Tables())
    {
      CallsUphold(Tables(), TransferUpdate(id, change));
      if id !in transfers {
        return Failure(NotFound);
      }
      var t := transfers[id];
      if IsClosed(t.status) {
        return Failure(BadRequest);
      }
      if change.source != Some(t.source) || change.amount != Some(t.amount) {
        return Failure(BadRequest);
      }
      if t.source !in vaults || t.target !in vaults {
        return Failure(NotFound);
      }
      if change.status == Some(SucceededRequest) && !change.approved {
        return Failure(BadRequest);
      }
      if change.target.GetOr(t.target) !in vaults {
        return Failure(NotFound);
      }
      DecideTransfer(id, t, change);
      return Success(());
    }

    // The transaction of an update that passed its checks.
    method DecideTransfer(id: Id, t: Transfer, change: RequestChange)
      requires L.UpdateTransfer(Tables(), id, change).Success? && transfers[id] == t
      modifies this`vaults, this`transfers
      ensures L.UpdateTransfer(old(Tables()), id, change) == Success(Tables())
    {
      if change.status == Some(SucceededRequest) {
        var source := vaults[t.source];
        vaults := vaults[t.source := source.(blocked := source.blocked - t.amount, amount := source.amount - t.amount)];
        var target := vaults[t.target];
        vaults := vaults[t.target := target.(amount := target.amount + t.amount)];
      } else if change.status == Some(DeclinedRequest) || change.status == Some(CancelledRequest) {
        var source := vaults[t.source];
        vaults := vaults[t.source := source.(blocked := source.blocked - t.amount)];
      }
      transfers := transfers[id := t.(status := change.status.GetOr(t.status),
                                      target := change.target.GetOr(t.target))];
    }

    // ---- iris-pay.service.ts ----

    // An undisturbed finalize: read, poll, commit. The answer is what IRIS returns when it is asked.
    method FinalizePayment(paymentId: Id, answer: Option<I.IrisAnswer>, campaign: Id, newId: Id)
      returns (r: Result<PaymentStatus>, ghost op: Option<Op>)
      requires newId !in payments
      modifies this
      ensures op.None? ==> Tables() == old(Tables())
      ensures match I.ReadPayment(old(Tables()), paymentId)
              case Failure(e) => op.None? && r == Failure(e)
              case Success(None) => op.None? && r == Success(old(payments)[paymentId].status)
              case Success(Some(read)) =>
                match I.Poll(read, answer)
                case Failure(e) => op.None? && r == Failure(e)
                case Success(polled) =>
                  op.Some? && op.value.Event? && op.value.data == polled.data && op.value.status == polled.status
                  && Possible(old(Tables()), op.value)
                  && Outcome(old(Tables()), Perform(old(Tables()), op.value), r, Tables())
                  && (r.Success? ==> r.value == polled.status)
      ensures WellFormed(old(Tables())) ==> I.Finalized(old(Tables()), Tables(), paymentId, answer, r)
    {
      op := None;
      if paymentId !in payments {
        return Failure(NotFound), None;
      }
      var payment := payments[paymentId];
      if IsFinal(payment.status) {
        return Success(payment.status), None;
      }
      var polled := I.Poll(I.HasRead(paymentId, payment.intent, payment.donation.person), answer);
      if polled.Failure? {
        return Failure(polled.error), None;
      }
      var status := polled.value.status;
      ghost var saved := Tables();
      var updated, event := UpdateDonationPayment(campaign, polled.value.data, status, newId);
      op := Some(event);
      if WellFormed(saved) {
        I.CommitDecides(saved, event, paymentId, answer.value, polled.value.data.net);
        I.AnswersByName(answer.value.status);
      }
      r := if updated.Success? then Success(status) else Failure(updated.error);
    }
  }
}
