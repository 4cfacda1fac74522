// What provider events, bank imports, administrators' updates and invalidations leave, told by the names
// of the statuses (apps/api/src/donations/donations.service.ts).
module PaymentCalls {
  import opened Wrappers
  import opened PaymentStatuses
  import opened Ledgers
  import opened Conservation

  // The money of one vault moves, and nothing else in the vaults.
  predicate Raised(l: Ledger, l': Ledger, v: Id, cents: int) {
    v in l.vaults && l'.vaults == l.vaults[v := l.vaults[v].(amount := l.vaults[v].amount + cents)]
  }

  // Of the records only this payment is written.
  predicate Wrote(l: Ledger, l': Ledger, id: Id, p: Payment) {
    l'.payments == l.payments[id := p] && l'.withdrawals == l.withdrawals && l'.transfers == l.transfers
  }

  // A payment takes intent, amount and status from the event, and the method if it names one; it stays the
  // same donor's, in the same vault.
  predicate TakenFrom(p: Payment, p': Payment, data: PaymentData, status: PaymentStatus) {
    && p'.status == status && p'.intent == data.intent && p'.amount == data.net && p'.donation.amount == data.net
    && p'.charged == p.charged && p'.donation.vault == p.donation.vault && p'.donation.person == p.donation.person
    && (data.methodId.Some? ==> p'.methodId == data.methodId.value)
    && (data.methodId.None? ==> p'.methodId == p.methodId)
  }

  // What an event leaves for a payment that is known.
  predicate KnownLeaves(l: Ledger, l': Ledger, id: Id, data: PaymentData, status: PaymentStatus)
    requires id in l.payments
  {
    var p := l.payments[id];
    && id in l'.payments
    && if p.status in {Initial, Incomplete, PaymentRequested, Waiting, Declined, Guaranteed} && status == Succeeded then
         Wrote(l, l', id, l'.payments[id]) && TakenFrom(p, l'.payments[id], data, Succeeded)
         && Raised(l, l', p.donation.vault, data.net)
       else if p.status == Succeeded && status == Refund then
         Wrote(l, l', id, l'.payments[id]) && TakenFrom(p, l'.payments[id], data, Refund)
         && Raised(l, l', p.donation.vault, -data.net)
       else if status == p.status || (p.status in UNDECIDED && status != Initial) then
         Wrote(l, l', id, l'.payments[id]) && TakenFrom(p, l'.payments[id], data, status) && l'.vaults == l.vaults
       else l' == l
  }

  // What goes through: everything but a movement of nothing.
  predicate KnownGoesThrough(l: Ledger, id: Id, data: PaymentData, status: PaymentStatus)
    requires id in l.payments
  {
    var p := l.payments[id];
    (p.status in UNDECIDED && status == Succeeded) || (p.status == Succeeded && status == Refund) ==>
      data.net > 0 && p.donation.vault in l.vaults
  }

  lemma KnownPaymentExactly(l: Ledger, id: Id, data: PaymentData, status: PaymentStatus)
    requires id in l.payments && l.payments[id].donation.vault in l.vaults
    ensures UpdateDonationIfAllowed(l, id, data, status).Success? <==> KnownGoesThrough(l, id, data, status)
    ensures UpdateDonationIfAllowed(l, id, data, status).Failure? ==>
              UpdateDonationIfAllowed(l, id, data, status).error == Internal
    ensures UpdateDonationIfAllowed(l, id, data, status).Success? ==>
              KnownLeaves(l, UpdateDonationIfAllowed(l, id, data, status).value, id, data, status)
  {
    StatusPolicy(l.payments[id].status, status);
    if UpdateDonationIfAllowed(l, id, data, status).Success? {
      UpdateIfAllowedShape(l, id, data, status);
      NoMove(l, l.payments[id].donation.vault);
    }
  }

  // What an event leaves for one that is not: the payment, with all that the event says about it.
  predicate NewLeaves(l: Ledger, l': Ledger, home: Id, newId: Id, data: PaymentData, status: PaymentStatus) {
    && newId in l'.payments
    && var p := l'.payments[newId];
    && Wrote(l, l', newId, p)
    && p.intent == data.intent && p.status == status && p.amount == data.net && p.charged == data.charged
    && p.donation == Donation(data.net, home, data.person)
    && (data.methodId.Some? ==> p.methodId == data.methodId.value)
    && if status == Succeeded then Raised(l, l', home, data.net) else l'.vaults == l.vaults
  }

  lemma NewPaymentExactly(l: Ledger, home: Option<Id>, newId: Id, data: PaymentData, status: PaymentStatus)
    requires newId !in l.payments && (home.Some? ==> home.value in l.vaults)
    ensures var r := CreateIncomingDonation(l, home, newId, data, status);
            && (r.Success? <==> home.Some? && (status == Succeeded ==> data.net > 0))
            && (r.Failure? ==> r.error == if home.None? then NotFound else Internal)
            && (r.Success? ==> NewLeaves(l, r.value, home.value, newId, data, status))
  {
    var r := CreateIncomingDonation(l, home, newId, data, status);
    if r.Success? {
      CreateIncomingShape(l, home.value, newId, data, status);
      NoMove(l, home.value);
    }
  }

  // An event writes the payment it found as the policy says, or a new one into its campaign's vault; one
  // that is thrown out, nothing.
  predicate EventLeaves(l: Ledger, op: Op, l': Ledger)
    requires op.Event? && Possible(l, op)
  {
    match op
    case Event(_, data, status, Some(id), _, _) =>
      if KnownGoesThrough(l, id, data, status) then KnownLeaves(l, l', id, data, status) else l' == l
    case Event(_, data, status, None, home, newId) =>
      if home.Some? && (status == Succeeded ==> data.net > 0) then NewLeaves(l, l', home.value, newId, data, status)
      else l' == l
  }

  lemma EventExactly(l: Ledger, op: Op)
    requires op.Event? && WellFormed(l) && Possible(l, op)
    ensures EventLeaves(l, op, After(l, op))
  {
    match op
    case Event(_, data, status, Some(id), _, _) => KnownPaymentExactly(l, id, data, status);
    case Event(_, data, status, None, home, newId) => NewPaymentExactly(l, home, newId, data, status);
  }

  // A new payment is in a vault of the campaign the event is for; there is none only if that has no vault.
  lemma NewPaymentIsItsCampaigns(l: Ledger, op: Op)
    requires op.Event? && WellFormed(l) && Possible(l, op) && op.found.None?
    ensures Perform(l, op) == Failure(NotFound) <==> forall v :: v in l.vaults ==> l.vaults[v].campaign != op.campaign
    ensures Perform(l, op).Success? ==>
              && op.newId in After(l, op).payments
              && var v := After(l, op).payments[op.newId].donation.vault;
                 v in l.vaults && l.vaults[v].campaign == op.campaign
  {
    NewPaymentExactly(l, op.home, op.newId, op.data, op.status);
  }

  // In particular: whatever came before, a decline included, money that arrives for an undecided payment is
  // credited.
  lemma MoneyForUndecidedIsCredited(l: Ledger, op: Op)
    requires op.Event? && WellFormed(l) && Possible(l, op) && op.found.Some?
    requires l.payments[op.found.value].status in {Initial, Incomplete, PaymentRequested, Waiting, Declined, Guaranteed}
    requires op.status == Succeeded && op.data.net > 0
    ensures Perform(l, op).Success?
    ensures var l', p := After(l, op), l.payments[op.found.value];
            && op.found.value in l'.payments && l'.payments[op.found.value].status == Succeeded
            && l'.payments[op.found.value].amount == op.data.net
            && Raised(l, l', p.donation.vault, op.data.net)
  {
    EventExactly(l, op);
    KnownPaymentExactly(l, op.found.value, op.data, op.status);
  }

  // An event of an unknown intent takes over an open subscription payment of the same donor and the same
  // charge, a donor known by an id of 36 characters, exactly if there is one; then it adds no payment.
  lemma PlaceholderIsClaimedExactly(l: Ledger, op: Op)
    requires op.Event? && Possible(l, op) && !HasIntent(l.payments, op.data.intent)
    ensures op.found.Some? ==> IsOpenSubscriptionOf(l, op.found.value, op.data)
    ensures op.found.Some? <==> exists id :: IsOpenSubscriptionOf(l, id, op.data)
    ensures op.found.Some? ==> After(l, op).payments.Keys == l.payments.Keys
  {
    if id :| IsOpenSubscriptionOf(l, id, op.data) {
      assert Claimable(l.payments[id], op.data);
    }
    if op.found.Some? {
      assert IsOpenSubscriptionOf(l, op.found.value, op.data);
    }
  }

  predicate IsOpenSubscriptionOf(l: Ledger, id: Id, data: PaymentData) {
    && id in l.payments
    && var p := l.payments[id];
    && p.status == Initial && p.methodId == "subscription" && p.charged == data.charged
    && p.donation.person == data.person && data.person.Some? && |data.person.value| == 36
  }

  // ---- bank imports, administrators ----

  // A new bank payment is succeeded and anonymous and its money is in the named vault.
  lemma BankPaymentExactly(l: Ledger, newId: Id, bank: BankPayment)
    requires newId !in l.payments && !HasIntent(l.payments, bank.intent)
    ensures var r := CreateUpdateBankPayment(l, newId, bank);
            && (r.Success? <==> bank.amount > 0 && bank.vault in l.vaults)
            && (r.Failure? ==> r.error == if bank.amount > 0 then NotFound else Internal)
            && (r.Success? ==>
                  && newId in r.value.payments && Wrote(l, r.value, newId, r.value.payments[newId])
                  && Raised(l, r.value, bank.vault, bank.amount)
                  && var p := r.value.payments[newId];
                     && p.intent == bank.intent && p.status == Succeeded && p.amount == bank.amount
                     && p.donation == Donation(bank.amount, bank.vault, None))
  {
    var r := CreateUpdateBankPayment(l, newId, bank);
    if r.Success? {
      BankImportShape(l, newId, bank);
    }
  }

  // An administrator sets the status and the donor that the change names and leaves what it does not;
  // money arrives when the status becomes succeeded, which no update takes back.
  lemma AdminUpdateExactly(l: Ledger, id: Id, change: PaymentChange)
    requires id in l.payments && l.payments[id].donation.vault in l.vaults
    ensures var p, r := l.payments[id], UpdatePayment(l, id, change);
            && (r.Success? <==>
                  && change.donationKnown && change.donor != UnknownDonor
                  && (p.status == Succeeded ==> change.status in {None, Some(Succeeded)})
                  && (p.status != Succeeded && change.status == Some(Succeeded) ==> p.amount > 0))
            && (r == Failure(BadRequest) <==> p.status == Succeeded && change.status !in {None, Some(Succeeded)})
            && (r == Failure(NotFound) <==> r != Failure(BadRequest)
                                            && (!change.donationKnown || change.donor == UnknownDonor))
            && (r.Success? ==>
                  && id in r.value.payments && Wrote(l, r.value, id, r.value.payments[id])
                  && AdminWrote(p, r.value.payments[id], change)
                  && Raised(l, r.value, p.donation.vault,
                            if p.status != Succeeded && change.status == Some(Succeeded) then p.amount else 0))
  {
    var p, r := l.payments[id], UpdatePayment(l, id, change);
    if r.Success? {
      AdminUpdateShape(l, id, change);
    }
  }

  predicate AdminWrote(p: Payment, p': Payment, change: PaymentChange) {
    && (change.status.Some? ==> p'.status == change.status.value)
    && (change.status.None? ==> p'.status == p.status)
    && (change.donor.SetDonor? ==> p'.donation.person == Some(change.donor.person))
    && (change.donor.KeepDonor? ==> p'.donation.person == p.donation.person)
    && p'.amount == p.amount && p'.charged == p.charged && p'.intent == p.intent && p'.methodId == p.methodId
    && p'.donation.amount == p.donation.amount && p'.donation.vault == p.donation.vault
  }

  lemma UnknownPaymentsAreRefused(l: Ledger, id: Id, change: PaymentChange)
    requires id !in l.payments
    ensures UpdatePayment(l, id, change) == Failure(NotFound) && InvalidatePayment(l, id) == Failure(NotFound)
  {
  }

  // An invalidation goes through for every known payment but a succeeded one of no money; the payment is
  // invalid then and only money it had brought in is taken back.
  lemma InvalidationExactly(l: Ledger, id: Id)
    requires id in l.payments && l.payments[id].donation.vault in l.vaults
    ensures var p, r := l.payments[id], InvalidatePayment(l, id);
            && (r.Success? <==> (p.status == Succeeded ==> p.amount > 0)) && (r.Failure? ==> r.error == NotFound)
            && (r.Success? ==>
                  && Wrote(l, r.value, id, p.(status := Invalid))
                  && Raised(l, r.value, p.donation.vault, if p.status == Succeeded then -p.amount else 0))
  {
    var r := InvalidatePayment(l, id);
    if r.Success? {
      InvalidateShape(l, id);
    }
  }
}
