// What a run of provider events does to one payment, and which payment an intent stands for.
module PaymentHistory {
  import opened Wrappers
  import opened Totals
  import opened PaymentStatuses
  import opened Ledgers
  import opened Conservation

  // The payment an event reads or creates.
  function Touched(op: Op): Id
    requires op.Event?
  {
    op.found.GetOr(op.newId)
  }

  function StatusIn(l: Ledger, p: Id): Option<PaymentStatus> {
    if p in l.payments then Some(l.payments[p].status) else None
  }

  function RankOf(status: Option<PaymentStatus>): int {
    match status
    case None => -1
    case Some(known) => Rank(known)
  }

  function RankIn(l: Ledger, p: Id): int {
    RankOf(StatusIn(l, p))
  }

  ghost function BalanceOf(): Vault -> int {
    (v: Vault) => v.amount
  }

  // All the money in all vaults.
  ghost function MoneyIn(l: Ledger): int {
    SumOf(l.vaults, BalanceOf())
  }

  predicate OnlyEvents(ops: seq<Op>) {
    forall op :: op in ops ==> op.Event?
  }

  lemma MoneyMoved(l: Ledger, l': Ledger, vault: Id, amount: int)
    requires vault in l.vaults && l'.vaults == AddTo(l, vault, amount, 0).vaults
    ensures MoneyIn(l') == MoneyIn(l) + amount
  {
    SumUpdate(l.vaults, vault, l'.vaults[vault], BalanceOf());
  }

  // One event writes at most its own payment, whose status moves as the policy says, and the money in
  // the vaults moves exactly on the two transitions into and out of succeeded.
  lemma EventEffect(l: Ledger, op: Op)
    requires op.Event? && WellFormed(l) && Possible(l, op)
    ensures var l', p := After(l, op), Touched(op);
            var before, after := StatusIn(l, p), StatusIn(l', p);
            && (forall q :: q != p ==> StatusIn(l', q) == StatusIn(l, q))
            && (after == StatusAfter(before, op.status) || l' == l)
            && (if before != Some(Succeeded) && after == Some(Succeeded) then
                  MoneyIn(l') - MoneyIn(l) == op.data.net > 0
                else if before == Some(Succeeded) && after != Some(Succeeded) then
                  MoneyIn(l') - MoneyIn(l) == -op.data.net < 0
                else MoneyIn(l') == MoneyIn(l))
  {
    var l' := After(l, op);
    if Perform(l, op).Success? {
      match op
      case Event(_, data, status, None, home, newId) =>
        if home.Some? {
          CreateIncomingShape(l, home.value, newId, data, status);
          MoneyMoved(l, l', home.value, PaidBy(Incoming(data, status, home.value)));
        }
      case Event(_, data, status, Some(id), _, _) =>
        var p := l.payments[id];
        StatusPolicy(p.status, status);
        UpdateIfAllowedShape(l, id, data, status);
        if Allowed(p.status, status) {
          MoneyMoved(l, l', p.donation.vault, EventMove(p.status, status, data.net));
        }
    }
  }

  // How often the run's events for payment p put money into the vaults, and took money out.
  ghost function Credits(l: Ledger, ops: seq<Op>, p: Id): nat
    requires IsRun(l, ops) && OnlyEvents(ops)
    decreases |ops|
  {
    if ops == [] then 0
    else
      var l' := After(l, ops[0]);
      (if Touched(ops[0]) == p && MoneyIn(l') > MoneyIn(l) then 1 else 0) + Credits(l', ops[1..], p)
  }

  ghost function Debits(l: Ledger, ops: seq<Op>, p: Id): nat
    requires IsRun(l, ops) && OnlyEvents(ops)
    decreases |ops|
  {
    if ops == [] then 0
    else
      var l' := After(l, ops[0]);
      (if Touched(ops[0]) == p && MoneyIn(l') < MoneyIn(l) then 1 else 0) + Debits(l', ops[1..], p)
  }

  function One(b: bool): nat {
    if b then 1 else 0
  }

  function PaidIn(l: Ledger, p: Id): nat {
    One(StatusIn(l, p) == Some(Succeeded))
  }

  // Money moves up on the way into succeeded, down on the way out, and not otherwise.
  predicate MoneyFollows(before: Option<PaymentStatus>, after: Option<PaymentStatus>, moved: int) {
    if before != Some(Succeeded) && after == Some(Succeeded) then moved > 0
    else if before == Some(Succeeded) && after != Some(Succeeded) then moved < 0
    else moved == 0
  }

  // One event in the life of a payment, by the policy.
  predicate LivesOn(before: Option<PaymentStatus>, after: Option<PaymentStatus>, credit: nat, debit: nat) {
    var paid, paid' := One(before == Some(Succeeded)), One(after == Some(Succeeded));
    && RankOf(before) <= RankOf(after)
    && (RankOf(before) >= 2 ==> after == before || (before == Some(Succeeded) && after == Some(Refund)))
    && credit <= One(RankOf(before) < 2) && (credit == 1 ==> RankOf(after) >= 2)
    && debit <= paid && paid' == paid + credit - debit
  }

  lemma PolicyLivesOn(before: Option<PaymentStatus>, after: Option<PaymentStatus>, event: PaymentStatus, moved: int)
    requires after == StatusAfter(before, event) || after == before
    requires MoneyFollows(before, after, moved)
    ensures LivesOn(before, after, One(moved > 0), One(moved < 0))
  {
    if before.Some? { StatusPolicy(before.value, event); }
  }

  lemma EventInLife(l: Ledger, op: Op, p: Id)
    requires op.Event? && WellFormed(l) && Possible(l, op)
    ensures var moved := if Touched(op) == p then MoneyIn(After(l, op)) - MoneyIn(l) else 0;
            LivesOn(StatusIn(l, p), StatusIn(After(l, op), p), One(moved > 0), One(moved < 0))
  {
    EventEffect(l, op);
    if Touched(op) == p {
      PolicyLivesOn(StatusIn(l, p), StatusIn(After(l, op), p), op.status, MoneyIn(After(l, op)) - MoneyIn(l));
    }
  }

  // Over any run of provider events a payment's status never goes back, it is credited at most once
  // and only if it was undecided, debited at most once and only when it holds money; what it holds at
  // the end is what was credited and not debited.
  lemma {:induction false} PaymentLife(l: Ledger, ops: seq<Op>, p: Id)
    requires WellFormed(l) && IsRun(l, ops) && OnlyEvents(ops)
    ensures var l' := Run(l, ops);
            && RankIn(l, p) <= RankIn(l', p)
            && (RankIn(l, p) >= 2 ==> StatusIn(l', p) == StatusIn(l, p)
                                      || (StatusIn(l, p) == Some(Succeeded) && StatusIn(l', p) == Some(Refund)))
            && Credits(l, ops, p) <= (if RankIn(l, p) < 2 then 1 else 0)
            && Debits(l, ops, p) <= Credits(l, ops, p) + PaidIn(l, p)
            && PaidIn(l', p) == PaidIn(l, p) + Credits(l, ops, p) - Debits(l, ops, p)
    decreases |ops|
  {
    if ops != [] {
      var l1 := After(l, ops[0]);
      EventInLife(l, ops[0], p);
      EventKeepsWellFormed(l, ops[0]);
      PaymentLife(l1, ops[1..], p);
    }
  }

  // ---- which payment an intent stands for ----

  predicate IsProviderEvent(op: Op) {
    op.Event? && op.status != Initial
  }

  predicate Bound(l: Ledger, intent: string, p: Id) {
    p in l.payments && l.payments[p].intent == intent && l.payments[p].status != Initial
  }

  // An event that is not thrown out binds its intent to the payment it touched.
  lemma EventBinds(l: Ledger, op: Op)
    requires IsProviderEvent(op) && WellFormed(l) && Possible(l, op) && Perform(l, op).Success?
    ensures Bound(After(l, op), op.data.intent, Touched(op))
  {
    match op
    case Event(_, data, status, None, home, newId) =>
      CreateIncomingShape(l, home.value, newId, data, status);
    case Event(_, data, status, Some(id), _, _) =>
      StatusPolicy(l.payments[id].status, status);
      UpdateIfAllowedShape(l, id, data, status);
  }

  // Once bound, an intent resolves to its payment and no other intent can take that payment.
  lemma BoundResolves(l: Ledger, op: Op, intent: string, p: Id)
    requires IsProviderEvent(op) && WellFormed(l) && Possible(l, op) && Bound(l, intent, p)
    ensures op.data.intent == intent <==> op.found == Some(p)
    ensures Bound(After(l, op), intent, p)
  {
    if op.found.Some? && Perform(l, op).Success? {
      UpdateIfAllowedShape(l, op.found.value, op.data, op.status);
      StatusPolicy(l.payments[op.found.value].status, op.status);
    } else if Perform(l, op).Success? {
      CreateIncomingShape(l, op.home.value, op.newId, op.data, op.status);
    }
  }

  lemma {:induction false} BoundForGood(l: Ledger, ops: seq<Op>, intent: string, p: Id)
    requires WellFormed(l) && IsRun(l, ops) && Bound(l, intent, p)
    requires forall op :: op in ops ==> IsProviderEvent(op)
    ensures Bound(Run(l, ops), intent, p)
    ensures forall op :: op in ops ==> op.Event? && (op.data.intent == intent <==> op.found == Some(p))
    decreases |ops|
  {
    if ops != [] {
      BoundResolves(l, ops[0], intent, p);
      EventKeepsWellFormed(l, ops[0]);
      BoundForGood(After(l, ops[0]), ops[1..], intent, p);
    }
  }

  // From the first event of an intent that is not thrown out, exactly the events of that intent
  // resolve to the payment it was given, an open subscription placeholder included: no later event of
  // the intent goes elsewhere, and no other intent claims the payment.
  lemma OneIntentOnePayment(l: Ledger, ops: seq<Op>)
    requires WellFormed(l) && ops != [] && IsRun(l, ops) && Perform(l, ops[0]).Success? && ops[0].Event?
    requires forall op :: op in ops ==> IsProviderEvent(op)
    ensures forall op :: op in ops[1..] ==>
              op.Event? && (op.data.intent == ops[0].data.intent <==> op.found == Some(Touched(ops[0])))
    ensures Bound(Run(l, ops), ops[0].data.intent, Touched(ops[0]))
  {
    EventBinds(l, ops[0]);
    EventKeepsWellFormed(l, ops[0]);
    BoundForGood(After(l, ops[0]), ops[1..], ops[0].data.intent, Touched(ops[0]));
  }
}
