// Provider events may arrive in any order and any number of times: the balances do not depend on it.
module DeliveryOrder {
  import opened Wrappers
  import opened Totals
  import opened PaymentStatuses
  import opened Ledgers
  import opened Conservation
  import opened CampaignSummary
  import opened PaymentHistory

  // What is fixed about a payment intent: its net amount and the vault its campaign's money goes to.
  datatype Intended = Intended(net: int, vault: Id)
  type Plan = map<string, Intended>

  // A vault set cannot tell two vaults apart when it has both or neither.
  predicate SameSide(vaults: set<Id>, v: Id, w: Id) {
    v in vaults <==> w in vaults
  }

  // A provider event of a planned intent. Events that move money carry the intent's positive net amount;
  // the others may carry any, as an intent without a charge carries 0.
  predicate Follows(op: Op, plan: Plan, vaults: set<Id>) {
    && IsProviderEvent(op)
    && op.data.intent in plan
    && (op.status in {Succeeded, Refund} ==> op.data.net == plan[op.data.intent].net > 0)
    && op.home.Some? && SameSide(vaults, op.home.value, plan[op.data.intent].vault)
  }

  predicate AllFollow(ops: seq<Op>, plan: Plan, vaults: set<Id>) {
    forall op :: op in ops ==> Follows(op, plan, vaults)
  }

  // Existing payments of planned intents, and the open placeholders any of them might claim, are on
  // their plan's side of the vault set.
  predicate Located(l: Ledger, plan: Plan, vaults: set<Id>) {
    forall p :: p in l.payments ==>
      var row := l.payments[p];
      && (row.intent in plan ==> SameSide(vaults, row.donation.vault, plan[row.intent].vault))
      && (IsPlaceholder(row) ==> forall i :: i in plan ==> SameSide(vaults, row.donation.vault, plan[i].vault))
  }

  // The status of the payment an intent is bound to.
  ghost function Standing(l: Ledger, intent: string): Option<PaymentStatus> {
    if exists p :: Bound(l, intent, p) then
      var p :| Bound(l, intent, p);
      Some(l.payments[p].status)
    else None
  }

  lemma StandingOfBound(l: Ledger, intent: string, p: Id)
    requires WellFormed(l) && Bound(l, intent, p)
    ensures Standing(l, intent) == Some(l.payments[p].status)
  {
  }

  lemma StandingOfUnbound(l: Ledger, intent: string)
    requires forall p :: p in l.payments && l.payments[p].intent == intent ==> l.payments[p].status == Initial
    ensures Standing(l, intent) == None
  {
  }

  // A planned event never throws.
  lemma PlannedEventSucceeds(l: Ledger, op: Op, plan: Plan, vaults: set<Id>)
    requires WellFormed(l) && Possible(l, op) && Follows(op, plan, vaults)
    ensures Perform(l, op).Success?
  {
    if op.found.Some? {
      StatusPolicy(l.payments[op.found.value].status, op.status);
    }
  }

  // The status a bound payment has; a placeholder counts as none.
  function BoundStatus(l: Ledger, p: Id): Option<PaymentStatus> {
    if p in l.payments && l.payments[p].status != Initial then Some(l.payments[p].status) else None
  }

  function Worth(status: Option<PaymentStatus>, net: int): int {
    if status == Some(Succeeded) then net else 0
  }

  // The event writes its own payment alone, by the policy, and moves the difference in the payment's vault.
  ghost predicate WritesByPlan(l: Ledger, op: Op)
    requires op.Event? && Possible(l, op)
  {
    var l', p := After(l, op), Touched(op);
    && p in l'.payments
    && (forall q :: q != p ==> (q in l'.payments <==> q in l.payments)
                               && (q in l.payments ==> l'.payments[q] == l.payments[q]))
    && Some(l'.payments[p].status) == StatusAfter(BoundStatus(l, p), op.status)
    && var home := l'.payments[p].donation.vault;
    && home in l.vaults
    && (if p in l.payments then home == l.payments[p].donation.vault else op.home == Some(home))
    && l'.vaults == AddTo(l, home, Worth(Some(l'.payments[p].status), op.data.net)
                          - Worth(BoundStatus(l, p), op.data.net), 0).vaults
  }

  lemma SkippedEventWrites(l: Ledger, op: Op)
    requires IsProviderEvent(op) && WellFormed(l) && Possible(l, op) && op.found.Some? && Perform(l, op).Success?
    requires !Allowed(l.payments[op.found.value].status, op.status)
    ensures WritesByPlan(l, op)
  {
    var p := l.payments[op.found.value];
    StatusPolicy(p.status, op.status);
    UpdateIfAllowedShape(l, op.found.value, op.data, op.status);
    NoMove(l, p.donation.vault);
  }

  lemma FoundEventWrites(l: Ledger, op: Op)
    requires IsProviderEvent(op) && WellFormed(l) && Possible(l, op) && op.found.Some? && Perform(l, op).Success?
    requires Allowed(l.payments[op.found.value].status, op.status)
    ensures WritesByPlan(l, op)
  {
    StatusPolicy(l.payments[op.found.value].status, op.status);
    UpdateIfAllowedShape(l, op.found.value, op.data, op.status);
  }

  lemma NewEventWrites(l: Ledger, op: Op)
    requires IsProviderEvent(op) && WellFormed(l) && Possible(l, op) && op.found.None? && Perform(l, op).Success?
    ensures WritesByPlan(l, op)
  {
    CreateIncomingShape(l, op.home.value, op.newId, op.data, op.status);
  }

  lemma PlannedEventShape(l: Ledger, op: Op, plan: Plan, vaults: set<Id>)
    requires WellFormed(l) && Possible(l, op) && Follows(op, plan, vaults)
    ensures WellFormed(After(l, op)) && Bound(After(l, op), op.data.intent, Touched(op)) && WritesByPlan(l, op)
  {
    PlannedEventSucceeds(l, op, plan, vaults);
    EventKeepsWellFormed(l, op);
    EventBinds(l, op);
    if op.found.None? {
      NewEventWrites(l, op);
    } else if Allowed(l.payments[op.found.value].status, op.status) {
      FoundEventWrites(l, op);
    } else {
      SkippedEventWrites(l, op);
    }
  }

  lemma StandingBefore(l: Ledger, op: Op)
    requires WellFormed(l) && Possible(l, op) && IsProviderEvent(op)
    ensures Standing(l, op.data.intent) == BoundStatus(l, Touched(op))
  {
    var p := Touched(op);
    if Bound(l, op.data.intent, p) {
      StandingOfBound(l, op.data.intent, p);
    } else {
      StandingOfUnbound(l, op.data.intent);
    }
  }

  lemma StandingOfOthers(l: Ledger, op: Op, plan: Plan, vaults: set<Id>, intent: string)
    requires WellFormed(l) && Possible(l, op) && Follows(op, plan, vaults) && intent != op.data.intent
    ensures Standing(After(l, op), intent) == Standing(l, intent)
  {
    var l' := After(l, op);
    PlannedEventShape(l, op, plan, vaults);
    if p :| Bound(l, intent, p) {
      BoundResolves(l, op, intent, p);
      StandingOfBound(l, intent, p);
      StandingOfBound(l', intent, p);
    } else {
      forall p | p in l'.payments && l'.payments[p].intent == intent
        ensures l'.payments[p].status == Initial
      {
        assert l.payments[p] == l'.payments[p];
        assert !Bound(l, intent, p);
      }
      StandingOfUnbound(l', intent);
    }
  }

  lemma StandingStep(l: Ledger, op: Op, plan: Plan, vaults: set<Id>, intent: string)
    requires WellFormed(l) && Possible(l, op) && Follows(op, plan, vaults)
    ensures Standing(After(l, op), intent)
         == if intent == op.data.intent then StatusAfter(Standing(l, intent), op.status) else Standing(l, intent)
  {
    if intent == op.data.intent {
      PlannedEventShape(l, op, plan, vaults);
      StandingBefore(l, op);
      StandingOfBound(After(l, op), intent, Touched(op));
    } else {
      StandingOfOthers(l, op, plan, vaults, intent);
    }
  }

  // ---- the money the planned intents hold ----

  ghost function Holds(l: Ledger, plan: Plan, vaults: set<Id>): string -> int {
    (i: string) => if i in plan && plan[i].vault in vaults && Standing(l, i) == Some(Succeeded) then plan[i].net else 0
  }

  lemma LocatedStep(l: Ledger, op: Op, plan: Plan, vaults: set<Id>)
    requires WellFormed(l) && Possible(l, op) && Follows(op, plan, vaults) && Located(l, plan, vaults)
    ensures Located(After(l, op), plan, vaults)
  {
    PlannedEventShape(l, op, plan, vaults);
  }

  lemma TouchedSide(l: Ledger, op: Op, plan: Plan, vaults: set<Id>)
    requires WellFormed(l) && Possible(l, op) && Follows(op, plan, vaults) && Located(l, plan, vaults)
    ensures var l' := After(l, op);
            Touched(op) in l'.payments
            && SameSide(vaults, l'.payments[Touched(op)].donation.vault, plan[op.data.intent].vault)
  {
    PlannedEventShape(l, op, plan, vaults);
  }

  lemma MoneyWithinMoved(l: Ledger, l': Ledger, vaults: set<Id>, v: Id, amount: int)
    requires v in l.vaults && l'.vaults == AddTo(l, v, amount, 0).vaults
    ensures SumOver(vaults, AmountOf(l')) == SumOver(vaults, AmountOf(l)) + (if v in vaults then amount else 0)
  {
    SumOverChange(vaults, AmountOf(l), AmountOf(l'), v);
  }

  // What the event adds to the money its intent holds.
  ghost function Gain(l: Ledger, op: Op): int
    requires op.Event?
  {
    var before := Standing(l, op.data.intent);
    Worth(StatusAfter(before, op.status), op.data.net) - Worth(before, op.data.net)
  }

  lemma VaultsGain(l: Ledger, op: Op, plan: Plan, vaults: set<Id>)
    requires WellFormed(l) && Possible(l, op) && Follows(op, plan, vaults) && Located(l, plan, vaults)
    ensures SumOver(vaults, AmountOf(After(l, op)))
         == SumOver(vaults, AmountOf(l)) + (if plan[op.data.intent].vault in vaults then Gain(l, op) else 0)
  {
    var l' := After(l, op);
    PlannedEventShape(l, op, plan, vaults);
    TouchedSide(l, op, plan, vaults);
    StandingBefore(l, op);
    MoneyWithinMoved(l, l', vaults, l'.payments[Touched(op)].donation.vault, Gain(l, op));
  }

  lemma IntentsGain(l: Ledger, op: Op, plan: Plan, vaults: set<Id>)
    requires WellFormed(l) && Possible(l, op) && Follows(op, plan, vaults)
    ensures SumOver(plan.Keys, Holds(After(l, op), plan, vaults))
         == SumOver(plan.Keys, Holds(l, plan, vaults))
            + (if plan[op.data.intent].vault in vaults then Gain(l, op) else 0)
  {
    var l', i := After(l, op), op.data.intent;
    StandingStep(l, op, plan, vaults, i);
    forall other | other != i
      ensures Holds(l, plan, vaults)(other) == Holds(l', plan, vaults)(other)
    {
      StandingStep(l, op, plan, vaults, other);
    }
    SumOverChange(plan.Keys, Holds(l, plan, vaults), Holds(l', plan, vaults), i);
  }

  // The money in the vaults and the money the intents hold move together.
  lemma MoneyStep(l: Ledger, op: Op, plan: Plan, vaults: set<Id>)
    requires WellFormed(l) && Possible(l, op) && Follows(op, plan, vaults) && Located(l, plan, vaults)
    ensures var l' := After(l, op);
            SumOver(vaults, AmountOf(l')) - SumOver(plan.Keys, Holds(l', plan, vaults))
            == SumOver(vaults, AmountOf(l)) - SumOver(plan.Keys, Holds(l, plan, vaults))
  {
    VaultsGain(l, op, plan, vaults);
    IntentsGain(l, op, plan, vaults);
  }

  function KindsFor(ops: seq<Op>, intent: string): seq<PaymentStatus>
    decreases |ops|
  {
    if ops == [] then []
    else if ops[0].Event? && ops[0].data.intent == intent then [ops[0].status] + KindsFor(ops[1..], intent)
    else KindsFor(ops[1..], intent)
  }

  ghost function Delivered(ops: seq<Op>): set<(string, PaymentStatus)> {
    set op | op in ops && op.Event? :: (op.data.intent, op.status)
  }

  ghost function DeliveredFor(delivered: set<(string, PaymentStatus)>, intent: string): set<PaymentStatus> {
    set d | d in delivered && d.0 == intent :: d.1
  }

  lemma {:induction false} KindsAreDelivered(ops: seq<Op>, intent: string)
    ensures forall k :: k in KindsFor(ops, intent) <==> (intent, k) in Delivered(ops)
    decreases |ops|
  {
    if ops != [] {
      KindsAreDelivered(ops[1..], intent);
      assert ops == [ops[0]] + ops[1..];
    }
  }

  lemma {:induction false} StandingAndMoneyAfter(l: Ledger, ops: seq<Op>, plan: Plan, vaults: set<Id>)
    requires WellFormed(l) && IsRun(l, ops) && AllFollow(ops, plan, vaults) && Located(l, plan, vaults)
    ensures var l' := Run(l, ops);
            && (forall i :: i in plan ==> Standing(l', i) == StatusAfterAll(Standing(l, i), KindsFor(ops, i)))
            && SumOver(vaults, AmountOf(l')) - SumOver(plan.Keys, Holds(l', plan, vaults))
               == SumOver(vaults, AmountOf(l)) - SumOver(plan.Keys, Holds(l, plan, vaults))
    decreases |ops|
  {
    if ops != [] {
      var l1 := After(l, ops[0]);
      assert Follows(ops[0], plan, vaults);
      EventKeepsWellFormed(l, ops[0]);
      LocatedStep(l, ops[0], plan, vaults);
      MoneyStep(l, ops[0], plan, vaults);
      StandingAndMoneyAfter(l1, ops[1..], plan, vaults);
      forall i | i in plan
        ensures Standing(Run(l, ops), i) == StatusAfterAll(Standing(l, i), KindsFor(ops, i))
      {
        StandingStep(l, ops[0], plan, vaults, i);
        if ops[0].data.intent == i {
          assert KindsFor(ops, i)[1..] == KindsFor(ops[1..], i);
        }
      }
    }
  }

  // What each intent holds once a set of events has been delivered, whatever the order.
  ghost function HoldsAfter(l: Ledger, plan: Plan, vaults: set<Id>,
                            delivered: set<(string, PaymentStatus)>): string -> int {
    (i: string) => if i in plan && plan[i].vault in vaults && EndsPaid(Standing(l, i), DeliveredFor(delivered, i))
                   then plan[i].net else 0
  }

  ghost predicate Consistent(l: Ledger, plan: Plan, delivered: set<(string, PaymentStatus)>) {
    forall i :: i in plan && IsOpen(Standing(l, i)) ==> !Contradictory(DeliveredFor(delivered, i))
  }

  lemma KindsSet(ops: seq<Op>, i: string)
    ensures Kinds(KindsFor(ops, i)) == DeliveredFor(Delivered(ops), i)
  {
    KindsAreDelivered(ops, i);
    forall k ensures k in Kinds(KindsFor(ops, i)) <==> k in DeliveredFor(Delivered(ops), i) {
      assert k in DeliveredFor(Delivered(ops), i) <==> (i, k) in Delivered(ops);
    }
  }

  lemma HoldsFromDelivered(l: Ledger, l': Ledger, ops: seq<Op>, plan: Plan, vaults: set<Id>, i: string)
    requires i in plan && Standing(l', i) == StatusAfterAll(Standing(l, i), KindsFor(ops, i))
    requires Consistent(l, plan, Delivered(ops))
    ensures Holds(l', plan, vaults)(i) == HoldsAfter(l, plan, vaults, Delivered(ops))(i)
  {
    KindsSet(ops, i);
    OutcomeFromKinds(Standing(l, i), KindsFor(ops, i));
  }

  // The money in a set of vaults, told from the delivered set alone: an undecided intent contributes its
  // net amount exactly when a succeeded event and no refund was delivered.
  lemma MoneyFromDelivered(l: Ledger, ops: seq<Op>, plan: Plan, vaults: set<Id>)
    requires WellFormed(l) && IsRun(l, ops) && AllFollow(ops, plan, vaults) && Located(l, plan, vaults)
    requires Consistent(l, plan, Delivered(ops))
    ensures SumOver(vaults, AmountOf(Run(l, ops)))
         == SumOver(vaults, AmountOf(l)) - SumOver(plan.Keys, Holds(l, plan, vaults))
            + SumOver(plan.Keys, HoldsAfter(l, plan, vaults, Delivered(ops)))
  {
    StandingAndMoneyAfter(l, ops, plan, vaults);
    var l' := Run(l, ops);
    forall i | i in plan
      ensures Holds(l', plan, vaults)(i) == HoldsAfter(l, plan, vaults, Delivered(ops))(i)
    {
      HoldsFromDelivered(l, l', ops, plan, vaults, i);
    }
    SumOverSame(plan.Keys, Holds(l', plan, vaults), HoldsAfter(l, plan, vaults, Delivered(ops)));
  }

  predicate NoPlaceholders(l: Ledger) {
    forall p :: p in l.payments ==> !IsPlaceholder(l.payments[p])
  }

  lemma SumOfOne(v: Id, f: Id -> int)
    ensures SumOver({v}, f) == f(v)
  {
    SumOverRemove({v}, v, f);
    assert {v} - {v} == {};
  }

  // Without open placeholders every vault's balance depends only on which events were delivered.
  lemma DeliveryOrderIrrelevant(l: Ledger, a: seq<Op>, b: seq<Op>, plan: Plan, v: Id)
    requires WellFormed(l) && NoPlaceholders(l) && v in l.vaults
    requires forall p :: p in l.payments && l.payments[p].intent in plan ==>
               l.payments[p].donation.vault == plan[l.payments[p].intent].vault
    requires IsRun(l, a) && IsRun(l, b)
    requires forall op :: op in a + b ==>
               Follows(op, plan, l.vaults.Keys) && op.home == Some(plan[op.data.intent].vault)
    requires Delivered(a) == Delivered(b) && Consistent(l, plan, Delivered(a))
    ensures AmountOf(Run(l, a))(v) == AmountOf(Run(l, b))(v)
  {
    forall op | op in a || op in b
      ensures Follows(op, plan, {v})
    {
      assert op in a + b;
    }
    MoneyFromDelivered(l, a, plan, {v});
    MoneyFromDelivered(l, b, plan, {v});
    SumOfOne(v, AmountOf(Run(l, a)));
    SumOfOne(v, AmountOf(Run(l, b)));
  }

  // With open placeholders, whose own vaults receive the money, the total over all vaults does.
  lemma DeliveryOrderIrrelevantInTotal(l: Ledger, a: seq<Op>, b: seq<Op>, plan: Plan)
    requires WellFormed(l) && IsRun(l, a) && IsRun(l, b)
    requires forall i :: i in plan ==> plan[i].vault in l.vaults
    requires AllFollow(a + b, plan, l.vaults.Keys)
    requires Delivered(a) == Delivered(b) && Consistent(l, plan, Delivered(a))
    ensures SumOver(l.vaults.Keys, AmountOf(Run(l, a))) == SumOver(l.vaults.Keys, AmountOf(Run(l, b)))
  {
    forall op | op in a || op in b
      ensures Follows(op, plan, l.vaults.Keys)
    {
      assert op in a + b;
    }
    MoneyFromDelivered(l, a, plan, l.vaults.Keys);
    MoneyFromDelivered(l, b, plan, l.vaults.Keys);
  }
}
