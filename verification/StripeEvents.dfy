// What the Stripe webhooks make of charges (apps/api/src/stripe/events/stripe-payment.service.ts:38-212,
// apps/api/src/donations/helpers/payment-intent-helpers.ts:35-87): the net of every captured charge
// reaches its vault.
module StripeEvents {
  import opened Wrappers
  import opened Totals
  import opened PaymentStatuses
  import opened Ledgers
  import opened Conservation
  import opened CampaignSummary
  import opened PaymentHistory
  import opened DeliveryOrder
  import opened StripeFees
  import opened PaymentCalls

  // A donor's card payment, by payment intent.
  datatype Charge = Charge(amount: int, country: Option<string>, vault: Id)
  type Charges = map<string, Charge>

  function Net(c: Charge): int {
    NetOfCharge(c.amount, GetCountryRegion(c.country))
  }

  // An intent that has no charge yet has no net amount either; the country of its card is not looked up.
  function DataOfIntent(intent: string, c: Charge, charged: bool, methodId: Option<string>,
                        person: Option<string>): PaymentData {
    var net := if charged then NetOfCharge(c.amount, GetCountryRegion(None)) else 0;
    PaymentData(intent, net, c.amount, methodId, person)
  }

  function DataOfCharge(intent: string, c: Charge, person: Option<string>): PaymentData {
    PaymentData(intent, Net(c), c.amount, Some("card"), person)
  }

  // What Stripe sends: created, failed and canceled intents, succeeded charges and refunds.
  predicate FromStripe(op: Op, charges: Charges) {
    && op.Event? && op.data.intent in charges
    && var i, c := op.data.intent, charges[op.data.intent];
    && op.home == Some(c.vault)
    && if op.status in {Waiting, Declined, Cancelled} then
         op.data == DataOfIntent(i, c, false, op.data.methodId, op.data.person)
         || op.data == DataOfIntent(i, c, true, op.data.methodId, op.data.person)
       else
         op.status in {Succeeded, Refund} && op.data == DataOfCharge(i, c, op.data.person)
  }

  predicate AllFromStripe(ops: seq<Op>, charges: Charges) {
    forall op :: op in ops ==> FromStripe(op, charges)
  }

  // A captured charge of a payment that is new or undecided: the payment is a succeeded card payment of
  // the charge's net, which is in its vault.
  lemma CapturedChargeIsRecorded(l: Ledger, op: Op, charges: Charges)
    requires FromStripe(op, charges) && AreCharges(charges, l) && WellFormed(l) && Possible(l, op)
    requires op.status == Succeeded && (op.found.Some? ==> l.payments[op.found.value].status in UNDECIDED)
    ensures var l', id, c := After(l, op), Touched(op), charges[op.data.intent];
            && id in l'.payments
            && var p := l'.payments[id];
            && p.intent == op.data.intent && p.status == Succeeded && p.methodId == "card"
            && p.amount == p.donation.amount == NetOfCharge(c.amount, GetCountryRegion(c.country)) > 0
            && Raised(l, l', p.donation.vault, p.amount)
            && (op.found.None? ==> p.charged == c.amount && p.donation.vault == c.vault
                                   && p.donation.person == op.data.person)
  {
    var c := charges[op.data.intent];
    NetIsPositiveExactly(c.amount, GetCountryRegion(c.country));
    EventExactly(l, op);
  }

  // An intent that was created, failed or canceled moves no money; a new payment shows what was to be
  // charged, and nothing or the net for a card of no country as its amount.
  lemma OtherIntentsAreRecorded(l: Ledger, op: Op, charges: Charges)
    requires FromStripe(op, charges) && AreCharges(charges, l) && WellFormed(l) && Possible(l, op)
    requires op.status in {Waiting, Declined, Cancelled}
    ensures After(l, op).vaults == l.vaults
    ensures op.found.None? ==>
              var l', c := After(l, op), charges[op.data.intent];
              && op.newId in l'.payments
              && var p := l'.payments[op.newId];
                 && p.status == op.status && p.charged == c.amount && p.donation.vault == c.vault
                 && p.amount in {0, NetOfCharge(c.amount, Other)}
  {
    EventExactly(l, op);
  }

  // ---- deliveries ----

  // The refund webhook looks the payment up first, and does nothing about one it does not know.
  predicate IsDropped(l: Ledger, op: Op) {
    op.Event? && op.status == Refund && !HasIntent(l.payments, op.data.intent)
  }

  ghost function AfterWebhook(l: Ledger, op: Op): Ledger
    requires Possible(l, op)
  {
    if IsDropped(l, op) then l else After(l, op)
  }

  ghost predicate IsDelivery(l: Ledger, ops: seq<Op>)
    decreases |ops|
  {
    ops == [] || (Possible(l, ops[0]) && IsDelivery(AfterWebhook(l, ops[0]), ops[1..]))
  }

  ghost function Deliver(l: Ledger, ops: seq<Op>): Ledger
    requires IsDelivery(l, ops)
    decreases |ops|
  {
    if ops == [] then l else Deliver(AfterWebhook(l, ops[0]), ops[1..])
  }

  // The events that reach the donation service.
  ghost function PassedOn(l: Ledger, ops: seq<Op>): seq<Op>
    requires IsDelivery(l, ops)
    decreases |ops|
  {
    if ops == [] then []
    else if IsDropped(l, ops[0]) then PassedOn(l, ops[1..])
    else [ops[0]] + PassedOn(After(l, ops[0]), ops[1..])
  }

  lemma {:induction false} DeliveryIsARun(l: Ledger, ops: seq<Op>)
    requires IsDelivery(l, ops)
    ensures IsRun(l, PassedOn(l, ops)) && Run(l, PassedOn(l, ops)) == Deliver(l, ops)
    ensures forall op :: op in PassedOn(l, ops) ==> op in ops
    decreases |ops|
  {
    if ops != [] {
      DeliveryIsARun(AfterWebhook(l, ops[0]), ops[1..]);
      if !IsDropped(l, ops[0]) {
        assert PassedOn(l, ops)[1..] == PassedOn(After(l, ops[0]), ops[1..]);
      }
    }
  }

  predicate AreCharges(charges: Charges, l: Ledger) {
    forall i :: i in charges ==> charges[i].amount >= 100 && charges[i].vault in l.vaults
  }

  function PlanOf(charges: Charges): Plan {
    map i | i in charges :: Intended(Net(charges[i]), charges[i].vault)
  }

  lemma StripeFollowsThePlan(op: Op, charges: Charges, l: Ledger, v: Id)
    requires FromStripe(op, charges) && AreCharges(charges, l)
    ensures Follows(op, PlanOf(charges), {v})
  {
    NetIsPositiveExactly(charges[op.data.intent].amount, GetCountryRegion(charges[op.data.intent].country));
  }

  // An event that is passed on makes its intent known, and no other.
  lemma PassedOnStep(l: Ledger, op: Op, charges: Charges, v: Id)
    requires WellFormed(l) && NoPlaceholders(l) && Possible(l, op) && Follows(op, PlanOf(charges), {v})
    ensures WellFormed(After(l, op)) && NoPlaceholders(After(l, op))
    ensures forall i :: HasIntent(After(l, op).payments, i) <==> HasIntent(l.payments, i) || i == op.data.intent
  {
    var l', p := After(l, op), Touched(op);
    PlannedEventShape(l, op, PlanOf(charges), {v});
    forall i
      ensures HasIntent(l'.payments, i) <==> HasIntent(l.payments, i) || i == op.data.intent
    {
      if q :| q in l.payments && l.payments[q].intent == i && i != op.data.intent {
        assert q != p && l'.payments[q].intent == i;
      }
      if q :| q in l'.payments && l'.payments[q].intent == i && i != op.data.intent {
        assert q != p && l.payments[q].intent == i;
      }
    }
  }

  // What the service hears of an intent, by whether its payment is known at first.
  function Heard(known: bool, kinds: seq<PaymentStatus>): seq<PaymentStatus> {
    if known then kinds else DropLeadingRefunds(kinds)
  }

  lemma KindsOfFirst(first: Op, rest: seq<Op>, i: string)
    requires first.Event?
    ensures KindsFor([first] + rest, i)
         == if first.data.intent == i then [first.status] + KindsFor(rest, i) else KindsFor(rest, i)
  {
    assert ([first] + rest)[1..] == rest;
  }

  // Of the events of an unknown intent the webhooks hold back the refunds before the first other event,
  // of a known one nothing.
  lemma {:induction false} KindsPassedOn(l: Ledger, ops: seq<Op>, charges: Charges, v: Id, i: string)
    requires WellFormed(l) && NoPlaceholders(l) && IsDelivery(l, ops)
    requires AllFollow(ops, PlanOf(charges), {v})
    ensures KindsFor(PassedOn(l, ops), i) == Heard(HasIntent(l.payments, i), KindsFor(ops, i))
    decreases |ops|
  {
    if ops != [] {
      var op, rest := ops[0], ops[1..];
      assert ops == [op] + rest && Follows(op, PlanOf(charges), {v});
      KindsOfFirst(op, rest, i);
      if IsDropped(l, op) {
        KindsPassedOn(l, rest, charges, v, i);
      } else {
        PassedOnStep(l, op, charges, v);
        KindsPassedOn(After(l, op), rest, charges, v, i);
        KindsOfFirst(op, PassedOn(After(l, op), rest), i);
      }
    }
  }

  // ---- what the vaults hold ----

  // What a charge leaves in a vault, told from the kinds of its own events in their order of delivery.
  ghost function Captured(charges: Charges, ops: seq<Op>, v: Id): string -> int {
    (i: string) =>
      if i in charges && charges[i].vault == v && WebhookStatusAfterAll(None, KindsFor(ops, i)) == Some(Succeeded)
      then Net(charges[i]) else 0
  }

  predicate AreUnknown(l: Ledger, charges: Charges) {
    forall i :: i in charges ==> !HasIntent(l.payments, i)
  }

  // Whatever Stripe sends, in whatever order and however often, every vault is raised by the net of
  // exactly its charges whose own events end paid behind the webhooks. Refunds that overtake their
  // payments are delivered and dropped.
  lemma CapturedChargesReachTheirVaults(l: Ledger, ops: seq<Op>, charges: Charges, v: Id)
    requires WellFormed(l) && NoPlaceholders(l) && v in l.vaults && AreCharges(charges, l) && AreUnknown(l, charges)
    requires IsDelivery(l, ops) && AllFromStripe(ops, charges)
    ensures AmountOf(Deliver(l, ops))(v) == AmountOf(l)(v) + SumOver(charges.Keys, Captured(charges, ops, v))
  {
    var plan, passed, l' := PlanOf(charges), PassedOn(l, ops), Deliver(l, ops);
    AllOnPlan(l, ops, charges, v);
    DeliveryIsARun(l, ops);
    StandingAndMoneyAfter(l, passed, plan, {v});
    UnknownStandNowhere(l, charges);
    HeldIsCaptured(l, ops, charges, v);
    assert plan.Keys == charges.Keys;
    SumOverSame(charges.Keys, Holds(l', plan, {v}), Captured(charges, ops, v));
    NothingAddsUp(charges.Keys, Holds(l, plan, {v}));
    SumOfOne(v, AmountOf(l));
    SumOfOne(v, AmountOf(l'));
  }

  lemma AllOnPlan(l: Ledger, ops: seq<Op>, charges: Charges, v: Id)
    requires IsDelivery(l, ops) && AllFromStripe(ops, charges) && AreCharges(charges, l)
    ensures AllFollow(ops, PlanOf(charges), {v}) && AllFollow(PassedOn(l, ops), PlanOf(charges), {v})
  {
    DeliveryIsARun(l, ops);
    forall op | op in ops
      ensures Follows(op, PlanOf(charges), {v})
    {
      StripeFollowsThePlan(op, charges, l, v);
    }
  }

  lemma StandsAsWebhooksSay(l: Ledger, ops: seq<Op>, charges: Charges, v: Id, i: string)
    requires WellFormed(l) && NoPlaceholders(l) && IsDelivery(l, ops) && !HasIntent(l.payments, i)
    requires AllFollow(ops, PlanOf(charges), {v})
    ensures StatusAfterAll(None, KindsFor(PassedOn(l, ops), i)) == WebhookStatusAfterAll(None, KindsFor(ops, i))
  {
    KindsPassedOn(l, ops, charges, v, i);
    WebhookOutcome(KindsFor(ops, i));
  }

  lemma HeldIsCaptured(l: Ledger, ops: seq<Op>, charges: Charges, v: Id)
    requires WellFormed(l) && NoPlaceholders(l) && IsDelivery(l, ops) && AreUnknown(l, charges)
    requires AllFollow(ops, PlanOf(charges), {v})
    requires forall i :: i in charges ==>
               Standing(Deliver(l, ops), i) == StatusAfterAll(None, KindsFor(PassedOn(l, ops), i))
    ensures forall i :: i in charges ==>
              Holds(Deliver(l, ops), PlanOf(charges), {v})(i) == Captured(charges, ops, v)(i)
  {
    forall i | i in charges
      ensures Holds(Deliver(l, ops), PlanOf(charges), {v})(i) == Captured(charges, ops, v)(i)
    {
      StandsAsWebhooksSay(l, ops, charges, v, i);
    }
  }

  lemma UnknownStandNowhere(l: Ledger, charges: Charges)
    requires AreUnknown(l, charges)
    ensures forall i :: i in charges ==> Standing(l, i) == None
  {
    forall i | i in charges
      ensures Standing(l, i) == None
    {
      StandingOfUnbound(l, i);
    }
  }

  // Unless a charge is both canceled and captured, it is in its vault exactly if it succeeded and no
  // refund came after its first other event.
  lemma CapturedExactly(charges: Charges, ops: seq<Op>, i: string)
    requires i in charges && charges[i].amount >= 100
    requires !Contradictory(Kinds(DropLeadingRefunds(KindsFor(ops, i))))
    ensures Captured(charges, ops, charges[i].vault)(i) == Net(charges[i])
       <==> var counted := DropLeadingRefunds(KindsFor(ops, i)); Succeeded in counted && Refund !in counted
    ensures Captured(charges, ops, charges[i].vault)(i) in {0, Net(charges[i])} && Net(charges[i]) > 0
  {
    NetIsPositiveExactly(charges[i].amount, GetCountryRegion(charges[i].country));
    WebhookOutcome(KindsFor(ops, i));
  }

  lemma SameKindsSameOutcome(a: seq<Op>, b: seq<Op>, i: string)
    requires Delivered(a) == Delivered(b) && !Contested(Kinds(KindsFor(a, i)))
    ensures WebhookStatusAfterAll(None, KindsFor(a, i)) == Some(Succeeded)
       <==> WebhookStatusAfterAll(None, KindsFor(b, i)) == Some(Succeeded)
  {
    KindsAreDelivered(a, i);
    KindsAreDelivered(b, i);
    assert Kinds(KindsFor(a, i)) == Kinds(KindsFor(b, i));
    WebhookOrderIrrelevantExactly(None, Kinds(KindsFor(a, i)));
  }

  // Two deliveries of the same events leave the same in every vault whenever no charge's kinds are
  // contested: none both succeeded and refunded, nor both succeeded and canceled.
  lemma SameEventsSameVaults(l: Ledger, a: seq<Op>, b: seq<Op>, charges: Charges, v: Id)
    requires WellFormed(l) && NoPlaceholders(l) && v in l.vaults && AreCharges(charges, l) && AreUnknown(l, charges)
    requires IsDelivery(l, a) && AllFromStripe(a, charges) && IsDelivery(l, b) && AllFromStripe(b, charges)
    requires Delivered(a) == Delivered(b)
    requires forall i :: i in charges ==> !Contested(Kinds(KindsFor(a, i)))
    ensures AmountOf(Deliver(l, a))(v) == AmountOf(Deliver(l, b))(v)
  {
    CapturedChargesReachTheirVaults(l, a, charges, v);
    CapturedChargesReachTheirVaults(l, b, charges, v);
    forall i | i in charges
      ensures Captured(charges, a, v)(i) == Captured(charges, b, v)(i)
    {
      SameKindsSameOutcome(a, b, i);
    }
    SumOverSame(charges.Keys, Captured(charges, a, v), Captured(charges, b, v));
  }
}
