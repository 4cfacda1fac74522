// The status policy every provider event goes through
// (apps/api/src/donations/helpers/donation-status-updates.ts).
module PaymentStatuses {
  import opened Wrappers

  datatype PaymentStatus =
    | Initial
    | Invalid
    | Incomplete
    | Declined
    | Waiting
    | Cancelled
    | Guaranteed
    | Succeeded
    | Deleted
    | Refund
    | PaymentRequested

  const CHANGEABLE: set<PaymentStatus> := {Incomplete, PaymentRequested, Waiting, Declined, Guaranteed}
  const FINAL: set<PaymentStatus> := {Succeeded, Cancelled, Deleted, Invalid, Refund}

  predicate IsInitial(status: PaymentStatus) { status == Initial }

  predicate IsChangeable(status: PaymentStatus) { status in CHANGEABLE }

  predicate IsFinal(status: PaymentStatus) { status in FINAL }

  predicate IsRefundable(old': PaymentStatus, new': PaymentStatus) {
    old' == Succeeded && new' == Refund
  }

  function ShouldAllowStatusChange(old': PaymentStatus, new': PaymentStatus): Result<bool> {
    if old' == new' || IsRefundable(old', new') then Success(true)
    else if IsFinal(old') || IsInitial(new') then Success(false)
    else if (IsFinal(new') || IsChangeable(new')) && (IsChangeable(old') || IsInitial(old')) then Success(true)
    else Failure(Internal)
  }

  // The life of a payment: not started, in progress, decided, given back.
  function Rank(status: PaymentStatus): nat {
    if status == Initial then 0
    else if status == Refund then 3
    else if IsFinal(status) then 2
    else 1
  }

  predicate Allowed(old': PaymentStatus, new': PaymentStatus) {
    ShouldAllowStatusChange(old', new') == Success(true)
  }

  // Statuses that money may still follow.
  const UNDECIDED: set<PaymentStatus> := {Initial, Incomplete, PaymentRequested, Waiting, Declined, Guaranteed}

  // The "unhandled status change" error is unreachable, and the policy is exactly this: an undecided
  // status may become anything but initial, a decided one stays, except succeeded, which may become refund.
  lemma StatusPolicy(old': PaymentStatus, new': PaymentStatus)
    ensures ShouldAllowStatusChange(old', new').Success?
    ensures Allowed(old', new')
       <==> old' == new' || (old' == Succeeded && new' == Refund)
            || (old' in UNDECIDED && new' != Initial)
    ensures IsFinal(old') <==> old' in {Succeeded, Cancelled, Deleted, Invalid, Refund}
    ensures Allowed(old', new') ==> Rank(old') <= Rank(new')
  {
  }

  // The ranks by name.
  lemma Ranks(status: PaymentStatus)
    ensures Rank(status) < 2 <==> status in UNDECIDED
    ensures Rank(status) == 0 <==> status == Initial
    ensures Rank(status) == 3 <==> status == Refund
    ensures Rank(status) == 2 <==> status in {Succeeded, Cancelled, Deleted, Invalid}
  {
  }

  // What one more event leaves as the stored status; None while no payment exists.
  function StatusAfter(status: Option<PaymentStatus>, event: PaymentStatus): Option<PaymentStatus> {
    if status.None? || Allowed(status.value, event) then Some(event) else status
  }

  function StatusAfterAll(status: Option<PaymentStatus>, events: seq<PaymentStatus>): Option<PaymentStatus>
    decreases |events|
  {
    if events == [] then status else StatusAfterAll(StatusAfter(status, events[0]), events[1..])
  }

  lemma StatusPolicyFor(status: Option<PaymentStatus>, event: PaymentStatus)
    ensures IsOpen(StatusAfter(status, event)) ==> IsOpen(status) && Rank(event) < 2
    ensures IsOpen(status) && event != Initial ==> StatusAfter(status, event) == Some(event)
  {
  }

  // Decided against the donor's money arriving.
  predicate IsAbandoned(status: PaymentStatus) {
    status in {Cancelled, Deleted, Invalid}
  }

  predicate IsOpen(status: Option<PaymentStatus>) {
    status.None? || Rank(status.value) < 2
  }

  // The delivered kinds leave the outcome to the delivery order: money arrived, was not given back,
  // and some other event says the payment was abandoned.
  ghost predicate Contradictory(kinds: set<PaymentStatus>) {
    Succeeded in kinds && Refund !in kinds && exists k :: k in kinds && IsAbandoned(k)
  }

  ghost function Kinds(events: seq<PaymentStatus>): set<PaymentStatus> {
    set e | e in events
  }

  // Whether the payment ends up holding the money, told from the set of delivered kinds alone.
  ghost predicate EndsPaid(status: Option<PaymentStatus>, kinds: set<PaymentStatus>) {
    if IsOpen(status) then Succeeded in kinds && Refund !in kinds
    else status == Some(Succeeded) && Refund !in kinds
  }

  lemma KindsStep(events: seq<PaymentStatus>)
    requires events != []
    ensures Kinds(events) == {events[0]} + Kinds(events[1..])
  {
  }

  lemma {:induction false} OutcomeFromKinds(status: Option<PaymentStatus>, events: seq<PaymentStatus>)
    requires IsOpen(status) ==> !Contradictory(Kinds(events))
    ensures StatusAfterAll(status, events) == Some(Succeeded) <==> EndsPaid(status, Kinds(events))
    decreases |events|
  {
    if events != [] {
      KindsStep(events);
      StatusPolicyFor(status, events[0]);
      if IsOpen(status) && IsAbandoned(events[0]) {
        assert events[0] in Kinds(events);
      }
      OutcomeFromKinds(StatusAfter(status, events[0]), events[1..]);
    }
  }

  lemma {:induction false} ListingOf(kinds: set<PaymentStatus>) returns (events: seq<PaymentStatus>)
    ensures Kinds(events) == kinds
    decreases kinds
  {
    if kinds == {} {
      events := [];
    } else {
      var k :| k in kinds;
      var rest := ListingOf(kinds - {k});
      events := [k] + rest;
      KindsStep(events);
    }
  }

  ghost predicate OrderIrrelevant(status: Option<PaymentStatus>, kinds: set<PaymentStatus>) {
    forall a: seq<PaymentStatus>, b: seq<PaymentStatus> :: Kinds(a) == kinds && Kinds(b) == kinds ==>
      (StatusAfterAll(status, a) == Some(Succeeded) <==> StatusAfterAll(status, b) == Some(Succeeded))
  }

  lemma FirstEventDecides(status: Option<PaymentStatus>, event: PaymentStatus, rest: seq<PaymentStatus>)
    requires IsOpen(status) && IsFinal(event)
    ensures StatusAfterAll(status, [event] + rest) == StatusAfterAll(Some(event), rest)
    ensures event in Kinds(rest) ==> Kinds([event] + rest) == Kinds(rest)
  {
    KindsStep([event] + rest);
    assert ([event] + rest)[1..] == rest;
    StatusPolicyFor(status, event);
  }

  // Two deliveries of a contradictory set: the money first, or the abandoning event first.
  lemma ContradictoryOrders(status: Option<PaymentStatus>, kinds: set<PaymentStatus>, lost: PaymentStatus)
    requires IsOpen(status) && Succeeded in kinds && Refund !in kinds && lost in kinds && IsAbandoned(lost)
    ensures !OrderIrrelevant(status, kinds)
  {
    var rest := ListingOf(kinds);
    FirstEventDecides(status, Succeeded, rest);
    FirstEventDecides(status, lost, rest);
    OutcomeFromKinds(Some(Succeeded), rest);
    OutcomeFromKinds(Some(lost), rest);
  }

  // Delivery order and repetition matter for exactly the contradictory sets of an undecided payment.
  lemma OrderIrrelevantExactly(status: Option<PaymentStatus>, kinds: set<PaymentStatus>)
    ensures OrderIrrelevant(status, kinds) <==> !(IsOpen(status) && Contradictory(kinds))
  {
    if IsOpen(status) && Contradictory(kinds) {
      var lost :| lost in kinds && IsAbandoned(lost);
      ContradictoryOrders(status, kinds, lost);
    } else {
      forall a: seq<PaymentStatus>, b: seq<PaymentStatus> | Kinds(a) == kinds && Kinds(b) == kinds
        ensures StatusAfterAll(status, a) == Some(Succeeded) <==> StatusAfterAll(status, b) == Some(Succeeded)
      {
        OutcomeFromKinds(status, a);
        OutcomeFromKinds(status, b);
      }
    }
  }

  // The Stripe refund webhook drops a refund whose payment intent has no donation yet
  // (apps/api/src/stripe/events/stripe-payment.service.ts:168-177).
  function WebhookStatusAfter(status: Option<PaymentStatus>, event: PaymentStatus): Option<PaymentStatus> {
    if status.None? && event == Refund then None else StatusAfter(status, event)
  }

  function WebhookStatusAfterAll(status: Option<PaymentStatus>, events: seq<PaymentStatus>): Option<PaymentStatus>
    decreases |events|
  {
    if events == [] then status else WebhookStatusAfterAll(WebhookStatusAfter(status, events[0]), events[1..])
  }

  function DropLeadingRefunds(events: seq<PaymentStatus>): seq<PaymentStatus> {
    if events != [] && events[0] == Refund then DropLeadingRefunds(events[1..]) else events
  }

  lemma {:induction false} WebhookIsServiceOnceKnown(status: PaymentStatus, events: seq<PaymentStatus>)
    ensures WebhookStatusAfterAll(Some(status), events) == StatusAfterAll(Some(status), events)
    decreases |events|
  {
    if events != [] {
      WebhookIsServiceOnceKnown(StatusAfter(Some(status), events[0]).value, events[1..]);
    }
  }

  // Behind the webhook only the refunds that come before every other event are lost, so a payment
  // ends up paid exactly when money arrived and no refund followed the first other event.
  lemma {:induction false} WebhookOutcome(events: seq<PaymentStatus>)
    ensures WebhookStatusAfterAll(None, events) == StatusAfterAll(None, DropLeadingRefunds(events))
    ensures !Contradictory(Kinds(DropLeadingRefunds(events))) ==>
            (WebhookStatusAfterAll(None, events) == Some(Succeeded)
             <==> EndsPaid(None, Kinds(DropLeadingRefunds(events))))
    decreases |events|
  {
    if events != [] {
      if events[0] == Refund {
        WebhookOutcome(events[1..]);
      } else {
        WebhookIsServiceOnceKnown(events[0], events[1..]);
      }
    }
    if !Contradictory(Kinds(DropLeadingRefunds(events))) {
      OutcomeFromKinds(None, DropLeadingRefunds(events));
    }
  }

  lemma {:induction false} DroppedKinds(events: seq<PaymentStatus>)
    ensures Kinds(DropLeadingRefunds(events)) <= Kinds(events) <= Kinds(DropLeadingRefunds(events)) + {Refund}
    decreases |events|
  {
    if events != [] && events[0] == Refund {
      KindsStep(events);
      DroppedKinds(events[1..]);
    }
  }

  ghost predicate WebhookOrderIrrelevant(status: Option<PaymentStatus>, kinds: set<PaymentStatus>) {
    forall a: seq<PaymentStatus>, b: seq<PaymentStatus> :: Kinds(a) == kinds && Kinds(b) == kinds ==>
      (WebhookStatusAfterAll(status, a) == Some(Succeeded) <==> WebhookStatusAfterAll(status, b) == Some(Succeeded))
  }

  // Money arrived and some other event decides against it, a refund included.
  ghost predicate Contested(kinds: set<PaymentStatus>) {
    Succeeded in kinds && exists k :: k in kinds && IsFinal(k) && k != Succeeded
  }

  // The delivery of a contested set that ends paid: the refunds first, which are dropped, then the money.
  lemma PaidDelivery(kinds: set<PaymentStatus>) returns (events: seq<PaymentStatus>)
    requires Succeeded in kinds
    ensures Kinds(events) == kinds && WebhookStatusAfterAll(None, events) == Some(Succeeded)
  {
    var rest := ListingOf(kinds - {Refund});
    events := [Succeeded] + rest;
    KindsStep(events);
    assert events[1..] == rest;
    WebhookIsServiceOnceKnown(Succeeded, rest);
    OutcomeFromKinds(Some(Succeeded), rest);
    if Refund in kinds {
      KindsStep([Refund] + events);
      assert ([Refund] + events)[1..] == events;
      events := [Refund] + events;
    }
  }

  // And one that does not: what decides against the money first, or the refund last.
  lemma UnpaidDelivery(kinds: set<PaymentStatus>, lost: PaymentStatus) returns (events: seq<PaymentStatus>)
    requires Succeeded in kinds && lost in kinds && IsFinal(lost) && lost != Succeeded
    ensures Kinds(events) == kinds && WebhookStatusAfterAll(None, events) != Some(Succeeded)
  {
    var first := if lost == Refund then Succeeded else lost;
    var rest := ListingOf(kinds);
    events := [first] + rest;
    KindsStep(events);
    assert events[1..] == rest;
    WebhookIsServiceOnceKnown(first, rest);
    OutcomeFromKinds(Some(first), rest);
  }

  // Behind the webhook order and repetition matter, for a payment not known yet, for exactly the
  // contested sets; for a known one as for the service.
  lemma WebhookOrderIrrelevantExactly(status: Option<PaymentStatus>, kinds: set<PaymentStatus>)
    ensures WebhookOrderIrrelevant(status, kinds)
       <==> if status.None? then !Contested(kinds) else !(IsOpen(status) && Contradictory(kinds))
  {
    if status.Some? {
      forall events: seq<PaymentStatus>
        ensures WebhookStatusAfterAll(status, events) == StatusAfterAll(status, events)
      {
        WebhookIsServiceOnceKnown(status.value, events);
      }
      OrderIrrelevantExactly(status, kinds);
      assert WebhookOrderIrrelevant(status, kinds) <==> OrderIrrelevant(status, kinds);
    } else if Contested(kinds) {
      var lost :| lost in kinds && IsFinal(lost) && lost != Succeeded;
      var paid := PaidDelivery(kinds);
      var unpaid := UnpaidDelivery(kinds, lost);
    } else {
      forall events: seq<PaymentStatus> | Kinds(events) == kinds
        ensures WebhookStatusAfterAll(None, events) == Some(Succeeded) <==> Succeeded in kinds
      {
        UncontestedOutcome(events);
      }
    }
  }

  lemma UncontestedOutcome(events: seq<PaymentStatus>)
    requires !Contested(Kinds(events))
    ensures WebhookStatusAfterAll(None, events) == Some(Succeeded) <==> Succeeded in Kinds(events)
  {
    DroppedKinds(events);
    WebhookOutcome(events);
  }

  // A refund that overtakes its own payment is lost behind the webhook.
  lemma WebhookOrderMatters()
    ensures WebhookStatusAfterAll(None, [Refund, Succeeded]) == Some(Succeeded)
    ensures WebhookStatusAfterAll(None, [Succeeded, Refund]) == Some(Refund)
  {
    WebhookOutcome([Refund, Succeeded]);
    WebhookOutcome([Succeeded, Refund]);
    assert [Refund, Succeeded][1..] == [Succeeded];
    assert [Succeeded, Refund][1..] == [Refund];
  }
}
