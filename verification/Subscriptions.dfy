// Stripe subscriptions, the recurring donation rows that mirror them, and the webhooks that keep the
// rows up to date (apps/api/src/stripe/events/stripe-payment.service.ts:214-386,
// apps/api/src/recurring-donation/recurring-donation.service.ts).
module Subscriptions {
  import opened Wrappers
  import opened Money

  type RowId = string

  // A subscription is known by its place in the order in which Stripe created them.
  type SubId = nat

  datatype Price = Price(currency: Currency, unitAmount: Option<int>)

  // `original` and `comment` are the metadata and the cancellation comment a currency conversion leaves.
  datatype Subscription = Subscription(
    status: string,
    price: Option<Price>,
    campaign: Option<string>,
    person: Option<string>,
    original: Option<SubId>,
    comment: Option<string>)

  datatype RecurringStatus = Trialing | Active | Canceled | Incomplete | IncompleteExpired | PastDue | Unpaid

  // A Stripe id, or the same id under the prefix `converting:`.
  datatype ExtId = Plain(id: SubId) | Converting(id: SubId)

  datatype Recurring = Recurring(ext: ExtId, status: RecurringStatus, currency: Currency, amount: int, person: string)

  type Rows = map<RowId, Recurring>

  function String2RecurringDonationStatus(status: string): RecurringStatus {
    if status == "active" then Active
    else if status == "canceled" then Canceled
    else if status == "incomplete" then Incomplete
    else if status == "incomplete_expired" then IncompleteExpired
    else if status == "trialing" then Trialing
    else if status == "past_due" then PastDue
    else if status == "unpaid" then Unpaid
    else Active
  }

  // What Stripe calls a status.
  function StripeName(status: RecurringStatus): string {
    match status
    case Trialing => "trialing"
    case Active => "active"
    case Canceled => "canceled"
    case Incomplete => "incomplete"
    case IncompleteExpired => "incomplete_expired"
    case PastDue => "past_due"
    case Unpaid => "unpaid"
  }

  // Every status is read back from its name; any other name reads as active.
  lemma StatusNames(status: RecurringStatus, name: string)
    ensures String2RecurringDonationStatus(StripeName(status)) == status
    ensures (forall known :: name != StripeName(known)) ==> String2RecurringDonationStatus(name) == Active
  {
    if String2RecurringDonationStatus(name) != Active {
      assert name == StripeName(String2RecurringDonationStatus(name));
    }
  }

  function String2Currency(currency: string): Currency {
    if currency in {"BGN", "EUR", "USD"} then currency else "BGN"
  }

  // The three currencies are kept, everything else is taken for leva.
  lemma CurrenciesRead(currency: string)
    ensures currency in {"BGN", "EUR", "USD"} <==> String2Currency(currency) == currency
    ensures currency !in {"EUR", "USD"} ==> String2Currency(currency) == "BGN"
  {
  }

  // The row a findFirst on the external id may return.
  predicate FoundBy(rows: Rows, ext: ExtId, hit: Option<RowId>) {
    match hit
    case Some(r) => r in rows && rows[r].ext == ext
    case None => forall r :: r in rows ==> rows[r].ext != ext
  }

  const CONVERSION_COMMENT := "currency_conversion:"

  predicate IsConversionComment(comment: Option<string>) {
    comment.Some? && CONVERSION_COMMENT <= comment.value
  }

  predicate IsGiven(s: Option<string>) {
    s.Some? && s.value != ""
  }

  function UpdateStatus(rows: Rows, r: RowId, status: RecurringStatus): Rows
    requires r in rows
  {
    rows[r := rows[r].(status := status)]
  }

  // The event carries the subscription as Stripe sent it.
  function HandleSubscriptionCreated(rows: Rows, sub: SubId, event: Subscription, hit: Option<RowId>,
                                     vaultFound: bool, newRow: RowId): Result<Rows> {
    if hit.Some? || event.original.Some? then Success(rows)
    else if !IsGiven(event.campaign) || !IsGiven(event.person) || !vaultFound then Failure(BadRequest)
    else if event.price.None? then Failure(BadRequest)
    else if event.price.value.unitAmount.None? || event.price.value.unitAmount.value == 0 then Failure(BadRequest)
    else
      Success(rows[newRow := Recurring(Plain(sub), String2RecurringDonationStatus(event.status),
                                       String2Currency(event.price.value.currency),
                                       event.price.value.unitAmount.value, event.person.value)])
  }

  function HandleSubscriptionUpdated(rows: Rows, sub: SubId, event: Subscription, hit: Option<RowId>,
                                     vaultFound: bool, newRow: RowId): Result<Rows>
    requires hit.Some? ==> hit.value in rows
  {
    if !IsGiven(event.campaign) || !IsGiven(event.person) then Failure(BadRequest)
    else if hit.None? then HandleSubscriptionCreated(rows, sub, event, hit, vaultFound, newRow)
    else Success(UpdateStatus(rows, hit.value, String2RecurringDonationStatus(event.status)))
  }

  function HandleSubscriptionDeleted(rows: Rows, event: Subscription, hit: Option<RowId>): Result<Rows>
    requires hit.Some? ==> hit.value in rows
  {
    if IsConversionComment(event.comment) then Success(rows)
    else if !IsGiven(event.campaign) then Failure(BadRequest)
    else if hit.None? then Success(rows)
    else Success(UpdateStatus(rows, hit.value, String2RecurringDonationStatus(event.status)))
  }

  datatype Hook = CreatedHook | UpdatedHook | DeletedHook

  // What a webhook about a subscription leaves; a throwing handler writes nothing.
  function RowsAfterHook(rows: Rows, hook: Hook, sub: SubId, event: Subscription, hit: Option<RowId>,
                         vaultFound: bool, newRow: RowId): Rows
    requires FoundBy(rows, Plain(sub), hit)
  {
    var handled := match hook
                   case CreatedHook => HandleSubscriptionCreated(rows, sub, event, hit, vaultFound, newRow)
                   case UpdatedHook => HandleSubscriptionUpdated(rows, sub, event, hit, vaultFound, newRow)
                   case DeletedHook => HandleSubscriptionDeleted(rows, event, hit);
    match handled
    case Success(rows') => rows'
    case Failure(_) => rows
  }

  // ---- the conversion's writes (apps/api/src/stripe/stripe.service.ts:964-1173) ----

  function Mark(rows: Rows, old': SubId, converting: Option<RowId>, plain: Option<RowId>): Rows
    requires FoundBy(rows, Plain(old'), plain)
  {
    if converting.Some? || plain.None? then rows
    else rows[plain.value := rows[plain.value].(ext := Converting(old'))]
  }

  const CANCELED := "canceled"

  // Cancelling an already cancelled subscription is an error the conversion swallows.
  function CancelForConversion(subs: seq<Subscription>, old': SubId, currency: Currency): seq<Subscription>
    requires old' < |subs|
  {
    if subs[old'].status == CANCELED then subs
    else subs[old' := subs[old'].(status := CANCELED, comment := Some(CONVERSION_COMMENT + currency))]
  }

  // A cancellation comment is a conversion's exactly if it starts with these twenty characters.
  lemma CommentIsRecognisedExactly(comment: string)
    ensures IsConversionComment(Some(comment)) <==> |comment| >= 20 && comment[..20] == "currency_conversion:"
  {
  }

  // The comment a conversion cancels with names its currency and is recognised.
  lemma CancellationIsRecognised(subs: seq<Subscription>, old': SubId, currency: Currency)
    requires old' < |subs| && subs[old'].status != CANCELED
    ensures var sub := CancelForConversion(subs, old', currency)[old'];
            sub.status == "canceled" && sub.comment == Some("currency_conversion:" + currency)
            && IsConversionComment(sub.comment)
  {
  }

  // So the deletion event of the conversion's own cancellation is ignored.
  lemma OwnDeletionIsIgnored(subs: seq<Subscription>, old': SubId, currency: Currency, rows: Rows,
                             event: Subscription, hit: Option<RowId>)
    requires old' < |subs| && subs[old'].status != CANCELED && (hit.Some? ==> hit.value in rows)
    requires event.comment == CancelForConversion(subs, old', currency)[old'].comment
    ensures HandleSubscriptionDeleted(rows, event, hit) == Success(rows)
  {
    CancellationIsRecognised(subs, old', currency);
  }

  // One without a comment, or with any other, cancels the record it finds.
  lemma OtherDeletionCancels(rows: Rows, event: Subscription, hit: RowId)
    requires hit in rows && event.status == "canceled" && IsGiven(event.campaign)
    requires event.comment == None || !("currency_conversion:" <= event.comment.value)
    ensures HandleSubscriptionDeleted(rows, event, Some(hit)) == Success(rows[hit := rows[hit].(status := Canceled)])
  {
  }

  function Successor(sub: Subscription, old': SubId, currency: Currency, amount: int): Subscription {
    Subscription("trialing", Some(Price(currency, Some(amount))), sub.campaign, sub.person, Some(old'), None)
  }

  function Rebind(rows: Rows, old': SubId, new': SubId, currency: Currency, amount: int,
                  converting: Option<RowId>, plain: Option<RowId>): Rows
    requires FoundBy(rows, Converting(old'), converting) && FoundBy(rows, Plain(old'), plain)
  {
    if converting.Some? then
      rows[converting.value := rows[converting.value].(ext := Plain(new'), currency := currency, amount := amount,
                                                       status := Active)]
    else if plain.Some? then
      rows[plain.value := rows[plain.value].(ext := Plain(new'), currency := currency, amount := amount,
                                             status := Active)]
    else rows
  }
}
