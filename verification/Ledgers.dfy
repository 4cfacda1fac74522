// The money tables and what each service call does to them. Every function returns the tables the
// call leaves, or the error it throws; a throwing call is rolled back.
module Ledgers {
  import opened Wrappers
  import opened Totals
  import opened PaymentStatuses

  type Id = string

  datatype CampaignState =
    | Draft | Active | Complete | PartiallyFinanced | Paused | Suspended | BlockedCampaign | DeletedCampaign

  // A campaign without a target amount has target 0.
  datatype Campaign = Campaign(state: CampaignState, target: int)

  datatype Vault = Vault(campaign: Id, amount: int, blocked: int)

  datatype Donation = Donation(amount: int, vault: Id, person: Option<string>)

  // One payment carries one donation.
  datatype Payment = Payment(
    intent: string,
    methodId: string,
    status: PaymentStatus,
    amount: int,
    charged: int,
    donation: Donation)

  // WithdrawStatus and TransferStatus have the same members.
  datatype RequestStatus =
    | InitialRequest | InvalidRequest | IncompleteRequest
    | DeclinedRequest | CancelledRequest | SucceededRequest

  datatype Withdrawal = Withdrawal(vault: Id, amount: int, status: RequestStatus)

  datatype Transfer = Transfer(source: Id, target: Id, amount: int, status: RequestStatus)

  datatype Ledger = Ledger(
    vaults: map<Id, Vault>,
    payments: map<Id, Payment>,
    withdrawals: map<Id, Withdrawal>,
    transfers: map<Id, Transfer>,
    campaigns: map<Id, Campaign>)

  predicate IsClosed(status: RequestStatus) {
    status == SucceededRequest || status == CancelledRequest || status == DeclinedRequest
  }

  // ---- vault.service.ts and the campaign status check ----

  ghost function AmountIn(campaign: Id): Vault -> int {
    (v: Vault) => if v.campaign == campaign then v.amount else 0
  }

  ghost function CampaignTotal(l: Ledger, campaign: Id): int {
    SumOf(l.vaults, AmountIn(campaign))
  }

  ghost function CompleteIfReached(l: Ledger, campaign: Id): Ledger {
    if campaign in l.campaigns
       && l.campaigns[campaign].state != Complete
       && l.campaigns[campaign].target != 0
       && CampaignTotal(l, campaign) >= l.campaigns[campaign].target
    then l.(campaigns := l.campaigns[campaign := l.campaigns[campaign].(state := Complete)])
    else l
  }

  function AddTo(l: Ledger, vault: Id, amount: int, blocked: int): Ledger
    requires vault in l.vaults
  {
    var row := l.vaults[vault];
    l.(vaults := l.vaults[vault := row.(amount := row.amount + amount, blocked := row.blocked + blocked)])
  }

  function UpdateVaultAmount(l: Ledger, vault: Id, amount: int, up: bool): Result<Ledger> {
    if amount <= 0 then Failure(Internal)
    else if vault !in l.vaults then Failure(NotFound)
    else Success(AddTo(l, vault, if up then amount else -amount, 0))
  }

  ghost function IncrementVaultAmount(l: Ledger, vault: Id, amount: int): Result<Ledger> {
    match UpdateVaultAmount(l, vault, amount, true)
    case Failure(e) => Failure(e)
    case Success(l') => Success(CompleteIfReached(l', l'.vaults[vault].campaign))
  }

  function DecrementVaultAmount(l: Ledger, vault: Id, amount: int): Result<Ledger> {
    UpdateVaultAmount(l, vault, amount, false)
  }

  // ---- donations.service.ts: provider events ----

  datatype PaymentData = PaymentData(
    intent: string,
    net: int,
    charged: int,
    methodId: Option<string>,
    person: Option<string>)

  predicate HasIntent(payments: map<Id, Payment>, intent: string) {
    exists id :: id in payments && payments[id].intent == intent
  }

  const SUBSCRIPTION := "subscription"

  predicate IsPlaceholder(p: Payment) {
    p.status == Initial && p.methodId == SUBSCRIPTION
  }

  // The open subscription payment that an event of an unknown intent may take over.
  predicate Claimable(p: Payment, data: PaymentData) {
    && data.person.Some? && |data.person.value| == 36
    && IsPlaceholder(p)
    && p.charged == data.charged
    && p.donation.person == data.person
  }

  // The rows findExistingDonation may return; findFirst picks any match.
  predicate Finds(l: Ledger, data: PaymentData, found: Option<Id>) {
    if HasIntent(l.payments, data.intent) then
      found.Some? && found.value in l.payments && l.payments[found.value].intent == data.intent
    else match found
      case Some(id) => id in l.payments && Claimable(l.payments[id], data)
      case None => forall id :: id in l.payments ==> !Claimable(l.payments[id], data)
  }

  predicate FindsVault(l: Ledger, campaign: Id, home: Option<Id>) {
    match home
    case Some(v) => v in l.vaults && l.vaults[v].campaign == campaign
    case None => forall v :: v in l.vaults ==> l.vaults[v].campaign != campaign
  }

  function Incoming(data: PaymentData, status: PaymentStatus, vault: Id): Payment {
    Payment(data.intent, data.methodId.GetOr(""), status, data.net, data.charged,
            Donation(data.net, vault, data.person))
  }

  function Rewritten(p: Payment, data: PaymentData, status: PaymentStatus): Payment {
    p.(status := status, amount := data.net, intent := data.intent,
       methodId := data.methodId.GetOr(p.methodId), donation := p.donation.(amount := data.net))
  }

  function WritePayment(l: Ledger, id: Id, p: Payment): Ledger {
    l.(payments := l.payments[id := p])
  }

  ghost function CreateIncomingDonation(l: Ledger, home: Option<Id>, newId: Id, data: PaymentData,
                                        status: PaymentStatus): Result<Ledger> {
    if home.None? then Failure(NotFound)
    else
      var l' := WritePayment(l, newId, Incoming(data, status, home.value));
      if status == Succeeded then IncrementVaultAmount(l', home.value, data.net) else Success(l')
  }

  ghost function UpdateDonationIfAllowed(l: Ledger, id: Id, data: PaymentData, status: PaymentStatus): Result<Ledger>
    requires id in l.payments
  {
    var p := l.payments[id];
    match ShouldAllowStatusChange(p.status, status)
    case Failure(e) => Failure(e)
    case Success(false) => Success(l)
    case Success(true) =>
      var l' := WritePayment(l, id, Rewritten(p, data, status));
      if p.status != Succeeded && status == Succeeded then
        IncrementVaultAmount(l', p.donation.vault, data.net)
      else if p.status == Succeeded && status == Refund then
        DecrementVaultAmount(l', p.donation.vault, data.net)
      else Success(l')
  }

  ghost function UpdateDonationPayment(l: Ledger, found: Option<Id>, home: Option<Id>, newId: Id,
                                       data: PaymentData, status: PaymentStatus): Result<Ledger>
    requires found.Some? ==> found.value in l.payments
  {
    match found
    case None => CreateIncomingDonation(l, home, newId, data, status)
    case Some(id) => UpdateDonationIfAllowed(l, id, data, status)
  }

  // ---- donations.service.ts: bank import and admin actions ----

  datatype BankPayment = BankPayment(intent: string, amount: int, vault: Id)

  function ImportedPayment(bank: BankPayment): Payment {
    Payment(bank.intent, "imported bank payment", Succeeded, bank.amount, 0,
            Donation(bank.amount, bank.vault, None))
  }

  ghost function CreateUpdateBankPayment(l: Ledger, newId: Id, bank: BankPayment): Result<Ledger> {
    if HasIntent(l.payments, bank.intent) then Success(l)
    else IncrementVaultAmount(WritePayment(l, newId, ImportedPayment(bank)), bank.vault, bank.amount)
  }

  datatype DonorChange = KeepDonor | SetDonor(person: string) | UnknownDonor

  datatype PaymentChange = PaymentChange(
    status: Option<PaymentStatus>,
    donor: DonorChange,
    donationKnown: bool)

  function Adjusted(p: Payment, change: PaymentChange): Payment {
    p.(status := change.status.GetOr(p.status),
       donation := if change.donor.SetDonor? then p.donation.(person := Some(change.donor.person)) else p.donation)
  }

  ghost function UpdatePayment(l: Ledger, id: Id, change: PaymentChange): Result<Ledger> {
    if id !in l.payments then Failure(NotFound)
    else
      var p := l.payments[id];
      if p.status == Succeeded && change.status.Some? && change.status != Some(Succeeded) then Failure(BadRequest)
      else if change.donor.UnknownDonor? || !change.donationKnown then Failure(NotFound)
      else
        var l' := WritePayment(l, id, Adjusted(p, change));
        if p.status != Succeeded && change.status == Some(Succeeded) then
          IncrementVaultAmount(l', p.donation.vault, p.amount)
        else Success(l')
  }

  function InvalidatePayment(l: Ledger, id: Id): Result<Ledger> {
    if id !in l.payments then Failure(NotFound)
    else
      var p := l.payments[id];
      var debited := if p.status == Succeeded then DecrementVaultAmount(l, p.donation.vault, p.amount) else Success(l);
      match debited
      case Failure(_) => Failure(NotFound)
      case Success(l') => Success(WritePayment(l', id, p.(status := Invalid)))
  }

  // ---- withdrawal.service.ts ----

  datatype RequestChange = RequestChange(
    source: Option<Id>,
    target: Option<Id>,
    amount: Option<int>,
    status: Option<RequestStatus>,
    approved: bool)

  function WriteWithdrawal(l: Ledger, id: Id, w: Withdrawal): Ledger {
    l.(withdrawals := l.withdrawals[id := w])
  }

  function CreateWithdrawal(l: Ledger, newId: Id, w: Withdrawal): Result<Ledger> {
    if w.vault !in l.vaults then Failure(NotFound)
    else if l.vaults[w.vault].amount - l.vaults[w.vault].blocked - w.amount < 0 then Failure(BadRequest)
    else Success(AddTo(WriteWithdrawal(l, newId, w), w.vault, 0, w.amount))
  }

  function UpdateWithdrawal(l: Ledger, id: Id, change: RequestChange): Result<Ledger> {
    if id !in l.withdrawals then Failure(NotFound)
    else
      var w := l.withdrawals[id];
      if IsClosed(w.status) then Failure(BadRequest)
      else if change.source != Some(w.vault) || change.amount != Some(w.amount) then Failure(BadRequest)
      else if w.vault !in l.vaults then Failure(NotFound)
      else
        var l' := WriteWithdrawal(l, id, w.(status := change.status.GetOr(w.status)));
        if change.status == Some(SucceededRequest) then
          if change.approved then Success(AddTo(l', w.vault, -w.amount, -w.amount)) else Failure(BadRequest)
        else if change.status == Some(DeclinedRequest) || change.status == Some(CancelledRequest) then
          Success(AddTo(l', w.vault, 0, -w.amount))
        else Success(l')
  }

  function RemoveWithdrawal(l: Ledger, id: Id): Result<Ledger>
    requires id in l.withdrawals ==> l.withdrawals[id].vault in l.vaults
  {
    if id !in l.withdrawals then Failure(BadRequest)
    else
      var w := l.withdrawals[id];
      Success(AddTo(l.(withdrawals := l.withdrawals - {id}), w.vault,
                    if w.status == SucceededRequest then w.amount else 0,
                    if IsClosed(w.status) then 0 else -w.amount))
  }

  // ---- transfer.service.ts ----

  function WriteTransfer(l: Ledger, id: Id, t: Transfer): Ledger {
    l.(transfers := l.transfers[id := t])
  }

  function CreateTransfer(l: Ledger, newId: Id, t: Transfer): Result<Ledger> {
    if t.source !in l.vaults then Failure(NotFound)
    else if l.vaults[t.source].amount - l.vaults[t.source].blocked - t.amount < 0 then Failure(BadRequest)
    else if t.target !in l.vaults then Failure(NotFound)
    else Success(AddTo(WriteTransfer(l, newId, t), t.source, 0, t.amount))
  }

  function UpdateTransfer(l: Ledger, id: Id, change: RequestChange): Result<Ledger> {
    if id !in l.transfers then Failure(NotFound)
    else
      var t := l.transfers[id];
      if IsClosed(t.status) then Failure(BadRequest)
      else if change.source != Some(t.source) || change.amount != Some(t.amount) then Failure(BadRequest)
      else if t.source !in l.vaults || t.target !in l.vaults then Failure(NotFound)
      else if change.status == Some(SucceededRequest) && !change.approved then Failure(BadRequest)
      else if change.target.GetOr(t.target) !in l.vaults then Failure(NotFound)
      else
        var t' := t.(status := change.status.GetOr(t.status), target := change.target.GetOr(t.target));
        var l' := WriteTransfer(l, id, t');
        if change.status == Some(SucceededRequest) then
          Success(AddTo(AddTo(l', t.source, -t.amount, -t.amount), t.target, t.amount, 0))
        else if change.status == Some(DeclinedRequest) || change.status == Some(CancelledRequest) then
          Success(AddTo(l', t.source, 0, -t.amount))
        else Success(l')
  }

  // ---- runs ----

  // One service call. `found`, `home` and `newId` are the database's choices: the row a findFirst
  // returns and the id a new row gets.
  datatype Op =
    | Event(campaign: Id, data: PaymentData, status: PaymentStatus, found: Option<Id>, home: Option<Id>, newId: Id)
    | BankImport(bank: BankPayment, newId: Id)
    | AdminUpdate(payment: Id, change: PaymentChange)
    | Invalidate(payment: Id)
    | WithdrawCreate(withdrawal: Withdrawal, newId: Id)
    | WithdrawUpdate(request: Id, edit: RequestChange)
    | WithdrawRemove(request: Id)
    | TransferCreate(transfer: Transfer, newId: Id)
    | TransferUpdate(request: Id, edit: RequestChange)

  // The database could make these choices in these tables.
  predicate Possible(l: Ledger, op: Op) {
    match op
    case Event(campaign, data, _, found, home, newId) =>
      Finds(l, data, found) && FindsVault(l, campaign, home) && newId !in l.payments
    case BankImport(_, newId) => newId !in l.payments
    case WithdrawCreate(_, newId) => newId !in l.withdrawals
    case WithdrawRemove(id) => id in l.withdrawals ==> l.withdrawals[id].vault in l.vaults
    case TransferCreate(_, newId) => newId !in l.transfers
    case _ => true
  }

  ghost function Perform(l: Ledger, op: Op): Result<Ledger>
    requires Possible(l, op)
  {
    match op
    case Event(_, data, status, found, home, newId) => UpdateDonationPayment(l, found, home, newId, data, status)
    case BankImport(bank, newId) => CreateUpdateBankPayment(l, newId, bank)
    case AdminUpdate(id, change) => UpdatePayment(l, id, change)
    case Invalidate(id) => InvalidatePayment(l, id)
    case WithdrawCreate(w, newId) => CreateWithdrawal(l, newId, w)
    case WithdrawUpdate(id, edit) => UpdateWithdrawal(l, id, edit)
    case WithdrawRemove(id) => RemoveWithdrawal(l, id)
    case TransferCreate(t, newId) => CreateTransfer(l, newId, t)
    case TransferUpdate(id, edit) => UpdateTransfer(l, id, edit)
  }

  ghost function After(l: Ledger, op: Op): Ledger
    requires Possible(l, op)
  {
    match Perform(l, op)
    case Success(l') => l'
    case Failure(_) => l
  }

  ghost predicate IsRun(l: Ledger, ops: seq<Op>)
    decreases |ops|
  {
    ops == [] || (Possible(l, ops[0]) && IsRun(After(l, ops[0]), ops[1..]))
  }

  ghost function Run(l: Ledger, ops: seq<Op>): Ledger
    requires IsRun(l, ops)
    decreases |ops|
  {
    if ops == [] then l else Run(After(l, ops[0]), ops[1..])
  }
}
