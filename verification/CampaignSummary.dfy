// The amounts a campaign page shows (apps/api/src/campaign/campaign.service.ts:98-139, 951-961).
module CampaignSummary {
  import opened Wrappers
  import opened Totals
  import opened PaymentStatuses
  import opened Ledgers
  import opened Conservation
  import opened Requests

  // An SQL SUM skips nulls, and is null when it sees nothing else.
  ghost function SqlSum(keys: set<Id>, f: Id -> Option<int>): Option<int> {
    if exists k :: k in keys && f(k).Some? then Some(SumOver(keys, OrZero(f))) else None
  }

  ghost function OrZero(f: Id -> Option<int>): Id -> int {
    (k: Id) => f(k).GetOr(0)
  }

  ghost function DonatedWith(status: PaymentStatus, v: Id): Payment -> int {
    (p: Payment) => if p.status == status && p.donation.vault == v then p.donation.amount else 0
  }

  // The joined sub-queries: null for a vault without matching rows.
  ghost function DonatedInto(l: Ledger, status: PaymentStatus): Id -> Option<int> {
    (v: Id) =>
      if exists id :: id in l.payments && l.payments[id].status == status && l.payments[id].donation.vault == v
      then Some(SumOf(l.payments, DonatedWith(status, v))) else None
  }

  ghost function WithdrawnFrom(l: Ledger): Id -> Option<int> {
    (v: Id) =>
      if exists id :: id in l.withdrawals && l.withdrawals[id].status == SucceededRequest
          && l.withdrawals[id].vault == v
      then Some(SumOf(l.withdrawals, Withdrawn(v))) else None
  }

  ghost function AmountOf(l: Ledger): Id -> int {
    (v: Id) => if v in l.vaults then l.vaults[v].amount else 0
  }

  ghost function BlockedOf(l: Ledger): Id -> int {
    (v: Id) => if v in l.vaults then l.vaults[v].blocked else 0
  }

  datatype Sums = Sums(
    reached: Option<int>, guaranteed: Option<int>, current: int, blocked: int, withdrawn: Option<int>)

  function VaultsOf(l: Ledger, campaign: Id): set<Id> {
    set v | v in l.vaults && l.vaults[v].campaign == campaign
  }

  // The query's row for a campaign; a campaign without vaults has none.
  ghost function CampaignSums(l: Ledger, campaign: Id): Option<Sums> {
    var vaults := VaultsOf(l, campaign);
    if vaults == {} then None
    else Some(Sums(
      SqlSum(vaults, DonatedInto(l, Succeeded)),
      SqlSum(vaults, DonatedInto(l, Guaranteed)),
      SumOver(vaults, AmountOf(l)) - SumOver(vaults, BlockedOf(l)),
      SumOver(vaults, BlockedOf(l)),
      SqlSum(vaults, WithdrawnFrom(l))))
  }

  datatype Summary = Summary(
    reachedAmount: int, guaranteedAmount: int, currentAmount: int, blockedAmount: int, withdrawnAmount: int)

  ghost function SummaryOf(l: Ledger, campaign: Id): Summary {
    match CampaignSums(l, campaign)
    case None => Summary(0, 0, 0, 0, 0)
    case Some(s) => Summary(s.reached.GetOr(0), s.guaranteed.GetOr(0), s.current, s.blocked, s.withdrawn.GetOr(0))
  }

  // ---- the same figures told from the records alone ----

  predicate Owns(l: Ledger, campaign: Id, v: Id) {
    v in l.vaults && l.vaults[v].campaign == campaign
  }

  ghost function DonatedTo(l: Ledger, campaign: Id): Payment -> int {
    (p: Payment) => if p.status == Succeeded && Owns(l, campaign, p.donation.vault) then p.amount else 0
  }

  ghost function WithdrawnBy(l: Ledger, campaign: Id): Withdrawal -> int {
    (w: Withdrawal) => if w.status == SucceededRequest && Owns(l, campaign, w.vault) then w.amount else 0
  }

  ghost function TransferredIn(l: Ledger, campaign: Id): Transfer -> int {
    (t: Transfer) => if t.status == SucceededRequest && Owns(l, campaign, t.target) then t.amount else 0
  }

  ghost function TransferredOut(l: Ledger, campaign: Id): Transfer -> int {
    (t: Transfer) => if t.status == SucceededRequest && Owns(l, campaign, t.source) then t.amount else 0
  }

  // Payments promised, but not collected yet.
  ghost function GuaranteedTo(l: Ledger, campaign: Id): Payment -> int {
    (p: Payment) => if p.status == Guaranteed && Owns(l, campaign, p.donation.vault) then p.amount else 0
  }

  // Open requests, which the money is set aside for.
  ghost function ToWithdraw(l: Ledger, campaign: Id): Withdrawal -> int {
    (w: Withdrawal) => if IsPending(w.status) && Owns(l, campaign, w.vault) then w.amount else 0
  }

  ghost function ToTransfer(l: Ledger, campaign: Id): Transfer -> int {
    (t: Transfer) => if IsPending(t.status) && Owns(l, campaign, t.source) then t.amount else 0
  }

  // The part of a column that belongs to one vault.
  ghost function At<R>(vaultOf: R -> Id, value: R -> int, v: Id): R -> int {
    (r: R) => if vaultOf(r) == v then value(r) else 0
  }

  ghost function PerVault<R>(table: map<Id, R>, vaultOf: R -> Id, value: R -> int): Id -> int {
    (v: Id) => SumOf(table, At(vaultOf, value, v))
  }

  ghost function Within<R>(vaults: set<Id>, vaultOf: R -> Id, value: R -> int): R -> int {
    (r: R) => if vaultOf(r) in vaults then value(r) else 0
  }

  lemma ShareOfOneRow<R>(table: map<Id, R>, id: Id, vaultOf: R -> Id, value: R -> int, v: Id)
    requires id in table
    ensures PerVault(table, vaultOf, value)(v)
         == PerVault(table - {id}, vaultOf, value)(v) + (if vaultOf(table[id]) == v then value(table[id]) else 0)
  {
    SumRemove(table, id, At(vaultOf, value, v));
  }

  lemma SharesStep<R>(vaults: set<Id>, table: map<Id, R>, id: Id, vaultOf: R -> Id, value: R -> int)
    requires id in table
    ensures SumOver(vaults, PerVault(table, vaultOf, value))
         == SumOver(vaults, PerVault(table - {id}, vaultOf, value)) + Within(vaults, vaultOf, value)(table[id])
  {
    var shares, others := PerVault(table, vaultOf, value), PerVault(table - {id}, vaultOf, value);
    forall v
      ensures shares(v) == others(v) + (if vaultOf(table[id]) == v then value(table[id]) else 0)
    {
      ShareOfOneRow(table, id, vaultOf, value, v);
    }
    SumOverChange(vaults, others, shares, vaultOf(table[id]));
  }

  ghost predicate SharesMatch<R>(vaults: set<Id>, table: map<Id, R>, vaultOf: R -> Id, value: R -> int) {
    SumOver(vaults, PerVault(table, vaultOf, value)) == SumOf(table, Within(vaults, vaultOf, value))
  }

  lemma SharesOfNothing<R>(vaults: set<Id>, vaultOf: R -> Id, value: R -> int)
    ensures SharesMatch(vaults, map[], vaultOf, value)
  {
    NothingAddsUp(vaults, PerVault(map[], vaultOf, value));
  }

  lemma SharesOfOneMore<R>(vaults: set<Id>, table: map<Id, R>, id: Id, vaultOf: R -> Id, value: R -> int)
    requires id in table && SharesMatch(vaults, table - {id}, vaultOf, value)
    ensures SharesMatch(vaults, table, vaultOf, value)
  {
    SharesStep(vaults, table, id, vaultOf, value);
    SumRemove(table, id, Within(vaults, vaultOf, value));
  }

  // Adding up each vault's share of a table is adding up the rows that belong to the vaults.
  lemma {:induction false} SharesAddUp<R>(vaults: set<Id>, table: map<Id, R>, vaultOf: R -> Id, value: R -> int)
    ensures SharesMatch(vaults, table, vaultOf, value)
    decreases |table|
  {
    if table == map[] {
      SharesOfNothing(vaults, vaultOf, value);
    } else {
      var id :| id in table;
      SharesAddUp(vaults, table - {id}, vaultOf, value);
      SharesOfOneMore(vaults, table, id, vaultOf, value);
    }
  }

  lemma {:induction false} NothingAddsUp(vaults: set<Id>, f: Id -> int)
    requires forall v :: v in vaults ==> f(v) == 0
    ensures SumOver(vaults, f) == 0
    decreases |vaults|
  {
    if vaults != {} {
      var v :| v in vaults;
      SumOverRemove(vaults, v, f);
      NothingAddsUp(vaults - {v}, f);
    }
  }

  // A nullable sum, read with `|| 0`, is the plain sum.
  lemma NullReadsAsZero(keys: set<Id>, f: Id -> Option<int>, g: Id -> int)
    requires forall k :: k in keys ==> f(k).GetOr(0) == g(k)
    ensures SqlSum(keys, f).GetOr(0) == SumOver(keys, g)
  {
    SumOverSame(keys, OrZero(f), g);
    if !exists k :: k in keys && f(k).Some? {
      NothingAddsUp(keys, OrZero(f));
    }
  }

  ghost function PaidInto(l: Ledger): Id -> int { (v: Id) => SumOf(l.payments, Paid(v)) }
  ghost function WithdrawnAt(l: Ledger): Id -> int { (v: Id) => SumOf(l.withdrawals, Withdrawn(v)) }
  ghost function SentAt(l: Ledger): Id -> int { (v: Id) => SumOf(l.transfers, Sent(v)) }
  ghost function ReceivedAt(l: Ledger): Id -> int { (v: Id) => SumOf(l.transfers, Received(v)) }
  ghost function HeldAt(l: Ledger): Id -> int { (v: Id) => SumOf(l.withdrawals, HeldForWithdrawal(v)) }
  ghost function HeldOutAt(l: Ledger): Id -> int { (v: Id) => SumOf(l.transfers, HeldForTransfer(v)) }

  ghost function DonatedAt(l: Ledger, status: PaymentStatus): Id -> int {
    (v: Id) => SumOf(l.payments, DonatedWith(status, v))
  }

  lemma DonatedReadsAsDonated(l: Ledger, status: PaymentStatus, v: Id)
    ensures DonatedInto(l, status)(v).GetOr(0) == DonatedAt(l, status)(v)
  {
    if DonatedInto(l, status)(v).None? {
      SumZero(l.payments, DonatedWith(status, v));
    }
  }

  lemma WithdrawnReadsAsWithdrawn(l: Ledger, v: Id)
    ensures WithdrawnFrom(l)(v).GetOr(0) == WithdrawnAt(l)(v)
  {
    if WithdrawnFrom(l)(v).None? {
      SumZero(l.withdrawals, Withdrawn(v));
    }
  }

  // A family of per-vault columns adds up to the column of the rows that belong to the vaults.
  lemma VaultColumnsAddUp<R>(vaults: set<Id>, table: map<Id, R>, vaultOf: R -> Id, value: R -> int,
                             shares: Id -> int, column: Id -> R -> int, whole: R -> int)
    requires forall v :: shares(v) == SumOf(table, column(v))
    requires forall v, r :: column(v)(r) == if vaultOf(r) == v then value(r) else 0
    requires forall r :: whole(r) == if vaultOf(r) in vaults then value(r) else 0
    ensures SumOver(vaults, shares) == SumOf(table, whole)
  {
    SharesAddUp(vaults, table, vaultOf, value);
    forall v
      ensures shares(v) == PerVault(table, vaultOf, value)(v)
    {
      SumSame(table, column(v), At(vaultOf, value, v));
    }
    SumOverSame(vaults, shares, PerVault(table, vaultOf, value));
    SumSame(table, whole, Within(vaults, vaultOf, value));
  }

  function SucceededAmount(status: RequestStatus, amount: int): int {
    if status == SucceededRequest then amount else 0
  }

  lemma PaidAddsUp(l: Ledger, c: Id)
    ensures SumOver(VaultsOf(l, c), PaidInto(l)) == SumOf(l.payments, DonatedTo(l, c))
  {
    VaultColumnsAddUp(VaultsOf(l, c), l.payments, (p: Payment) => p.donation.vault, PaidBy,
                      PaidInto(l), (v: Id) => Paid(v), DonatedTo(l, c));
  }

  ghost function DonatedWithin(vaults: set<Id>, status: PaymentStatus): Payment -> int {
    (p: Payment) => if p.donation.vault in vaults then (if p.status == status then p.donation.amount else 0) else 0
  }

  lemma DonatedColumnsAddUp(l: Ledger, vaults: set<Id>, status: PaymentStatus)
    ensures SumOver(vaults, DonatedAt(l, status)) == SumOf(l.payments, DonatedWithin(vaults, status))
  {
    VaultColumnsAddUp(vaults, l.payments, (p: Payment) => p.donation.vault,
                      (p: Payment) => if p.status == status then p.donation.amount else 0,
                      DonatedAt(l, status), (v: Id) => DonatedWith(status, v), DonatedWithin(vaults, status));
  }

  // What is donated with a status; donations mirror their payments.
  lemma DonatedAddsUp(l: Ledger, c: Id, status: PaymentStatus, whole: Payment -> int)
    requires WellFormed(l)
    requires forall p: Payment :: whole(p) == if p.status == status && Owns(l, c, p.donation.vault) then p.amount else 0
    ensures SumOver(VaultsOf(l, c), DonatedAt(l, status)) == SumOf(l.payments, whole)
  {
    DonatedColumnsAddUp(l, VaultsOf(l, c), status);
    SumSame(l.payments, DonatedWithin(VaultsOf(l, c), status), whole);
  }

  lemma ReservedAddsUp(l: Ledger, c: Id)
    ensures SumOver(VaultsOf(l, c), HeldAt(l)) == SumOf(l.withdrawals, ToWithdraw(l, c))
    ensures SumOver(VaultsOf(l, c), HeldOutAt(l)) == SumOf(l.transfers, ToTransfer(l, c))
  {
    VaultColumnsAddUp(VaultsOf(l, c), l.withdrawals, (w: Withdrawal) => w.vault,
                      (w: Withdrawal) => if IsPending(w.status) then w.amount else 0,
                      HeldAt(l), (v: Id) => HeldForWithdrawal(v), ToWithdraw(l, c));
    VaultColumnsAddUp(VaultsOf(l, c), l.transfers, (t: Transfer) => t.source,
                      (t: Transfer) => if IsPending(t.status) then t.amount else 0,
                      HeldOutAt(l), (v: Id) => HeldForTransfer(v), ToTransfer(l, c));
  }

  lemma WithdrawnAddsUp(l: Ledger, c: Id)
    ensures SumOver(VaultsOf(l, c), WithdrawnAt(l)) == SumOf(l.withdrawals, WithdrawnBy(l, c))
  {
    VaultColumnsAddUp(VaultsOf(l, c), l.withdrawals, (w: Withdrawal) => w.vault,
                      (w: Withdrawal) => SucceededAmount(w.status, w.amount),
                      WithdrawnAt(l), (v: Id) => Withdrawn(v), WithdrawnBy(l, c));
  }

  lemma TransfersAddUp(l: Ledger, c: Id)
    ensures SumOver(VaultsOf(l, c), SentAt(l)) == SumOf(l.transfers, TransferredOut(l, c))
    ensures SumOver(VaultsOf(l, c), ReceivedAt(l)) == SumOf(l.transfers, TransferredIn(l, c))
  {
    VaultColumnsAddUp(VaultsOf(l, c), l.transfers, (t: Transfer) => t.source,
                      (t: Transfer) => SucceededAmount(t.status, t.amount),
                      SentAt(l), (v: Id) => Sent(v), TransferredOut(l, c));
    VaultColumnsAddUp(VaultsOf(l, c), l.transfers, (t: Transfer) => t.target,
                      (t: Transfer) => SucceededAmount(t.status, t.amount),
                      ReceivedAt(l), (v: Id) => Received(v), TransferredIn(l, c));
  }

  lemma {:induction false} AmountsAddUp(keys: set<Id>, a: Id -> int, p: Id -> int, w: Id -> int, s: Id -> int,
                                        r: Id -> int)
    requires forall k :: k in keys ==> a(k) == p(k) - w(k) - s(k) + r(k)
    ensures SumOver(keys, a) == SumOver(keys, p) - SumOver(keys, w) - SumOver(keys, s) + SumOver(keys, r)
    decreases |keys|
  {
    if keys != {} {
      var k :| k in keys;
      SumOverRemove(keys, k, a);
      SumOverRemove(keys, k, p);
      SumOverRemove(keys, k, w);
      SumOverRemove(keys, k, s);
      SumOverRemove(keys, k, r);
      AmountsAddUp(keys - {k}, a, p, w, s, r);
    }
  }

  lemma AmountsFollowRecords(l: Ledger, c: Id)
    requires Books(l)
    ensures var vaults := VaultsOf(l, c);
            SumOver(vaults, AmountOf(l)) == SumOver(vaults, PaidInto(l)) - SumOver(vaults, WithdrawnAt(l))
                                            - SumOver(vaults, SentAt(l)) + SumOver(vaults, ReceivedAt(l))
  {
    forall v | v in VaultsOf(l, c)
      ensures AmountOf(l)(v) == PaidInto(l)(v) - WithdrawnAt(l)(v) - SentAt(l)(v) + ReceivedAt(l)(v)
    {
      assert Balanced(l, v);
    }
    AmountsAddUp(VaultsOf(l, c), AmountOf(l), PaidInto(l), WithdrawnAt(l), SentAt(l), ReceivedAt(l));
  }

  lemma {:induction false} TwoAddUp(keys: set<Id>, a: Id -> int, b: Id -> int, c: Id -> int)
    requires forall k :: k in keys ==> a(k) == b(k) + c(k)
    ensures SumOver(keys, a) == SumOver(keys, b) + SumOver(keys, c)
    decreases |keys|
  {
    if keys != {} {
      var k :| k in keys;
      SumOverRemove(keys, k, a);
      SumOverRemove(keys, k, b);
      SumOverRemove(keys, k, c);
      TwoAddUp(keys - {k}, a, b, c);
    }
  }

  lemma BlockedFollowsRecords(l: Ledger, c: Id)
    requires Books(l)
    ensures SumOver(VaultsOf(l, c), BlockedOf(l))
         == SumOf(l.withdrawals, ToWithdraw(l, c)) + SumOf(l.transfers, ToTransfer(l, c))
  {
    forall v | v in VaultsOf(l, c)
      ensures BlockedOf(l)(v) == HeldAt(l)(v) + HeldOutAt(l)(v)
    {
      assert Balanced(l, v);
    }
    TwoAddUp(VaultsOf(l, c), BlockedOf(l), HeldAt(l), HeldOutAt(l));
    ReservedAddsUp(l, c);
  }

  lemma NullableSums(l: Ledger, c: Id)
    ensures forall status ::
              SqlSum(VaultsOf(l, c), DonatedInto(l, status)).GetOr(0) == SumOver(VaultsOf(l, c), DonatedAt(l, status))
    ensures SqlSum(VaultsOf(l, c), WithdrawnFrom(l)).GetOr(0) == SumOver(VaultsOf(l, c), WithdrawnAt(l))
  {
    forall status
      ensures SqlSum(VaultsOf(l, c), DonatedInto(l, status)).GetOr(0) == SumOver(VaultsOf(l, c), DonatedAt(l, status))
    {
      forall v | v in VaultsOf(l, c)
        ensures DonatedInto(l, status)(v).GetOr(0) == DonatedAt(l, status)(v)
      {
        DonatedReadsAsDonated(l, status, v);
      }
      NullReadsAsZero(VaultsOf(l, c), DonatedInto(l, status), DonatedAt(l, status));
    }
    forall v | v in VaultsOf(l, c)
      ensures WithdrawnFrom(l)(v).GetOr(0) == WithdrawnAt(l)(v)
    {
      WithdrawnReadsAsWithdrawn(l, v);
    }
    NullReadsAsZero(VaultsOf(l, c), WithdrawnFrom(l), WithdrawnAt(l));
  }

  lemma AvailableFollowsRecords(l: Ledger, c: Id)
    requires Books(l)
    ensures SumOver(VaultsOf(l, c), AmountOf(l))
         == SumOf(l.payments, DonatedTo(l, c)) - SumOf(l.withdrawals, WithdrawnBy(l, c))
            - SumOf(l.transfers, TransferredOut(l, c)) + SumOf(l.transfers, TransferredIn(l, c))
  {
    AmountsFollowRecords(l, c);
    PaidAddsUp(l, c);
    WithdrawnAddsUp(l, c);
    TransfersAddUp(l, c);
  }

  lemma ColumnsFollowRecords(l: Ledger, c: Id)
    requires WellFormed(l)
    ensures SqlSum(VaultsOf(l, c), DonatedInto(l, Succeeded)).GetOr(0) == SumOf(l.payments, DonatedTo(l, c))
    ensures SqlSum(VaultsOf(l, c), DonatedInto(l, Guaranteed)).GetOr(0) == SumOf(l.payments, GuaranteedTo(l, c))
    ensures SqlSum(VaultsOf(l, c), WithdrawnFrom(l)).GetOr(0) == SumOf(l.withdrawals, WithdrawnBy(l, c))
  {
    NullableSums(l, c);
    DonatedAddsUp(l, c, Succeeded, DonatedTo(l, c));
    DonatedAddsUp(l, c, Guaranteed, GuaranteedTo(l, c));
    WithdrawnAddsUp(l, c);
  }

  // The columns of the query, with its nulls read as zero.
  ghost predicate ColumnsAre(l: Ledger, c: Id, reached: int, guaranteed: int, amount: int, blocked: int,
                             withdrawn: int) {
    var vaults := VaultsOf(l, c);
    && SqlSum(vaults, DonatedInto(l, Succeeded)).GetOr(0) == reached
    && SqlSum(vaults, DonatedInto(l, Guaranteed)).GetOr(0) == guaranteed
    && SumOver(vaults, AmountOf(l)) == amount && SumOver(vaults, BlockedOf(l)) == blocked
    && SqlSum(vaults, WithdrawnFrom(l)).GetOr(0) == withdrawn
  }

  // What the page should show of a campaign, from the records alone.
  ghost function OnRecord(l: Ledger, c: Id): Summary {
    var paid, withdrawn := SumOf(l.payments, DonatedTo(l, c)), SumOf(l.withdrawals, WithdrawnBy(l, c));
    var received, sent := SumOf(l.transfers, TransferredIn(l, c)), SumOf(l.transfers, TransferredOut(l, c));
    var reserved := SumOf(l.withdrawals, ToWithdraw(l, c)) + SumOf(l.transfers, ToTransfer(l, c));
    Summary(paid, SumOf(l.payments, GuaranteedTo(l, c)), paid - withdrawn - sent + received - reserved, reserved,
            withdrawn)
  }

  lemma EmptyColumns(l: Ledger)
    ensures SqlSum({}, DonatedInto(l, Succeeded)) == SqlSum({}, DonatedInto(l, Guaranteed)) == None
    ensures SqlSum({}, WithdrawnFrom(l)) == None
    ensures SumOver({}, AmountOf(l)) == SumOver({}, BlockedOf(l)) == 0
  {
  }

  // A campaign without vaults reads as one whose columns are empty.
  lemma SummaryReadsColumns(l: Ledger, c: Id, reached: int, guaranteed: int, amount: int, blocked: int, withdrawn: int)
    requires ColumnsAre(l, c, reached, guaranteed, amount, blocked, withdrawn)
    ensures SummaryOf(l, c) == Summary(reached, guaranteed, amount - blocked, blocked, withdrawn)
  {
    EmptyColumns(l);
  }

  lemma ColumnsOnRecord(l: Ledger, c: Id)
    requires Books(l)
    ensures var on := OnRecord(l, c);
            ColumnsAre(l, c, on.reachedAmount, on.guaranteedAmount, on.currentAmount + on.blockedAmount,
                       on.blockedAmount, on.withdrawnAmount)
  {
    ColumnsFollowRecords(l, c);
    BlockedFollowsRecords(l, c);
    AvailableFollowsRecords(l, c);
  }

  // The summary is what the records say for every campaign, however many vaults it has and whether or not
  // they saw a donation or a withdrawal: paid and guaranteed, withdrawn, reserved by open requests, and
  // what remains available.
  lemma SummaryAgreesWithLedger(l: Ledger, c: Id)
    requires Books(l)
    ensures SummaryOf(l, c) == OnRecord(l, c)
  {
    var on := OnRecord(l, c);
    ColumnsOnRecord(l, c);
    SummaryReadsColumns(l, c, on.reachedAmount, on.guaranteedAmount, on.currentAmount + on.blockedAmount,
                        on.blockedAmount, on.withdrawnAmount);
  }

  // It does so in every state an honest run reaches.
  lemma SummaryAgreesAlongRuns(l: Ledger, ops: seq<Op>, c: Id)
    requires Books(l) && IsRun(l, ops) && HonestRun(l, ops)
    ensures SummaryOf(Run(l, ops), c) == OnRecord(Run(l, ops), c)
  {
    LedgerInvariant(l, ops);
    SummaryAgreesWithLedger(Run(l, ops), c);
  }
}
