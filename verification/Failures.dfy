// A case for every law that the code keeps only under a condition: from balanced tables, calls that all
// go through, and what is wrong afterwards. Each is first shown of any tables that have the rows it
// needs, then of the tables below.
module Failures {
  import opened Wrappers
  import opened Totals
  import opened PaymentStatuses
  import opened Ledgers
  import opened Conservation
  import opened AvailableBalance
  import opened Overlaps
  import C = CampaignCompletion
  import B = BatchVaults

  // ---- balanced tables ----

  // A vault with 100 from one payment, of which a withdrawal holds 40 and a transfer 20.
  const PAID := Payment("i", "card", Succeeded, 100, 110, Donation(100, "v", None))
  const ASKED := Withdrawal("v", 40, InitialRequest)
  const MOVING := Transfer("v", "u", 20, InitialRequest)
  const BALANCED := Ledger(
    map["v" := Vault("c", 100, 60), "u" := Vault("d", 0, 0)],
    map["p" := PAID], map["w" := ASKED], map["t" := MOVING], map["d" := Campaign(Active, 10)])

  lemma SumOfRow<R>(k: Id, row: R, column: R -> int)
    ensures SumOf(map[k := row], column) == column(row)
  {
    SumUpdate(map[], k, row, column);
    assert map[][k := row] == map[k := row];
  }

  lemma BalancedVault(l: Ledger, p: Payment, w: Withdrawal, t: Transfer, v: Id)
    requires l.payments == map["p" := p] && l.withdrawals == map["w" := w] && l.transfers == map["t" := t]
    requires v in l.vaults
    requires l.vaults[v].amount == Paid(v)(p) - Withdrawn(v)(w) - Sent(v)(t) + Received(v)(t)
    requires l.vaults[v].blocked == HeldForWithdrawal(v)(w) + HeldForTransfer(v)(t)
    ensures Balanced(l, v)
  {
    SumOfRow("p", p, Paid(v));
    SumOfRow("w", w, Withdrawn(v));
    SumOfRow("t", t, Sent(v));
    SumOfRow("t", t, Received(v));
    SumOfRow("w", w, HeldForWithdrawal(v));
    SumOfRow("t", t, HeldForTransfer(v));
  }

  lemma BalancedBooks()
    ensures Books(BALANCED)
  {
    BalancedVault(BALANCED, PAID, ASKED, MOVING, "v");
    BalancedVault(BALANCED, PAID, ASKED, MOVING, "u");
  }

  // Tables with these rows, whatever their campaigns and other vaults.
  predicate HasRows(l: Ledger) {
    l.payments == map["p" := PAID] && l.withdrawals == map["w" := ASKED] && l.transfers == map["t" := MOVING]
    && "v" in l.vaults && l.vaults["v"] == Vault("c", 100, 60)
  }

  lemma BalancedHasRows()
    ensures Books(BALANCED) && HasRows(BALANCED)
  {
    BalancedBooks();
  }

  // ---- single calls ----

  // The call goes through and the books no longer hold.
  ghost predicate Breaks(l: Ledger, op: Op) {
    Possible(l, op) && Perform(l, op).Success? && !Books(After(l, op))
  }

  // A succeeded event with another amount rewrites the payment and leaves the vaults.
  lemma ChangedAmount(l: Ledger, id: Id, home: Id, net: int, newId: Id)
    requires Books(l) && id in l.payments && l.payments[id].status == Succeeded && l.payments[id].amount != net
    requires home in l.vaults && newId !in l.payments
    ensures var data := PaymentData(l.payments[id].intent, net, l.payments[id].charged, None, None);
            var op := Event(l.vaults[home].campaign, data, Succeeded, Some(id), Some(home), newId);
            && Breaks(l, op) && After(l, op).vaults == l.vaults
            && id in After(l, op).payments && After(l, op).payments[id].amount == net
  {
    var data := PaymentData(l.payments[id].intent, net, l.payments[id].charged, None, None);
    var op := Event(l.vaults[home].campaign, data, Succeeded, Some(id), Some(home), newId);
    assert HasIntent(l.payments, data.intent);
    StepKeepsBooksExactly(l, op);
  }

  function Redirection(t: Transfer, elsewhere: Id): RequestChange {
    RequestChange(Some(t.source), Some(elsewhere), Some(t.amount), Some(SucceededRequest), true)
  }

  lemma RedirectionGoesThrough(l: Ledger, id: Id, elsewhere: Id)
    requires WellFormed(l) && id in l.transfers && !IsClosed(l.transfers[id].status) && elsewhere in l.vaults
    ensures var r := UpdateTransfer(l, id, Redirection(l.transfers[id], elsewhere));
            r.Success? && id in r.value.transfers && r.value.transfers[id].target == elsewhere
  {
  }

  lemma TransferUpdateBreaks(l: Ledger, id: Id, edit: RequestChange)
    requires UpdateTransfer(l, id, edit).Success? && !Books(UpdateTransfer(l, id, edit).value)
    ensures Breaks(l, TransferUpdate(id, edit))
        && After(l, TransferUpdate(id, edit)) == UpdateTransfer(l, id, edit).value
  {
  }

  // Settling a transfer and redirecting it at once credits the old target and records the new one.
  lemma RedirectedSettlement(l: Ledger, id: Id, elsewhere: Id)
    requires Books(l) && id in l.transfers && !IsClosed(l.transfers[id].status)
    requires elsewhere in l.vaults && elsewhere != l.transfers[id].target
    ensures var op := TransferUpdate(id, Redirection(l.transfers[id], elsewhere));
            Breaks(l, op) && id in After(l, op).transfers && After(l, op).transfers[id].target == elsewhere
  {
    RedirectionGoesThrough(l, id, elsewhere);
    UpdateTransferExactly(l, id, Redirection(l.transfers[id], elsewhere));
    TransferUpdateBreaks(l, id, Redirection(l.transfers[id], elsewhere));
  }

  // A withdrawal created settled blocks money that is never released.
  lemma CreatedClosed(l: Ledger, vault: Id, amount: int, newId: Id)
    requires Books(l) && HasRoom(l, vault, amount) && amount > 0 && newId !in l.withdrawals
    ensures var op := WithdrawCreate(Withdrawal(vault, amount, SucceededRequest), newId);
            Breaks(l, op)
  {
    CreatedWithdrawalExactly(l, newId, Withdrawal(vault, amount, SucceededRequest));
  }

  // So does a transfer created settled: its source pays, on record, and its vault does not.
  lemma TransferCreatedClosed(l: Ledger, t: Transfer, newId: Id)
    requires Books(l) && HasRoom(l, t.source, t.amount) && t.target in l.vaults && t.amount > 0 && IsClosed(t.status)
    requires newId !in l.transfers
    ensures Breaks(l, TransferCreate(t, newId))
  {
    StepKeepsBooksExactly(l, TransferCreate(t, newId));
  }

  const OTHER_AMOUNT := Event("c", PaymentData("i", 70, 110, None, None), Succeeded, Some("p"), Some("v"), "q")

  // All of this happens to tables with the rows above.
  lemma EventBreaks(l: Ledger)
    requires Books(l) && HasRows(l)
    ensures Breaks(l, OTHER_AMOUNT)
  {
    ChangedAmount(l, "p", "v", 70, "q");
  }

  lemma TransferBreaks(l: Ledger)
    requires Books(l) && HasRows(l)
    ensures Breaks(l, TransferUpdate("t", Redirection(MOVING, "v")))
  {
    RedirectedSettlement(l, "t", "v");
  }

  lemma CreationsBreak(l: Ledger)
    requires Books(l) && HasRows(l)
    ensures Breaks(l, WithdrawCreate(Withdrawal("v", 10, SucceededRequest), "x"))
    ensures Breaks(l, TransferCreate(Transfer("v", "u", 10, SucceededRequest), "x"))
  {
    assert l.transfers["t"].target in l.vaults;
    CreatedClosed(l, "v", 10, "x");
    TransferCreatedClosed(l, Transfer("v", "u", 10, SucceededRequest), "x");
  }

  // ---- overlapping calls ----

  // Two calls that both start before either writes.
  function Twice(call: Call, x: Id, y: Id): seq<Step> {
    [Begin(1, call), Begin(2, call), Finish(1, x), Finish(2, y)]
  }

  lemma RunOne(s: State, step: Step, rest: seq<Step>)
    requires Enabled(s, step) && IsSchedule(Next(s, step), rest)
    ensures IsSchedule(s, [step] + rest) && Execute(s, [step] + rest) == Execute(Next(s, step), rest)
  {
    assert ([step] + rest)[1..] == rest;
  }

  // The first commit does not use up the second one's id, nor its request.
  predicate LeavesRoomFor(call: Call, l: Ledger, x: Id, y: Id) {
    && x !in l.withdrawals && x !in l.transfers && y !in l.withdrawals && y !in l.transfers && x != y
    && (call.ChangeWithdrawal? || call.ChangeTransfer? ==> call.id != x && call.id != y)
  }

  lemma RunTwice(l: Ledger, call: Call, l1: Ledger, l2: Ledger, x: Id, y: Id)
    requires Starts(l, call) && Commit(l, call, x) == Success(l1) && Commit(l1, call, y) == Success(l2)
    requires LeavesRoomFor(call, l, x, y) && y !in l1.withdrawals && y !in l1.transfers
    ensures IsSchedule(State(l, map[]), Twice(call, x, y))
    ensures Execute(State(l, map[]), Twice(call, x, y)) == State(l2, map[])
  {
    var s1 := State(l, map[1 := call]);
    var s2 := State(l, map[1 := call, 2 := call]);
    RunBoth(l, call, l1, l2, x, y);
    assert Next(State(l, map[]), Begin(1, call)) == s1;
    assert Next(s1, Begin(2, call)) == s2;
    RunOne(s1, Begin(2, call), [Finish(1, x), Finish(2, y)]);
    RunOne(State(l, map[]), Begin(1, call), [Begin(2, call), Finish(1, x), Finish(2, y)]);
  }

  lemma Finishing(l: Ledger, calls: map<nat, Call>, c: nat, x: Id, l': Ledger)
    requires c in calls && Commit(l, calls[c], x) == Success(l') && IsFresh(State(l, calls), x)
    ensures Enabled(State(l, calls), Finish(c, x)) && Next(State(l, calls), Finish(c, x)) == State(l', calls - {c})
  {
  }

  lemma RunTwiceLeaves(l: Ledger, call: Call, l1: Ledger, l2: Ledger, x: Id, y: Id, v: Id)
    requires Starts(l, call) && Commit(l, call, x) == Success(l1) && Commit(l1, call, y) == Success(l2)
    requires LeavesRoomFor(call, l, x, y) && y !in l1.withdrawals && y !in l1.transfers
    requires !Books(l2) && v in l2.vaults
    ensures LeavesAmount(l, Twice(call, x, y), v, l2.vaults[v].amount)
  {
    RunTwice(l, call, l1, l2, x, y);
  }

  lemma RunBoth(l: Ledger, call: Call, l1: Ledger, l2: Ledger, x: Id, y: Id)
    requires Commit(l, call, x) == Success(l1) && Commit(l1, call, y) == Success(l2)
    requires LeavesRoomFor(call, l, x, y) && y !in l1.withdrawals && y !in l1.transfers
    ensures IsSchedule(State(l, map[1 := call, 2 := call]), [Finish(1, x), Finish(2, y)])
    ensures Execute(State(l, map[1 := call, 2 := call]), [Finish(1, x), Finish(2, y)]) == State(l2, map[])
  {
    var both, second: map<nat, Call> := map[1 := call, 2 := call], map[2 := call];
    Finishing(l, both, 1, x, l1);
    assert both - {1} == second;
    Finishing(l1, second, 2, y, l2);
    assert second - {2} == map[];
    RunOne(State(l1, second), Finish(2, y), []);
    RunOne(State(l, both), Finish(1, x), [Finish(2, y)]);
  }

  function Settlement(source: Id, amount: int): RequestChange {
    RequestChange(Some(source), None, Some(amount), Some(SucceededRequest), true)
  }

  lemma WithdrawalSettled(l: Ledger, id: Id, w: Withdrawal)
    requires Books(l) && id in l.withdrawals && l.withdrawals[id].vault == w.vault
        && l.withdrawals[id].amount == w.amount
    requires !IsClosed(w.status)
    ensures var r := CommitUpdateWithdrawal(l, id, w, Settlement(w.vault, w.amount));
            && r.Success? && (Books(r.value) <==> !IsClosed(l.withdrawals[id].status))
            && r.value.withdrawals == l.withdrawals[id := Withdrawal(w.vault, w.amount, SucceededRequest)]
            && r.value.transfers == l.transfers
            && r.value.vaults.Keys == l.vaults.Keys
                && r.value.vaults[w.vault].amount == l.vaults[w.vault].amount - w.amount
  {
    LateWithdrawalUpdateExactly(l, id, w, Settlement(w.vault, w.amount));
  }

  lemma TransferSettled(l: Ledger, id: Id, t: Transfer, l': Ledger)
    requires Books(l) && id in l.transfers && l.transfers[id].(status := t.status) == t && !IsClosed(t.status)
    requires CommitUpdateTransfer(l, id, t, Settlement(t.source, t.amount)) == Success(l')
    ensures Books(l') <==> !IsClosed(l.transfers[id].status)
    ensures l'.transfers == l.transfers[id := t.(status := SucceededRequest)] && l'.withdrawals == l.withdrawals
  {
    LateTransferUpdateExactly(l, id, t, Settlement(t.source, t.amount));
  }

  lemma SettlementGoesThrough(l: Ledger, id: Id, t: Transfer)
    requires WellFormed(l) && id in l.transfers && t.source in l.vaults && t.target in l.vaults
    ensures CommitUpdateTransfer(l, id, t, Settlement(t.source, t.amount)).Success?
  {
  }

  // Two settlements of one withdrawal, both read while it was open, pay it out twice.
  lemma WithdrawalSettledTwice(l: Ledger, id: Id, x: Id, y: Id)
    requires Books(l) && id in l.withdrawals && !IsClosed(l.withdrawals[id].status)
    requires LeavesRoomFor(ChangeWithdrawal(id, l.withdrawals[id],
                                            Settlement(l.withdrawals[id].vault, l.withdrawals[id].amount)), l, x, y)
    ensures var w := l.withdrawals[id];
            LeavesAmount(l, Twice(ChangeWithdrawal(id, w, Settlement(w.vault, w.amount)), x, y), w.vault,
                         l.vaults[w.vault].amount - 2 * w.amount)
  {
    var w := l.withdrawals[id];
    var change := Settlement(w.vault, w.amount);
    var l1 := CommitUpdateWithdrawal(l, id, w, change).value;
    var l2 := CommitUpdateWithdrawal(l1, id, w, change).value;
    WithdrawalSettled(l, id, w);
    WithdrawalSettled(l1, id, w);
    RunTwiceLeaves(l, ChangeWithdrawal(id, w, change), l1, l2, x, y, w.vault);
  }

  // So do two settlements of one transfer.
  lemma TransferSettledTwice(l: Ledger, id: Id, x: Id, y: Id)
    requires Books(l) && id in l.transfers && !IsClosed(l.transfers[id].status)
    requires var t := l.transfers[id];
             LeavesRoomFor(ChangeTransfer(id, t, Settlement(t.source, t.amount)), l, x, y)
    ensures var t := l.transfers[id];
            var steps := Twice(ChangeTransfer(id, t, Settlement(t.source, t.amount)), x, y);
            && IsSchedule(State(l, map[]), steps)
            && !Books(Execute(State(l, map[]), steps).ledger)
  {
    var t := l.transfers[id];
    SettlementGoesThrough(l, id, t);
    var l1 := CommitUpdateTransfer(l, id, t, Settlement(t.source, t.amount)).value;
    TransferSettled(l, id, t, l1);
    SettledTransferSettled(l, l1, id, t, x, y);
  }

  lemma SettledTransferSettled(l: Ledger, l1: Ledger, id: Id, t: Transfer, x: Id, y: Id)
    requires Books(l1) && l1.transfers == l.transfers[id := t.(status := SucceededRequest)]
        && l1.withdrawals == l.withdrawals
    requires id in l.transfers && l.transfers[id] == t && !IsClosed(t.status)
    requires CommitUpdateTransfer(l, id, t, Settlement(t.source, t.amount)) == Success(l1)
    requires LeavesRoomFor(ChangeTransfer(id, t, Settlement(t.source, t.amount)), l, x, y)
    ensures var steps := Twice(ChangeTransfer(id, t, Settlement(t.source, t.amount)), x, y);
            && IsSchedule(State(l, map[]), steps)
            && !Books(Execute(State(l, map[]), steps).ledger)
  {
    SettlementGoesThrough(l1, id, t);
    var l2 := CommitUpdateTransfer(l1, id, t, Settlement(t.source, t.amount)).value;
    TransferSettled(l1, id, t, l2);
    RunTwice(l, ChangeTransfer(id, t, Settlement(t.source, t.amount)), l1, l2, x, y);
  }

  // Two reservations that each fit but not both, checked before either is written, block more than there
  // is; the books hold nevertheless.
  lemma ReservedTwice(l: Ledger, w: Withdrawal, x: Id, y: Id)
    requires Books(l) && w.amount > 0 && !IsClosed(w.status) && HasRoom(l, w.vault, w.amount)
    requires !HasRoom(l, w.vault, 2 * w.amount) && LeavesRoomFor(NewWithdrawal(w), l, x, y)
    ensures Overbooks(l, Twice(NewWithdrawal(w), x, y), w.vault)
  {
    var l1 := CommitCreateWithdrawal(l, x, w).value;
    var l2 := CommitCreateWithdrawal(l1, y, w).value;
    LateWithdrawalExactly(l, x, w);
    LateWithdrawalExactly(l1, y, w);
    RunTwice(l, NewWithdrawal(w), l1, l2, x, y);
  }

  lemma NothingUnderWay(l: Ledger)
    requires Books(l)
    ensures BooksUpToRemovals(State(l, map[]))
  {
    forall v | v in l.vaults
      ensures Gap(State(l, map[]), v) == STEADY
    {
      assert Balanced(l, v);
    }
  }

  lemma DeletionIsUpToRemovals(s: State, call: nat, id: Id)
    requires BooksUpToRemovals(s) && Enabled(s, BeginRemoval(call, id))
    ensures BooksUpToRemovals(Next(s, BeginRemoval(call, id)))
  {
    StepKeepsSane(s, BeginRemoval(call, id));
    forall v | v in s.ledger.vaults
      ensures Gap(Next(s, BeginRemoval(call, id)), v) == STEADY
    {
      DeletionOwes(s, call, id, v);
    }
  }

  // A removal that crashes after its first statement leaves the money taken or blocked for nothing.
  lemma RemovalCrashed(l: Ledger, id: Id)
    requires Books(l) && id in l.withdrawals && !OwesNothing(Removal(l.withdrawals[id]))
    ensures Enabled(State(l, map[]), BeginRemoval(1, id))
    ensures var s := State(DeleteWithdrawal(l, id), map[1 := Removal(l.withdrawals[id])]);
            Next(State(l, map[]), BeginRemoval(1, id)) == s && BooksUpToRemovals(s) && !Books(s.ledger)
  {
    NothingUnderWay(l);
    DeletionIsUpToRemovals(State(l, map[]), 1, id);
    StillOwed(State(DeleteWithdrawal(l, id), map[1 := Removal(l.withdrawals[id])]), 1);
  }

  lemma StillOwed(s: State, c: nat)
    requires BooksUpToRemovals(s) && c in s.calls && !OwesNothing(s.calls[c])
    ensures !Books(s.ledger)
  {
    BooksExactlyWithoutRemovals(s);
  }

  // The steps all are possible from balanced tables; at their end the vault has this amount and the books
  // do not hold.
  ghost predicate LeavesAmount(l: Ledger, steps: seq<Step>, v: Id, amount: int) {
    && IsSchedule(State(l, map[]), steps)
    && var l' := Execute(State(l, map[]), steps).ledger;
    !Books(l') && v in l'.vaults && l'.vaults[v].amount == amount
  }

  // Two invalidations of one payment, both read while it was paid, debit its vault twice.
  lemma InvalidatedTwice(l: Ledger, id: Id, x: Id, y: Id)
    requires Books(l) && id in l.payments && l.payments[id].status == Succeeded && l.payments[id].amount > 0
    requires LeavesRoomFor(Invalidation(id, l.payments[id]), l, x, y)
    ensures var p := l.payments[id];
            LeavesAmount(l, Twice(Invalidation(id, p), x, y), p.donation.vault,
                         l.vaults[p.donation.vault].amount - 2 * p.amount)
  {
    var p := l.payments[id];
    var l1 := CommitInvalidation(l, id, p).GetOr(l);
    var l2 := CommitInvalidation(l1, id, p).GetOr(l1);
    InvalidatedOnce(l, id, p, l1);
    InvalidatedOnce(l1, id, p, l2);
    RunTwiceLeaves(l, Invalidation(id, p), l1, l2, x, y, p.donation.vault);
  }

  lemma InvalidatedOnce(l: Ledger, id: Id, p: Payment, l': Ledger)
    requires Books(l) && CallFits(l, Invalidation(id, p)) && p.status == Succeeded && p.amount > 0
    requires l' == CommitInvalidation(l, id, p).GetOr(l)
    ensures CommitInvalidation(l, id, p) == Success(l')
    ensures Books(l') <==> PaidBy(l.payments[id]) == p.amount
    ensures l'.payments == l.payments[id := l.payments[id].(status := Invalid)]
    ensures l'.withdrawals == l.withdrawals && l'.transfers == l.transfers && l'.vaults.Keys == l.vaults.Keys
    ensures l'.vaults[p.donation.vault].amount == l.vaults[p.donation.vault].amount - p.amount
  {
    InvalidationWrites(l, id, p);
    LateInvalidationExactly(l, id, p);
  }

  // A call that begins before another and writes after it.
  function Around(call: Call, op: Op, x: Id): seq<Step> {
    [Begin(1, call), Whole(op), Finish(1, x)]
  }

  lemma RunAround(l: Ledger, call: Call, op: Op, l1: Ledger, l2: Ledger, x: Id)
    requires Starts(l, call) && (op.AdminUpdate? || op.TransferUpdate?) && After(l, op) == l1
    requires Commit(l1, call, x) == Success(l2) && x !in l1.withdrawals && x !in l1.transfers
    requires call.ChangeWithdrawal? || call.ChangeTransfer? ==> call.id != x
    ensures IsSchedule(State(l, map[]), Around(call, op, x))
    ensures Execute(State(l, map[]), Around(call, op, x)) == State(l2, map[])
  {
    var begun, done: map<nat, Call> := map[1 := call], map[];
    assert Next(State(l, map[]), Begin(1, call)) == State(l, begun);
    assert Next(State(l, begun), Whole(op)) == State(l1, begun);
    Finishing(l1, begun, 1, x, l2);
    assert begun - {1} == done;
    RunOne(State(l1, begun), Finish(1, x), []);
    RunOne(State(l, begun), Whole(op), [Finish(1, x)]);
    RunOne(State(l, map[]), Begin(1, call), [Whole(op), Finish(1, x)]);
  }

  // The steps all are possible from balanced tables, and the books do not hold at their end.
  ghost predicate Unbalances(l: Ledger, steps: seq<Step>) {
    IsSchedule(State(l, map[]), steps) && !Books(Execute(State(l, map[]), steps).ledger)
  }

  const PAY := PaymentChange(Some(Succeeded), KeepDonor, true)

  // An invalidation that read a payment before its money came in leaves the money in the vault.
  lemma InvalidatedMeanwhile(l: Ledger, id: Id, x: Id)
    requires Books(l) && id in l.payments && l.payments[id].status != Succeeded && l.payments[id].amount > 0
    requires x !in l.withdrawals && x !in l.transfers
    ensures Unbalances(l, Around(Invalidation(id, l.payments[id]), AdminUpdate(id, PAY), x))
  {
    PaymentKeepsBooks(l, id);
    var op := AdminUpdate(id, PAY);
    InvalidatedAfter(l, op, After(l, op), id, l.payments[id], x);
  }

  lemma InvalidatedAfter(l: Ledger, op: Op, l1: Ledger, id: Id, p: Payment, x: Id)
    requires op.AdminUpdate? && l1 == After(l, op) && Books(l1) && Starts(l, Invalidation(id, p))
    requires p.status != Succeeded && p.amount > 0 && id in l1.payments && PaidBy(l1.payments[id]) == p.amount
    requires l1.payments[id].donation.vault == p.donation.vault
    requires x !in l1.withdrawals && x !in l1.transfers
    ensures Unbalances(l, Around(Invalidation(id, p), op, x))
  {
    var l2 := WritePayment(l1, id, l1.payments[id].(status := Invalid));
    LateInvalidationExactly(l1, id, p);
    RunAroundUnbalances(l, Invalidation(id, p), op, l1, l2, x);
  }

  lemma PaymentKeepsBooks(l: Ledger, id: Id)
    requires Books(l) && id in l.payments && l.payments[id].status != Succeeded && l.payments[id].amount > 0
    ensures var l' := After(l, AdminUpdate(id, PAY));
            && Books(l') && id in l'.payments && PaidBy(l'.payments[id]) == l.payments[id].amount
            && l'.payments[id].donation.vault == l.payments[id].donation.vault
            && l'.withdrawals == l.withdrawals && l'.transfers == l.transfers
  {
    AdminUpdateShape(l, id, PAY);
    StepKeepsBooksExactly(l, AdminUpdate(id, PAY));
  }

  function Redirecting(t: Transfer, elsewhere: Id): RequestChange {
    RequestChange(Some(t.source), Some(elsewhere), Some(t.amount), None, false)
  }

  // An edit of a transfer's target that read it while it was open moves, on record, money that has
  // meanwhile gone to the old target.
  lemma RedirectedMeanwhile(l: Ledger, id: Id, elsewhere: Id, x: Id)
    requires Books(l) && id in l.transfers && !IsClosed(l.transfers[id].status)
    requires elsewhere in l.vaults && elsewhere != l.transfers[id].target && x !in l.withdrawals && x !in l.transfers
    ensures Unbalances(l, RedirectingAround(l.transfers[id], id, elsewhere, x))
  {
    var t := l.transfers[id];
    SettlementKeepsBooks(l, id);
    var op := TransferUpdate(id, Settlement(t.source, t.amount));
    RedirectedAfter(l, op, After(l, op), id, t, elsewhere, x);
  }

  lemma RedirectionStarts(l: Ledger, id: Id, t: Transfer, elsewhere: Id)
    requires id in l.transfers && l.transfers[id] == t && !IsClosed(t.status)
    ensures Starts(l, ChangeTransfer(id, t, Redirecting(t, elsewhere)))
  {
  }

  lemma RedirectedAfter(l: Ledger, op: Op, l1: Ledger, id: Id, t: Transfer, elsewhere: Id, x: Id)
    requires op.TransferUpdate? && l1 == After(l, op) && Books(l1)
    requires id in l.transfers && l.transfers[id] == t && !IsClosed(t.status)
    requires l1.transfers == l.transfers[id := t.(status := SucceededRequest)] && l1.withdrawals == l.withdrawals
    requires elsewhere in l1.vaults && elsewhere != t.target && x !in l.withdrawals && x !in l.transfers
    ensures Unbalances(l, Around(ChangeTransfer(id, t, Redirecting(t, elsewhere)), op, x))
  {
    var l2 := CommitUpdateTransfer(l1, id, t, Redirecting(t, elsewhere)).GetOr(l1);
    RedirectedLate(l1, id, t, elsewhere, l2);
    RedirectionStarts(l, id, t, elsewhere);
    RunAroundUnbalances(l, ChangeTransfer(id, t, Redirecting(t, elsewhere)), op, l1, l2, x);
  }

  function RedirectingAround(t: Transfer, id: Id, elsewhere: Id, x: Id): seq<Step> {
    Around(ChangeTransfer(id, t, Redirecting(t, elsewhere)), TransferUpdate(id, Settlement(t.source, t.amount)), x)
  }

  lemma SettlementKeepsBooks(l: Ledger, id: Id)
    requires Books(l) && id in l.transfers && !IsClosed(l.transfers[id].status)
    ensures var t := l.transfers[id];
            var l' := After(l, TransferUpdate(id, Settlement(t.source, t.amount)));
            && Books(l') && l'.withdrawals == l.withdrawals
            && l'.transfers == l.transfers[id := t.(status := SucceededRequest)]
            && l'.vaults.Keys == l.vaults.Keys
  {
    var settle := Settlement(l.transfers[id].source, l.transfers[id].amount);
    SettlesAtOnce(l, id);
    UpdateTransferShape(l, id, settle);
    StepKeepsBooksExactly(l, TransferUpdate(id, settle));
  }

  lemma SettlesAtOnce(l: Ledger, id: Id)
    requires WellFormed(l) && id in l.transfers && !IsClosed(l.transfers[id].status)
    ensures UpdateTransfer(l, id, Settlement(l.transfers[id].source, l.transfers[id].amount)).Success?
  {
  }

  lemma RunAroundUnbalances(l: Ledger, call: Call, op: Op, l1: Ledger, l2: Ledger, x: Id)
    requires Starts(l, call) && (op.AdminUpdate? || op.TransferUpdate?) && After(l, op) == l1
    requires Commit(l1, call, x) == Success(l2) && x !in l1.withdrawals && x !in l1.transfers
    requires (call.ChangeWithdrawal? || call.ChangeTransfer? ==> call.id != x) && !Books(l2)
    ensures Unbalances(l, Around(call, op, x))
  {
    RunAround(l, call, op, l1, l2, x);
  }

  lemma RedirectedLate(l: Ledger, id: Id, t: Transfer, elsewhere: Id, l': Ledger)
    requires Books(l) && id in l.transfers && l.transfers[id] == t.(status := SucceededRequest) && !IsClosed(t.status)
    requires elsewhere in l.vaults && elsewhere != t.target
    requires l' == CommitUpdateTransfer(l, id, t, Redirecting(t, elsewhere)).GetOr(l)
    ensures CommitUpdateTransfer(l, id, t, Redirecting(t, elsewhere)) == Success(l') && !Books(l')
  {
    LateTransferUpdateExactly(l, id, t, Redirecting(t, elsewhere));
  }

  // There is room for two more rows "x" and "y" beside these.
  predicate HasRoomFor(l: Ledger, call: Call) {
    LeavesRoomFor(call, l, "x", "y")
  }

  lemma RoomForTwo(l: Ledger)
    requires HasRows(l)
    ensures HasRoom(l, "v", 30) && !HasRoom(l, "v", 60)
    ensures HasRoomFor(l, Invalidation("p", PAID)) && HasRoomFor(l, NewWithdrawal(RESERVED))
    ensures HasRoomFor(l, ChangeTransfer("t", MOVING, Settlement("v", 20)))
    ensures HasRoomFor(l, ChangeWithdrawal("w", ASKED, Settlement("v", 40)))
  {
  }

  // All of this happens to tables with the rows above, for which RoomForTwo has what it needs.
  lemma InvalidationsBreak(l: Ledger)
    requires Books(l) && "p" in l.payments && l.payments["p"] == PAID && HasRoomFor(l, Invalidation("p", PAID))
    requires "v" in l.vaults && l.vaults["v"].amount == 100
    ensures LeavesAmount(l, Twice(Invalidation("p", PAID), "x", "y"), "v", -100)
  {
    InvalidatedTwice(l, "p", "x", "y");
  }

  lemma SettlementsBreak(l: Ledger)
    requires Books(l) && "t" in l.transfers && l.transfers["t"] == MOVING
    requires HasRoomFor(l, ChangeTransfer("t", MOVING, Settlement("v", 20)))
    ensures Unbalances(l, Twice(ChangeTransfer("t", MOVING, Settlement("v", 20)), "x", "y"))
  {
    TransferSettledTwice(l, "t", "x", "y");
  }

  lemma RedirectionBreaks(l: Ledger)
    requires Books(l) && HasRows(l)
    ensures Unbalances(l, RedirectingAround(MOVING, "t", "v", "x"))
  {
    RedirectedMeanwhile(l, "t", "v", "x");
  }

  lemma OverlapsBreak(l: Ledger)
    requires Books(l) && "w" in l.withdrawals && l.withdrawals["w"] == ASKED && "v" in l.vaults
    requires l.vaults["v"].amount == 100 && HasRoomFor(l, ChangeWithdrawal("w", ASKED, Settlement("v", 40)))
    ensures LeavesAmount(l, Twice(ChangeWithdrawal("w", ASKED, Settlement("v", 40)), "x", "y"), "v", 20)
  {
    WithdrawalSettledTwice(l, "w", "x", "y");
  }

  const RESERVED := Withdrawal("v", 30, InitialRequest)

  // Written twice, with room for one.
  ghost predicate Overbooks(l: Ledger, steps: seq<Step>, v: Id) {
    && IsSchedule(State(l, map[]), steps)
    && var l' := Execute(State(l, map[]), steps).ledger;
    Books(l') && v in l'.vaults && Free(l', v) < 0
  }

  lemma OverlapsOverbook(l: Ledger)
    requires Books(l) && HasRoom(l, "v", 30) && !HasRoom(l, "v", 60) && HasRoomFor(l, NewWithdrawal(RESERVED))
    ensures Overbooks(l, Twice(NewWithdrawal(RESERVED), "x", "y"), "v")
  {
    ReservedTwice(l, RESERVED, "x", "y");
  }

  lemma RemovalBreaks(l: Ledger)
    requires Books(l) && HasRows(l)
    ensures var s := State(DeleteWithdrawal(l, "w"), map[1 := Removal(ASKED)]);
            BooksUpToRemovals(s) && !Books(s.ledger)
  {
    RemovalCrashed(l, "w");
  }

  lemma BalancedFails()
    ensures LeavesAmount(BALANCED, Twice(Invalidation("p", PAID), "x", "y"), "v", -100)
    ensures LeavesAmount(BALANCED, Twice(ChangeWithdrawal("w", ASKED, Settlement("v", 40)), "x", "y"), "v", 20)
    ensures Unbalances(BALANCED, Twice(ChangeTransfer("t", MOVING, Settlement("v", 20)), "x", "y"))
    ensures Overbooks(BALANCED, Twice(NewWithdrawal(RESERVED), "x", "y"), "v")
  {
    BalancedHasRows();
    RoomForTwo(BALANCED);
    InvalidationsBreak(BALANCED);
    OverlapsBreak(BALANCED);
    SettlementsBreak(BALANCED);
    OverlapsOverbook(BALANCED);
  }

  // ---- campaigns and batches ----

  // The call takes an open campaign to its target and leaves every campaign as it was.
  ghost predicate Oversteps(l: Ledger, op: Op) {
    Possible(l, op) && Perform(l, op).Success? && !C.OnTarget(After(l, op)) && After(l, op).campaigns == l.campaigns
  }

  // Settling a transfer takes an active campaign past its target and leaves it active.
  lemma SettledPastTheTarget(l: Ledger, id: Id)
    requires WellFormed(l) && C.OnTarget(l) && id in l.transfers && !IsClosed(l.transfers[id].status)
    requires var t := l.transfers[id];
             var c := l.vaults[t.target].campaign;
             c in l.campaigns && l.campaigns[c].state == Active && l.campaigns[c].target > 0
             && c != l.vaults[t.source].campaign && CampaignTotal(l, c) + t.amount >= l.campaigns[c].target
    ensures var t := l.transfers[id];
            var op := TransferUpdate(id, Settlement(t.source, t.amount));
            Oversteps(l, op)
  {
    var t := l.transfers[id];
    var op := TransferUpdate(id, Settlement(t.source, t.amount));
    var c := l.vaults[t.target].campaign;
    C.UncheckedSettlement(l, op, c);
    C.StepStaysOnTargetExactly(l, op);
    assert C.Unchecked(l, op, c) == t.amount;
  }

  // Removing a succeeded withdrawal does the same.
  lemma RemovedPastTheTarget(l: Ledger, id: Id)
    requires WellFormed(l) && C.OnTarget(l) && id in l.withdrawals && l.withdrawals[id].status == SucceededRequest
    requires var w := l.withdrawals[id];
             var c := l.vaults[w.vault].campaign;
             c in l.campaigns && l.campaigns[c].state == Active && l.campaigns[c].target > 0
             && CampaignTotal(l, c) + w.amount >= l.campaigns[c].target
    ensures Oversteps(l, WithdrawRemove(id))
  {
    var c := l.vaults[l.withdrawals[id].vault].campaign;
    C.UncheckedRemoval(l, WithdrawRemove(id), c);
    C.StepStaysOnTargetExactly(l, WithdrawRemove(id));
    assert C.Unchecked(l, WithdrawRemove(id), c) == l.withdrawals[id].amount;
  }

  lemma BalancedOnTarget()
    ensures C.OnTarget(BALANCED) && CampaignTotal(BALANCED, "d") == 0
  {
    var v, u := Vault("c", 100, 60), Vault("d", 0, 0);
    SumOfRow("v", v, AmountIn("d"));
    SumUpdate(map["v" := v], "u", u, AmountIn("d"));
    assert map["v" := v]["u" := u] == map["v" := v, "u" := u];
    assert C.BelowTarget(BALANCED, "d");
  }

  // A paid-out vault of a campaign whose target was set afterwards.
  const GIVEN := Payment("i", "card", Succeeded, 15, 20, Donation(15, "u", None))
  const TAKEN := Withdrawal("u", 15, SucceededRequest)
  const PAID_OUT := Ledger(
    map["u" := Vault("d", 0, 0)], map["p" := GIVEN], map["w" := TAKEN], map[], map["d" := Campaign(Active, 10)])

  lemma PaidOutBooks()
    ensures Books(PAID_OUT) && C.OnTarget(PAID_OUT)
  {
    SumOfRow("p", GIVEN, Paid("u"));
    SumOfRow("w", TAKEN, Withdrawn("u"));
    SumOfRow("w", TAKEN, HeldForWithdrawal("u"));
    assert Balanced(PAID_OUT, "u");
    SumOfRow("u", Vault("d", 0, 0), AmountIn("d"));
    assert C.BelowTarget(PAID_OUT, "d");
  }

  lemma SettlementOversteps()
    ensures Books(BALANCED) && C.OnTarget(BALANCED) && Oversteps(BALANCED, TransferUpdate("t", Settlement("v", 20)))
  {
    BalancedBooks();
    BalancedOnTarget();
    SettledPastTheTarget(BALANCED, "t");
  }

  lemma RemovalOversteps()
    ensures Books(PAID_OUT) && C.OnTarget(PAID_OUT) && Oversteps(PAID_OUT, WithdrawRemove("w"))
  {
    PaidOutBooks();
    SumOfRow("u", Vault("d", 0, 0), AmountIn("d"));
    RemovedPastTheTarget(PAID_OUT, "w");
  }

  // A batch increment passes over a vault that holds less than its part, which a single increment raises.
  lemma BatchSkipsAPoorVault(l: Ledger, v: Id, amount: int)
    requires v in l.vaults && amount > 0 && l.vaults[v].amount <= amount
    ensures var gifts := [B.Gift(v, amount)];
            B.UpdateManyVaults(l, B.PrepareVaultUpdate(gifts), true) != B.UpdateEach(l, gifts, true)
    ensures UpdateVaultAmount(l, v, amount, true).Success?
  {
    var gifts := [B.Gift(v, amount)];
    B.ListedStep(gifts, v);
    B.BatchMatchesEachExactly(l, gifts, true);
    assert B.GiftedTo(gifts[..0], v) == 0;
  }

  lemma BatchFails()
    ensures B.UpdateManyVaults(BALANCED, B.PrepareVaultUpdate([B.Gift("u", 5)]), true)
         != B.UpdateEach(BALANCED, [B.Gift("u", 5)], true)
  {
    BatchSkipsAPoorVault(BALANCED, "u", 5);
  }
}
