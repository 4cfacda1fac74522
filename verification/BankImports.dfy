// Importing a file of bank transactions (the fold of createUpdateBankPayment over its movements,
// apps/api/src/bank-transactions-file/bank-transactions-file.controller.ts:90-146).
module BankImports {
  import opened Totals
  import opened Ledgers
  import opened Conservation

  datatype ImportStatus = SUCCESS | UPDATED | FAILED

  // A parsed transaction: whether its payment reference names a campaign, and the id a new row gets.
  datatype Movement = Movement(bank: BankPayment, campaignKnown: bool, newId: Id)

  datatype Imported = Imported(ledger: Ledger, statuses: seq<ImportStatus>)

  ghost function ImportOne(l: Ledger, m: Movement): (Ledger, ImportStatus) {
    if !m.campaignKnown then (l, FAILED)
    else match CreateUpdateBankPayment(l, m.newId, m.bank)
      case Failure(_) => (l, FAILED)
      case Success(l') => (l', if HasIntent(l.payments, m.bank.intent) then UPDATED else SUCCESS)
  }

  ghost function ImportAll(l: Ledger, ms: seq<Movement>): Imported
    decreases |ms|
  {
    if ms == [] then Imported(l, [])
    else
      var before := ImportAll(l, ms[..|ms| - 1]);
      var (l', status) := ImportOne(before.ledger, ms[|ms| - 1]);
      Imported(l', before.statuses + [status])
  }

  // ---- what the import should do, told from the list ----

  predicate Creditable(l: Ledger, m: Movement) {
    m.campaignKnown && m.bank.amount > 0 && m.bank.vault in l.vaults
  }

  // The first creditable movement of an external id that no payment had.
  predicate IsNew(l: Ledger, ms: seq<Movement>, j: nat)
    requires j < |ms|
  {
    && Creditable(l, ms[j])
    && !HasIntent(l.payments, ms[j].bank.intent)
    && forall k :: 0 <= k < j && Creditable(l, ms[k]) ==> ms[k].bank.intent != ms[j].bank.intent
  }

  function NewOnes(l: Ledger, ms: seq<Movement>): set<nat> {
    set j: nat | j < |ms| && IsNew(l, ms, j)
  }

  function NewIntents(l: Ledger, ms: seq<Movement>): set<string> {
    set j: nat | j < |ms| && Creditable(l, ms[j]) && !HasIntent(l.payments, ms[j].bank.intent) :: ms[j].bank.intent
  }

  ghost function CreditTo(ms: seq<Movement>, v: Id): nat -> int {
    (j: nat) => if j < |ms| && ms[j].bank.vault == v then ms[j].bank.amount else 0
  }

  function Successes(statuses: seq<ImportStatus>): nat {
    if statuses == [] then 0
    else Successes(statuses[..|statuses| - 1]) + (if statuses[|statuses| - 1] == SUCCESS then 1 else 0)
  }

  predicate FreshIds(l: Ledger, ms: seq<Movement>) {
    && (forall j :: 0 <= j < |ms| ==> ms[j].newId !in l.payments)
    && (forall j, k :: 0 <= j < k < |ms| ==> ms[j].newId != ms[k].newId)
  }

  // The payments after the import: the old ones, and one per new id.
  ghost predicate IntentsGrow(l: Ledger, ms: seq<Movement>, l': Ledger) {
    forall i :: HasIntent(l'.payments, i) <==> HasIntent(l.payments, i) || i in NewIntents(l, ms)
  }

  lemma IntentWritten(payments: map<Id, Payment>, id: Id, p: Payment, i: string)
    requires id !in payments
    ensures HasIntent(payments[id := p], i) <==> HasIntent(payments, i) || i == p.intent
  {
    assert payments[id := p][id].intent == p.intent;
    forall k | k in payments && payments[k].intent == i
      ensures HasIntent(payments[id := p], i)
    {
      assert payments[id := p][k].intent == i;
    }
  }

  lemma CreditOne(l: Ledger, m: Movement)
    requires Creditable(l, m) && !HasIntent(l.payments, m.bank.intent)
    ensures var l' := ImportOne(l, m).0;
            && ImportOne(l, m).1 == SUCCESS
            && l'.payments == l.payments[m.newId := ImportedPayment(m.bank)]
            && l'.vaults == AddTo(l, m.bank.vault, m.bank.amount, 0).vaults
  {
    IncrementShape(WritePayment(l, m.newId, ImportedPayment(m.bank)), m.bank.vault, m.bank.amount);
  }

  lemma SkipOne(l: Ledger, m: Movement)
    requires !Creditable(l, m) || HasIntent(l.payments, m.bank.intent)
    ensures ImportOne(l, m).0 == l && ImportOne(l, m).1 != SUCCESS
  {
  }

  lemma NewOnesOfPrefix(l: Ledger, ms: seq<Movement>)
    requires ms != []
    ensures var n := |ms| - 1;
            && NewOnes(l, ms) == NewOnes(l, ms[..n]) + (if IsNew(l, ms, n) then {n} else {})
            && n !in NewOnes(l, ms[..n])
            && NewIntents(l, ms) == NewIntents(l, ms[..n])
                 + (if Creditable(l, ms[n]) && !HasIntent(l.payments, ms[n].bank.intent) then {ms[n].bank.intent}
                    else {})
            && (Creditable(l, ms[n]) && !HasIntent(l.payments, ms[n].bank.intent) ==>
                 (IsNew(l, ms, n) <==> ms[n].bank.intent !in NewIntents(l, ms[..n])))
  {
    var n := |ms| - 1;
    forall j: nat | j < n
      ensures IsNew(l, ms, j) <==> IsNew(l, ms[..n], j)
    {
    }
  }

  lemma CreditsOfPrefix(l: Ledger, ms: seq<Movement>, v: Id)
    requires ms != []
    ensures var n := |ms| - 1;
            SumOver(NewOnes(l, ms), CreditTo(ms, v))
            == SumOver(NewOnes(l, ms[..n]), CreditTo(ms[..n], v)) + (if IsNew(l, ms, n) then CreditTo(ms, v)(n) else 0)
  {
    var n: nat := |ms| - 1;
    NewOnesOfPrefix(l, ms);
    SumOverSame(NewOnes(l, ms[..n]), CreditTo(ms, v), CreditTo(ms[..n], v));
    if IsNew(l, ms, n) {
      SumOverRemove(NewOnes(l, ms), n, CreditTo(ms, v));
      assert NewOnes(l, ms) - {n} == NewOnes(l, ms[..n]);
    } else {
      assert NewOnes(l, ms) == NewOnes(l, ms[..n]);
    }
  }

  // The tables after part of the list: its ids are known, its row ids are the only new ones.
  ghost predicate Recorded(l: Ledger, ms: seq<Movement>, l': Ledger) {
    && IntentsGrow(l, ms, l')
    && (forall id :: id in l'.payments ==> id in l.payments || exists j :: 0 <= j < |ms| && ms[j].newId == id)
    && l'.vaults.Keys == l.vaults.Keys
  }

  lemma RecordOne(l: Ledger, ms: seq<Movement>, before: Ledger)
    requires ms != [] && FreshIds(l, ms) && Recorded(l, ms[..|ms| - 1], before)
    requires Creditable(l, ms[|ms| - 1]) && !HasIntent(before.payments, ms[|ms| - 1].bank.intent)
    ensures Recorded(l, ms, ImportOne(before, ms[|ms| - 1]).0)
  {
    var n := |ms| - 1;
    NewOnesOfPrefix(l, ms);
    CreditOne(before, ms[n]);
    var l' := ImportOne(before, ms[n]).0;
    forall i
      ensures HasIntent(l'.payments, i) <==> HasIntent(before.payments, i) || i == ms[n].bank.intent
    {
      IntentWritten(before.payments, ms[n].newId, ImportedPayment(ms[n].bank), i);
    }
    forall id | id in l'.payments
      ensures id in l.payments || exists j :: 0 <= j < |ms| && ms[j].newId == id
    {
      if id != ms[n].newId && id !in l.payments {
        var j :| 0 <= j < n && ms[..n][j].newId == id;
        assert ms[j].newId == id;
      }
    }
  }

  lemma RecordNone(l: Ledger, ms: seq<Movement>, before: Ledger)
    requires ms != [] && Recorded(l, ms[..|ms| - 1], before)
    requires Creditable(l, ms[|ms| - 1]) ==> HasIntent(before.payments, ms[|ms| - 1].bank.intent)
    ensures Recorded(l, ms, before)
  {
    var n := |ms| - 1;
    NewOnesOfPrefix(l, ms);
    assert NewIntents(l, ms) == NewIntents(l, ms[..n]);
    forall id | id in before.payments
      ensures id in l.payments || exists j :: 0 <= j < |ms| && ms[j].newId == id
    {
      if id !in l.payments {
        var j :| 0 <= j < n && ms[..n][j].newId == id;
        assert ms[j].newId == id;
      }
    }
  }

  lemma {:induction false} ImportRecords(l: Ledger, ms: seq<Movement>)
    requires FreshIds(l, ms)
    ensures Recorded(l, ms, ImportAll(l, ms).ledger)
    decreases |ms|
  {
    if ms != [] {
      var n := |ms| - 1;
      ImportRecords(l, ms[..n]);
      var before := ImportAll(l, ms[..n]).ledger;
      if Creditable(l, ms[n]) && !HasIntent(before.payments, ms[n].bank.intent) {
        RecordOne(l, ms, before);
      } else {
        SkipOne(before, ms[n]);
        RecordNone(l, ms, before);
      }
    }
  }

  // Whether the next movement is credited, from the list alone.
  lemma CreditedExactlyIfNew(l: Ledger, ms: seq<Movement>, before: Ledger)
    requires ms != [] && Recorded(l, ms[..|ms| - 1], before)
    ensures Creditable(before, ms[|ms| - 1]) && !HasIntent(before.payments, ms[|ms| - 1].bank.intent)
       <==> IsNew(l, ms, |ms| - 1)
  {
    NewOnesOfPrefix(l, ms);
  }

  lemma CountStep(l: Ledger, ms: seq<Movement>)
    requires ms != []
    ensures |NewOnes(l, ms)| == |NewOnes(l, ms[..|ms| - 1])| + (if IsNew(l, ms, |ms| - 1) then 1 else 0)
    ensures |NewIntents(l, ms)| == |NewIntents(l, ms[..|ms| - 1])| + (if IsNew(l, ms, |ms| - 1) then 1 else 0)
  {
    NewOnesOfPrefix(l, ms);
    if !IsNew(l, ms, |ms| - 1) {
      assert NewIntents(l, ms) == NewIntents(l, ms[..|ms| - 1]);
    }
  }

  lemma StatusesGrow(l: Ledger, ms: seq<Movement>)
    requires ms != []
    ensures var before := ImportAll(l, ms[..|ms| - 1]);
            var one := ImportOne(before.ledger, ms[|ms| - 1]);
            && ImportAll(l, ms).ledger == one.0
            && |ImportAll(l, ms).statuses| == |before.statuses| + 1
            && Successes(ImportAll(l, ms).statuses) == Successes(before.statuses) + (if one.1 == SUCCESS then 1 else 0)
  {
    var n := |ms| - 1;
    var before := ImportAll(l, ms[..n]);
    assert ImportAll(l, ms).statuses[..|before.statuses|] == before.statuses;
  }

  lemma SuccessIfNew(l: Ledger, ms: seq<Movement>)
    requires ms != [] && FreshIds(l, ms)
    ensures ImportOne(ImportAll(l, ms[..|ms| - 1]).ledger, ms[|ms| - 1]).1 == SUCCESS <==> IsNew(l, ms, |ms| - 1)
  {
    var n := |ms| - 1;
    var before := ImportAll(l, ms[..n]).ledger;
    ImportRecords(l, ms[..n]);
    CreditedExactlyIfNew(l, ms, before);
    if IsNew(l, ms, n) { CreditOne(before, ms[n]); } else { SkipOne(before, ms[n]); }
  }

  // One result per movement, SUCCESS once per new external id.
  lemma {:induction false} OneSuccessPerNewId(l: Ledger, ms: seq<Movement>)
    requires FreshIds(l, ms)
    ensures |ImportAll(l, ms).statuses| == |ms|
    ensures Successes(ImportAll(l, ms).statuses) == |NewOnes(l, ms)| == |NewIntents(l, ms)|
    decreases |ms|
  {
    if ms != [] {
      OneSuccessPerNewId(l, ms[..|ms| - 1]);
      CountStep(l, ms);
      SuccessIfNew(l, ms);
      StatusesGrow(l, ms);
    }
  }

  // The payment is there already, or an earlier movement of the list brought it in.
  predicate IsKnown(l: Ledger, ms: seq<Movement>, j: nat)
    requires j < |ms|
  {
    || HasIntent(l.payments, ms[j].bank.intent)
    || exists k :: 0 <= k < j && Creditable(l, ms[k]) && ms[k].bank.intent == ms[j].bank.intent
  }

  // The last result says what became of its movement, told from the list alone.
  lemma LastResult(l: Ledger, ms: seq<Movement>)
    requires ms != [] && FreshIds(l, ms)
    ensures var j, status := |ms| - 1, ImportOne(ImportAll(l, ms[..|ms| - 1]).ledger, ms[|ms| - 1]).1;
            && (status == SUCCESS <==> IsNew(l, ms, j))
            && (status == UPDATED <==> ms[j].campaignKnown && IsKnown(l, ms, j))
  {
    var n := |ms| - 1;
    var before := ImportAll(l, ms[..n]).ledger;
    ImportRecords(l, ms[..n]);
    SuccessIfNew(l, ms);
    assert HasIntent(before.payments, ms[n].bank.intent) <==> IsKnown(l, ms, n) by {
      if k :| 0 <= k < n && Creditable(l, ms[k]) && ms[k].bank.intent == ms[n].bank.intent {
        assert ms[..n][k] == ms[k];
      }
    }
  }

  // Every movement has its result: SUCCESS if it brought the money in, UPDATED if its campaign is known and
  // its payment was there by then, FAILED otherwise.
  lemma {:induction false} ResultsTell(l: Ledger, ms: seq<Movement>, j: nat)
    requires j < |ms| && FreshIds(l, ms)
    ensures |ImportAll(l, ms).statuses| == |ms|
    ensures ImportAll(l, ms).statuses[j]
         == if IsNew(l, ms, j) then SUCCESS
            else if ms[j].campaignKnown && IsKnown(l, ms, j) then UPDATED
            else FAILED
    decreases |ms|
  {
    var n := |ms| - 1;
    OneSuccessPerNewId(l, ms);
    OneSuccessPerNewId(l, ms[..n]);
    if j == n {
      LastResult(l, ms);
    } else {
      ResultsTell(l, ms[..n], j);
      assert IsNew(l, ms, j) <==> IsNew(l, ms[..n], j);
      assert IsKnown(l, ms, j) <==> IsKnown(l, ms[..n], j);
    }
  }

  // The import raises each vault by the first creditable movement of each new external id.
  lemma {:induction false} ImportCreditsNewIds(l: Ledger, ms: seq<Movement>, v: Id)
    requires FreshIds(l, ms) && v in l.vaults
    ensures var after := ImportAll(l, ms).ledger.vaults;
            && v in after
            && after[v].amount == l.vaults[v].amount + SumOver(NewOnes(l, ms), CreditTo(ms, v))
            && after[v].blocked == l.vaults[v].blocked
    decreases |ms|
  {
    if ms != [] {
      var n := |ms| - 1;
      ImportCreditsNewIds(l, ms[..n], v);
      ImportRecords(l, ms[..n]);
      CreditsOfPrefix(l, ms, v);
      var before := ImportAll(l, ms[..n]).ledger;
      CreditedExactlyIfNew(l, ms, before);
      if IsNew(l, ms, n) { CreditOne(before, ms[n]); } else { SkipOne(before, ms[n]); }
    }
  }

  // A list whose creditable ids are all known changes nothing and reports no success.
  lemma {:induction false} KnownIdsChangeNothing(l: Ledger, ms: seq<Movement>)
    requires forall j :: 0 <= j < |ms| && Creditable(l, ms[j]) ==> HasIntent(l.payments, ms[j].bank.intent)
    ensures ImportAll(l, ms).ledger == l && SUCCESS !in ImportAll(l, ms).statuses
    decreases |ms|
  {
    if ms != [] {
      KnownIdsChangeNothing(l, ms[..|ms| - 1]);
      SkipOne(l, ms[|ms| - 1]);
    }
  }

  // Importing any part of the file again, in any order and with any new row ids, changes nothing.
  lemma ImportIsIdempotent(l: Ledger, ms: seq<Movement>, again: seq<Movement>)
    requires FreshIds(l, ms)
    requires forall a :: a in again ==> exists m :: m in ms && m.bank == a.bank && m.campaignKnown == a.campaignKnown
    ensures var done := ImportAll(l, ms).ledger;
            ImportAll(done, again).ledger == done && SUCCESS !in ImportAll(done, again).statuses
  {
    var done := ImportAll(l, ms).ledger;
    ImportRecords(l, ms);
    forall j | 0 <= j < |again| && Creditable(done, again[j])
      ensures HasIntent(done.payments, again[j].bank.intent)
    {
      var m :| m in ms && m.bank == again[j].bank && m.campaignKnown == again[j].campaignKnown;
      var k :| 0 <= k < |ms| && ms[k] == m;
      assert HasIntent(l.payments, m.bank.intent) || m.bank.intent in NewIntents(l, ms);
    }
    KnownIdsChangeNothing(done, again);
  }
}
