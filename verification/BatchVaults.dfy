// Updating many vaults at once (apps/api/src/vault/vault.service.ts:187-254).
module BatchVaults {
  import opened Wrappers
  import opened Ledgers

  // One donation of a payment, as far as a vault update reads it.
  datatype Gift = Gift(vault: Id, amount: int)

  type VaultUpdate = map<Id, int>

  // `acc[v] ? acc[v] + amount : amount`: an entry of 0 reads as missing.
  function AddGift(acc: VaultUpdate, gift: Gift): VaultUpdate {
    acc[gift.vault := if gift.vault in acc && acc[gift.vault] != 0 then acc[gift.vault] + gift.amount else gift.amount]
  }

  function PrepareVaultUpdate(gifts: seq<Gift>): VaultUpdate {
    if gifts == [] then map[] else AddGift(PrepareVaultUpdate(gifts[..|gifts| - 1]), gifts[|gifts| - 1])
  }

  // A single statement with no VALUES rows is a syntax error. A listed vault is written only where its
  // balance exceeds the listed amount, whichever way the money goes.
  function UpdateManyVaults(l: Ledger, updates: VaultUpdate, up: bool): Result<Ledger> {
    if updates == map[] then Failure(Internal)
    else Success(l.(vaults :=
      map v | v in l.vaults ::
        var row := l.vaults[v];
        if v in updates && row.amount - updates[v] > 0 then
          row.(amount := if up then row.amount + updates[v] else row.amount - updates[v])
        else row))
  }

  predicate WouldFail(l: Ledger, updates: VaultUpdate, v: Id) {
    v in updates && v in l.vaults && !(l.vaults[v].amount - updates[v] > 0)
  }

  function DecrementManyVaults(l: Ledger, updates: VaultUpdate): Result<Ledger> {
    if exists v :: v in updates && WouldFail(l, updates, v) then Failure(Internal)
    else UpdateManyVaults(l, updates, false)
  }

  // ---- the same, one donation at a time ----

  function GiftedTo(gifts: seq<Gift>, v: Id): int {
    if gifts == [] then 0
    else GiftedTo(gifts[..|gifts| - 1], v)
         + (if gifts[|gifts| - 1].vault == v then gifts[|gifts| - 1].amount else 0)
  }

  function UpdateEach(l: Ledger, gifts: seq<Gift>, up: bool): Result<Ledger> {
    if gifts == [] then Success(l)
    else match UpdateEach(l, gifts[..|gifts| - 1], up)
      case Failure(e) => Failure(e)
      case Success(l') => UpdateVaultAmount(l', gifts[|gifts| - 1].vault, gifts[|gifts| - 1].amount, up)
  }

  predicate IsListed(gifts: seq<Gift>, v: Id) {
    exists g :: g in gifts && g.vault == v
  }

  predicate Payable(l: Ledger, gifts: seq<Gift>) {
    forall g :: g in gifts ==> g.amount > 0 && g.vault in l.vaults
  }

  lemma ListedStep(gifts: seq<Gift>, v: Id)
    requires gifts != []
    ensures IsListed(gifts, v) <==> IsListed(gifts[..|gifts| - 1], v) || gifts[|gifts| - 1].vault == v
  {
    var n := |gifts| - 1;
    if g :| g in gifts && g.vault == v && g != gifts[n] {
      var k :| 0 <= k < |gifts| && gifts[k] == g;
      assert gifts[..n][k] == g;
    }
    if g :| g in gifts[..n] && g.vault == v {
      assert g in gifts;
    }
  }

  // The update object holds, for exactly the listed vaults, the sum of their donations.
  lemma {:induction false} PreparedSums(gifts: seq<Gift>, v: Id)
    ensures v in PrepareVaultUpdate(gifts) <==> IsListed(gifts, v)
    ensures v in PrepareVaultUpdate(gifts) ==> PrepareVaultUpdate(gifts)[v] == GiftedTo(gifts, v)
    ensures v !in PrepareVaultUpdate(gifts) ==> GiftedTo(gifts, v) == 0
    decreases |gifts|
  {
    if gifts != [] {
      PreparedSums(gifts[..|gifts| - 1], v);
      ListedStep(gifts, v);
    }
  }

  // ---- order does not matter ----

  lemma {:induction false} GiftedWithout(gifts: seq<Gift>, k: nat, v: Id)
    requires k < |gifts|
    ensures GiftedTo(gifts, v)
         == GiftedTo(gifts[..k] + gifts[k + 1..], v) + (if gifts[k].vault == v then gifts[k].amount else 0)
    decreases |gifts|
  {
    var n := |gifts| - 1;
    if k == n {
      assert gifts[..k] + gifts[k + 1..] == gifts[..n];
    } else {
      var rest := gifts[..k] + gifts[k + 1..];
      assert rest[..|rest| - 1] == gifts[..n][..k] + gifts[..n][k + 1..];
      assert rest[|rest| - 1] == gifts[n];
      GiftedWithout(gifts[..n], k, v);
    }
  }

  lemma {:induction false} GiftedAnyOrder(a: seq<Gift>, b: seq<Gift>, v: Id)
    requires multiset(a) == multiset(b)
    ensures GiftedTo(a, v) == GiftedTo(b, v)
    decreases |a|
  {
    if a == [] {
      assert |b| == |multiset(b)| == |multiset(a)| == 0;
    } else {
      var last := a[|a| - 1];
      assert a == a[..|a| - 1] + [last];
      assert last in multiset(b);
      var k :| 0 <= k < |b| && b[k] == last;
      assert b == b[..k] + [last] + b[k + 1..];
      calc {
        multiset(a[..|a| - 1]);
        multiset(a) - multiset{last};
        multiset(b[..k] + [last] + b[k + 1..]) - multiset{last};
        multiset(b[..k]) + multiset(b[k + 1..]);
        multiset(b[..k] + b[k + 1..]);
      }
      GiftedAnyOrder(a[..|a| - 1], b[..k] + b[k + 1..], v);
      GiftedWithout(b, k, v);
    }
  }

  lemma PreparedAnyOrder(a: seq<Gift>, b: seq<Gift>)
    requires multiset(a) == multiset(b)
    ensures PrepareVaultUpdate(a) == PrepareVaultUpdate(b)
  {
    assert forall g :: g in a <==> g in multiset(a);
    assert forall g :: g in b <==> g in multiset(b);
    forall v
      ensures v in PrepareVaultUpdate(a) <==> v in PrepareVaultUpdate(b)
      ensures v in PrepareVaultUpdate(a) ==> PrepareVaultUpdate(a)[v] == PrepareVaultUpdate(b)[v]
    {
      PreparedSums(a, v);
      PreparedSums(b, v);
      GiftedAnyOrder(a, b, v);
    }
  }

  // ---- the batch against one donation at a time ----

  lemma {:induction false} EachAddsUp(l: Ledger, gifts: seq<Gift>, up: bool)
    requires Payable(l, gifts)
    ensures var r := UpdateEach(l, gifts, up);
            && r.Success?
            && r.value == l.(vaults := r.value.vaults)
            && r.value.vaults.Keys == l.vaults.Keys
            && forall v :: v in l.vaults ==>
                 r.value.vaults[v] ==
                 l.vaults[v].(amount := l.vaults[v].amount + (if up then GiftedTo(gifts, v) else -GiftedTo(gifts, v)))
    decreases |gifts|
  {
    if gifts != [] {
      EachAddsUp(l, gifts[..|gifts| - 1], up);
    }
  }

  lemma {:induction false} ListedIsPositive(gifts: seq<Gift>, v: Id)
    requires forall g :: g in gifts ==> g.amount > 0
    ensures GiftedTo(gifts, v) >= 0
    ensures IsListed(gifts, v) ==> GiftedTo(gifts, v) > 0
    decreases |gifts|
  {
    if gifts != [] {
      ListedIsPositive(gifts[..|gifts| - 1], v);
      ListedStep(gifts, v);
    }
  }

  // The balance of every listed vault exceeds its part of the donations.
  predicate Covered(l: Ledger, gifts: seq<Gift>) {
    forall v :: v in l.vaults && IsListed(gifts, v) ==> l.vaults[v].amount > GiftedTo(gifts, v)
  }

  lemma BatchRow(l: Ledger, gifts: seq<Gift>, up: bool, v: Id)
    requires gifts != [] && Payable(l, gifts) && v in l.vaults
    ensures var r := UpdateManyVaults(l, PrepareVaultUpdate(gifts), up);
            && r.Success? && r.value == l.(vaults := r.value.vaults) && r.value.vaults.Keys == l.vaults.Keys
            && r.value.vaults[v] ==
               if IsListed(gifts, v) && l.vaults[v].amount > GiftedTo(gifts, v)
               then l.vaults[v].(amount := l.vaults[v].amount
                                 + (if up then GiftedTo(gifts, v) else -GiftedTo(gifts, v)))
               else l.vaults[v]
  {
    PreparedSums(gifts, v);
    PreparedSums(gifts, gifts[0].vault);
  }

  // A batch matches one update per donation exactly when every listed vault is covered.
  lemma BatchMatchesEachExactly(l: Ledger, gifts: seq<Gift>, up: bool)
    requires gifts != [] && Payable(l, gifts)
    ensures UpdateManyVaults(l, PrepareVaultUpdate(gifts), up) == UpdateEach(l, gifts, up) <==> Covered(l, gifts)
  {
    EachAddsUp(l, gifts, up);
    BatchRow(l, gifts, up, gifts[0].vault);
    var batch, each := UpdateManyVaults(l, PrepareVaultUpdate(gifts), up).value, UpdateEach(l, gifts, up).value;
    forall v | v in l.vaults
      ensures batch.vaults[v] == each.vaults[v]
         <==> (IsListed(gifts, v) ==> l.vaults[v].amount > GiftedTo(gifts, v))
    {
      BatchRow(l, gifts, up, v);
      ListedIsPositive(gifts, v);
      if !IsListed(gifts, v) { PreparedSums(gifts, v); }
    }
    assert batch == each <==> batch.vaults == each.vaults;
  }

  // The guarded decrement aborts with nothing changed unless every listed vault is covered; otherwise it
  // is one decrement per donation, and leaves every listed vault strictly positive.
  lemma DecrementManyIsAllOrNothing(l: Ledger, gifts: seq<Gift>)
    requires gifts != [] && Payable(l, gifts)
    ensures var r := DecrementManyVaults(l, PrepareVaultUpdate(gifts));
            && (r.Success? <==> Covered(l, gifts))
            && (r.Success? ==> r == UpdateEach(l, gifts, false)
                               && forall v :: v in l.vaults && IsListed(gifts, v) ==> r.value.vaults[v].amount > 0)
  {
    var updates := PrepareVaultUpdate(gifts);
    forall v | v in l.vaults
      ensures WouldFail(l, updates, v) <==> IsListed(gifts, v) && l.vaults[v].amount <= GiftedTo(gifts, v)
    {
      PreparedSums(gifts, v);
    }
    BatchMatchesEachExactly(l, gifts, false);
    BatchRow(l, gifts, false, gifts[0].vault);
    EachAddsUp(l, gifts, false);
    assert Covered(l, gifts) <==> !exists v :: v in updates && WouldFail(l, updates, v);
  }

  // The batch increment raises exactly the listed vaults whose balance exceeds their increment.
  lemma IncrementManyRaisesExactly(l: Ledger, gifts: seq<Gift>, v: Id)
    requires gifts != [] && Payable(l, gifts) && v in l.vaults
    ensures var r := UpdateManyVaults(l, PrepareVaultUpdate(gifts), true);
            r.Success? && v in r.value.vaults && r.value.vaults[v].amount == l.vaults[v].amount
            + (if IsListed(gifts, v) && l.vaults[v].amount > GiftedTo(gifts, v) then GiftedTo(gifts, v) else 0)
  {
    BatchRow(l, gifts, true, v);
  }
}
