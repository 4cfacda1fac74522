// The conversions as the Stripe service runs them (apps/api/src/stripe/stripe.service.ts:573-944):
// one subscription, or all of them, page by page over a listing that the run itself changes.
module StripeServices {
  import opened Wrappers
  import opened Money
  import opened Subscriptions
  import S = Subscriptions
  import opened Conversions

  // ---- several jobs at once ----

  ghost predicate AllInOrder(w: World, jobs: iset<Job>) {
    forall job :: job in jobs ==> Inv(w, job)
  }

  ghost predicate BoundKept(w: World, w': World, jobs: iset<Job>) {
    forall job :: job in jobs && IsBound(w, job) ==> IsBound(w', job)
  }

  ghost predicate BoundFor(w: World, s: SubId, jobs: iset<Job>) {
    forall job :: job in jobs && job.old' == s ==> IsBound(w, job)
  }

  // A step of an attempt under way keeps every donation in order and what is bound bound; the last one
  // binds the donations of its subscription.
  lemma AttemptStep(w: World, step: Step, jobs: iset<Job>)
    requires AllInOrder(w, jobs) && Possible(w, step)
    requires step.MarkRow? || step.Cancel? || step.Create? || step.BindRow? || step.Crash?
    ensures AllInOrder(Next(w, step), jobs) && BoundKept(w, Next(w, step), jobs)
    ensures step.BindRow? ==> BoundFor(Next(w, step), w.attempts[step.a].on, jobs)
  {
    forall job | job in jobs
      ensures Inv(Next(w, step), job) && (IsBound(w, job) ==> IsBound(Next(w, step), job))
      ensures step.BindRow? && job.old' == w.attempts[step.a].on ==> IsBound(Next(w, step), job)
    {
      ForeignAttemptIsAllowed(w, step, job);
      StepKeepsInv(w, step, job);
      if IsBound(w, job) { BoundStaysBound(w, step, job); }
      if Finishes(w, step, job) { BindingStep(w, step, job); }
    }
  }

  // An attempt may begin: a subscription in another currency is nobody's successor.
  lemma AttemptBegins(w: World, begin: Step, jobs: iset<Job>)
    requires AllInOrder(w, jobs) && begin.Begin? && Possible(w, begin)
    requires w.subs[begin.on].price.Some? && w.subs[begin.on].price.value.currency != begin.currency
    requires forall job :: job in jobs ==>
               job.currency == begin.currency && (job.old' == begin.on ==> job.amount == begin.amount)
    ensures AllInOrder(Next(w, begin), jobs)
  {
    forall job | job in jobs
      ensures Inv(Next(w, begin), job)
    {
      assert !IsSuccessor(w, job, begin.on);
      StepKeepsInv(w, begin, job);
    }
  }

  // ---- what else happens ----

  // While a run is under way, webhooks are delivered and donors subscribe.
  predicate IsElsewhere(step: Step) {
    step.Webhook? || (step.Subscribe? && step.subscription.original.None?)
  }

  ghost predicate Leads(w: World, steps: seq<Step>, w': World, jobs: iset<Job>) {
    && IsRun(w, steps) && Run(w, steps) == w'
    && (forall step :: step in steps ==> IsElsewhere(step))
    && forall job :: job in jobs ==> IsFair(w, steps, job)
  }

  // Any number of such steps, in any order, all of which the donations can rely on.
  ghost predicate MayHappen(w: World, w': World, jobs: iset<Job>) {
    exists steps :: Leads(w, steps, w', jobs)
  }

  // The subscriptions there were are as they were; the new ones are no conversion's.
  predicate Grown(before: seq<Subscription>, after: seq<Subscription>) {
    && |before| <= |after|
    && (forall n: nat :: n < |before| ==> after[n] == before[n])
    && (forall n: nat :: |before| <= n < |after| ==> after[n].original.None?)
  }

  lemma {:induction false} LeadsKeeps(w: World, steps: seq<Step>, w': World, jobs: iset<Job>)
    requires AllInOrder(w, jobs) && Leads(w, steps, w', jobs)
    ensures AllInOrder(w', jobs) && BoundKept(w, w', jobs)
    ensures Grown(w.subs, w'.subs) && w'.attempts == w.attempts
    decreases |steps|
  {
    if steps != [] {
      var next := Next(w, steps[0]);
      assert IsElsewhere(steps[0]);
      forall job | job in jobs
        ensures Inv(next, job) && (IsBound(w, job) ==> IsBound(next, job))
      {
        StepKeepsInv(w, steps[0], job);
        if IsBound(w, job) { BoundStaysBound(w, steps[0], job); }
      }
      assert Leads(next, steps[1..], w', jobs);
      LeadsKeeps(next, steps[1..], w', jobs);
    }
  }

  lemma MayHappenKeeps(w: World, w': World, jobs: iset<Job>)
    requires AllInOrder(w, jobs) && MayHappen(w, w', jobs)
    ensures AllInOrder(w', jobs) && BoundKept(w, w', jobs) && Grown(w.subs, w'.subs) && w'.attempts == w.attempts
  {
    var steps :| Leads(w, steps, w', jobs);
    LeadsKeeps(w, steps, w', jobs);
  }

  lemma NothingMayHappen(w: World, jobs: iset<Job>)
    ensures MayHappen(w, w, jobs)
  {
    assert Leads(w, [], w, jobs);
  }

  lemma LeadsFurther(w: World, first: seq<Step>, middle: World, second: seq<Step>, w': World, jobs: iset<Job>)
    requires Leads(w, first, middle, jobs) && Leads(middle, second, w', jobs)
    ensures Leads(w, first + second, w', jobs)
  {
    RunsAppend(w, first, second);
    forall job | job in jobs
      ensures IsFair(w, first + second, job)
    {
      RunAppend(w, first, second, job);
    }
  }

  lemma MayHappenFurther(w: World, middle: World, w': World, jobs: iset<Job>)
    requires MayHappen(w, middle, jobs) && MayHappen(middle, w', jobs)
    ensures MayHappen(w, w', jobs)
  {
    var first :| Leads(w, first, middle, jobs);
    var second :| Leads(middle, second, w', jobs);
    LeadsFurther(w, first, middle, second, w', jobs);
  }

  // ---- the listing ----

  // Stripe lists newest first; `before` is the cursor.
  function Listing(subs: seq<Subscription>, status: string, before: nat): seq<SubId>
    requires before <= |subs|
  {
    if before == 0 then []
    else (if subs[before - 1].status == status then [before - 1] else []) + Listing(subs, status, before - 1)
  }

  predicate Descending(ids: seq<SubId>) {
    forall a, b :: 0 <= a < b < |ids| ==> ids[a] > ids[b]
  }

  lemma {:induction false} ListingIsExact(subs: seq<Subscription>, status: string, before: nat)
    requires before <= |subs|
    ensures Descending(Listing(subs, status, before))
    ensures forall n: nat :: n in Listing(subs, status, before) <==> n < before && subs[n].status == status
    decreases before
  {
    if before > 0 {
      ListingIsExact(subs, status, before - 1);
      var rest := Listing(subs, status, before - 1);
      assert forall k :: 0 <= k < |rest| ==> rest[k] in rest;
    }
  }

  lemma {:induction false} ListingReadsBelowTheCursor(a: seq<Subscription>, b: seq<Subscription>, status: string,
                                                      before: nat)
    requires before <= |a| && before <= |b|
    requires forall n: nat :: n < before ==> a[n] == b[n]
    ensures Listing(a, status, before) == Listing(b, status, before)
    decreases before
  {
    if before > 0 {
      ListingReadsBelowTheCursor(a, b, status, before - 1);
    }
  }

  // What follows the k-th entry is the listing below it.
  lemma {:induction false} ListingContinues(subs: seq<Subscription>, status: string, before: nat, k: nat)
    requires before <= |subs| && 0 < k <= |Listing(subs, status, before)|
    ensures Listing(subs, status, before)[k - 1] < before
    ensures Listing(subs, status, before)[k..] == Listing(subs, status, Listing(subs, status, before)[k - 1])
    decreases before
  {
    var all := Listing(subs, status, before);
    if subs[before - 1].status == status {
      assert all[1..] == Listing(subs, status, before - 1);
      if k > 1 {
        ListingContinues(subs, status, before - 1, k - 1);
        assert all[k..] == all[1..][k - 1..];
      }
    } else {
      assert all == Listing(subs, status, before - 1);
      ListingContinues(subs, status, before - 1, k);
    }
  }

  datatype Listed = Listed(id: SubId, subscription: Subscription)

  // A page is the first `limit` entries below the cursor, and tells whether there are more.
  predicate IsPage(subs: seq<Subscription>, status: string, cursor: nat, page: seq<Listed>, more: bool, limit: nat)
    requires cursor <= |subs|
  {
    var all := Listing(subs, status, cursor);
    && PageIds(page) == (if |all| <= limit then all else all[..limit])
    && (more <==> |all| > limit)
    && ShownAs(page, subs)
  }

  predicate ShownAs(page: seq<Listed>, subs: seq<Subscription>) {
    forall k :: 0 <= k < |page| ==> page[k].id < |subs| && page[k].subscription == subs[page[k].id]
  }

  function PageIds(page: seq<Listed>): seq<SubId> {
    seq(|page|, k requires 0 <= k < |page| => page[k].id)
  }

  // ---- results ----

  datatype ConversionResult = ConversionResult(
    subscription: SubId, originalAmount: int, convertedAmount: int, originalCurrency: Currency, success: bool)

  // What the bulk conversion was asked for.
  datatype Order = Order(source: Currency, target: Currency, rate: real, dryRun: bool)

  // Which external calls fail for a subscription.
  datatype Faults = Faults(mark: bool, cancel: bool, create: bool, bind: bool)

  predicate IsSkipped(order: Order, result: ConversionResult) {
    result.success && (result.originalCurrency != order.source || result.originalCurrency == order.target)
  }

  datatype Tally = Tally(success: nat, failed: nat, skipped: nat)

  function Count(order: Order, tally: Tally, result: ConversionResult): Tally {
    if !result.success then tally.(failed := tally.failed + 1)
    else if IsSkipped(order, result) then tally.(skipped := tally.skipped + 1)
    else tally.(success := tally.success + 1)
  }

  function TallyOf(order: Order, results: seq<ConversionResult>): (tally: Tally)
    ensures tally.success + tally.failed + tally.skipped == |results|
  {
    if results == [] then Tally(0, 0, 0)
    else Count(order, TallyOf(order, results[..|results| - 1]), results[|results| - 1])
  }

  function FailedOnes(results: seq<ConversionResult>): set<nat> {
    set k: nat | k < |results| && !results[k].success
  }

  // The successes in the source currency, unless that is the target.
  function ConvertedOnes(order: Order, results: seq<ConversionResult>): set<nat> {
    set k: nat | k < |results| && IsConverted(order, results[k])
  }

  predicate IsConverted(order: Order, result: ConversionResult) {
    result.success && result.originalCurrency == order.source && order.source != order.target
  }

  // The counts tell the failures, the conversions and the rest.
  predicate CountsAre(order: Order, tally: Tally, results: seq<ConversionResult>) {
    && tally.failed == |FailedOnes(results)| && tally.success == |ConvertedOnes(order, results)|
    && tally.success + tally.failed + tally.skipped == |results|
  }

  lemma FailedOneMore(before: seq<ConversionResult>, result: ConversionResult)
    ensures |FailedOnes(before + [result])| == |FailedOnes(before)| + if result.success then 0 else 1
  {
    assert FailedOnes(before + [result]) == FailedOnes(before) + if result.success then {} else {|before|};
  }

  lemma ConvertedOneMore(order: Order, before: seq<ConversionResult>, result: ConversionResult)
    ensures |ConvertedOnes(order, before + [result])|
         == |ConvertedOnes(order, before)| + if IsConverted(order, result) then 1 else 0
  {
    assert ConvertedOnes(order, before + [result])
        == ConvertedOnes(order, before) + if IsConverted(order, result) then {|before|} else {};
  }

  lemma {:induction false} TallyCounts(order: Order, results: seq<ConversionResult>)
    ensures CountsAre(order, TallyOf(order, results), results)
    decreases |results|
  {
    if results != [] {
      var n := |results| - 1;
      TallyCounts(order, results[..n]);
      FailedOneMore(results[..n], results[n]);
      ConvertedOneMore(order, results[..n], results[n]);
      assert results[..n] + [results[n]] == results;
    }
  }

  // The given rate or the fixed one; 0 stands for none, which is refused like a rate of 0.
  function UsedRate(exchangeRate: Option<real>, source: Currency, target: Currency): real {
    if exchangeRate.Some? then exchangeRate.value else GetFixedExchangeRate(source, target).GetOr(0.0)
  }

  // The nearest cent at the given rate, or at the fixed one of leva and euro.
  predicate AtRate(exchangeRate: Option<real>, source: Currency, target: Currency, amount: int, converted: int) {
    match exchangeRate
    case Some(rate) => IsNearest(amount as real * rate, converted)
    case None => IsFixedConversion(source, target, amount, converted)
  }

  lemma UsedRateConverts(exchangeRate: Option<real>, source: Currency, target: Currency, amount: int)
    ensures UsedRate(exchangeRate, source, target) == 0.0
       <==> exchangeRate == Some(0.0)
            || (exchangeRate == None && !(source == "BGN" && target == "EUR") && !(source == "EUR" && target == "BGN"))
    ensures UsedRate(exchangeRate, source, target) != 0.0 ==>
              AtRate(exchangeRate, source, target, amount,
                     Convert(amount, UsedRate(exchangeRate, source, target)))
  {
    FixedRateConverts(source, target, amount);
    ConvertsToTheNearest(amount, UsedRate(exchangeRate, source, target),
                         Convert(amount, UsedRate(exchangeRate, source, target)));
  }

  function CurrencyOf(sub: Subscription): Currency {
    if sub.price.Some? then sub.price.value.currency else "UNKNOWN"
  }

  // A subscription the order converts.
  predicate IsCandidate(order: Order, sub: Subscription) {
    sub.price.Some? && sub.price.value.currency == order.source && order.source != order.target
  }

  function AmountOf(sub: Subscription, rate: real): int {
    Convert(if sub.price.Some? then sub.price.value.unitAmount.GetOr(0) else 0, rate)
  }

  // ---- what a run does to Stripe ----

  // As it was, or canceled by a conversion, whose comment it then carries.
  predicate KeptOrConverted(before: Subscription, after: Subscription) {
    (after.status == before.status && after.comment == before.comment)
    || (before.status != CANCELED && after.status == CANCELED && IsConversionComment(after.comment))
  }

  // Prices and metadata stay; what conversions add is on trial in the target currency.
  predicate Evolved(before: seq<Subscription>, after: seq<Subscription>, target: Currency) {
    && |before| <= |after|
    && (forall n: nat :: n < |before| ==> after[n].price == before[n].price
                                          && after[n].original == before[n].original
                                          && after[n].campaign == before[n].campaign
                                          && after[n].person == before[n].person
                                          && KeptOrConverted(before[n], after[n]))
    && (forall n: nat :: |before| <= n < |after| && after[n].original.Some? ==>
          after[n].status == "trialing" && after[n].price.Some? && after[n].price.value.currency == target)
  }

  // Cancelled, and replaced by a subscription for the same campaign and person at the new price.
  ghost predicate Replaced(subs: seq<Subscription>, id: SubId, currency: Currency, amount: int) {
    && id < |subs| && subs[id].status == CANCELED
    && exists n: nat :: n < |subs| && subs[n] == Successor(subs[id], id, currency, amount)
  }

  // The one subscription an attempt has added, next to what donors have added meanwhile.
  ghost predicate AddsOne(before: seq<Subscription>, after: seq<Subscription>, added: Subscription) {
    exists m: nat :: |before| <= m < |after| && after[m] == added
                     && forall n: nat :: |before| <= n < |after| && n != m ==> after[n].original.None?
  }

  predicate AddsNone(before: seq<Subscription>, after: seq<Subscription>) {
    forall n: nat :: |before| <= n < |after| ==> after[n].original.None?
  }

  // What an attempt leaves in Stripe, by the call that failed.
  ghost predicate Leaves(before: seq<Subscription>, after: seq<Subscription>, id: SubId, currency: Currency,
                         amount: int,
                         faults: Faults)
    requires id < |before|
  {
    && OnlyTouched(before, after, {id})
    && after[id] == (if faults.cancel then before[id] else CancelForConversion(before, id, currency)[id])
    && if faults.cancel || faults.create then AddsNone(before, after)
       else AddsOne(before, after, Successor(before[id], id, currency, amount))
  }

  lemma LeavesMeanwhile(before: seq<Subscription>, middle: seq<Subscription>, after: seq<Subscription>, id: SubId,
                        currency: Currency, amount: int, faults: Faults)
    requires id < |before|
    requires (Leaves(before, middle, id, currency, amount, faults) && Grown(middle, after))
          || (Grown(before, middle) && Leaves(middle, after, id, currency, amount, faults))
    ensures Leaves(before, after, id, currency, amount, faults)
  {
    if !faults.cancel && !faults.create {
      var added := Successor(before[id], id, currency, amount);
      if Leaves(before, middle, id, currency, amount, faults) && Grown(middle, after) {
        var m: nat :| |before| <= m < |middle| && middle[m] == added
                      && forall n: nat :: |before| <= n < |middle| && n != m ==> middle[n].original.None?;
        assert after[m] == added;
      } else {
        var m: nat :| |middle| <= m < |after| && after[m] == added
                      && forall n: nat :: |middle| <= n < |after| && n != m ==> after[n].original.None?;
        assert forall n: nat :: |before| <= n < |middle| ==> after[n].original.None?;
      }
    }
  }

  lemma LeavesEvolved(before: seq<Subscription>, after: seq<Subscription>, id: SubId, currency: Currency, amount: int,
                      faults: Faults)
    requires id < |before| && Leaves(before, after, id, currency, amount, faults)
    ensures Evolved(before, after, currency)
    ensures !faults.cancel && !faults.create ==> Replaced(after, id, currency, amount)
  {
    if before[id].status != CANCELED {
      CancellationIsRecognised(before, id, currency);
    }
    if !faults.cancel && !faults.create {
      var m: nat :| |before| <= m < |after| && after[m] == Successor(before[id], id, currency, amount)
                    && forall n: nat :: |before| <= n < |after| && n != m ==> after[n].original.None?;
      assert after[m] == Successor(after[id], id, currency, amount);
    }
  }

  predicate OnlyTouched(before: seq<Subscription>, after: seq<Subscription>, ids: set<SubId>) {
    |before| <= |after| && forall n: nat :: n < |before| && n !in ids ==> after[n] == before[n]
  }

  function Members(ids: seq<SubId>): set<SubId> {
    set id | id in ids
  }

  // Only the subscriptions the order converts are written.
  predicate CandidatesOnly(order: Order, before: seq<Subscription>, after: seq<Subscription>) {
    |before| <= |after| && forall n: nat :: n < |before| && !IsCandidate(order, before[n]) ==> after[n] == before[n]
  }

  predicate Distinct(ids: seq<SubId>) {
    forall a, b :: 0 <= a < b < |ids| ==> ids[a] != ids[b]
  }

  // ---- the course of a bulk run ----

  // One subscription handled: what was reported, whether a conversion was attempted, and the world after.
  datatype Visit = Visit(result: ConversionResult, attempted: bool, after: World)

  // The result says what the price says, and success that nothing failed.
  predicate Truthful(order: Order, sub: Subscription, faults: Faults, result: ConversionResult) {
    && (result.success <==>
          sub.price.Some? && (IsCandidate(order, sub) && !order.dryRun ==>
                              faults == Faults(false, false, false, false)))
    && result.originalCurrency == (if sub.price.Some? then sub.price.value.currency else order.source)
    && (result.success ==>
          && result.originalAmount == sub.price.value.unitAmount.GetOr(0)
          && result.convertedAmount == if IsCandidate(order, sub) then AmountOf(sub, order.rate)
              else result.originalAmount)
    && (!result.success ==> result.originalAmount == result.convertedAmount == 0)
  }

  ghost predicate Handled(order: Order, faults: SubId -> Faults, jobs: iset<Job>, w: World, visit: Visit) {
    var id, w' := visit.result.subscription, visit.after;
    && id < |w.subs|
    && Truthful(order, w.subs[id], faults(id), visit.result)
    && (visit.attempted <==> !order.dryRun && IsCandidate(order, w.subs[id]))
    && (!visit.attempted ==> MayHappen(w, w', jobs) && Grown(w.subs, w'.subs))
    && Evolved(w.subs, w'.subs, order.target) && OnlyTouched(w.subs, w'.subs, {id})
    && AllInOrder(w', jobs) && BoundKept(w, w', jobs)
    && (visit.attempted && visit.result.success ==>
          BoundFor(w', id, jobs) && Replaced(w'.subs, id, order.target, AmountOf(w.subs[id], order.rate)))
  }

  // What happens just before and just after a visit is part of it.
  lemma HandledMeanwhile(order: Order, faults: SubId -> Faults, jobs: iset<Job>, w0: World, w: World, visit: Visit,
                         after: World)
    requires AllInOrder(w0, jobs) && visit.result.subscription < |w0.subs|
    requires MayHappen(w0, w, jobs) && Handled(order, faults, jobs, w, visit) && MayHappen(visit.after, after, jobs)
    ensures Handled(order, faults, jobs, w0, visit.(after := after))
  {
    MayHappenKeeps(w0, w, jobs);
    MayHappenKeeps(visit.after, after, jobs);
    if visit.attempted {
      if visit.result.success { ReplacedIfGrown(order, visit, after); }
    } else {
      MayHappenFurther(w0, w, visit.after, jobs);
      MayHappenFurther(w0, visit.after, after, jobs);
    }
  }

  lemma ReplacedIfGrown(order: Order, visit: Visit, after: World)
    requires Grown(visit.after.subs, after.subs)
    ensures forall amount :: Replaced(visit.after.subs, visit.result.subscription, order.target, amount) ==>
              Replaced(after.subs, visit.result.subscription, order.target, amount)
  {
    forall amount | Replaced(visit.after.subs, visit.result.subscription, order.target, amount)
      ensures Replaced(after.subs, visit.result.subscription, order.target, amount)
    {
      var subs, id := visit.after.subs, visit.result.subscription;
      var n: nat :| n < |subs| && subs[n] == Successor(subs[id], id, order.target, amount);
      assert after.subs[n] == Successor(after.subs[id], id, order.target, amount);
    }
  }

  datatype BulkConversion = BulkConversion(totalFound: nat, tally: Tally, results: seq<ConversionResult>)

  // A run so far: the world it started from and the visits it made.
  datatype History = Start(world: World) | Then(before: History, visit: Visit)

  function First(h: History): World {
    match h
    case Start(w) => w
    case Then(before, _) => First(before)
  }

  function Now(h: History): World {
    match h
    case Start(w) => w
    case Then(_, visit) => visit.after
  }

  function Results(h: History): seq<ConversionResult> {
    match h
    case Start(_) => []
    case Then(before, visit) => Results(before) + [visit.result]
  }

  function Ids(h: History): seq<SubId> {
    match h
    case Start(_) => []
    case Then(before, visit) => Ids(before) + [visit.result.subscription]
  }

  // The subscriptions a conversion was attempted on, in the order of the attempts.
  function Attempts(h: History): seq<SubId> {
    match h
    case Start(_) => []
    case Then(before, visit) => Attempts(before) + (if visit.attempted then [visit.result.subscription] else [])
  }

  predicate Extends(later: History, earlier: History) {
    later == earlier || (later.Then? && Extends(later.before, earlier))
  }

  ghost predicate Course(order: Order, faults: SubId -> Faults, jobs: iset<Job>, h: History) {
    match h
    case Start(w) => w.attempts == map[]
    case Then(before, visit) => Course(order, faults, jobs, before) && Handled(order, faults, jobs, Now(before), visit)
  }

  // The results and counts gathered by now are those of the visits.
  ghost predicate Underlies(order: Order, faults: SubId -> Faults, jobs: iset<Job>, h: History,
                            w: World, results: seq<ConversionResult>, tally: Tally) {
    && Course(order, faults, jobs, h) && Now(h) == w
    && results == Results(h) && tally == TallyOf(order, results)
  }

  // The donations a run promises to keep in order: each is to be converted at the run's rate.
  ghost predicate JobsFit(order: Order, w: World, jobs: iset<Job>) {
    forall job :: job in jobs ==>
      && job.old' < |w.subs| && job.currency == order.target && job.amount == AmountOf(w.subs[job.old'], order.rate)
      && Inv(w, job)
  }

  // Only these subscriptions, and of them only those the order converts, changed; what was bound stays bound.
  ghost predicate Since(order: Order, jobs: iset<Job>, w: World, w': World, ids: seq<SubId>) {
    && Evolved(w.subs, w'.subs, order.target)
    && OnlyTouched(w.subs, w'.subs, Members(ids)) && CandidatesOnly(order, w.subs, w'.subs)
    && (order.dryRun ==> MayHappen(w, w', jobs))
    && BoundKept(w, w', jobs)
  }

  lemma SinceOneMore(order: Order, faults: SubId -> Faults, jobs: iset<Job>, w: World, w': World, ids: seq<SubId>,
                     visit: Visit)
    requires Since(order, jobs, w, w', ids) && Handled(order, faults, jobs, w', visit)
    ensures Since(order, jobs, w, visit.after, ids + [visit.result.subscription])
  {
    if order.dryRun { MayHappenFurther(w, w', visit.after, jobs); }
    HandledTouchesCandidates(order, faults, jobs, w', visit);
  }

  lemma HandledTouchesCandidates(order: Order, faults: SubId -> Faults, jobs: iset<Job>, w: World, visit: Visit)
    requires Handled(order, faults, jobs, w, visit)
    ensures CandidatesOnly(order, w.subs, visit.after.subs)
  {
  }

  lemma {:induction false} CourseSince(order: Order, faults: SubId -> Faults, jobs: iset<Job>, earlier: History,
                                       later: History)
    returns (ids: seq<SubId>)
    requires Course(order, faults, jobs, later) && Extends(later, earlier)
    ensures Ids(later) == Ids(earlier) + ids
    ensures Since(order, jobs, Now(earlier), Now(later), ids)
    ensures ids == [] ==> later == earlier
    decreases later
  {
    ids := [];
    NothingMayHappen(Now(earlier), jobs);
    if later != earlier {
      ids := CourseSince(order, faults, jobs, earlier, later.before);
      SinceOneMore(order, faults, jobs, Now(earlier), Now(later.before), ids, later.visit);
      ids := ids + [later.visit.result.subscription];
    }
  }

  lemma {:induction false} ExtendsTheStart(h: History)
    ensures Extends(h, Start(First(h)))
  {
    if h.Then? {
      ExtendsTheStart(h.before);
    }
  }

  lemma {:induction false} ExtendsFurther(later: History, middle: History, earlier: History)
    requires Extends(later, middle) && Extends(middle, earlier)
    ensures Extends(later, earlier) && First(later) == First(earlier)
    decreases later, middle
  {
    if later != middle {
      ExtendsFurther(later.before, middle, earlier);
    } else if middle != earlier {
      ExtendsFurther(middle.before, middle.before, earlier);
    }
  }

  lemma CourseSoFar(order: Order, faults: SubId -> Faults, jobs: iset<Job>, h: History)
    requires Course(order, faults, jobs, h)
    ensures Since(order, jobs, First(h), Now(h), Ids(h))
  {
    ExtendsTheStart(h);
    var ids := CourseSince(order, faults, jobs, Start(First(h)), h);
    assert ids == Ids(h);
  }

  lemma {:induction false} CourseKeepsJobs(order: Order, faults: SubId -> Faults, jobs: iset<Job>, h: History)
    requires Course(order, faults, jobs, h) && JobsFit(order, First(h), jobs)
    ensures JobsFit(order, Now(h), jobs)
  {
    CourseSoFar(order, faults, jobs, h);
  }

  lemma {:induction false} AttemptsOnce(h: History)
    ensures forall n :: n in Attempts(h) ==> n in Ids(h)
    ensures Distinct(Ids(h)) ==> Distinct(Attempts(h))
  {
    if h.Then? {
      AttemptsOnce(h.before);
      if Distinct(Ids(h)) {
        var visited, made := Ids(h.before), Attempts(h.before);
        assert forall k :: 0 <= k < |visited| ==> Ids(h)[k] == visited[k];
        assert Distinct(visited);
        assert Ids(h)[|visited|] !in visited;
        assert forall k :: 0 <= k < |made| ==> made[k] in made;
      }
    }
  }

  // An attempt was made on exactly the visited subscriptions that the order converts, unless it is a dry run.
  lemma {:induction false} AttemptsExactly(order: Order, faults: SubId -> Faults, jobs: iset<Job>, h: History)
    requires Course(order, faults, jobs, h)
    ensures forall n :: n in Ids(h) ==> n < |Now(h).subs|
    ensures forall n :: n in Attempts(h) <==> !order.dryRun && n in Ids(h) && IsCandidate(order, Now(h).subs[n])
  {
    if h.Then? {
      AttemptsExactly(order, faults, jobs, h.before);
    }
  }

  lemma ReplacedForGood(order: Order, faults: SubId -> Faults, jobs: iset<Job>, w: World, visit: Visit, id: SubId,
                        amount: int)
    requires Handled(order, faults, jobs, w, visit) && Replaced(w.subs, id, order.target, amount)
    ensures Replaced(visit.after.subs, id, order.target, amount)
  {
    var n: nat :| n < |w.subs| && w.subs[n] == Successor(w.subs[id], id, order.target, amount);
    assert !IsCandidate(order, w.subs[n]);
    assert visit.after.subs[n] == Successor(visit.after.subs[id], id, order.target, amount);
  }

  // Every conversion counted as a success replaced its subscription at the converted amount and left the
  // subscription's donations bound, for good.
  lemma {:induction false} SuccessesConvert(order: Order, faults: SubId -> Faults, jobs: iset<Job>, h: History)
    requires Course(order, faults, jobs, h) && !order.dryRun
    ensures forall result :: result in Results(h) && result.success && !IsSkipped(order, result) ==>
              && BoundFor(Now(h), result.subscription, jobs)
              && Replaced(Now(h).subs, result.subscription, order.target, result.convertedAmount)
  {
    if h.Then? {
      SuccessesConvert(order, faults, jobs, h.before);
      forall result | result in Results(h.before) && result.success && !IsSkipped(order, result)
        ensures Replaced(Now(h).subs, result.subscription, order.target, result.convertedAmount)
      {
        ReplacedForGood(order, faults, jobs, Now(h.before), h.visit, result.subscription, result.convertedAmount);
      }
    }
  }

  // Every result tells the truth about its subscription's price, which never changes; those about
  // subscriptions the run created are counted as skipped.
  lemma {:induction false} ResultsAreTrue(order: Order, faults: SubId -> Faults, jobs: iset<Job>, h: History)
    requires Course(order, faults, jobs, h)
    ensures forall result :: result in Results(h) ==>
              && result.subscription < |Now(h).subs|
              && Truthful(order, Now(h).subs[result.subscription], faults(result.subscription), result)
              && (result.subscription >= |First(h).subs| && Now(h).subs[result.subscription].original.Some? ==>
                    IsSkipped(order, result))
  {
    if h.Then? {
      ResultsAreTrue(order, faults, jobs, h.before);
      CourseSoFar(order, faults, jobs, h.before);
    }
  }

  function Subjects(results: seq<ConversionResult>): seq<SubId> {
    seq(|results|, k requires 0 <= k < |results| => results[k].subscription)
  }

  lemma {:induction false} IdsAreSubjects(h: History)
    ensures Ids(h) == Subjects(Results(h))
  {
    if h.Then? {
      IdsAreSubjects(h.before);
    }
  }

  // The subscriptions a bulk run is for.
  predicate IsListed(sub: Subscription) {
    sub.status == "active" || sub.status == "trialing"
  }

  // What a whole bulk run amounts to, whatever else happens meanwhile. It reports on every subscription
  // that was active or trialing at the start, on each once; those it has created itself it only skips; it
  // attempts exactly the ones it comes across that the order converts, each once; and those it counts as
  // converted are replaced in Stripe and their donations bound.
  ghost predicate WholeRun(order: Order, faults: SubId -> Faults, jobs: iset<Job>, w: World, w': World,
                           results: seq<ConversionResult>, attempts: seq<SubId>) {
    && Since(order, jobs, w, w', attempts) && AllInOrder(w', jobs)
    && Distinct(Subjects(results))
    && (forall n: nat :: n < |w.subs| ==> (n in Subjects(results) <==> IsListed(w.subs[n])))
    && (forall result :: result in results ==>
          && result.subscription < |w'.subs|
          && Truthful(order, w'.subs[result.subscription], faults(result.subscription), result)
          && (result.subscription >= |w.subs| && w'.subs[result.subscription].original.Some? ==>
                IsSkipped(order, result)))
    && Distinct(attempts)
    && (forall n: nat :: n in attempts
          <==> !order.dryRun && n in Subjects(results) && n < |w'.subs| && IsCandidate(order, w'.subs[n]))
    && (!order.dryRun ==> forall result :: result in results && result.success && !IsSkipped(order, result) ==>
          && BoundFor(w', result.subscription, jobs)
          && Replaced(w'.subs, result.subscription, order.target, result.convertedAmount))
  }

  // So of the subscriptions there were at the start, exactly the active and trialing ones that the order
  // converts were attempted, and none of the run's own making was.
  lemma WholeRunAttempts(order: Order, faults: SubId -> Faults, jobs: iset<Job>, w: World, w': World,
                         results: seq<ConversionResult>, attempts: seq<SubId>, n: nat)
    requires WholeRun(order, faults, jobs, w, w', results, attempts) && n < |w'.subs|
    ensures n < |w.subs| ==> (n in attempts <==> !order.dryRun && IsListed(w.subs[n]) && IsCandidate(order, w.subs[n]))
    ensures n >= |w.subs| && w'.subs[n].original.Some? ==> n !in attempts
  {
  }

  // The second listing, taken after the first was worked through, shows none of the first again.
  lemma ListingsAreApart(order: Order, jobs: iset<Job>, w: World, w1: World, first: seq<SubId>, second: seq<SubId>)
    requires first == Listing(w.subs, "active", |w.subs|) && second == Listing(w1.subs, "trialing", |w1.subs|)
    requires Since(order, jobs, w, w1, first)
    ensures Distinct(first + second)
    ensures forall n: nat :: n < |w.subs| ==> (n in first + second <==> IsListed(w.subs[n]))
  {
    ListingIsExact(w.subs, "active", |w.subs|);
    ListingIsExact(w1.subs, "trialing", |w1.subs|);
    forall k, l | 0 <= k < |first| && 0 <= l < |second|
      ensures first[k] != second[l]
    {
      assert first[k] in first && second[l] in second;
    }
  }

  // Attempts are what a run writes.
  lemma {:induction false} OnlyAttemptsWrite(order: Order, faults: SubId -> Faults, jobs: iset<Job>, h: History)
    requires Course(order, faults, jobs, h)
    ensures OnlyTouched(First(h).subs, Now(h).subs, Members(Attempts(h)))
  {
    if h.Then? {
      OnlyAttemptsWrite(order, faults, jobs, h.before);
    }
  }

  lemma BothStatusesMakeAWholeRun(order: Order, faults: SubId -> Faults, jobs: iset<Job>, h1: History, h2: History)
    requires Course(order, faults, jobs, h1) && Course(order, faults, jobs, h2) && First(h1) == First(h2)
    requires JobsFit(order, First(h2), jobs)
    requires Ids(h1) == Listing(First(h1).subs, "active", |First(h1).subs|)
    requires Ids(h2) == Ids(h1) + Listing(Now(h1).subs, "trialing", |Now(h1).subs|)
    ensures WholeRun(order, faults, jobs, First(h2), Now(h2), Results(h2), Attempts(h2))
  {
    CourseSoFar(order, faults, jobs, h1);
    ListingsAreApart(order, jobs, First(h1), Now(h1), Ids(h1), Listing(Now(h1).subs, "trialing", |Now(h1).subs|));
    IdsAreSubjects(h2);
    ResultsAreTrue(order, faults, jobs, h2);
    AttemptsOnce(h2);
    AttemptsExactly(order, faults, jobs, h2);
    CourseSoFar(order, faults, jobs, h2);
    OnlyAttemptsWrite(order, faults, jobs, h2);
    CourseKeepsJobs(order, faults, jobs, h2);
    if !order.dryRun {
      SuccessesConvert(order, faults, jobs, h2);
    }
  }

  // Truthful results report amounts at the rate the run was asked for.
  lemma ResultsAtRate(order: Order, faults: SubId -> Faults, exchangeRate: Option<real>,
                      results: seq<ConversionResult>, subs: seq<Subscription>)
    requires order.rate == UsedRate(exchangeRate, order.source, order.target) && order.rate != 0.0
    requires forall result :: result in results ==>
               result.subscription < |subs|
               && Truthful(order, subs[result.subscription], faults(result.subscription), result)
    ensures forall result :: result in results && result.success ==>
              if IsConverted(order, result) then
                AtRate(exchangeRate, order.source, order.target, result.originalAmount, result.convertedAmount)
              else result.convertedAmount == result.originalAmount
  {
    forall result | result in results && IsConverted(order, result)
      ensures AtRate(exchangeRate, order.source, order.target, result.originalAmount, result.convertedAmount)
    {
      UsedRateConverts(exchangeRate, order.source, order.target, result.originalAmount);
    }
  }

  class StripeService {
    var subs: seq<Subscription>
    var rows: Rows

    constructor (subs: seq<Subscription>, rows: Rows)
      ensures this.subs == subs && this.rows == rows
    {
      this.subs := subs;
      this.rows := rows;
    }

    ghost function Here(): World
      reads this
    {
      World(subs, rows, map[])
    }

    // With the service's own attempt under way.
    ghost function During(sub: SubId, currency: Currency, amount: int, phase: Phase): World
      reads this
    {
      World(subs, rows, map[0 := Underway(sub, currency, amount, phase)])
    }

    // Whatever else happens at this point. Doing nothing is one case; callers can count on no more than
    // that it is something that may happen, and what follows from that.
    method Meanwhile(ghost attempts: map<nat, Attempt>, ghost jobs: iset<Job>)
      requires AllInOrder(World(subs, rows, attempts), jobs)
      modifies this
      ensures MayHappen(old(World(subs, rows, attempts)), World(subs, rows, attempts), jobs)
      ensures AllInOrder(World(subs, rows, attempts), jobs) && Grown(old(subs), subs)
      ensures BoundKept(old(World(subs, rows, attempts)), World(subs, rows, attempts), jobs)
    {
      NothingMayHappen(World(subs, rows, attempts), jobs);
    }

    // ---- recurring-donation.service.ts ----

    method FindSubscriptionByExtId(ext: ExtId) returns (hit: Option<RowId>)
      ensures FoundBy(rows, ext, hit)
    {
      if r :| r in rows && rows[r].ext == ext {
        return Some(r);
      }
      return None;
    }

    method UpdateStatus(id: RowId, status: RecurringStatus)
      modifies this`rows
      ensures rows == if id in old(rows) then S.UpdateStatus(old(rows), id, status) else old(rows)
    {
      if id in rows {
        if rows[id].status != status {
          rows := rows[id := rows[id].(status := status)];
        } else {
          assert rows == S.UpdateStatus(rows, id, status);
        }
      }
    }

    // ---- stripe-payment.service.ts ----

    method HandleSubscriptionCreated(sub: SubId, event: Subscription, vaultFound: bool, newRow: RowId)
      returns (r: Result<()>, ghost hit: Option<RowId>)
      requires newRow !in rows
      modifies this`rows
      ensures FoundBy(old(rows), Plain(sub), hit)
      ensures r.Success? <==> S.HandleSubscriptionCreated(old(rows), sub, event, hit, vaultFound, newRow).Success?
      ensures rows == RowsAfterHook(old(rows), CreatedHook, sub, event, hit, vaultFound, newRow)
    {
      var recurring := FindSubscriptionByExtId(Plain(sub));
      hit := recurring;
      if recurring.Some? {
        return Success(()), hit;
      }
      if event.original.Some? {
        return Success(()), hit;
      }
      if !IsGiven(event.campaign) {
        return Failure(BadRequest), hit;
      }
      if !IsGiven(event.person) {
        return Failure(BadRequest), hit;
      }
      if !vaultFound {
        return Failure(BadRequest), hit;
      }
      if event.price.None? {
        return Failure(BadRequest), hit;
      }
      var amount := event.price.value.unitAmount;
      if amount.None? || amount.value == 0 {
        return Failure(BadRequest), hit;
      }
      var status := String2RecurringDonationStatus(event.status);
      rows := rows[newRow := Recurring(Plain(sub), status, String2Currency(event.price.value.currency), amount.value,
                                       event.person.value)];
      UpdateStatus(newRow, status);
      return Success(()), hit;
    }

    method HandleSubscriptionUpdated(sub: SubId, event: Subscription, vaultFound: bool, newRow: RowId)
      returns (r: Result<()>, ghost hit: Option<RowId>)
      requires newRow !in rows
      modifies this`rows
      ensures FoundBy(old(rows), Plain(sub), hit)
      ensures rows == RowsAfterHook(old(rows), UpdatedHook, sub, event, hit, vaultFound, newRow)
    {
      var recurring := FindSubscriptionByExtId(Plain(sub));
      hit := recurring;
      if !IsGiven(event.campaign) || !IsGiven(event.person) {
        return Failure(BadRequest), hit;
      }
      if recurring.None? {
        r, hit := HandleSubscriptionCreated(sub, event, vaultFound, newRow);
        return r, hit;
      }
      UpdateStatus(recurring.value, String2RecurringDonationStatus(event.status));
      return Success(()), hit;
    }

    method HandleSubscriptionDeleted(sub: SubId, event: Subscription)
      returns (r: Result<()>, ghost hit: Option<RowId>)
      modifies this`rows
      ensures FoundBy(old(rows), Plain(sub), hit)
      ensures forall found, newRow ::
                rows == RowsAfterHook(old(rows), DeletedHook, sub, event, hit, found, newRow)
    {
      var recurring := FindSubscriptionByExtId(Plain(sub));
      hit := recurring;
      if IsConversionComment(event.comment) {
        return Success(()), hit;
      }
      if !IsGiven(event.campaign) {
        return Failure(BadRequest), hit;
      }
      if recurring.None? {
        // Being converted or unknown: either way nothing is written.
        var converting := FindSubscriptionByExtId(Converting(sub));
        return Success(()), hit;
      }
      UpdateStatus(recurring.value, String2RecurringDonationStatus(event.status));
      return Success(()), hit;
    }

    // ---- the steps of a conversion ----

    method MarkRecurringDonationForConversion(sub: SubId)
      returns (ghost converting: Option<RowId>, ghost plain: Option<RowId>)
      modifies this`rows
      ensures FoundBy(old(rows), Converting(sub), converting) && FoundBy(old(rows), Plain(sub), plain)
      ensures rows == Mark(old(rows), sub, converting, plain)
    {
      var already := FindSubscriptionByExtId(Converting(sub));
      var recurring := FindSubscriptionByExtId(Plain(sub));
      converting, plain := already, recurring;
      if already.Some? {
        return;
      }
      if recurring.Some? {
        rows := rows[recurring.value := rows[recurring.value].(ext := Converting(sub))];
      }
    }

    method CancelSubscription(sub: SubId, currency: Currency, fails: bool) returns (r: Result<()>)
      requires sub < |subs|
      modifies this`subs
      ensures r.Success? <==> !fails
      ensures subs == if fails then old(subs) else CancelForConversion(old(subs), sub, currency)
    {
      if fails {
        return Failure(Internal);
      }
      if subs[sub].status != CANCELED {
        subs := subs[sub := subs[sub].(status := CANCELED, comment := Some(CONVERSION_COMMENT + currency))];
      }
      return Success(());
    }

    method CreateSubscription(subscription: Subscription, fails: bool) returns (r: Result<SubId>)
      modifies this`subs
      ensures r == if fails then Failure(Internal) else Success(|old(subs)|)
      ensures subs == if fails then old(subs) else old(subs) + [subscription]
    {
      if fails {
        return Failure(Internal);
      }
      subs := subs + [subscription];
      return Success(|subs| - 1);
    }

    method UpdateLocalRecurringDonation(sub: SubId, newId: SubId, currency: Currency, amount: int)
      returns (ghost converting: Option<RowId>, ghost plain: Option<RowId>)
      modifies this`rows
      ensures FoundBy(old(rows), Converting(sub), converting) && FoundBy(old(rows), Plain(sub), plain)
      ensures rows == Rebind(old(rows), sub, newId, currency, amount, converting, plain)
    {
      var record := FindSubscriptionByExtId(Converting(sub));
      converting := record;
      var fallback := FindSubscriptionByExtId(Plain(sub));
      plain := fallback;
      var hit := if record.Some? then record else fallback;
      if hit.Some? {
        rows := rows[hit.value := rows[hit.value].(ext := Plain(newId), currency := currency, amount := amount,
                                                   status := Active)];
      }
    }

    // Cancel the old subscription, create its successor.
    method UpdateSubscriptionCurrency(sub: SubId, currency: Currency, amount: int, faults: Faults,
                                      ghost jobs: iset<Job>)
      returns (r: Result<SubId>)
      requires sub < |subs| && AllInOrder(During(sub, currency, amount, ToCancel), jobs)
      modifies this
      ensures Leaves(old(subs), subs, sub, currency, amount, faults)
      ensures !faults.cancel ==> sub < |subs| && subs[sub].status == CANCELED
      ensures !faults.cancel && old(subs)[sub].status != CANCELED ==> IsConversionComment(subs[sub].comment)
      ensures BoundKept(old(Here()), Here(), jobs)
      ensures r.Success? <==> !faults.cancel && !faults.create
      ensures r.Failure? ==> AllInOrder(Here(), jobs)
      ensures r.Success? ==> AllInOrder(During(sub, currency, amount, ToRebind(r.value)), jobs)
    {
      ghost var w := During(sub, currency, amount, ToCancel);
      var canceled := CancelSubscription(sub, currency, faults.cancel);
      if canceled.Failure? {
        AttemptStep(w, Crash(0), jobs);
        assert Next(w, Crash(0)) == Here();
        return Failure(Internal);
      }
      if w.subs[sub].status != CANCELED {
        CancellationIsRecognised(w.subs, sub, currency);
      }
      AttemptStep(w, Step.Cancel(0), jobs);
      assert Next(w, Step.Cancel(0)) == During(sub, currency, amount, ToCreate);
      r := CreateSuccessor(sub, currency, amount, faults.create, jobs);
    }

    method CreateSuccessor(sub: SubId, currency: Currency, amount: int, fails: bool, ghost jobs: iset<Job>)
      returns (r: Result<SubId>)
      requires sub < |subs| && AllInOrder(During(sub, currency, amount, ToCreate), jobs)
      modifies this
      ensures OnlyTouched(old(subs), subs, {})
      ensures if fails then AddsNone(old(subs), subs)
              else AddsOne(old(subs), subs, Successor(old(subs)[sub], sub, currency, amount))
      ensures BoundKept(old(Here()), Here(), jobs)
      ensures r.Success? <==> !fails
      ensures r.Failure? ==> AllInOrder(Here(), jobs)
      ensures r.Success? ==> AllInOrder(During(sub, currency, amount, ToRebind(r.value)), jobs)
    {
      Meanwhile(map[0 := Underway(sub, currency, amount, ToCreate)], jobs);
      ghost var w := During(sub, currency, amount, ToCreate);
      r := CreateSubscription(Successor(subs[sub], sub, currency, amount), fails);
      if r.Failure? {
        AttemptStep(w, Crash(0), jobs);
        assert Next(w, Crash(0)) == Here();
      } else {
        AttemptStep(w, Step.Create(0), jobs);
        assert Next(w, Step.Create(0)) == During(sub, currency, amount, ToRebind(r.value));
        assert subs[r.value] == Successor(old(subs)[sub], sub, currency, amount);
      }
    }

    // Mark if asked to, cancel, create, rebind, and anything in between; a fault ends the attempt where it
    // strikes. Whatever happens every donation stays in order; when the attempt ends well, the donations of
    // this subscription are bound.
    method Attempt(sub: SubId, bulk: bool, currency: Currency, amount: int, faults: Faults, ghost jobs: iset<Job>)
      returns (r: Result<()>)
      requires AllInOrder(Here(), jobs)
      requires sub < |subs| && subs[sub].price.Some? && subs[sub].price.value.currency != currency
      requires forall job :: job in jobs ==> job.currency == currency && (job.old' == sub ==> job.amount == amount)
      modifies this
      ensures Leaves(old(subs), subs, sub, currency, amount,
                     if bulk && faults.mark then faults.(cancel := true) else faults)
      ensures AllInOrder(Here(), jobs)
      ensures BoundKept(old(Here()), Here(), jobs)
      ensures r.Success? ==> BoundFor(Here(), sub, jobs)
      ensures r.Success? <==> !(bulk && faults.mark) && !faults.cancel && !faults.create && !faults.bind
    {
      AttemptBegins(Here(), Begin(0, sub, currency, amount, bulk), jobs);
      if bulk {
        assert During(sub, currency, amount, ToMark) == Next(Here(), Begin(0, sub, currency, amount, bulk));
        var marked := MarkFirst(sub, currency, amount, faults.mark, jobs);
        if marked.Failure? {
          return Failure(Internal);
        }
      } else {
        assert During(sub, currency, amount, ToCancel) == Next(Here(), Begin(0, sub, currency, amount, bulk));
      }
      ghost var middle := subs;
      var created := UpdateSubscriptionCurrency(sub, currency, amount, faults, jobs);
      LeavesMeanwhile(old(subs), middle, subs, sub, currency, amount, faults);
      if created.Failure? {
        return Failure(Internal);
      }
      middle := subs;
      r := FinishAttempt(sub, created.value, currency, amount, faults.bind, jobs);
      LeavesMeanwhile(old(subs), middle, subs, sub, currency, amount, faults);
    }

    method MarkFirst(sub: SubId, currency: Currency, amount: int, fails: bool, ghost jobs: iset<Job>)
      returns (r: Result<()>)
      requires sub < |subs| && AllInOrder(During(sub, currency, amount, ToMark), jobs)
      modifies this
      ensures Grown(old(subs), subs)
      ensures BoundKept(old(Here()), Here(), jobs)
      ensures r.Success? <==> !fails
      ensures AllInOrder(if fails then Here() else During(sub, currency, amount, ToCancel), jobs)
    {
      ghost var w := During(sub, currency, amount, ToMark);
      if fails {
        AttemptStep(w, Crash(0), jobs);
        assert Next(w, Crash(0)) == Here();
        return Failure(Internal);
      }
      ghost var converting, plain := MarkRecurringDonationForConversion(sub);
      AttemptStep(w, MarkRow(0, converting, plain), jobs);
      assert Next(w, MarkRow(0, converting, plain)) == During(sub, currency, amount, ToCancel);
      Meanwhile(map[0 := Underway(sub, currency, amount, ToCancel)], jobs);
      return Success(());
    }

    method FinishAttempt(sub: SubId, newId: SubId, currency: Currency, amount: int, fails: bool, ghost jobs: iset<Job>)
      returns (r: Result<()>)
      requires AllInOrder(During(sub, currency, amount, ToRebind(newId)), jobs)
      modifies this
      ensures Grown(old(subs), subs)
      ensures AllInOrder(Here(), jobs)
      ensures BoundKept(old(Here()), Here(), jobs)
      ensures r.Success? ==> BoundFor(Here(), sub, jobs)
      ensures r.Success? <==> !fails
    {
      Meanwhile(map[0 := Underway(sub, currency, amount, ToRebind(newId))], jobs);
      ghost var w := During(sub, currency, amount, ToRebind(newId));
      if fails {
        AttemptStep(w, Crash(0), jobs);
        assert Next(w, Crash(0)) == Here();
        return Failure(Internal);
      }
      ghost var converting, plain := UpdateLocalRecurringDonation(sub, newId, currency, amount);
      AttemptStep(w, BindRow(0, converting, plain), jobs);
      assert Next(w, BindRow(0, converting, plain)) == Here();
      return Success(());
    }

    // ---- one subscription ----

    // Ends well only if nothing fails, and then the donations of the subscription are bound to a live
    // successor in the target currency, whatever state earlier attempts left them in.
    method ConvertSingleSubscriptionCurrency(id: SubId, target: Currency, exchangeRate: Option<real>, dryRun: bool,
                                             faults: Faults, ghost jobs: iset<Job>)
      returns (result: ConversionResult)
      requires AllInOrder(Here(), jobs)
      requires forall job :: job in jobs ==>
                 job.currency == target
                 && (job.old' == id ==>
                       job.amount == AmountOf(subs[id], UsedRate(exchangeRate, CurrencyOf(subs[id]), target)))
      modifies this
      ensures AllInOrder(Here(), jobs)
      ensures BoundKept(old(Here()), Here(), jobs)
      ensures result.subscription == id
      ensures result.success <==>
                id < |old(subs)| && old(subs)[id].price.Some?
                && (old(subs)[id].price.value.currency == target
                    || (UsedRate(exchangeRate, CurrencyOf(old(subs)[id]), target) != 0.0
                        && (dryRun || (!faults.cancel && !faults.create && !faults.bind))))
      ensures dryRun ==> rows == old(rows) && subs == old(subs)
      ensures result.success ==>
                && result.originalAmount == old(subs)[id].price.value.unitAmount.GetOr(0)
                && result.originalCurrency == old(subs)[id].price.value.currency
                && (if result.originalCurrency == target then result.convertedAmount == result.originalAmount
                    else AtRate(exchangeRate, result.originalCurrency, target, result.originalAmount,
                                result.convertedAmount))
      ensures !result.success ==>
                && result.convertedAmount == 0
                && if id < |old(subs)| && old(subs)[id].price.Some?
                      && UsedRate(exchangeRate, CurrencyOf(old(subs)[id]), target) == 0.0 then
                     result.originalAmount == old(subs)[id].price.value.unitAmount.GetOr(0)
                     && result.originalCurrency == old(subs)[id].price.value.currency
                   else result.originalAmount == 0 && result.originalCurrency == "UNKNOWN"
      ensures result.success && !dryRun && result.originalCurrency != target ==>
                && BoundFor(Here(), id, jobs)
                && Replaced(subs, id, target, result.convertedAmount)
                && (old(subs)[id].status != CANCELED ==> IsConversionComment(subs[id].comment))
    {
      result := ConversionResult(id, 0, 0, "UNKNOWN", false);
      if id >= |subs| {
        return;
      }
      var subscription := subs[id];
      if subscription.price.None? {
        return;
      }
      var originalCurrency := subscription.price.value.currency;
      var originalAmount := subscription.price.value.unitAmount.GetOr(0);
      if originalCurrency == target {
        return ConversionResult(id, originalAmount, originalAmount, originalCurrency, true);
      }
      var rate := UsedRate(exchangeRate, originalCurrency, target);
      if rate == 0.0 {
        return ConversionResult(id, originalAmount, 0, originalCurrency, false);
      }
      var convertedAmount := Convert(originalAmount, rate);
      UsedRateConverts(exchangeRate, originalCurrency, target, originalAmount);
      if !dryRun {
        var converted := Attempt(id, false, target, convertedAmount, faults, jobs);
        LeavesEvolved(old(subs), subs, id, target, convertedAmount, faults);
        if converted.Failure? {
          return;
        }
      }
      return ConversionResult(id, originalAmount, convertedAmount, originalCurrency, true);
    }

    // ---- all subscriptions ----

    method ListSubscriptions(status: string, limit: nat, startingAfter: Option<SubId>)
      returns (page: seq<Listed>, hasMore: bool)
      requires startingAfter.Some? ==> startingAfter.value < |subs|
      ensures IsPage(subs, status, startingAfter.GetOr(|subs|), page, hasMore, limit)
    {
      var all := Listing(subs, status, startingAfter.GetOr(|subs|));
      ListingIsExact(subs, status, startingAfter.GetOr(|subs|));
      assert forall k :: 0 <= k < |all| ==> all[k] in all;
      hasMore := |all| > limit;
      var current := subs;
      page := seq(if hasMore then limit else |all|,
                  k requires 0 <= k < |all| && all[k] < |current| => Listed(all[k], current[all[k]]));
    }

    // What one subscription of a page comes to.
    method ProcessSubscriptionConversion(listed: Listed, order: Order, faults: SubId -> Faults, ghost jobs: iset<Job>)
      returns (result: ConversionResult, ghost attempted: bool)
      requires listed.id < |subs| && listed.subscription.price == subs[listed.id].price
      requires JobsFit(order, Here(), jobs)
      modifies this
      ensures result.subscription == listed.id
      ensures Handled(order, faults, jobs, old(Here()), Visit(result, attempted, Here()))
    {
      attempted := false;
      NothingMayHappen(Here(), jobs);
      var id := listed.id;
      if listed.subscription.price.None? {
        return ConversionResult(id, 0, 0, order.source, false), false;
      }
      var price := listed.subscription.price.value;
      var originalCurrency := price.currency;
      var originalAmount := price.unitAmount.GetOr(0);
      if originalCurrency != order.source || originalCurrency == order.target {
        return ConversionResult(id, originalAmount, originalAmount, originalCurrency, true), false;
      }
      var convertedAmount := Convert(originalAmount, order.rate);
      if !order.dryRun {
        attempted := true;
        var converted := Attempt(id, true, order.target, convertedAmount, faults(id), jobs);
        LeavesEvolved(old(subs), subs, id, order.target, convertedAmount,
                      if faults(id).mark then faults(id).(cancel := true) else faults(id));
        if converted.Failure? {
          return ConversionResult(id, 0, 0, order.source, false), true;
        }
      }
      return ConversionResult(id, originalAmount, convertedAmount, originalCurrency, true), attempted;
    }

    // The body of the inner loop.
    method ConvertListed(listed: Listed, order: Order, faults: SubId -> Faults, results: seq<ConversionResult>,
                         tally: Tally, ghost h: History, ghost jobs: iset<Job>)
      returns (results': seq<ConversionResult>, tally': Tally, ghost h': History)
      requires listed.id < |subs| && listed.subscription.price == subs[listed.id].price
      requires JobsFit(order, First(h), jobs)
      requires Underlies(order, faults, jobs, h, Here(), results, tally)
      modifies this
      ensures Underlies(order, faults, jobs, h', Here(), results', tally')
      ensures Extends(h', h) && First(h') == First(h) && Ids(h') == Ids(h) + [listed.id]
    {
      CourseKeepsJobs(order, faults, jobs, h);
      Meanwhile(map[], jobs);
      ghost var w := Here();
      var result, attempted := ProcessSubscriptionConversion(listed, order, faults, jobs);
      ghost var w' := Here();
      Meanwhile(map[], jobs);
      ghost var visit := Visit(result, attempted, Here());
      HandledMeanwhile(order, faults, jobs, Now(h), w, Visit(result, attempted, w'), Here());
      results', tally', h' := results + [result], Count(order, tally, result), Then(h, visit);
      assert results'[..|results'| - 1] == results;
    }

    // The loop over one page.
    method ConvertPage(page: seq<Listed>, order: Order, faults: SubId -> Faults, results: seq<ConversionResult>,
                       tally: Tally, ghost h: History, ghost jobs: iset<Job>)
      returns (results': seq<ConversionResult>, tally': Tally, ghost h': History)
      requires ShownAs(page, subs)
      requires JobsFit(order, First(h), jobs)
      requires Underlies(order, faults, jobs, h, Here(), results, tally)
      modifies this
      ensures Underlies(order, faults, jobs, h', Here(), results', tally')
      ensures Extends(h', h) && First(h') == First(h) && Ids(h') == Ids(h) + PageIds(page)
    {
      results', tally', h' := results, tally, h;
      var k := 0;
      while k < |page|
        invariant k <= |page|
        invariant Underlies(order, faults, jobs, h', Here(), results', tally')
        invariant Extends(h', h) && First(h') == First(h) && Ids(h') == Ids(h) + PageIds(page)[..k]
      {
        PriceOnPage(order, faults, jobs, h, h', page, k);
        ghost var current := h';
        results', tally', h' := ConvertListed(page[k], order, faults, results', tally', h', jobs);
        ExtendsFurther(h', current, h);
        TakeOneMore(Ids(h), PageIds(page), k);
        k := k + 1;
      }
    }

    // The paging loop of one status. It visits exactly what one listing taken at its start would have
    // shown, whatever the conversions do to the listing meanwhile.
    method ConvertStatus(status: string, order: Order, batchSize: nat, faults: SubId -> Faults,
                         results: seq<ConversionResult>, tally: Tally,
                         ghost h: History, ghost jobs: iset<Job>)
      returns (results': seq<ConversionResult>, tally': Tally, ghost h': History)
      requires batchSize >= 1
      requires JobsFit(order, First(h), jobs)
      requires Underlies(order, faults, jobs, h, Here(), results, tally)
      modifies this
      ensures Underlies(order, faults, jobs, h', Here(), results', tally')
      ensures First(h') == First(h) && Ids(h') == Ids(h) + Listing(old(subs), status, |old(subs)|)
    {
      results', tally', h' := results, tally, h;
      ghost var whole := Ids(h) + Listing(subs, status, |subs|);
      ghost var total := |subs|;
      var hasMore := true;
      var startingAfter: Option<SubId> := None;
      while hasMore
        invariant startingAfter.GetOr(|subs|) <= |subs|
        invariant startingAfter.None? && hasMore ==> |subs| == total
        invariant startingAfter.Some? ==> startingAfter.value < total <= |subs|
        invariant Underlies(order, faults, jobs, h', Here(), results', tally')
        invariant First(h') == First(h)
        invariant hasMore ==> Ids(h') + Listing(subs, status, startingAfter.GetOr(|subs|)) == whole
        invariant !hasMore ==> Ids(h') == whole
        decreases hasMore, startingAfter.GetOr(total)
      {
        ghost var seen, cursor := h', startingAfter.GetOr(|subs|);
        var page, more := ListSubscriptions(status, batchSize, startingAfter);
        results', tally', h' := ConvertPage(page, order, faults, results', tally', h', jobs);
        PageDone(order, faults, jobs, seen, h', status, cursor, page, more, batchSize);
        if |page| > 0 {
          startingAfter := Some(page[|page| - 1].id);
        }
        hasMore := more;
      }
    }

    // Both statuses in turn. A request without a usable rate or with a page size Stripe does not take is
    // refused, and then nothing has changed.
    method ConvertSubscriptionsCurrency(source: Currency, target: Currency, exchangeRate: Option<real>,
                                        batchSize: Option<int>, dryRun: bool, faults: SubId -> Faults,
                                        ghost jobs: iset<Job>)
      returns (r: Result<BulkConversion>, ghost attempts: seq<SubId>)
      requires JobsFit(Order(source, target, UsedRate(exchangeRate, source, target), dryRun), Here(), jobs)
      modifies this
      ensures r.Failure? <==> UsedRate(exchangeRate, source, target) == 0.0 || !(1 <= batchSize.GetOr(100) <= 100)
      ensures r.Failure? ==> r.error == BadRequest && Here() == old(Here())
      ensures r.Success? ==> forall result :: result in r.value.results && result.success ==>
                if result.originalCurrency == source != target then
                  AtRate(exchangeRate, source, target, result.originalAmount, result.convertedAmount)
                else result.convertedAmount == result.originalAmount
      ensures r.Success? ==>
                && r.value.totalFound == |r.value.results|
                && CountsAre(Order(source, target, UsedRate(exchangeRate, source, target), dryRun), r.value.tally,
                             r.value.results)
                && WholeRun(Order(source, target, UsedRate(exchangeRate, source, target), dryRun), faults, jobs,
                            old(Here()), Here(), r.value.results, attempts)
    {
      attempts := [];
      var rate := UsedRate(exchangeRate, source, target);
      if rate == 0.0 {
        return Failure(BadRequest), [];
      }
      var limit := batchSize.GetOr(100);
      if !(1 <= limit <= 100) {
        return Failure(BadRequest), [];
      }
      var order := Order(source, target, rate, dryRun);
      ghost var h := Start(Here());
      ghost var h1, h2;
      var results, tally;
      results, tally, h1 := ConvertStatus("active", order, limit, faults, [], Tally(0, 0, 0), h, jobs);
      results, tally, h2 := ConvertStatus("trialing", order, limit, faults, results, tally, h1, jobs);
      BothStatusesMakeAWholeRun(order, faults, jobs, h1, h2);
      attempts := Attempts(h2);
      TallyCounts(order, results);
      ResultsAtRate(order, faults, exchangeRate, results, subs);
      r := Success(BulkConversion(|results|, tally, results));
    }
  }

  lemma Reassociate(a: seq<SubId>, b: seq<SubId>, c: seq<SubId>)
    ensures a + b + c == a + (b + c)
  {
  }

  lemma TakeOneMore(done: seq<SubId>, ids: seq<SubId>, k: nat)
    requires k < |ids|
    ensures done + ids[..k] + [ids[k]] == done + ids[..k + 1]
  {
  }

  // Until its turn comes, a subscription on the page has the price it was listed with.
  lemma PriceOnPage(order: Order, faults: SubId -> Faults, jobs: iset<Job>, h: History, h': History,
                    page: seq<Listed>, k: nat)
    requires Course(order, faults, jobs, h') && Extends(h', h)
    requires ShownAs(page, Now(h).subs) && k < |page|
    ensures page[k].id < |Now(h').subs|
    ensures page[k].subscription.price == Now(h').subs[page[k].id].price
  {
    var ids := CourseSince(order, faults, jobs, h, h');
  }

  lemma LastIsLeast(subs: seq<Subscription>, status: string, cursor: nat, ids: seq<SubId>)
    requires cursor <= |subs| && ids != [] && ids <= Listing(subs, status, cursor)
    ensures forall n: nat :: n < ids[|ids| - 1] ==> n !in ids
  {
    ListingIsExact(subs, status, cursor);
    var last := ids[|ids| - 1];
    assert forall k :: 0 <= k < |ids| ==> ids[k] == Listing(subs, status, cursor)[k] && ids[k] >= last;
  }

  // A listing is a page and, below its last entry, the listing of any later state that differs on the
  // page alone.
  lemma ListingAfterPage(before: seq<Subscription>, after: seq<Subscription>, status: string, cursor: nat,
                         ids: seq<SubId>)
    requires cursor <= |before| && 0 < |ids| <= |Listing(before, status, cursor)|
    requires ids == Listing(before, status, cursor)[..|ids|]
    requires OnlyTouched(before, after, Members(ids))
    ensures ids[|ids| - 1] < cursor
    ensures ids + Listing(after, status, ids[|ids| - 1]) == Listing(before, status, cursor)
  {
    var last := ids[|ids| - 1];
    ListingContinues(before, status, cursor, |ids|);
    LastIsLeast(before, status, cursor, ids);
    ListingReadsBelowTheCursor(before, after, status, last);
  }

  // Handling a page changes nothing that is not on it.
  lemma OnlyThePageChanges(order: Order, faults: SubId -> Faults, jobs: iset<Job>, h: History, h': History,
                           page: seq<Listed>)
    requires Course(order, faults, jobs, h') && Extends(h', h) && Ids(h') == Ids(h) + PageIds(page)
    ensures OnlyTouched(Now(h).subs, Now(h').subs, Members(PageIds(page)))
    ensures page == [] ==> h' == h
  {
    var ids := CourseSince(order, faults, jobs, h, h');
    assert ids == Ids(h')[|Ids(h)|..] == PageIds(page);
  }

  // So the listing below its last entry is the rest of the listing it was taken from.
  lemma PageEnds(before: seq<Subscription>, after: seq<Subscription>, status: string, cursor: nat,
                 page: seq<Listed>, more: bool, limit: nat)
    requires limit >= 1 && cursor <= |before|
    requires IsPage(before, status, cursor, page, more, limit)
    requires OnlyTouched(before, after, Members(PageIds(page)))
    ensures page == [] ==> !more
    ensures page != [] ==> page[|page| - 1].id < cursor
    ensures more ==> PageIds(page) + Listing(after, status, page[|page| - 1].id) == Listing(before, status, cursor)
    ensures !more ==> PageIds(page) == Listing(before, status, cursor)
  {
    var ids := PageIds(page);
    if page != [] {
      assert ids[|page| - 1] == page[|page| - 1].id;
      ListingAfterPage(before, after, status, cursor, ids);
    }
  }

  // With a page handled, what was visited and what is still listed come to the same as before.
  lemma PageDone(order: Order, faults: SubId -> Faults, jobs: iset<Job>, h: History, h': History,
                 status: string, cursor: nat, page: seq<Listed>, more: bool, limit: nat)
    requires Course(order, faults, jobs, h') && Extends(h', h) && Ids(h') == Ids(h) + PageIds(page)
    requires limit >= 1 && cursor <= |Now(h).subs|
    requires IsPage(Now(h).subs, status, cursor, page, more, limit)
    ensures page == [] ==> !more && h' == h
    ensures |Now(h).subs| <= |Now(h').subs|
    ensures page != [] ==> page[|page| - 1].id < cursor
    ensures more ==>
              Ids(h') + Listing(Now(h').subs, status, page[|page| - 1].id)
              == Ids(h) + Listing(Now(h).subs, status, cursor)
    ensures !more ==> Ids(h') == Ids(h) + Listing(Now(h).subs, status, cursor)
  {
    OnlyThePageChanges(order, faults, jobs, h, h', page);
    PageEnds(Now(h).subs, Now(h').subs, status, cursor, page, more, limit);
    if more {
      Reassociate(Ids(h), PageIds(page), Listing(Now(h').subs, status, page[|page| - 1].id));
    }
  }
}
