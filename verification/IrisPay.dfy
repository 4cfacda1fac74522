// Finalizing an IRIS payment (apps/api/src/iris-pay/iris-pay.service.ts:165-325). The browser's finalize
// call and IRIS's webhook both read the payment, poll IRIS and commit what they saw, in any interleaving.
module IrisPay {
  import opened Wrappers
  import opened PaymentStatuses
  import opened Ledgers
  import opened Conservation
  import opened PaymentHistory
  import opened PaymentCalls
  import opened Money

  // What IRIS answers about a hook. The comparison of its currency with the campaign's is a given.
  datatype IrisAnswer = IrisAnswer(status: string, sum: string, currencyAgrees: bool)

  function ToUpper(s: string): string {
    if s == [] then []
    else [if 'a' <= s[0] <= 'z' then (s[0] as int - 'a' as int + 'A' as int) as char else s[0]] + ToUpper(s[1..])
  }

  function MapStatus(status: string): PaymentStatus {
    var upper := ToUpper(status);
    if upper == "CONFIRMED" then Succeeded
    else if upper == "FAILED" then Declined
    else Waiting
  }

  // The word, each letter large or small; `word` is in capitals.
  predicate InAnyCase(s: string, word: string) {
    |s| == |word| && forall k :: 0 <= k < |s| ==> s[k] == word[k] || s[k] as int == word[k] as int + 32
  }

  lemma {:induction false} UpperSpells(s: string, word: string)
    requires forall c :: c in word ==> 'A' <= c <= 'Z'
    ensures ToUpper(s) == word <==> InAnyCase(s, word)
    decreases |s|
  {
    if s != [] && word != [] {
      assert forall c :: c in word[1..] ==> c in word;
      UpperSpells(s[1..], word[1..]);
      assert word == [word[0]] + word[1..] && word[0] in word;
      assert InAnyCase(s, word)
        <==> (s[0] == word[0] || s[0] as int == word[0] as int + 32) && InAnyCase(s[1..], word[1..]) by {
        assert forall k :: 0 <= k < |s| - 1 ==> s[1..][k] == s[k + 1];
        if |s| == |word| && InAnyCase(s[1..], word[1..]) {
          assert forall k :: 0 < k < |s| ==> s[k] == s[1..][k - 1] && word[k] == word[1..][k - 1];
        }
      }
    }
  }

  // Confirmed is the success, failed the decline, anything else leaves the payment waiting.
  lemma AnswersByName(status: string)
    ensures MapStatus(status) == Succeeded <==> InAnyCase(status, "CONFIRMED")
    ensures MapStatus(status) == Declined <==> InAnyCase(status, "FAILED")
    ensures MapStatus(status) in {Succeeded, Declined, Waiting}
  {
    UpperSpells(status, "CONFIRMED");
    UpperSpells(status, "FAILED");
  }

  // A finalize call between its steps.
  datatype Call =
    | HasRead(payment: Id, hook: string, person: Option<string>)
    | HasPolled(payment: Id, data: PaymentData, status: PaymentStatus)

  // The read: unknown payments are an error, decided ones are answered from the row.
  function ReadPayment(l: Ledger, p: Id): Result<Option<Call>> {
    if p !in l.payments then Failure(NotFound)
    else
      var row := l.payments[p];
      if IsFinal(row.status) then Success(None)
      else Success(Some(HasRead(p, row.intent, row.donation.person)))
  }

  // The poll: no answer, a foreign currency or an unreadable sum end the call.
  function Poll(call: Call, answer: Option<IrisAnswer>): Result<Call>
    requires call.HasRead?
  {
    if answer.None? then Failure(Unavailable)
    else if !answer.value.currencyAgrees then Failure(Conflict)
    else match ParseIrisSum(answer.value.sum)
      case Failure(e) => Failure(e)
      case Success(cents) =>
        Success(HasPolled(call.payment, PaymentData(call.hook, cents, cents, None, call.person),
                          MapStatus(answer.value.status)))
  }

  // The checkout creates the payment the calls are about.
  function CreateCheckout(l: Ledger, home: Option<Id>, p: Id, hook: string, amount: int,
                          person: Option<string>): Result<Ledger> {
    if home.None? then Failure(NotFound)
    else if HasIntent(l.payments, hook) then Failure(Conflict)
    else Success(WritePayment(l, p, Payment(hook, "", Initial, amount, amount, Donation(amount, home.value, person))))
  }

  // ---- interleavings ----

  // The sum IRIS holds for each payment's hook.
  datatype Expected = Expected(hook: string, cents: int)
  type Plan = map<Id, Expected>

  datatype Credit = Credit(payment: Id, amount: int)

  // `credits` records what each commit added to the vaults, when it added anything; `plan` holds the
  // payments checked out so far.
  datatype State = State(ledger: Ledger, calls: map<nat, Call>, credits: seq<Credit>, plan: Plan)

  datatype Step =
    | Checkout(payment: Id, expected: Expected, home: Option<Id>, amount: int, person: Option<string>)
    | Read(call: nat, payment: Id)
    | Ask(call: nat, answer: Option<IrisAnswer>)
    | Commit(call: nat, found: Option<Id>, home: Option<Id>, newId: Id, campaign: Id)
    | Elsewhere(op: Op)

  function CommitOp(call: Call, found: Option<Id>, home: Option<Id>, newId: Id, campaign: Id): Op
    requires call.HasPolled?
  {
    Event(campaign, call.data, call.status, found, home, newId)
  }

  // IRIS reports the expected sum whenever it answers with a readable one; everything else that happens
  // to the tables leaves the payments checked out alone.
  ghost predicate Enabled(s: State, step: Step) {
    match step
    case Checkout(p, _, home, _, _) => p !in s.ledger.payments && (home.Some? ==> home.value in s.ledger.vaults)
    case Read(call, p) => call !in s.calls && p in s.plan
    case Ask(call, answer) =>
      && call in s.calls && s.calls[call].HasRead?
      && (answer.Some? && ParseIrisSum(answer.value.sum).Success? && s.calls[call].payment in s.plan ==>
            ParseIrisSum(answer.value.sum).value == s.plan[s.calls[call].payment].cents)
    case Commit(call, found, home, newId, campaign) =>
      call in s.calls && s.calls[call].HasPolled?
      && Possible(s.ledger, CommitOp(s.calls[call], found, home, newId, campaign))
    case Elsewhere(op) =>
      && Possible(s.ledger, op) && IsPositive(op)
      && (forall p :: p in s.plan ==>
            p in s.ledger.payments && p in After(s.ledger, op).payments
            && After(s.ledger, op).payments[p] == s.ledger.payments[p])
  }

  ghost function Next(s: State, step: Step): State
    requires Enabled(s, step)
  {
    match step
    case Checkout(p, expected, home, amount, person) =>
      (match CreateCheckout(s.ledger, home, p, expected.hook, amount, person)
       case Success(l') => s.(ledger := l', plan := s.plan[p := expected])
       case Failure(_) => s)
    case Read(call, p) =>
      (match ReadPayment(s.ledger, p)
       case Success(Some(read)) => s.(calls := s.calls[call := read])
       case _ => s)
    case Ask(call, answer) =>
      (match Poll(s.calls[call], answer)
       case Success(polled) => s.(calls := s.calls[call := polled])
       case Failure(_) => s.(calls := s.calls - {call}))
    case Commit(call, found, home, newId, campaign) =>
      var l' := After(s.ledger, CommitOp(s.calls[call], found, home, newId, campaign));
      var gained := MoneyIn(l') - MoneyIn(s.ledger);
      s.(ledger := l', calls := s.calls - {call},
         credits := if gained == 0 then s.credits else s.credits + [Credit(s.calls[call].payment, gained)])
    case Elsewhere(op) => s.(ledger := After(s.ledger, op))
  }

  ghost predicate IsSchedule(s: State, steps: seq<Step>)
    decreases |steps|
  {
    steps == [] || (Enabled(s, steps[0]) && IsSchedule(Next(s, steps[0]), steps[1..]))
  }

  ghost function Execute(s: State, steps: seq<Step>): State
    requires IsSchedule(s, steps)
    decreases |steps|
  {
    if steps == [] then s else Execute(Next(s, steps[0]), steps[1..])
  }

  predicate CallIsPlanned(call: Call, plan: Plan) {
    && call.payment in plan
    && match call
       case HasRead(p, hook, _) => hook == plan[p].hook
       case HasPolled(p, data, status) =>
         data.intent == plan[p].hook && data.net == plan[p].cents && data.methodId == None
         && status in {Succeeded, Declined, Waiting}
  }

  predicate Credited(credits: seq<Credit>, p: Id) {
    exists k :: 0 <= k < |credits| && credits[k].payment == p
  }

  predicate PaymentIsPlanned(l: Ledger, p: Id, plan: Plan)
    requires p in plan
  {
    && p in l.payments
    && l.payments[p].intent == plan[p].hook
    && (l.payments[p].status == Succeeded ==> l.payments[p].amount == plan[p].cents)
  }

  // At most one credit per payment, of the sum IRIS holds.
  predicate CreditsArePlanned(credits: seq<Credit>, plan: Plan) {
    && (forall a, b :: 0 <= a < b < |credits| ==> credits[a].payment != credits[b].payment)
    && (forall k :: 0 <= k < |credits| ==>
          credits[k].payment in plan && credits[k].amount == plan[credits[k].payment].cents)
  }

  // A payment was credited exactly if it has succeeded.
  predicate CreditsMatch(l: Ledger, credits: seq<Credit>, plan: Plan) {
    forall p :: p in plan && p in l.payments ==> (l.payments[p].status == Succeeded <==> Credited(credits, p))
  }

  // The invariant of the payments checked out, in tables that need not be balanced.
  ghost predicate Inv(s: State) {
    && WellFormed(s.ledger)
    && (forall p :: p in s.plan ==> PaymentIsPlanned(s.ledger, p, s.plan))
    && (forall c :: c in s.calls ==> CallIsPlanned(s.calls[c], s.plan))
    && CreditsArePlanned(s.credits, s.plan)
    && CreditsMatch(s.ledger, s.credits, s.plan)
  }

  // A commit finds the payment that was read, and needs nothing from its caller to keep the books.
  lemma CommitFindsItsPayment(l: Ledger, call: Call, plan: Plan, op: Op)
    requires WellFormed(l) && CallIsPlanned(call, plan) && PaymentIsPlanned(l, call.payment, plan)
    requires call.HasPolled? && op.Event? && op.data == call.data && op.status == call.status && Possible(l, op)
    ensures op.found == Some(call.payment) && Honest(l, op)
  {
    assert l.payments[call.payment].intent == op.data.intent;
  }

  // What a commit writes: nothing, or its own payment with the polled status and the IRIS sum.
  lemma CommitWrites(l: Ledger, call: Call, plan: Plan, op: Op)
    requires WellFormed(l) && CallIsPlanned(call, plan) && PaymentIsPlanned(l, call.payment, plan)
    requires call.HasPolled? && op.Event? && op.data == call.data && op.status == call.status && Possible(l, op)
    ensures var l', p := After(l, op), call.payment;
            && (l' == l || l'.payments == l.payments[p := Rewritten(l.payments[p], call.data, call.status)])
            && PaymentIsPlanned(l', p, plan)
            && (IsFinal(l.payments[p].status) ==> l'.payments[p].status == l.payments[p].status)
            && (l.payments[p].status == Succeeded && call.status != Succeeded ==> l' == l)
  {
    CommitFindsItsPayment(l, call, plan, op);
    StatusPolicy(l.payments[call.payment].status, call.status);
    if Perform(l, op).Success? {
      UpdateIfAllowedShape(l, call.payment, call.data, call.status);
    }
  }

  // It credits the IRIS sum on the way to succeeded, and moves no money otherwise.
  lemma CommitGains(l: Ledger, call: Call, plan: Plan, op: Op)
    requires WellFormed(l) && CallIsPlanned(call, plan) && PaymentIsPlanned(l, call.payment, plan)
    requires call.HasPolled? && op.Event? && op.data == call.data && op.status == call.status && Possible(l, op)
    ensures var l', p := After(l, op), call.payment;
            && p in l'.payments
            && (l.payments[p].status == Succeeded ==> l'.payments[p].status == Succeeded)
            && (if l.payments[p].status != Succeeded && l'.payments[p].status == Succeeded
                then MoneyIn(l') - MoneyIn(l) == plan[p].cents > 0 else MoneyIn(l') == MoneyIn(l))
  {
    CommitFindsItsPayment(l, call, plan, op);
    CommitWrites(l, call, plan, op);
    EventEffect(l, op);
  }

  lemma CreditAdded(credits: seq<Credit>, plan: Plan, p: Id)
    requires CreditsArePlanned(credits, plan) && p in plan && !Credited(credits, p)
    ensures CreditsArePlanned(credits + [Credit(p, plan[p].cents)], plan)
    ensures forall q :: Credited(credits + [Credit(p, plan[p].cents)], q) <==> q == p || Credited(credits, q)
  {
    var credits' := credits + [Credit(p, plan[p].cents)];
    assert credits'[|credits|].payment == p;
    forall q | Credited(credits, q)
      ensures Credited(credits', q)
    {
      var k :| 0 <= k < |credits| && credits[k].payment == q;
      assert credits'[k].payment == q;
    }
  }

  ghost function CreditsAfter(l: Ledger, l': Ledger, credits: seq<Credit>, p: Id): seq<Credit> {
    if MoneyIn(l') == MoneyIn(l) then credits else credits + [Credit(p, MoneyIn(l') - MoneyIn(l))]
  }

  lemma CommitKeepsCredits(l: Ledger, credits: seq<Credit>, call: Call, plan: Plan, op: Op)
    requires WellFormed(l) && CallIsPlanned(call, plan) && PaymentIsPlanned(l, call.payment, plan)
    requires call.HasPolled? && op.Event? && op.data == call.data && op.status == call.status && Possible(l, op)
    requires CreditsArePlanned(credits, plan) && CreditsMatch(l, credits, plan)
    ensures var credits' := CreditsAfter(l, After(l, op), credits, call.payment);
            CreditsArePlanned(credits', plan) && CreditsMatch(After(l, op), credits', plan)
  {
    CommitGains(l, call, plan, op);
    CommitWrites(l, call, plan, op);
    if MoneyIn(After(l, op)) != MoneyIn(l) {
      CreditAdded(credits, plan, call.payment);
    }
  }

  lemma CommitKeepsPayments(l: Ledger, call: Call, plan: Plan, op: Op)
    requires WellFormed(l) && CallIsPlanned(call, plan)
    requires call.HasPolled? && op.Event? && op.data == call.data && op.status == call.status && Possible(l, op)
    requires forall p :: p in plan ==> PaymentIsPlanned(l, p, plan)
    ensures forall p :: p in plan ==> PaymentIsPlanned(After(l, op), p, plan)
  {
    CommitWrites(l, call, plan, op);
    forall q | q in plan
      ensures PaymentIsPlanned(After(l, op), q, plan)
    {
      assert PaymentIsPlanned(l, q, plan);
    }
  }

  lemma InvFromParts(s: State)
    requires WellFormed(s.ledger) && CreditsArePlanned(s.credits, s.plan) && CreditsMatch(s.ledger, s.credits, s.plan)
    requires forall p :: p in s.plan ==> PaymentIsPlanned(s.ledger, p, s.plan)
    requires forall c :: c in s.calls ==> CallIsPlanned(s.calls[c], s.plan)
    ensures Inv(s)
  {
  }

  lemma CommitNext(s: State, step: Step)
    requires step.Commit? && Enabled(s, step)
    ensures var c := s.calls[step.call];
            var l' := After(s.ledger, CommitOp(c, step.found, step.home, step.newId, step.campaign));
            Next(s, step) == State(l', s.calls - {step.call}, CreditsAfter(s.ledger, l', s.credits, c.payment), s.plan)
  {
  }

  lemma CommitParts(l: Ledger, credits: seq<Credit>, call: Call, plan: Plan, op: Op)
    requires WellFormed(l) && CallIsPlanned(call, plan)
    requires call.HasPolled? && op.Event? && op.data == call.data && op.status == call.status && Possible(l, op)
    requires forall p :: p in plan ==> PaymentIsPlanned(l, p, plan)
    requires CreditsArePlanned(credits, plan) && CreditsMatch(l, credits, plan)
    ensures var l' := After(l, op);
            var credits' := CreditsAfter(l, l', credits, call.payment);
            && WellFormed(l') && (forall p :: p in plan ==> PaymentIsPlanned(l', p, plan))
            && CreditsArePlanned(credits', plan) && CreditsMatch(l', credits', plan)
  {
    EventKeepsWellFormed(l, op);
    CommitKeepsPayments(l, call, plan, op);
    CommitKeepsCredits(l, credits, call, plan, op);
  }

  lemma CommitKeepsInv(s: State, step: Step)
    requires step.Commit? && Inv(s) && Enabled(s, step)
    ensures Inv(Next(s, step))
  {
    var c := s.calls[step.call];
    CommitParts(s.ledger, s.credits, c, s.plan, CommitOp(c, step.found, step.home, step.newId, step.campaign));
    CommitNext(s, step);
    InvFromParts(Next(s, step));
  }

  lemma ElsewhereKeepsInv(s: State, step: Step)
    requires step.Elsewhere? && Inv(s) && Enabled(s, step)
    ensures Inv(Next(s, step))
  {
    StepKeepsWellFormed(s.ledger, step.op);
    forall q | q in s.plan
      ensures PaymentIsPlanned(After(s.ledger, step.op), q, s.plan)
    {
      assert PaymentIsPlanned(s.ledger, q, s.plan);
    }
  }

  lemma CallsStayPlanned(s: State, step: Step)
    requires (step.Read? || step.Ask?) && Enabled(s, step)
    requires forall p :: p in s.plan ==> PaymentIsPlanned(s.ledger, p, s.plan)
    requires forall c :: c in s.calls ==> CallIsPlanned(s.calls[c], s.plan)
    ensures forall c :: c in Next(s, step).calls ==> CallIsPlanned(Next(s, step).calls[c], s.plan)
  {
    if step.Read? {
      assert PaymentIsPlanned(s.ledger, step.payment, s.plan);
    } else {
      assert CallIsPlanned(s.calls[step.call], s.plan);
    }
  }

  lemma CallKeepsInv(s: State, step: Step)
    requires (step.Read? || step.Ask?) && Inv(s) && Enabled(s, step)
    ensures Inv(Next(s, step))
  {
    var s' := Next(s, step);
    assert s'.ledger == s.ledger && s'.credits == s.credits && s'.plan == s.plan;
    CallsStayPlanned(s, step);
    InvFromParts(s');
  }

  // The row a checkout creates.
  function CheckedOut(hook: string, home: Id, amount: int, person: Option<string>): Payment {
    Payment(hook, "", Initial, amount, amount, Donation(amount, home, person))
  }

  // The payment a checkout creates is one more such payment, with nothing credited.
  lemma CheckoutIsPlanned(s: State, step: Step)
    requires step.Checkout? && Inv(s) && Enabled(s, step)
    ensures Inv(Next(s, step))
    ensures step.home.Some? && !HasIntent(s.ledger.payments, step.expected.hook) ==>
              && step.payment in Next(s, step).plan && Next(s, step).plan[step.payment] == step.expected
              && !Credited(s.credits, step.payment)
              && Next(s, step).ledger.vaults == s.ledger.vaults && step.payment in Next(s, step).ledger.payments
              && var p := Next(s, step).ledger.payments[step.payment];
                 && p.status == Initial && p.amount == p.charged == step.amount
                 && p.donation == Donation(step.amount, step.home.value, step.person)
    ensures step.home.None? || HasIntent(s.ledger.payments, step.expected.hook) ==> Next(s, step) == s
  {
    if step.home.Some? && !HasIntent(s.ledger.payments, step.expected.hook) {
      var row := CheckedOut(step.expected.hook, step.home.value, step.amount, step.person);
      var l', plan' := WritePayment(s.ledger, step.payment, row), s.plan[step.payment := step.expected];
      PaymentStepWellFormed(s.ledger, l', step.payment, row);
      CheckoutKeepsPlanned(s, step.payment, row, step.expected);
      assert Next(s, step) == s.(ledger := l', plan := plan');
      InvFromParts(Next(s, step));
    }
  }

  lemma CheckoutKeepsPlanned(s: State, p: Id, row: Payment, expected: Expected)
    requires Inv(s) && p !in s.ledger.payments && row.status == Initial && row.intent == expected.hook
    ensures var l', plan' := WritePayment(s.ledger, p, row), s.plan[p := expected];
            && (forall q :: q in plan' ==> PaymentIsPlanned(l', q, plan'))
            && (forall c :: c in s.calls ==> CallIsPlanned(s.calls[c], plan'))
            && CreditsArePlanned(s.credits, plan') && CreditsMatch(l', s.credits, plan')
    ensures !Credited(s.credits, p)
  {
    assert forall q :: q in s.plan ==> PaymentIsPlanned(s.ledger, q, s.plan);
    assert p !in s.plan;
    forall c | c in s.calls
      ensures CallIsPlanned(s.calls[c], s.plan[p := expected])
    {
      assert CallIsPlanned(s.calls[c], s.plan);
    }
  }

  lemma StepKeepsInv(s: State, step: Step)
    requires Inv(s) && Enabled(s, step)
    ensures Inv(Next(s, step))
  {
    match step
    case Checkout(_, _, _, _, _) => CheckoutIsPlanned(s, step);
    case Commit(_, _, _, _, _) => CommitKeepsInv(s, step);
    case Elsewhere(_) => ElsewhereKeepsInv(s, step);
    case Read(_, _) => CallKeepsInv(s, step);
    case Ask(_, _) => CallKeepsInv(s, step);
  }

  // Under every interleaving of checkouts, finalize and webhook calls, and of anything else that leaves
  // the payments checked out alone, each payment is credited at most once, with the IRIS sum, exactly if
  // it succeeds. The rest of the tables need not be balanced, nor the other calls faithful.
  lemma {:induction false} CreditedExactlyOnce(s: State, steps: seq<Step>)
    requires Inv(s) && IsSchedule(s, steps)
    ensures Inv(Execute(s, steps))
    decreases |steps|
  {
    if steps != [] {
      StepKeepsInv(s, steps[0]);
      CreditedExactlyOnce(Next(s, steps[0]), steps[1..]);
    }
  }

  lemma BeforeAnyCheckout(l: Ledger)
    requires WellFormed(l)
    ensures Inv(State(l, map[], [], map[]))
  {
  }

  // ---- the books ----

  ghost predicate HonestElsewhere(s: State, steps: seq<Step>)
    requires IsSchedule(s, steps)
    decreases |steps|
  {
    steps == []
    || ((steps[0].Elsewhere? ==> IsFaithful(s.ledger, steps[0].op)) && HonestElsewhere(Next(s, steps[0]), steps[1..]))
  }

  lemma CheckoutKeepsBooks(l: Ledger, p: Id, row: Payment)
    requires Books(l) && p !in l.payments && !HasIntent(l.payments, row.intent)
    requires row.donation.vault in l.vaults && row.status == Initial && row.amount == row.donation.amount
    ensures Books(WritePayment(l, p, row))
  {
    var l' := WritePayment(l, p, row);
    NoMove(l, row.donation.vault);
    PaymentStepWellFormed(l, l', p, row);
    forall v | v in l.vaults
      ensures Drifts(l, l', v, STEADY)
    {
      PaymentDrift(l, l', p, row, 0, v);
    }
    SteadyExactly(l, l');
  }

  lemma CommitKeepsBooks(s: State, step: Step)
    requires step.Commit? && Inv(s) && Enabled(s, step) && Books(s.ledger)
    ensures Books(Next(s, step).ledger)
  {
    var c := s.calls[step.call];
    var op := CommitOp(c, step.found, step.home, step.newId, step.campaign);
    assert CallIsPlanned(c, s.plan) && PaymentIsPlanned(s.ledger, c.payment, s.plan);
    CommitFindsItsPayment(s.ledger, c, s.plan, op);
    StepKeepsBooks(s.ledger, op);
    CommitNext(s, step);
  }

  lemma StepKeepsBalance(s: State, step: Step)
    requires Inv(s) && Enabled(s, step) && Books(s.ledger) && (step.Elsewhere? ==> IsFaithful(s.ledger, step.op))
    ensures Books(Next(s, step).ledger)
  {
    match step
    case Checkout(p, expected, home, amount, person) =>
      if home.Some? && !HasIntent(s.ledger.payments, expected.hook) {
        CheckoutKeepsBooks(s.ledger, p, CheckedOut(expected.hook, home.value, amount, person));
      }
    case Commit(_, _, _, _, _) => CommitKeepsBooks(s, step);
    case Elsewhere(op) => StepKeepsBooks(s.ledger, op);
    case _ => assert Next(s, step).ledger == s.ledger;
  }

  // Balanced books stay balanced, if the other calls are faithful: finalizing needs nothing from its callers.
  lemma {:induction false} BooksStayBalanced(s: State, steps: seq<Step>)
    requires Inv(s) && IsSchedule(s, steps) && Books(s.ledger) && HonestElsewhere(s, steps)
    ensures Books(Execute(s, steps).ledger)
    decreases |steps|
  {
    if steps != [] {
      StepKeepsInv(s, steps[0]);
      StepKeepsBalance(s, steps[0]);
      BooksStayBalanced(Next(s, steps[0]), steps[1..]);
    }
  }

  // ---- decided payments ----

  lemma CommitKeepsDecided(l: Ledger, call: Call, plan: Plan, op: Op, p: Id)
    requires WellFormed(l) && CallIsPlanned(call, plan) && p in l.payments && IsFinal(l.payments[p].status)
    requires call.HasPolled? && op.Event? && op.data == call.data && op.status == call.status && Possible(l, op)
    requires forall q :: q in plan ==> PaymentIsPlanned(l, q, plan)
    ensures p in After(l, op).payments && After(l, op).payments[p].status == l.payments[p].status
  {
    assert PaymentIsPlanned(l, call.payment, plan);
    CommitWrites(l, call, plan, op);
  }

  lemma CommitStepKeepsDecided(s: State, step: Step, p: Id)
    requires step.Commit? && Inv(s) && Enabled(s, step)
    requires p in s.ledger.payments && IsFinal(s.ledger.payments[p].status)
    ensures p in Next(s, step).ledger.payments
    ensures Next(s, step).ledger.payments[p].status == s.ledger.payments[p].status
  {
    var c := s.calls[step.call];
    CommitNext(s, step);
    CommitKeepsDecided(s.ledger, c, s.plan, CommitOp(c, step.found, step.home, step.newId, step.campaign), p);
  }

  lemma OtherStepsLeaveIt(s: State, step: Step, p: Id)
    requires !step.Commit? && Enabled(s, step) && p in s.plan && p in s.ledger.payments
    ensures p in Next(s, step).ledger.payments
    ensures Next(s, step).ledger.payments[p] == s.ledger.payments[p]
  {
  }

  lemma DecidedStaysInOneStep(s: State, step: Step, p: Id)
    requires Inv(s) && Enabled(s, step) && p in s.plan && IsFinal(s.ledger.payments[p].status)
    ensures p in Next(s, step).ledger.payments
    ensures Next(s, step).ledger.payments[p].status == s.ledger.payments[p].status
  {
    if step.Commit? {
      CommitStepKeepsDecided(s, step, p);
    } else {
      OtherStepsLeaveIt(s, step, p);
    }
  }

  // Once decided, the status stays, whatever stale answers are committed later.
  lemma {:induction false} DecidedStays(s: State, steps: seq<Step>, p: Id)
    requires Inv(s) && IsSchedule(s, steps) && p in s.plan && IsFinal(s.ledger.payments[p].status)
    ensures p in Execute(s, steps).ledger.payments
    ensures Execute(s, steps).ledger.payments[p].status == s.ledger.payments[p].status
    decreases |steps|
  {
    if steps != [] {
      DecidedStaysInOneStep(s, steps[0], p);
      StepKeepsInv(s, steps[0]);
      DecidedStays(Next(s, steps[0]), steps[1..], p);
    }
  }

  lemma StaleCommit(l: Ledger, call: Call, plan: Plan, op: Op)
    requires WellFormed(l) && CallIsPlanned(call, plan) && PaymentIsPlanned(l, call.payment, plan)
    requires call.HasPolled? && op.Event? && op.data == call.data && op.status == call.status && Possible(l, op)
    requires l.payments[call.payment].status == Succeeded && call.status in {Waiting, Declined}
    ensures After(l, op) == l
  {
    CommitWrites(l, call, plan, op);
  }

  // A stale WAITING or FAILED answer committed after success changes nothing in the tables.
  lemma StaleAnswerChangesNothing(s: State, step: Step)
    requires step.Commit? && Inv(s) && Enabled(s, step)
    requires s.ledger.payments[s.calls[step.call].payment].status == Succeeded
    requires s.calls[step.call].status in {Waiting, Declined}
    ensures Next(s, step).ledger == s.ledger && Next(s, step).credits == s.credits
  {
    var c := s.calls[step.call];
    CommitNext(s, step);
    assert CallIsPlanned(c, s.plan) && PaymentIsPlanned(s.ledger, c.payment, s.plan);
    StaleCommit(s.ledger, c, s.plan, CommitOp(c, step.found, step.home, step.newId, step.campaign));
  }

  // ---- the answers ----

  // A readable answer about money in the campaign's currency.
  predicate IsReadable(answer: Option<IrisAnswer>) {
    answer.Some? && answer.value.currencyAgrees && ParseIrisSum(answer.value.sum).Success?
  }

  // What an answer leaves of an undecided payment: confirmed, it has the IRIS sum, and its vault too; a
  // confirmation of no money is thrown out; otherwise it is declined or waiting and no money moves.
  ghost predicate Decided(l: Ledger, l': Ledger, p: Id, answer: IrisAnswer, cents: int)
    requires p in l.payments
  {
    && p in l'.payments
    && var before, after := l.payments[p], l'.payments[p];
    if InAnyCase(answer.status, "CONFIRMED") then
      if cents > 0 then
        after.status == Succeeded && after.amount == cents && Raised(l, l', before.donation.vault, cents)
      else l' == l
    else after.status == (if InAnyCase(answer.status, "FAILED") then Declined else Waiting) && l'.vaults == l.vaults
  }

  lemma CommitDecides(l: Ledger, op: Op, p: Id, answer: IrisAnswer, cents: int)
    requires WellFormed(l) && op.Event? && Possible(l, op) && op.found == Some(p) && l.payments[p].status in UNDECIDED
    requires op.data.net == cents && op.status == MapStatus(answer.status)
    ensures Decided(l, After(l, op), p, answer, cents)
    ensures Perform(l, op).Failure? <==> InAnyCase(answer.status, "CONFIRMED") && cents <= 0
  {
    AnswersByName(answer.status);
    EventExactly(l, op);
    KnownPaymentExactly(l, p, op.data, op.status);
  }

  // An undisturbed finalize of payment p, from l to l'.
  ghost predicate Finalized(l: Ledger, l': Ledger, p: Id, answer: Option<IrisAnswer>, r: Result<PaymentStatus>) {
    if p !in l.payments then l' == l && r == Failure(NotFound)
    else if l.payments[p].status in {Succeeded, Cancelled, Deleted, Invalid, Refund} then
      l' == l && r == Success(l.payments[p].status)
    else if !IsReadable(answer) then
      && l' == l && r.Failure?
      && (answer.None? ==> r.error == Unavailable)
      && (answer.Some? && !answer.value.currencyAgrees ==> r.error == Conflict)
    else
      && Decided(l, l', p, answer.value, ParseIrisSum(answer.value.sum).value)
      && (r.Failure? ==> l' == l)
      && (r.Success? ==> p in l'.payments && r.value == l'.payments[p].status)
      && (r.Success? <==> InAnyCase(answer.value.status, "CONFIRMED") ==> ParseIrisSum(answer.value.sum).value > 0)
  }

  // Until it commits, a call keeps what it was told, and the plan what IRIS holds.
  lemma {:induction false} CallWaits(s: State, steps: seq<Step>, call: nat)
    requires Inv(s) && IsSchedule(s, steps) && call in s.calls && s.calls[call].HasPolled?
    requires forall k :: 0 <= k < |steps| ==> !(steps[k].Commit? && steps[k].call == call)
    ensures var s', p := Execute(s, steps), s.calls[call].payment;
            && Inv(s') && call in s'.calls && s'.calls[call] == s.calls[call]
            && p in s.plan && p in s'.plan && s'.plan[p] == s.plan[p]
    decreases |steps|
  {
    assert CallIsPlanned(s.calls[call], s.plan);
    if steps != [] {
      CallWaitsOneStep(s, steps[0], call);
      CallWaits(Next(s, steps[0]), steps[1..], call);
    }
  }

  lemma CallWaitsOneStep(s: State, step: Step, call: nat)
    requires Inv(s) && Enabled(s, step) && call in s.calls && s.calls[call].HasPolled?
    requires !(step.Commit? && step.call == call)
    ensures var s', p := Next(s, step), s.calls[call].payment;
            && Inv(s') && call in s'.calls && s'.calls[call] == s.calls[call]
            && p in s.plan && p in s'.plan && s'.plan[p] == s.plan[p]
  {
    StepKeepsInv(s, step);
    assert CallIsPlanned(s.calls[call], s.plan);
    assert PaymentIsPlanned(s.ledger, s.calls[call].payment, s.plan);
    if step.Commit? { CommitNext(s, step); }
  }

  // However long the commit is in coming and whatever happens meanwhile: if the payment is still undecided
  // then, the answer decides it, and the sum IRIS holds is credited exactly if the answer was a confirmation.
  lemma AnswerDecides(s: State, ask: Step, steps: seq<Step>, commit: Step)
    requires Inv(s) && ask.Ask? && Enabled(s, ask) && IsReadable(ask.answer) && s.calls[ask.call].payment in s.plan
    requires IsSchedule(Next(s, ask), steps)
    requires forall k :: 0 <= k < |steps| ==> !(steps[k].Commit? && steps[k].call == ask.call)
    requires commit.Commit? && commit.call == ask.call && Enabled(Execute(Next(s, ask), steps), commit)
    requires var p, l := s.calls[ask.call].payment, Execute(Next(s, ask), steps).ledger;
             p in l.payments && l.payments[p].status in UNDECIDED
    ensures var p, before := s.calls[ask.call].payment, Execute(Next(s, ask), steps);
            var after, cents := Next(before, commit), s.plan[p].cents;
            && Decided(before.ledger, after.ledger, p, ask.answer.value, cents)
            && after.credits == before.credits
                  + if InAnyCase(ask.answer.value.status, "CONFIRMED") && cents > 0 then [Credit(p, cents)] else []
  {
    var asked := Next(s, ask);
    var before := Execute(asked, steps);
    var call := asked.calls[ask.call];
    StepKeepsInv(s, ask);
    CallWaits(asked, steps, ask.call);
    CommitAnswers(before, commit, ask.answer.value, s.plan[call.payment].cents);
  }

  lemma CommitCredits(l: Ledger, call: Call, plan: Plan, op: Op, answer: IrisAnswer, credits: seq<Credit>)
    requires WellFormed(l) && CallIsPlanned(call, plan) && PaymentIsPlanned(l, call.payment, plan)
    requires call.HasPolled? && op.Event? && op.data == call.data && op.status == call.status && Possible(l, op)
    requires l.payments[call.payment].status in UNDECIDED && call.status == MapStatus(answer.status)
    ensures var p, cents := call.payment, plan[call.payment].cents;
            && Decided(l, After(l, op), p, answer, cents)
            && CreditsAfter(l, After(l, op), credits, p)
               == credits + if InAnyCase(answer.status, "CONFIRMED") && cents > 0 then [Credit(p, cents)] else []
  {
    CommitFindsItsPayment(l, call, plan, op);
    CommitDecides(l, op, call.payment, answer, plan[call.payment].cents);
    CommitGains(l, call, plan, op);
  }

  lemma CommitAnswers(s: State, commit: Step, answer: IrisAnswer, cents: int)
    requires Inv(s) && commit.Commit? && Enabled(s, commit)
    requires s.calls[commit.call].status == MapStatus(answer.status)
    requires var p := s.calls[commit.call].payment;
             && p in s.plan && s.plan[p].cents == cents
             && p in s.ledger.payments && s.ledger.payments[p].status in UNDECIDED
    ensures var p, after := s.calls[commit.call].payment, Next(s, commit);
            && Decided(s.ledger, after.ledger, p, answer, cents)
            && after.credits == s.credits
                  + if InAnyCase(answer.status, "CONFIRMED") && cents > 0 then [Credit(p, cents)] else []
  {
    var c := s.calls[commit.call];
    var op := CommitOp(c, commit.found, commit.home, commit.newId, commit.campaign);
    assert CallIsPlanned(c, s.plan) && PaymentIsPlanned(s.ledger, c.payment, s.plan);
    CommitNext(s, commit);
    CommitCredits(s.ledger, c, s.plan, op, answer, s.credits);
  }

  // An answer that cannot be read ends its call, and nothing is written.
  lemma UnreadableAnswerEndsTheCall(s: State, ask: Step)
    requires ask.Ask? && Enabled(s, ask) && !IsReadable(ask.answer)
    ensures Next(s, ask) == s.(calls := s.calls - {ask.call})
  {
  }
}
