// Where a conversion leaves more than one record or more than one live subscription: from an untouched
// donation, steps that all are possible.
module ConversionFailures {
  import opened Wrappers
  import opened Subscriptions
  import opened Conversions

  const MONTHLY := Subscription("active", Some(Price("BGN", Some(1000))), Some("campaign"), Some("person"), None, None)
  const RECORD := Recurring(Plain(0), Active, "BGN", 1000, "person")
  const JOB := Job(0, "r", RECORD, "EUR", 511)
  const UNTOUCHED := World([MONTHLY], map["r" := RECORD], map[])

  lemma StartsUntouched()
    ensures Untouched(UNTOUCHED, JOB) && Inv(UNTOUCHED, JOB)
  {
  }

  // A single conversion that ends well, and then one more event of the old subscription.
  lemma LateEvent(w: World, job: Job, a: nat, r: RowId, hook: Hook, event: Subscription, newRow: RowId)
    requires Untouched(w, job) && r == job.row && newRow !in w.rows
    requires hook != DeletedHook && IsComplete(event, true)
    ensures IsRun(w, SingleAttempt(a, job, None, Some(r))) && IsFair(w, SingleAttempt(a, job, None, Some(r)), job)
    ensures var converted := Run(w, SingleAttempt(a, job, None, Some(r)));
            && BoundToLive(converted, job) && !HasTwoRecords(converted, job)
            && newRow !in converted.rows && FoundBy(converted.rows, Plain(job.old'), None)
            && var rows' := RowsAfterHook(converted.rows, hook, job.old', event, None, true, newRow);
            HasTwoRecords(converted.(rows := rows'), job)
  {
    RetryConverts(w, job, a, None, Some(r));
    var steps := SingleAttempt(a, job, None, Some(r));
    var converted := Run(w, steps);
    RunKeepsInv(w, steps, job);
    SingleAttemptKeepsRows(w, job, a, None, Some(r));
    LateEventAddsARecordExactly(converted, job, hook, event, true, newRow);
  }

  lemma SingleAttemptKeepsRows(w: World, job: Job, a: nat, converting: Option<RowId>, plain: Option<RowId>)
    requires IsRun(w, SingleAttempt(a, job, converting, plain))
        && IsFair(w, SingleAttempt(a, job, converting, plain), job)
    ensures Run(w, SingleAttempt(a, job, converting, plain)).rows.Keys == w.rows.Keys
  {
    var steps := SingleAttempt(a, job, converting, plain);
    RunKeys(w, steps, job);
  }

  predicate WritesNoRow(step: Step) {
    !step.Webhook?
  }

  lemma {:induction false} RunKeys(w: World, steps: seq<Step>, job: Job)
    requires IsRun(w, steps) && IsFair(w, steps, job) && forall step :: step in steps ==> WritesNoRow(step)
    ensures Run(w, steps).rows.Keys == w.rows.Keys
    decreases |steps|
  {
    if steps != [] {
      assert WritesNoRow(steps[0]);
      assert Next(w, steps[0]).rows.Keys == w.rows.Keys;
      RunKeys(Next(w, steps[0]), steps[1..], job);
    }
  }

  lemma LateEventLeavesTwoRecords()
    ensures IsRun(UNTOUCHED, SingleAttempt(0, JOB, None, Some("r")))
        && IsFair(UNTOUCHED, SingleAttempt(0, JOB, None, Some("r")), JOB)
    ensures var converted := Run(UNTOUCHED, SingleAttempt(0, JOB, None, Some("r")));
            && FoundBy(converted.rows, Plain(0), None)
            && var rows' := RowsAfterHook(converted.rows, UpdatedHook, 0, MONTHLY, None, true, "s");
            HasTwoRecords(converted.(rows := rows'), JOB)
  {
    StartsUntouched();
    LateEvent(UNTOUCHED, JOB, 0, "r", UpdatedHook, MONTHLY, "s");
  }

  // An attempt that crashes once it has created its subscription.
  function Crashing(a: nat, job: Job): seq<Step> {
    [Begin(a, job.old', job.currency, job.amount, false), Cancel(a), Create(a), Crash(a)]
  }

  // Run again, the donation is bound to one of two live subscriptions.
  lemma CrashedAndRunAgain(w: World, job: Job, a: nat)
    requires Untouched(w, job)
    ensures IsRun(w, Crashing(a, job)) && IsFair(w, Crashing(a, job), job)
    ensures var crashed := Run(w, Crashing(a, job));
            var retry := SingleAttempt(a, job, None, Some(job.row));
            && IsRun(crashed, retry) && IsFair(crashed, retry, job)
            && var done := Run(crashed, retry);
            && BoundToLive(done, job) && |Successors(done, job)| == 2
            && forall n :: n in Successors(done, job) ==> done.subs[n].status != CANCELED
  {
    var retry := SingleAttempt(a, job, None, Some(job.row));
    var crashed := Next(Created(w, job, a), Crash(a));
    AttemptCreates(w, job, a, Crash(a), crashed);
    StepKeepsInv(Created(w, job, a), Crash(a), job);
    EveryCreationStaysLive(w, Crashing(a, job), job);
    assert Successors(w, job) == {};
    RetryConverts(crashed, job, a, None, Some(job.row));
    EveryCreationStaysLive(crashed, retry, job);
  }

  lemma CrashLeavesTwoLive()
    ensures IsRun(UNTOUCHED, Crashing(0, JOB)) && IsFair(UNTOUCHED, Crashing(0, JOB), JOB)
    ensures var crashed := Run(UNTOUCHED, Crashing(0, JOB));
            && IsRun(crashed, SingleAttempt(0, JOB, None, Some("r")))
                && IsFair(crashed, SingleAttempt(0, JOB, None, Some("r")), JOB)
            && |Successors(Run(crashed, SingleAttempt(0, JOB, None, Some("r"))), JOB)| == 2
  {
    StartsUntouched();
    CrashedAndRunAgain(UNTOUCHED, JOB, 0);
  }

  // Two attempts on one subscription that overlap and both end well: the first has created its
  // subscription when the second begins, and binds last.
  function FirstHalf(job: Job): seq<Step> {
    [Begin(1, job.old', job.currency, job.amount, false), Cancel(1), Create(1)]
  }

  function Overlapping(job: Job): seq<Step> {
    FirstHalf(job) + (SingleAttempt(2, job, None, Some(job.row)) + [BindRow(1, None, None)])
  }

  lemma FirstHalfCreates(w: World, job: Job)
    requires Inv(w, job) && 1 !in w.attempts
    ensures IsRun(w, FirstHalf(job)) && IsFair(w, FirstHalf(job), job) && Run(w, FirstHalf(job)) == Created(w, job, 1)
    ensures Inv(Created(w, job, 1), job)
  {
    AttemptTakes(w, job, 1);
    AttemptCreates(w, job, 1, Crash(1), Next(Created(w, job, 1), Crash(1)));
    RunOne(Canceling(w, job, 1), Create(1), [], job);
    RunOne(Begun(w, job, 1), Cancel(1), [Create(1)], job);
    RunOne(w, Begin(1, job.old', job.currency, job.amount, false), [Cancel(1), Create(1)], job);
  }

  lemma SecondHalfBinds(w: World, job: Job)
    requires Inv(w, job) && 1 in w.attempts && 2 !in w.attempts && w.rows[job.row].ext == Plain(job.old')
    requires w.attempts[1].on == job.old' && w.attempts[1].phase.ToRebind?
    ensures var rest := SingleAttempt(2, job, None, Some(job.row)) + [BindRow(1, None, None)];
            && IsRun(w, rest) && IsFair(w, rest, job) && BoundToLive(Run(w, rest), job)
            && |Successors(Run(w, rest), job)| == |Successors(w, job)| + 1
  {
    var attempt := SingleAttempt(2, job, None, Some(job.row));
    RetryConverts(w, job, 2, None, Some(job.row));
    RunKeepsInv(w, attempt, job);
    EveryCreationStaysLive(w, attempt, job);
    var bound := Run(w, attempt);
    RunOne(bound, BindRow(1, None, None), [], job);
    BindingStep(bound, BindRow(1, None, None), job);
    SuccessorsStep(bound, BindRow(1, None, None), job);
    RunAppend(w, attempt, [BindRow(1, None, None)], job);
  }

  lemma FirstSuccessor(w: World, job: Job)
    requires Untouched(w, job)
    ensures Successors(Created(w, job, 1), job) == {|w.subs|}
  {
  }

  // One record, two live subscriptions.
  lemma OverlappingAttemptsLeaveTwoLive(w: World, job: Job)
    requires Untouched(w, job)
    ensures IsRun(w, Overlapping(job)) && IsFair(w, Overlapping(job), job)
    ensures var done := Run(w, Overlapping(job));
            BoundToLive(done, job) && |Successors(done, job)| == 2
  {
    UntouchedIsInv(w, job);
    FirstHalfCreates(w, job);
    SecondHalfBinds(Created(w, job, 1), job);
    FirstSuccessor(w, job);
    RunAppend(w, FirstHalf(job), SingleAttempt(2, job, None, Some(job.row)) + [BindRow(1, None, None)], job);
  }

  lemma OverlapLeavesTwoLive()
    ensures IsRun(UNTOUCHED, Overlapping(JOB)) && IsFair(UNTOUCHED, Overlapping(JOB), JOB)
        && |Successors(Run(UNTOUCHED, Overlapping(JOB)), JOB)| == 2
  {
    StartsUntouched();
    OverlappingAttemptsLeaveTwoLive(UNTOUCHED, JOB);
  }
}
