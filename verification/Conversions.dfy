// Converting subscriptions to another currency: mark the row, cancel, create, rebind; any number of
// attempts on any subscriptions at once, interleaved with webhooks and crashes.
module Conversions {
  import opened Wrappers
  import opened Money
  import opened Subscriptions

  // A subscription to convert, its row, and what it is converted to.
  datatype Job = Job(old': SubId, row: RowId, before: Recurring, currency: Currency, amount: int)

  // What an attempt does next. A bulk attempt starts by marking the row; a single one by cancelling.
  datatype Phase = ToMark | ToCancel | ToCreate | ToRebind(new': SubId)

  // An attempt to convert one subscription.
  datatype Attempt = Underway(on: SubId, currency: Currency, amount: int, phase: Phase)

  // `attempts` holds the attempts under way; they may overlap, on the same subscription or on different ones.
  datatype World = World(subs: seq<Subscription>, rows: Rows, attempts: map<nat, Attempt>)

  datatype Step =
    | Begin(a: nat, on: SubId, currency: Currency, amount: int, bulk: bool)
    | MarkRow(a: nat, converting: Option<RowId>, plain: Option<RowId>)
    | Cancel(a: nat)
    | Create(a: nat)
    | BindRow(a: nat, converting: Option<RowId>, plain: Option<RowId>)
    | Crash(a: nat)
    | Webhook(hook: Hook, sub: SubId, event: Subscription, hit: Option<RowId>, vaultFound: bool, newRow: RowId)
    | Subscribe(subscription: Subscription)
    | StripeMoves(sub: SubId, status: string)

  // A subscription some attempt of this job created.
  predicate IsSuccessor(w: World, job: Job, n: SubId) {
    n < |w.subs| && w.subs[n].original == Some(job.old')
  }

  // The event shows the subscription with the metadata and price it was created with; a deletion, also
  // with the comment it was canceled with.
  predicate Genuine(hook: Hook, sub: Subscription, event: Subscription) {
    && event.original == sub.original && event.campaign == sub.campaign && event.person == sub.person
    && event.price == sub.price
    && (hook == DeletedHook ==> sub.status == CANCELED && event.status == CANCELED && event.comment == sub.comment)
  }

  predicate IsAt(w: World, a: nat, phase: Phase) {
    a in w.attempts && w.attempts[a].phase == phase && w.attempts[a].on < |w.subs|
  }

  // The rows a findFirst may return for the subscription of an attempt.
  predicate FindsRows(w: World, a: nat, converting: Option<RowId>, plain: Option<RowId>)
    requires a in w.attempts
  {
    FoundBy(w.rows, Converting(w.attempts[a].on), converting) && FoundBy(w.rows, Plain(w.attempts[a].on), plain)
  }

  // What can happen at all.
  predicate Possible(w: World, step: Step) {
    match step
    case Begin(a, on, _, _, _) => a !in w.attempts && on < |w.subs|
    case MarkRow(a, converting, plain) => IsAt(w, a, ToMark) && FindsRows(w, a, converting, plain)
    case Cancel(a) => IsAt(w, a, ToCancel)
    case Create(a) => IsAt(w, a, ToCreate)
    case BindRow(a, converting, plain) =>
      a in w.attempts && w.attempts[a].phase.ToRebind? && FindsRows(w, a, converting, plain)
    case Crash(a) => a in w.attempts
    case Webhook(hook, sub, event, hit, _, newRow) =>
      sub < |w.subs| && Genuine(hook, w.subs[sub], event) && FoundBy(w.rows, Plain(sub), hit) && newRow !in w.rows
    case Subscribe(_) => true
    case StripeMoves(sub, _) => sub < |w.subs|
  }

  // The record carries this subscription's id.
  predicate Carries(w: World, job: Job, n: SubId) {
    job.row in w.rows && w.rows[job.row].ext == Plain(n)
  }

  // The event would set the record it is about to canceled.
  predicate Cancels(hook: Hook, event: Subscription) {
    && String2RecurringDonationStatus(event.status) == Canceled && IsGiven(event.campaign)
    && match hook
       case CreatedHook => false
       case UpdatedHook => IsGiven(event.person)
       case DeletedHook => !IsConversionComment(event.comment)
  }

  // The event tells everything a new record needs.
  predicate IsComplete(event: Subscription, vaultFound: bool) {
    && event.original.None? && IsGiven(event.campaign) && IsGiven(event.person) && vaultFound
    && event.price.Some? && event.price.value.unitAmount.Some? && event.price.value.unitAmount.value != 0
  }

  // An event of a subscription that stands for the donation does no harm: on time it does not cancel the
  // record, unless it was canceled from the first, and late, when the record carries another id, it does not add one.
  predicate IsHarmless(w: World, job: Job, sub: SubId, hook: Hook, event: Subscription, vaultFound: bool) {
    if Carries(w, job, sub) then Cancels(hook, event) ==> sub == job.old' && job.before.status == Canceled
    else hook == DeletedHook || !IsComplete(event, vaultFound)
  }

  // What a donation relies on: events of its subscriptions are harmless, nobody else cancels or converts a
  // successor, or claims to be one, and every attempt on it is for the same currency and amount.
  predicate Allowed(w: World, step: Step, job: Job) {
    && Possible(w, step)
    && match step
       case Begin(_, on, currency, amount, _) =>
         if on == job.old' then currency == job.currency && amount == job.amount else !IsSuccessor(w, job, on)
       case Webhook(hook, sub, event, _, vaultFound, _) =>
         sub == job.old' || IsSuccessor(w, job, sub) ==> IsHarmless(w, job, sub, hook, event, vaultFound)
       case Subscribe(subscription) => subscription.original != Some(job.old')
       case StripeMoves(sub, status) => IsSuccessor(w, job, sub) ==> status != CANCELED
       case _ => true
  }

  function Advance(w: World, a: nat, phase: Phase): map<nat, Attempt>
    requires a in w.attempts
  {
    w.attempts[a := w.attempts[a].(phase := phase)]
  }

  function Next(w: World, step: Step): World
    requires Possible(w, step)
  {
    match step
    case Begin(a, on, currency, amount, bulk) =>
      w.(attempts := w.attempts[a := Underway(on, currency, amount, if bulk then ToMark else ToCancel)])
    case MarkRow(a, converting, plain) =>
      w.(rows := Mark(w.rows, w.attempts[a].on, converting, plain), attempts := Advance(w, a, ToCancel))
    case Cancel(a) =>
      w.(subs := CancelForConversion(w.subs, w.attempts[a].on, w.attempts[a].currency),
         attempts := Advance(w, a, ToCreate))
    case Create(a) =>
      var t := w.attempts[a];
      w.(subs := w.subs + [Successor(w.subs[t.on], t.on, t.currency, t.amount)],
         attempts := Advance(w, a, ToRebind(|w.subs|)))
    case BindRow(a, converting, plain) =>
      var t := w.attempts[a];
      w.(rows := Rebind(w.rows, t.on, t.phase.new', t.currency, t.amount, converting, plain),
         attempts := w.attempts - {a})
    case Crash(a) => w.(attempts := w.attempts - {a})
    case Webhook(hook, sub, event, hit, vaultFound, newRow) =>
      w.(rows := RowsAfterHook(w.rows, hook, sub, event, hit, vaultFound, newRow))
    case Subscribe(subscription) => w.(subs := w.subs + [subscription])
    case StripeMoves(sub, status) => w.(subs := w.subs[sub := w.subs[sub].(status := status)])
  }

  predicate IsRun(w: World, steps: seq<Step>)
    decreases |steps|
  {
    steps == [] || (Possible(w, steps[0]) && IsRun(Next(w, steps[0]), steps[1..]))
  }

  function Run(w: World, steps: seq<Step>): World
    requires IsRun(w, steps)
    decreases |steps|
  {
    if steps == [] then w else Run(Next(w, steps[0]), steps[1..])
  }

  // The donation can rely on every step of the run.
  predicate IsFair(w: World, steps: seq<Step>, job: Job)
    requires IsRun(w, steps)
    decreases |steps|
  {
    steps == [] || (Allowed(w, steps[0], job) && IsFair(Next(w, steps[0]), steps[1..], job))
  }

  // ---- the invariant ----

  // The external ids that stand for this donation: the old one, marked or not, and the successors'.
  predicate StandsForJob(w: World, job: Job, ext: ExtId) {
    match ext
    case Plain(n) => n == job.old' || IsSuccessor(w, job, n)
    case Converting(n) => n == job.old'
  }

  predicate IsBound(w: World, job: Job) {
    job.row in w.rows && w.rows[job.row].ext.Plain? && IsSuccessor(w, job, w.rows[job.row].ext.id)
  }

  // The successors are live, for the donor and campaign of the old subscription, at the new price.
  ghost predicate SuccessorsLive(w: World, job: Job)
    requires job.old' < |w.subs|
  {
    forall n: nat :: IsSuccessor(w, job, n) ==> IsLive(w.subs[n], w.subs[job.old'], job)
  }

  predicate IsLive(sub: Subscription, before: Subscription, job: Job) {
    && sub.status != CANCELED && sub.price == Some(Price(job.currency, Some(job.amount)))
    && sub.campaign == before.campaign && sub.person == before.person && !IsConversionComment(sub.comment)
  }

  // The record as it was, up to its id and its status, which is canceled only if it was.
  predicate AsBefore(row: Recurring, before: Recurring) {
    row == before.(ext := row.ext, status := row.status) && (row.status == Canceled ==> before.status == Canceled)
  }

  // Exactly one row stands for the donation. Until it is bound it is the row of before; once bound it has
  // the target currency and the converted amount and is not canceled.
  predicate OneRow(w: World, job: Job) {
    && job.row in w.rows
    && StandsForJob(w, job, w.rows[job.row].ext)
    && (forall r :: r in w.rows && r != job.row ==> !StandsForJob(w, job, w.rows[r].ext))
    && (if IsBound(w, job) then
          w.rows[job.row].currency == job.currency && w.rows[job.row].amount == job.amount
          && w.rows[job.row].person == job.before.person && w.rows[job.row].status != Canceled
        else AsBefore(w.rows[job.row], job.before))
  }

  // Attempts on this subscription create and bind its successors; the others have nothing to do with it.
  predicate AttemptFits(w: World, job: Job, t: Attempt) {
    && t.on < |w.subs|
    && if t.on == job.old' then
         t.currency == job.currency && t.amount == job.amount
         && (t.phase.ToRebind? ==> IsSuccessor(w, job, t.phase.new'))
       else
         !IsSuccessor(w, job, t.on)
         && (t.phase.ToRebind? ==>
               t.phase.new' < |w.subs| && t.phase.new' != job.old' && !IsSuccessor(w, job, t.phase.new'))
  }

  ghost predicate Inv(w: World, job: Job) {
    && job.old' < |w.subs| && !IsSuccessor(w, job, job.old')
    && (forall r :: r in w.rows && w.rows[r].ext.Plain? ==> w.rows[r].ext.id < |w.subs|)
    && (forall a :: a in w.attempts ==> AttemptFits(w, job, w.attempts[a]))
    && SuccessorsLive(w, job)
    && OneRow(w, job)
  }

  // Before the first attempt.
  ghost predicate Untouched(w: World, job: Job) {
    && job.old' < |w.subs| && w.attempts == map[]
    && (forall n: nat :: n < |w.subs| ==> w.subs[n].original != Some(job.old'))
    && (forall r :: r in w.rows && w.rows[r].ext.Plain? ==> w.rows[r].ext.id < |w.subs|)
    && job.row in w.rows && w.rows[job.row] == job.before && job.before.ext == Plain(job.old')
    && (forall r :: r in w.rows && r != job.row ==>
          w.rows[r].ext != Plain(job.old') && w.rows[r].ext != Converting(job.old'))
  }

  lemma UntouchedIsInv(w: World, job: Job)
    requires Untouched(w, job)
    ensures Inv(w, job)
  {
  }

  // Appending a subscription changes which ids stand for the job only at the new id.
  lemma AppendKeepsInv(w: World, job: Job, sub: Subscription)
    requires Inv(w, job)
    requires sub.original == Some(job.old') ==> sub == Successor(w.subs[job.old'], job.old', job.currency, job.amount)
    ensures Inv(w.(subs := w.subs + [sub]), job)
  {
    var w' := w.(subs := w.subs + [sub]);
    assert forall n: nat :: n < |w.subs| ==> w'.subs[n] == w.subs[n];
  }

  // A webhook about a subscription that does not stand for the donation leaves its record alone.
  lemma ForeignWebhookKeepsInv(w: World, step: Step, job: Job)
    requires step.Webhook? && Inv(w, job) && Possible(w, step)
    requires step.sub != job.old' && !IsSuccessor(w, job, step.sub)
    ensures Inv(Next(w, step), job)
  {
    ForeignWebhookRows(w.rows, step);
    assert step.hit.Some? ==> step.hit.value != job.row;
  }

  // It writes at most one row, under the subscription's id.
  lemma ForeignWebhookRows(rows: Rows, step: Step)
    requires step.Webhook? && FoundBy(rows, Plain(step.sub), step.hit) && step.newRow !in rows
    ensures var rows' := RowsAfterHook(rows, step.hook, step.sub, step.event, step.hit, step.vaultFound, step.newRow);
            rows' == rows
            || exists r :: r in rows' && rows' == rows[r := rows'[r]] && rows'[r].ext == Plain(step.sub)
                           && r == step.hit.GetOr(step.newRow)
  {
  }

  // One about a subscription whose id the record carries sets the record's status, or nothing.
  lemma WebhookOnTime(w: World, step: Step, job: Job)
    requires step.Webhook? && Inv(w, job) && Possible(w, step) && Carries(w, job, step.sub)
    ensures var rows, rows' := w.rows, Next(w, step).rows;
            && (rows' == rows || rows'
                == UpdateStatus(rows, job.row, String2RecurringDonationStatus(step.event.status)))
            && (Cancels(step.hook, step.event) ==> rows'[job.row].status == Canceled)
            && (!Cancels(step.hook, step.event) && rows[job.row].status != Canceled ==>
                rows'[job.row].status != Canceled)
  {
    assert step.hit == Some(job.row);
  }

  // A late one about a subscription that stands for the donation adds a record, if complete, or does nothing.
  lemma WebhookTooLate(w: World, step: Step, job: Job)
    requires step.Webhook? && Inv(w, job) && Possible(w, step) && !Carries(w, job, step.sub)
    requires step.sub == job.old' || IsSuccessor(w, job, step.sub)
    ensures var rows, rows' := w.rows, Next(w, step).rows;
            if step.hook != DeletedHook && IsComplete(step.event, step.vaultFound)
            then rows'.Keys == rows.Keys + {step.newRow} && rows'[step.newRow].ext == Plain(step.sub)
            else rows' == rows
  {
    assert step.hit == None;
  }

  // A webhook keeps the invariant exactly if it is harmless.
  lemma HarmlessExactly(w: World, step: Step, job: Job)
    requires step.Webhook? && Inv(w, job) && Possible(w, step)
    ensures Inv(Next(w, step), job) <==> Allowed(w, step, job)
  {
    if step.sub == job.old' || IsSuccessor(w, job, step.sub) {
      if Carries(w, job, step.sub) {
        WebhookOnTime(w, step, job);
      } else {
        WebhookTooLate(w, step, job);
      }
    } else {
      ForeignWebhookKeepsInv(w, step, job);
    }
  }

  lemma MarkKeepsInv(w: World, step: Step, job: Job)
    requires step.MarkRow? && Inv(w, job) && Allowed(w, step, job)
    ensures Inv(Next(w, step), job)
  {
    assert AttemptFits(w, job, w.attempts[step.a]);
  }

  lemma BindKeepsInv(w: World, step: Step, job: Job)
    requires step.BindRow? && Inv(w, job) && Allowed(w, step, job)
    ensures Inv(Next(w, step), job)
  {
    assert AttemptFits(w, job, w.attempts[step.a]);
  }

  lemma CreateKeepsInv(w: World, step: Step, job: Job)
    requires step.Create? && Inv(w, job) && Allowed(w, step, job)
    ensures Inv(Next(w, step), job)
  {
    var t := w.attempts[step.a];
    assert AttemptFits(w, job, t);
    AppendKeepsInv(w, job, Successor(w.subs[t.on], t.on, t.currency, t.amount));
  }

  lemma CancelKeepsInv(w: World, step: Step, job: Job)
    requires step.Cancel? && Inv(w, job) && Allowed(w, step, job)
    ensures Inv(Next(w, step), job)
  {
    assert AttemptFits(w, job, w.attempts[step.a]);
    assert forall n: nat :: n < |w.subs| ==> Next(w, step).subs[n].original == w.subs[n].original;
  }

  lemma MoveKeepsInv(w: World, step: Step, job: Job)
    requires step.StripeMoves? && Inv(w, job) && Allowed(w, step, job)
    ensures Inv(Next(w, step), job)
  {
    assert forall n: nat :: n < |w.subs| ==> Next(w, step).subs[n].original == w.subs[n].original;
  }

  lemma StepKeepsInv(w: World, step: Step, job: Job)
    requires Inv(w, job) && Allowed(w, step, job)
    ensures Inv(Next(w, step), job)
  {
    match step
    case MarkRow(_, _, _) => MarkKeepsInv(w, step, job);
    case BindRow(_, _, _) => BindKeepsInv(w, step, job);
    case Create(_) => CreateKeepsInv(w, step, job);
    case Cancel(_) => CancelKeepsInv(w, step, job);
    case StripeMoves(_, _) => MoveKeepsInv(w, step, job);
    case Subscribe(subscription) => AppendKeepsInv(w, job, subscription);
    case Webhook(_, _, _, _, _, _) => HarmlessExactly(w, step, job);
    case _ =>
  }

  // ---- safety ----

  lemma {:induction false} RunKeepsInv(w: World, steps: seq<Step>, job: Job)
    requires Inv(w, job) && IsRun(w, steps) && IsFair(w, steps, job)
    ensures Inv(Run(w, steps), job)
    decreases |steps|
  {
    if steps != [] {
      StepKeepsInv(w, steps[0], job);
      RunKeepsInv(Next(w, steps[0]), steps[1..], job);
    }
  }

  // The donation has exactly one record. It is not canceled unless it was, and it is either the record of
  // before, under its old id or the mark, or bound to a live successor with the target currency and the
  // converted amount.
  ghost predicate IsSafe(w: World, job: Job) {
    && job.row in w.rows
    && (forall r :: r in w.rows && r != job.row ==> !StandsForJob(w, job, w.rows[r].ext))
    && (job.before.status != Canceled ==> w.rows[job.row].status != Canceled)
    && ((w.rows[job.row].ext in {Plain(job.old'), Converting(job.old')} && AsBefore(w.rows[job.row], job.before))
        || BoundToLive(w, job))
  }

  // The record carries the id of a live successor, its currency and its amount, and is the same donor's.
  predicate BoundToLive(w: World, job: Job) {
    && job.row in w.rows
    && var row := w.rows[job.row];
    && row.ext.Plain? && IsSuccessor(w, job, row.ext.id)
    && job.old' < |w.subs| && IsLive(w.subs[row.ext.id], w.subs[job.old'], job)
    && row.currency == job.currency && row.amount == job.amount && row.person == job.before.person
    && row.status != Canceled
  }

  // Under every interleaving of attempts on any subscriptions, crashes and webhooks that the donation can
  // rely on.
  lemma FairRunIsSafe(w: World, steps: seq<Step>, job: Job)
    requires Untouched(w, job) && IsRun(w, steps) && IsFair(w, steps, job)
    ensures IsSafe(Run(w, steps), job)
  {
    UntouchedIsInv(w, job);
    RunKeepsInv(w, steps, job);
  }

  // ---- the conversion's own cancellation ----

  // The old subscription is not canceled, or a conversion has canceled it.
  predicate CanceledByConversion(w: World, job: Job)
    requires job.old' < |w.subs|
  {
    w.subs[job.old'].status == CANCELED ==> IsConversionComment(w.subs[job.old'].comment)
  }

  // As Allowed, but nothing is asked of deletions: instead, nobody else cancels the subscription.
  predicate Undisturbed(w: World, step: Step, job: Job) {
    && Possible(w, step)
    && match step
       case Webhook(hook, _, _, _, _, _) => hook == DeletedHook || Allowed(w, step, job)
       case StripeMoves(sub, status) => sub == job.old' || IsSuccessor(w, job, sub) ==> status != CANCELED
       case _ => Allowed(w, step, job)
  }

  // Then no deletion that Stripe sends does harm: one of the old subscription is the conversion's own, and
  // the successors are not deleted.
  lemma UndisturbedIsAllowed(w: World, step: Step, job: Job)
    requires Inv(w, job) && CanceledByConversion(w, job) && Undisturbed(w, step, job)
    ensures Allowed(w, step, job) && CanceledByConversion(Next(w, step), job)
  {
    if step.Cancel? && w.subs[w.attempts[step.a].on].status != CANCELED {
      CancellationIsRecognised(w.subs, w.attempts[step.a].on, w.attempts[step.a].currency);
    }
  }

  predicate IsUndisturbed(w: World, steps: seq<Step>, job: Job)
    requires IsRun(w, steps)
    decreases |steps|
  {
    steps == [] || (Undisturbed(w, steps[0], job) && IsUndisturbed(Next(w, steps[0]), steps[1..], job))
  }

  lemma {:induction false} UndisturbedIsFair(w: World, steps: seq<Step>, job: Job)
    requires Inv(w, job) && CanceledByConversion(w, job) && IsRun(w, steps) && IsUndisturbed(w, steps, job)
    ensures IsFair(w, steps, job)
    decreases |steps|
  {
    if steps != [] {
      UndisturbedIsAllowed(w, steps[0], job);
      StepKeepsInv(w, steps[0], job);
      UndisturbedIsFair(Next(w, steps[0]), steps[1..], job);
    }
  }

  // Whatever attempts, crashes and webhooks come together, all deletion events that Stripe may send
  // included, the donation is safe: no cancellation of the conversion's own ever cancels its record.
  lemma ConversionIsSafe(w: World, steps: seq<Step>, job: Job)
    requires Untouched(w, job) && CanceledByConversion(w, job) && IsRun(w, steps) && IsUndisturbed(w, steps, job)
    ensures IsSafe(Run(w, steps), job)
  {
    UntouchedIsInv(w, job);
    UndisturbedIsFair(w, steps, job);
    FairRunIsSafe(w, steps, job);
  }

  // The comment a conversion has left is there for good.
  lemma {:induction false} CommentStays(w: World, steps: seq<Step>, n: SubId)
    requires IsRun(w, steps) && n < |w.subs| && IsConversionComment(w.subs[n].comment)
    ensures n < |Run(w, steps).subs| && IsConversionComment(Run(w, steps).subs[n].comment)
    decreases |steps|
  {
    if steps != [] {
      CommentStepStays(w, steps[0], n);
      CommentStays(Next(w, steps[0]), steps[1..], n);
    }
  }

  lemma CommentStepStays(w: World, step: Step, n: SubId)
    requires Possible(w, step) && n < |w.subs| && IsConversionComment(w.subs[n].comment)
    ensures n < |Next(w, step).subs| && IsConversionComment(Next(w, step).subs[n].comment)
  {
    if step.Cancel? && w.subs[n].status != CANCELED {
      CancellationIsRecognised(w.subs, n, w.attempts[step.a].currency);
    }
  }

  // From any state and over any run, fair or not: once an attempt has canceled a subscription, no deletion
  // event of it changes a record.
  lemma OwnDeletionChangesNothing(w: World, a: nat, steps: seq<Step>, deletion: Step)
    requires Possible(w, Cancel(a)) && w.subs[w.attempts[a].on].status != CANCELED
    requires IsRun(Next(w, Cancel(a)), steps)
    requires deletion.Webhook? && deletion.hook == DeletedHook && deletion.sub == w.attempts[a].on
    requires Possible(Run(Next(w, Cancel(a)), steps), deletion)
    ensures Next(Run(Next(w, Cancel(a)), steps), deletion) == Run(Next(w, Cancel(a)), steps)
  {
    CancellationIsRecognised(w.subs, w.attempts[a].on, w.attempts[a].currency);
    CommentStays(Next(w, Cancel(a)), steps, w.attempts[a].on);
  }

  // A deletion of the old subscription that Stripe may send keeps the invariant exactly if a conversion
  // canceled it, the record no longer carries it or was canceled before, or it names no campaign.
  lemma DeletionIsHarmlessExactly(w: World, deletion: Step, job: Job)
    requires Inv(w, job) && Possible(w, deletion)
    requires deletion.Webhook? && deletion.hook == DeletedHook && deletion.sub == job.old'
    ensures Inv(Next(w, deletion), job)
       <==> var old' := w.subs[job.old'];
            IsConversionComment(old'.comment) || !Carries(w, job, job.old') || job.before.status == Canceled
            || !IsGiven(old'.campaign)
  {
    HarmlessExactly(w, deletion, job);
  }

  // A bound record follows its successor: when that is canceled by somebody, its deletion cancels the record.
  lemma SuccessorsDeletionCancels(w: World, deletion: Step, job: Job)
    requires Inv(w, job) && IsBound(w, job) && IsGiven(w.subs[job.old'].campaign)
    requires deletion.Webhook? && deletion.hook == DeletedHook && deletion.sub == w.rows[job.row].ext.id
    requires Possible(Next(w, StripeMoves(deletion.sub, CANCELED)), deletion)
    ensures Next(Next(w, StripeMoves(deletion.sub, CANCELED)), deletion).rows
         == w.rows[job.row := w.rows[job.row].(status := Canceled)]
  {
    var canceled := Next(w, StripeMoves(deletion.sub, CANCELED));
    assert canceled.subs[deletion.sub].campaign == w.subs[job.old'].campaign;
    assert deletion.hit == Some(job.row);
  }

  // Marking takes the record away from the events of the old subscription, and leaves it else as it was.
  lemma MarkHidesTheRecord(w: World, step: Step, job: Job)
    requires step.MarkRow? && Inv(w, job) && Possible(w, step) && w.attempts[step.a].on == job.old'
    ensures !Carries(Next(w, step), job, job.old')
    ensures Carries(w, job, job.old') ==>
              Next(w, step).rows == w.rows[job.row := w.rows[job.row].(ext := Converting(job.old'))]
    ensures !Carries(w, job, job.old') ==> Next(w, step).rows == w.rows
  {
    assert step.plain.Some? ==> step.plain.value == job.row;
    assert step.converting.Some? ==> step.converting.value == job.row;
  }

  // The record shows the subscription: its id, its donor, its amount, its currency if it is a known one.
  predicate Mirrors(row: Recurring, n: SubId, sub: Subscription) {
    && row.ext == Plain(n) && sub.person == Some(row.person)
    && sub.price.Some? && sub.price.value.unitAmount == Some(row.amount)
    && (sub.price.value.currency in {"BGN", "EUR", "USD"} ==> row.currency == sub.price.value.currency)
  }

  // A created event adds one record, which shows the subscription, exactly if no record carries its id and
  // the event is complete.
  lemma CreatedEventMirrorsExactly(w: World, step: Step)
    requires Possible(w, step) && step.Webhook? && step.hook == CreatedHook
    ensures var rows, rows' := w.rows, Next(w, step).rows;
            if step.hit.None? && IsComplete(step.event, step.vaultFound)
            then && rows' == rows[step.newRow := rows'[step.newRow]]
                 && Mirrors(rows'[step.newRow], step.sub, w.subs[step.sub])
                 && rows'[step.newRow].status == String2RecurringDonationStatus(step.event.status)
            else rows' == rows
  {
    if step.hit.None? && IsComplete(step.event, step.vaultFound) {
      CurrenciesRead(step.event.price.value.currency);
    }
  }

  // A record that showed the old subscription shows the successor once it is bound.
  lemma BoundMirrorsSuccessor(w: World, job: Job)
    requires BoundToLive(w, job) && w.subs[job.old'].person == Some(job.before.person)
    ensures Mirrors(w.rows[job.row], w.rows[job.row].ext.id, w.subs[w.rows[job.row].ext.id])
  {
  }

  // The step ends an attempt on this donation's subscription.
  predicate Finishes(w: World, step: Step, job: Job) {
    step.BindRow? && step.a in w.attempts && w.attempts[step.a].on == job.old'
  }

  // The last step of an attempt binds the record, to the attempt's own successor if it was unbound.
  lemma BindingStep(w: World, step: Step, job: Job)
    requires Finishes(w, step, job) && Inv(w, job) && Allowed(w, step, job)
    ensures var w' := Next(w, step);
            && BoundToLive(w', job)
            && (!IsBound(w, job) ==>
                  w'.rows[job.row].ext == Plain(w.attempts[step.a].phase.new') && w'.rows[job.row].status == Active)
            && (forall r :: r in w'.rows && w'.rows[r].ext == w'.rows[job.row].ext ==> r == job.row)
  {
    assert AttemptFits(w, job, w.attempts[step.a]);
    StepKeepsInv(w, step, job);
  }

  lemma BoundStaysBound(w: World, step: Step, job: Job)
    requires Inv(w, job) && IsBound(w, job) && Allowed(w, step, job)
    ensures IsBound(Next(w, step), job)
    ensures Next(w, step).rows[job.row].ext == w.rows[job.row].ext
  {
    StepKeepsInv(w, step, job);
  }

  lemma {:induction false} BoundForGood(w: World, steps: seq<Step>, job: Job)
    requires Inv(w, job) && IsBound(w, job) && IsRun(w, steps) && IsFair(w, steps, job)
    ensures Inv(Run(w, steps), job) && IsBound(Run(w, steps), job)
    ensures Run(w, steps).rows[job.row].ext == w.rows[job.row].ext
    decreases |steps|
  {
    if steps != [] {
      StepKeepsInv(w, steps[0], job);
      BoundStaysBound(w, steps[0], job);
      BoundForGood(Next(w, steps[0]), steps[1..], job);
    }
  }

  // ---- retries ----

  predicate FinishesIn(w: World, steps: seq<Step>, job: Job)
    requires IsRun(w, steps)
    decreases |steps|
  {
    steps != [] && (Finishes(w, steps[0], job) || FinishesIn(Next(w, steps[0]), steps[1..], job))
  }

  // However earlier attempts crashed, once one attempt has run to its end the record is bound to a live
  // successor with the target currency and the converted amount, and stays so.
  lemma {:induction false} OneFinishedAttemptConverts(w: World, steps: seq<Step>, job: Job)
    requires Inv(w, job) && IsRun(w, steps) && IsFair(w, steps, job) && FinishesIn(w, steps, job)
    ensures BoundToLive(Run(w, steps), job)
    decreases |steps|
  {
    StepKeepsInv(w, steps[0], job);
    if Finishes(w, steps[0], job) {
      BindingStep(w, steps[0], job);
      BoundForGood(Next(w, steps[0]), steps[1..], job);
    } else {
      OneFinishedAttemptConverts(Next(w, steps[0]), steps[1..], job);
    }
  }

  ghost function Successors(w: World, job: Job): set<nat> {
    set n: nat | n < |w.subs| && IsSuccessor(w, job, n)
  }

  // How often the step creates a successor of this donation's subscription.
  function Creation(w: World, step: Step, job: Job): nat {
    if step.Create? && step.a in w.attempts && w.attempts[step.a].on == job.old' then 1 else 0
  }

  function Creations(w: World, steps: seq<Step>, job: Job): nat
    requires IsRun(w, steps)
    decreases |steps|
  {
    if steps == [] then 0 else Creation(w, steps[0], job) + Creations(Next(w, steps[0]), steps[1..], job)
  }

  lemma SuccessorsStep(w: World, step: Step, job: Job)
    requires Inv(w, job) && Allowed(w, step, job)
    ensures Successors(Next(w, step), job) == Successors(w, job)
        + (if Creation(w, step, job) == 1 then {|w.subs|} else {})
  {
  }

  // Every attempt that reached the creation leaves a live subscription in Stripe, so after a successful
  // retry the one the record is bound to is the only one exactly when no other attempt had reached it.
  lemma {:induction false} EveryCreationStaysLive(w: World, steps: seq<Step>, job: Job)
    requires Inv(w, job) && IsRun(w, steps) && IsFair(w, steps, job)
    ensures var w' := Run(w, steps);
            && |Successors(w', job)| == |Successors(w, job)| + Creations(w, steps, job)
            && forall n :: n in Successors(w', job) ==> w'.subs[n].status != CANCELED
    decreases |steps|
  {
    if steps != [] {
      SuccessorsStep(w, steps[0], job);
      StepKeepsInv(w, steps[0], job);
      EveryCreationStaysLive(Next(w, steps[0]), steps[1..], job);
    }
  }

  // A successful single conversion, spelled out.
  function SingleAttempt(a: nat, job: Job, converting: Option<RowId>, plain: Option<RowId>): seq<Step> {
    [Begin(a, job.old', job.currency, job.amount, false), Cancel(a), Create(a), BindRow(a, converting, plain)]
  }

  // The step takes w to w', and the donation allows it.
  predicate Takes(w: World, step: Step, w': World, job: Job) {
    Allowed(w, step, job) && Next(w, step) == w'
  }

  lemma RunFour(w: World, s1: Step, w1: World, s2: Step, w2: World, s3: Step, w3: World, s4: Step, w4: World, job: Job)
    requires Takes(w, s1, w1, job) && Takes(w1, s2, w2, job) && Takes(w2, s3, w3, job) && Takes(w3, s4, w4, job)
    ensures IsRun(w, [s1, s2, s3, s4]) && IsFair(w, [s1, s2, s3, s4], job) && Run(w, [s1, s2, s3, s4]) == w4
    ensures Creations(w, [s1, s2, s3, s4], job)
         == Creation(w, s1, job) + Creation(w1, s2, job) + Creation(w2, s3, job) + Creation(w3, s4, job)
  {
    RunOne(w3, s4, [], job);
    RunOne(w2, s3, [s4], job);
    RunOne(w1, s2, [s3, s4], job);
    RunOne(w, s1, [s2, s3, s4], job);
  }

  lemma RunOne(w: World, step: Step, rest: seq<Step>, job: Job)
    requires Allowed(w, step, job) && IsRun(Next(w, step), rest) && IsFair(Next(w, step), rest, job)
    ensures IsRun(w, [step] + rest) && IsFair(w, [step] + rest, job)
        && Run(w, [step] + rest) == Run(Next(w, step), rest)
    ensures Creations(w, [step] + rest, job) == Creation(w, step, job) + Creations(Next(w, step), rest, job)
  {
    assert ([step] + rest)[1..] == rest;
  }

  // A single attempt begun, and canceled, and created; the records are as they were.
  function Begun(w: World, job: Job, a: nat): World {
    w.(attempts := w.attempts[a := Underway(job.old', job.currency, job.amount, ToCancel)])
  }

  function Canceling(w: World, job: Job, a: nat): World
    requires job.old' < |w.subs|
  {
    World(CancelForConversion(w.subs, job.old', job.currency), w.rows,
          w.attempts[a := Underway(job.old', job.currency, job.amount, ToCreate)])
  }

  function Created(w: World, job: Job, a: nat): World
    requires job.old' < |w.subs|
  {
    var subs := CancelForConversion(w.subs, job.old', job.currency);
    World(subs + [Successor(subs[job.old'], job.old', job.currency, job.amount)], w.rows,
          w.attempts[a := Underway(job.old', job.currency, job.amount, ToRebind(|subs|))])
  }

  lemma AttemptTakes(w: World, job: Job, a: nat)
    requires job.old' < |w.subs| && a !in w.attempts
    ensures Takes(w, Begin(a, job.old', job.currency, job.amount, false), Begun(w, job, a), job)
    ensures Takes(Begun(w, job, a), Cancel(a), Canceling(w, job, a), job)
    ensures Takes(Canceling(w, job, a), Create(a), Created(w, job, a), job)
  {
  }

  lemma AttemptCreates(w: World, job: Job, a: nat, last: Step, w': World)
    requires Inv(w, job) && a !in w.attempts && Takes(Created(w, job, a), last, w', job)
    ensures var steps := [Begin(a, job.old', job.currency, job.amount, false), Cancel(a), Create(a), last];
            && IsRun(w, steps) && IsFair(w, steps, job) && Run(w, steps) == w'
            && Creations(w, steps, job) == 1 + Creation(Created(w, job, a), last, job)
    ensures Inv(Created(w, job, a), job)
  {
    var begin := Begin(a, job.old', job.currency, job.amount, false);
    AttemptTakes(w, job, a);
    StepKeepsInv(w, begin, job);
    StepKeepsInv(Begun(w, job, a), Cancel(a), job);
    StepKeepsInv(Canceling(w, job, a), Create(a), job);
    RunFour(w, begin, Begun(w, job, a), Cancel(a), Canceling(w, job, a), Create(a), Created(w, job, a), last, w', job);
  }

  lemma {:induction false} RunsAppend(w: World, first: seq<Step>, second: seq<Step>)
    requires IsRun(w, first) && IsRun(Run(w, first), second)
    ensures IsRun(w, first + second) && Run(w, first + second) == Run(Run(w, first), second)
    decreases |first|
  {
    if first == [] {
      assert [] + second == second;
    } else {
      RunsAppend(Next(w, first[0]), first[1..], second);
      assert (first + second)[1..] == first[1..] + second;
    }
  }

  lemma {:induction false} RunAppend(w: World, first: seq<Step>, second: seq<Step>, job: Job)
    requires IsRun(w, first) && IsFair(w, first, job) && IsRun(Run(w, first), second)
        && IsFair(Run(w, first), second, job)
    ensures IsRun(w, first + second) && IsFair(w, first + second, job)
        && Run(w, first + second) == Run(Run(w, first), second)
    decreases |first|
  {
    if first == [] {
      assert [] + second == second;
    } else {
      RunAppend(Next(w, first[0]), first[1..], second, job);
      assert (first + second)[1..] == first[1..] + second;
    }
  }

  // From any state that crashed or still unfinished attempts have left.
  lemma RetryConverts(w: World, job: Job, a: nat, converting: Option<RowId>, plain: Option<RowId>)
    requires Inv(w, job) && a !in w.attempts
    requires FoundBy(w.rows, Converting(job.old'), converting) && FoundBy(w.rows, Plain(job.old'), plain)
    ensures IsRun(w, SingleAttempt(a, job, converting, plain))
        && IsFair(w, SingleAttempt(a, job, converting, plain), job)
    ensures var w' := Run(w, SingleAttempt(a, job, converting, plain));
            && BoundToLive(w', job) && w'.attempts == w.attempts
            && job.old' < |w'.subs| && w'.subs[job.old'].status == CANCELED
            && (IsBound(w, job) ==> w'.rows == w.rows)
    ensures Creations(w, SingleAttempt(a, job, converting, plain), job) == 1
  {
    var created, last := Created(w, job, a), BindRow(a, converting, plain);
    AttemptCreates(w, job, a, last, Next(created, last));
    BindingStep(created, last, job);
  }

  // ---- several donations at once ----

  // Any number of donations, converted side by side by attempts that interleave at will, each stay in
  // order, and every one an attempt has finished is bound to a live successor.
  lemma SideBySide(w: World, steps: seq<Step>, jobs: iset<Job>)
    requires IsRun(w, steps) && forall job :: job in jobs ==> Inv(w, job) && IsFair(w, steps, job)
    ensures forall job :: job in jobs ==>
              Inv(Run(w, steps), job) && (FinishesIn(w, steps, job) ==> BoundToLive(Run(w, steps), job))
  {
    forall job | job in jobs
      ensures Inv(Run(w, steps), job) && (FinishesIn(w, steps, job) ==> BoundToLive(Run(w, steps), job))
    {
      RunKeepsInv(w, steps, job);
      if FinishesIn(w, steps, job) { OneFinishedAttemptConverts(w, steps, job); }
    }
  }

  // A donation allows every attempt on a subscription that does not stand for it.
  lemma ForeignAttemptIsAllowed(w: World, step: Step, job: Job)
    requires Possible(w, step) && !step.Webhook? && !step.Subscribe? && !step.StripeMoves?
    requires step.Begin? ==> step.on != job.old' && !IsSuccessor(w, job, step.on)
    ensures Allowed(w, step, job)
  {
  }

  // ---- exactly what the assumptions on the environment rule out ----

  // More than one record stands for the donation.
  predicate HasTwoRecords(w: World, job: Job) {
    exists r :: r in w.rows && r != job.row && StandsForJob(w, job, w.rows[r].ext)
  }

  // Delivered once the record no longer carries the old id, a created or updated event of the old
  // subscription leaves the donation with two records exactly when it is complete.
  lemma LateEventAddsARecordExactly(w: World, job: Job, hook: Hook, event: Subscription, vaultFound: bool,
                                    newRow: RowId)
    requires Inv(w, job) && w.rows[job.row].ext != Plain(job.old') && hook != DeletedHook && newRow !in w.rows
    ensures FoundBy(w.rows, Plain(job.old'), None)
    ensures var rows' := RowsAfterHook(w.rows, hook, job.old', event, None, vaultFound, newRow);
            HasTwoRecords(w.(rows := rows'), job) <==> IsComplete(event, vaultFound)
  {
    var rows' := RowsAfterHook(w.rows, hook, job.old', event, None, vaultFound, newRow);
    if IsComplete(event, vaultFound) {
      assert newRow in rows' && rows'[newRow].ext == Plain(job.old');
    } else {
      assert rows' == w.rows;
    }
  }

  // A deletion of the old subscription cancels the donation's record exactly when the record still
  // carries the old id and the event names a campaign but no conversion; it never touches another record.
  lemma DeletionTouchesTheRecordExactly(w: World, job: Job, event: Subscription, hit: Option<RowId>, newRow: RowId)
    requires Inv(w, job) && w.rows[job.row].status != Canceled
    requires FoundBy(w.rows, Plain(job.old'), hit) && event.status == CANCELED
    ensures var rows' := RowsAfterHook(w.rows, DeletedHook, job.old', event, hit, true, newRow);
            if Carries(w, job, job.old') && IsGiven(event.campaign) && !IsConversionComment(event.comment)
            then rows' == w.rows[job.row := w.rows[job.row].(status := Canceled)]
            else rows' == w.rows
  {
    assert hit.Some? ==> hit.value == job.row;
  }

  // A created or updated event of the old subscription, on time, never adds a record; it sets the
  // record's status exactly if it is an update with campaign and person, so it cancels the record exactly
  // if that status is canceled.
  lemma EventOnTimeSetsTheStatusExactly(w: World, job: Job, hook: Hook, event: Subscription, vaultFound: bool,
                                        hit: Option<RowId>, newRow: RowId)
    requires Inv(w, job) && Carries(w, job, job.old') && hook != DeletedHook && FoundBy(w.rows, Plain(job.old'), hit)
    ensures var rows' := RowsAfterHook(w.rows, hook, job.old', event, hit, vaultFound, newRow);
            if hook == UpdatedHook && IsGiven(event.campaign) && IsGiven(event.person)
            then rows' == w.rows[job.row := w.rows[job.row].(status := String2RecurringDonationStatus(event.status))]
            else rows' == w.rows
  {
    assert hit == Some(job.row);
  }
}
