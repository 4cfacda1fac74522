// Single-use payment sessions (apps/api/src/iris-pay/services/payment-session.service.ts). Times of the
// clock are milliseconds; a token's exp is in seconds, as in section 4.1.4 of RFC 7519.
module PaymentSessions {
  import opened Wrappers

  datatype SessionStep = InitialSession | PaymentSessionCreated

  // The payload of a token whose signature verifies. Either claim may be absent.
  datatype Payload = Payload(step: SessionStep, jti: Option<string>, exp: Option<int>)

  const SESSION_TTL_SECONDS := 5 * 60

  function Issue(step: SessionStep, jti: string, now: nat): Payload {
    Payload(step, Some(jti), Some(now / 1000 + SESSION_TTL_SECONDS))
  }

  // A verified token is refused once its exp has come; a token without exp never expires.
  function Validate(token: Option<Payload>, expected: SessionStep, now: nat): Result<Payload> {
    if token.None? then Failure(Unauthorized)
    else if token.value.exp.Some? && now / 1000 >= token.value.exp.value then Failure(Unauthorized)
    else if token.value.step != expected then Failure(Unauthorized)
    else Success(token.value)
  }

  // A token issued for a step is good for that step alone, until five minutes have passed on the clock of
  // whole seconds.
  lemma TokenLivesFiveMinutes(step: SessionStep, expected: SessionStep, jti: string, issued: nat, now: nat)
    ensures Validate(Some(Issue(step, jti, issued)), expected, now)
         == if step == expected && now / 1000 < issued / 1000 + 300 then Success(Issue(step, jti, issued))
            else Failure(Unauthorized)
    ensures Validate(None, expected, now) == Failure(Unauthorized)
  {
  }

  // Consumed tokens: jti to the time their row expires.
  type Rows = map<string, int>

  function Consume(rows: Rows, payload: Payload): Result<Rows> {
    if payload.jti == None || payload.jti == Some("") then Failure(Unauthorized)
    else if payload.exp == None || payload.exp == Some(0) then Failure(Unauthorized)
    else if payload.jti.value in rows then Failure(Unauthorized)
    else Success(rows[payload.jti.value := payload.exp.value * 1000])
  }

  // A consumption is accepted exactly if the token names itself and its expiry and has no row; the row it
  // gets expires with it.
  lemma ConsumedExactly(rows: Rows, payload: Payload)
    ensures Consume(rows, payload).Success?
       <==> payload.jti !in {None, Some("")} && payload.exp !in {None, Some(0)} && payload.jti.value !in rows
    ensures Consume(rows, payload).Failure? ==> Consume(rows, payload).error == Unauthorized
    ensures Consume(rows, payload).Success? ==>
              Consume(rows, payload).value == rows[payload.jti.value := 1000 * payload.exp.value]
  {
  }

  function Purge(rows: Rows, now: nat): Rows {
    map jti | jti in rows && !(rows[jti] < now) :: rows[jti]
  }

  lemma PurgedCount(rows: Rows, now: nat)
    ensures Purge(rows, now) == rows - set jti | jti in rows && rows[jti] < now
    ensures |Purge(rows, now)| + |set jti | jti in rows && rows[jti] < now| == |rows|
  {
    var expired := set jti | jti in rows && rows[jti] < now;
    assert Purge(rows, now).Keys == rows.Keys - expired;
    assert |rows.Keys - expired| + |expired| == |rows.Keys| by {
      assert rows.Keys == (rows.Keys - expired) + expired;
    }
    assert |Purge(rows, now)| == |Purge(rows, now).Keys| && |rows| == |rows.Keys|;
  }

  // ---- runs of any number of requests ----

  // One consumption, and whether its checkout went on to create a payment.
  datatype Use = Use(jti: string, paid: bool)

  // `passed` holds the payloads that some request has validated; `log` the consumptions so far.
  datatype Sessions = Sessions(rows: Rows, now: nat, issued: set<Payload>, passed: set<Payload>, log: seq<Use>)

  datatype Step =
    | Tick(elapsed: nat)
    | Start(step: SessionStep, jti: string)
    | Check(payload: Payload)
    | Spend(payload: Payload, checkoutWorks: bool)
    | Sweep

  predicate Enabled(s: Sessions, step: Step) {
    match step
    case Start(_, jti) => jti != "" && forall p :: p in s.issued ==> p.jti != Some(jti)
    case Check(payload) => payload in s.issued
    case Spend(payload, _) => payload in s.passed
    case _ => true
  }

  function After(s: Sessions, step: Step): Sessions {
    match step
    case Tick(elapsed) => s.(now := s.now + elapsed)
    case Start(kind, jti) => s.(issued := s.issued + {Issue(kind, jti, s.now)})
    case Check(payload) =>
      if Validate(Some(payload), InitialSession, s.now).Success? then s.(passed := s.passed + {payload}) else s
    case Spend(payload, works) =>
      (match Consume(s.rows, payload)
       case Failure(_) => s
       case Success(rows') => s.(rows := rows', log := s.log + [Use(payload.jti.value, works)]))
    case Sweep => s.(rows := Purge(s.rows, s.now))
  }

  predicate IsRun(s: Sessions, steps: seq<Step>)
    decreases |steps|
  {
    steps == [] || (Enabled(s, steps[0]) && IsRun(After(s, steps[0]), steps[1..]))
  }

  function Run(s: Sessions, steps: seq<Step>): Sessions
    decreases |steps|
  {
    if steps == [] then s else Run(After(s, steps[0]), steps[1..])
  }

  const START := Sessions(map[], 0, {}, {}, [])

  predicate Used(s: Sessions, jti: string) {
    exists k :: 0 <= k < |s.log| && s.log[k].jti == jti
  }

  predicate HasToken(tokens: set<Payload>, jti: string) {
    exists p :: p in tokens && p.jti == Some(jti)
  }

  // Every issued token is complete and unique, a row expires with its token, and a used token's row is
  // there until the token has expired.
  ghost predicate Inv(s: Sessions) {
    && (forall p :: p in s.issued ==> p.jti.Some? && p.jti.value != "" && p.exp.Some? && p.exp.value > 0)
    && (forall p, q :: p in s.issued && q in s.issued && p.jti == q.jti ==> p == q)
    && s.passed <= s.issued
    && (forall p :: p in s.issued && p.jti.value in s.rows ==> s.rows[p.jti.value] == p.exp.value * 1000)
    && (forall j :: j in s.rows ==> HasToken(s.issued, j))
    && (forall k :: 0 <= k < |s.log| ==> HasToken(s.passed, s.log[k].jti))
    && (forall p :: p in s.issued && Used(s, p.jti.value) ==> p.jti.value in s.rows || s.now > p.exp.value * 1000)
  }

  lemma SpendKeepsInv(s: Sessions, payload: Payload, works: bool)
    requires Inv(s) && payload in s.passed
    ensures Inv(After(s, Spend(payload, works)))
  {
    var s' := After(s, Spend(payload, works));
    if s' != s {
      forall p | p in s'.issued && Used(s', p.jti.value)
        ensures p.jti.value in s'.rows || s'.now > p.exp.value * 1000
      {
        if p.jti.value != payload.jti.value {
          var k :| 0 <= k < |s'.log| && s'.log[k].jti == p.jti.value;
          assert s.log[k].jti == p.jti.value;
        }
      }
    }
  }

  lemma StartKeepsInv(s: Sessions, kind: SessionStep, jti: string)
    requires Inv(s) && Enabled(s, Start(kind, jti))
    ensures Inv(After(s, Start(kind, jti)))
  {
    var s' := After(s, Start(kind, jti));
    assert jti !in s.rows && !Used(s, jti);
    assert forall j :: Used(s', j) <==> Used(s, j);
  }

  lemma SweepKeepsInv(s: Sessions)
    requires Inv(s)
    ensures Inv(After(s, Sweep))
  {
    var s' := After(s, Sweep);
    forall p | p in s'.issued && Used(s', p.jti.value)
      ensures p.jti.value in s'.rows || s'.now > p.exp.value * 1000
    {
      assert Used(s, p.jti.value);
    }
  }

  lemma StepKeepsInv(s: Sessions, step: Step)
    requires Inv(s) && Enabled(s, step)
    ensures Inv(After(s, step))
  {
    match step
    case Spend(payload, works) => SpendKeepsInv(s, payload, works);
    case Start(kind, jti) => StartKeepsInv(s, kind, jti);
    case Tick(_) => assert forall j :: Used(After(s, step), j) <==> Used(s, j);
    case Check(_) => assert forall j :: Used(After(s, step), j) <==> Used(s, j);
    case Sweep => SweepKeepsInv(s);
  }

  // The request reaches the consumption no later than its token's expiry.
  predicate InTime(s: Sessions, step: Step) {
    step.Spend? && step.payload.exp.Some? ==> s.now <= step.payload.exp.value * 1000
  }

  predicate AllInTime(s: Sessions, steps: seq<Step>)
    decreases |steps|
  {
    steps == [] || (InTime(s, steps[0]) && AllInTime(After(s, steps[0]), steps[1..]))
  }

  // A used token is accepted again exactly when its row has been purged, and then it has expired.
  lemma AcceptedAgainOnlyAfterExpiry(s: Sessions, payload: Payload)
    requires Inv(s) && payload in s.passed && Used(s, payload.jti.value)
    ensures Consume(s.rows, payload).Success? <==> payload.jti.value !in s.rows
    ensures Consume(s.rows, payload).Success? ==> s.now > payload.exp.value * 1000
  {
  }

  predicate UsedOnce(s: Sessions) {
    forall a, b :: 0 <= a < b < |s.log| ==> s.log[a].jti != s.log[b].jti
  }

  // In every run whose requests consume their tokens in time, no jti is consumed twice, so no session
  // starts two payments. Every interleaving of sessions, requests, clock ticks and purges is covered.
  lemma {:induction false} SingleUse(s: Sessions, steps: seq<Step>)
    requires Inv(s) && UsedOnce(s) && IsRun(s, steps) && AllInTime(s, steps)
    ensures Inv(Run(s, steps)) && UsedOnce(Run(s, steps))
    decreases |steps|
  {
    if steps != [] {
      StepKeepsInv(s, steps[0]);
      if steps[0].Spend? && Used(s, steps[0].payload.jti.value) {
        AcceptedAgainOnlyAfterExpiry(s, steps[0].payload);
      }
      SingleUse(After(s, steps[0]), steps[1..]);
    }
  }

  // ---- exactly when a token is consumed twice ----

  function Elapsed(steps: seq<Step>): nat {
    if steps == [] then 0
    else Elapsed(steps[..|steps| - 1]) + (match steps[|steps| - 1] case Tick(elapsed) => elapsed case _ => 0)
  }

  // In this schedule two requests spend the same token, and a purge between them runs after its expiry.
  predicate HeldUp(steps: seq<Step>, i: int, j: int, k: int) {
    && 0 <= i < j < k < |steps|
    && steps[i].Spend? && steps[j].Sweep? && steps[k].Spend?
    && steps[i].payload.jti == steps[k].payload.jti
    && steps[k].payload.exp.Some? && Elapsed(steps[..j]) > steps[k].payload.exp.value * 1000
  }

  lemma {:induction false} RunOneMore(s: Sessions, steps: seq<Step>, n: nat)
    requires IsRun(s, steps) && n < |steps|
    ensures IsRun(s, steps[..n]) && IsRun(s, steps[..n + 1])
    ensures Enabled(Run(s, steps[..n]), steps[n])
    ensures Run(s, steps[..n + 1]) == After(Run(s, steps[..n]), steps[n])
    decreases n
  {
    if n > 0 {
      RunOneMore(After(s, steps[0]), steps[1..], n - 1);
      assert steps[..n][1..] == steps[1..][..n - 1] && steps[..n + 1][1..] == steps[1..][..n];
    } else {
      assert steps[..1][1..] == [];
    }
  }

  function Before(steps: seq<Step>, n: nat): Sessions
    requires n <= |steps|
  {
    Run(START, steps[..n])
  }

  lemma {:induction false} Reached(steps: seq<Step>, n: nat)
    requires IsRun(START, steps) && n <= |steps|
    ensures Inv(Before(steps, n)) && Before(steps, n).now == Elapsed(steps[..n])
    decreases n
  {
    if n > 0 {
      Reached(steps, n - 1);
      RunOneMore(START, steps, n - 1);
      StepKeepsInv(Before(steps, n - 1), steps[n - 1]);
      assert steps[..n][..n - 1] == steps[..n - 1];
    }
  }

  lemma {:induction false} LogOnlyGrows(steps: seq<Step>, m: nat, n: nat)
    requires IsRun(START, steps) && m <= n <= |steps|
    ensures Before(steps, m).log <= Before(steps, n).log && Before(steps, m).issued <= Before(steps, n).issued
    decreases n
  {
    if m < n {
      LogOnlyGrows(steps, m, n - 1);
      RunOneMore(START, steps, n - 1);
    }
  }

  lemma {:induction false} UsedWasSpent(steps: seq<Step>, n: nat, jti: string) returns (i: nat)
    requires IsRun(START, steps) && n <= |steps| && Used(Before(steps, n), jti)
    ensures i < n && steps[i].Spend? && steps[i].payload.jti == Some(jti)
    decreases n
  {
    RunOneMore(START, steps, n - 1);
    Reached(steps, n - 1);
    if Used(Before(steps, n - 1), jti) {
      i := UsedWasSpent(steps, n - 1, jti);
    } else {
      i := n - 1;
    }
  }

  // Only a purge takes a used token's row away.
  lemma GoneBefore(s: Sessions, step: Step, p: Payload)
    requires Inv(s) && Enabled(s, step) && p in After(s, step).passed && p.jti.Some?
    requires Used(After(s, step), p.jti.value) && p.jti.value !in After(s, step).rows
    requires step.Sweep? ==> p.jti.value !in s.rows
    ensures p in s.passed && Used(s, p.jti.value) && p.jti.value !in s.rows
  {
    var s' := After(s, step);
    var k :| 0 <= k < |s'.log| && s'.log[k].jti == p.jti.value;
    if step.Spend? && s' != s {
      assert p.jti != step.payload.jti;
    }
    assert k < |s.log| && s.log[k] == s'.log[k];
    if step.Check? {
      assert HasToken(s.passed, p.jti.value);
    }
  }

  // A used token's row is gone only if a purge ran after the token's expiry.
  lemma {:induction false} GoneWasPurged(steps: seq<Step>, n: nat, p: Payload) returns (i: nat, j: nat)
    requires IsRun(START, steps) && n <= |steps| && p in Before(steps, n).passed
    requires p.jti.Some? && Used(Before(steps, n), p.jti.value) && p.jti.value !in Before(steps, n).rows
    ensures i < j < n && steps[i].Spend? && steps[i].payload.jti == p.jti && steps[j].Sweep?
    ensures p.exp.Some? && Elapsed(steps[..j]) > p.exp.value * 1000
    decreases n
  {
    RunOneMore(START, steps, n - 1);
    Reached(steps, n - 1);
    Reached(steps, n);
    var s := Before(steps, n - 1);
    if steps[n - 1].Sweep? && p.jti.value in s.rows {
      j := n - 1;
      i := UsedWasSpent(steps, n - 1, p.jti.value);
    } else {
      GoneBefore(s, steps[n - 1], p);
      i, j := GoneWasPurged(steps, n - 1, p);
    }
  }

  lemma {:induction false} TwiceWasHeldUp(steps: seq<Step>, n: nat) returns (i: nat, j: nat, k: nat)
    requires IsRun(START, steps) && n <= |steps| && !UsedOnce(Before(steps, n))
    ensures k < n && HeldUp(steps, i, j, k)
    decreases n
  {
    RunOneMore(START, steps, n - 1);
    Reached(steps, n - 1);
    var s := Before(steps, n - 1);
    if !UsedOnce(s) {
      i, j, k := TwiceWasHeldUp(steps, n - 1);
    } else {
      k := n - 1;
      AcceptedAgainOnlyAfterExpiry(s, steps[k].payload);
      i, j := GoneWasPurged(steps, k, steps[k].payload);
    }
  }

  lemma {:induction false} SpentIsUsed(steps: seq<Step>, i: nat, n: nat)
    requires IsRun(START, steps) && i < n <= |steps| && steps[i].Spend?
    ensures steps[i].payload in Before(steps, n).issued
    ensures steps[i].payload.jti.Some? && Used(Before(steps, n), steps[i].payload.jti.value)
  {
    var jti := steps[i].payload.jti;
    RunOneMore(START, steps, i);
    Reached(steps, i);
    LogOnlyGrows(steps, i, n);
    LogOnlyGrows(steps, i + 1, n);
    var s, s' := Before(steps, i), Before(steps, i + 1);
    if jti.value in s.rows {
      SpentRowsAreUsed(steps, i, jti.value);
    } else {
      assert s'.log[|s.log|].jti == jti.value;
    }
    var k :| 0 <= k < |s'.log| && s'.log[k].jti == jti.value;
    assert Before(steps, n).log[k].jti == jti.value;
  }

  lemma {:induction false} SpentRowsAreUsed(steps: seq<Step>, n: nat, jti: string)
    requires IsRun(START, steps) && n <= |steps| && jti in Before(steps, n).rows
    ensures Used(Before(steps, n), jti)
    decreases n
  {
    if n > 0 {
      RunOneMore(START, steps, n - 1);
      var s, s' := Before(steps, n - 1), Before(steps, n);
      if jti in s.rows {
        SpentRowsAreUsed(steps, n - 1, jti);
        var k :| 0 <= k < |s.log| && s.log[k].jti == jti;
        assert s'.log[k].jti == jti;
      } else {
        assert s'.log[|s.log|].jti == jti;
      }
    }
  }

  // The purge takes the row of a token spent before and expired by then.
  lemma MissingAfterPurge(steps: seq<Step>, i: nat, j: nat, k: nat)
    requires IsRun(START, steps) && HeldUp(steps, i, j, k)
    ensures steps[k].payload.jti.Some? && steps[k].payload.jti.value !in Before(steps, j + 1).rows
  {
    SpentIsUsed(steps, i, j);
    SpentIsUsed(steps, k, k + 1);
    Reached(steps, j);
    Reached(steps, k + 1);
    LogOnlyGrows(steps, j, k + 1);
    RunOneMore(START, steps, j);
  }

  // A row that is missing stays so, until its token is consumed again.
  lemma StillMissing(s: Sessions, step: Step, jti: string)
    requires jti !in s.rows && Used(s, jti) && jti in After(s, step).rows
    ensures !UsedOnce(After(s, step))
  {
    var k :| 0 <= k < |s.log| && s.log[k].jti == jti;
    assert After(s, step).log[k].jti == After(s, step).log[|s.log|].jti;
  }

  lemma {:induction false} MissingOrTwice(steps: seq<Step>, i: nat, j: nat, k: nat, n: nat)
    requires IsRun(START, steps) && HeldUp(steps, i, j, k) && j < n <= k
    ensures steps[k].payload.jti.Some?
    ensures steps[k].payload.jti.value !in Before(steps, n).rows || !UsedOnce(Before(steps, n))
    decreases n
  {
    MissingAfterPurge(steps, i, j, k);
    if n > j + 1 {
      var s, jti := Before(steps, n - 1), steps[k].payload.jti.value;
      MissingOrTwice(steps, i, j, k, n - 1);
      RunOneMore(START, steps, n - 1);
      if jti !in s.rows {
        SpentIsUsed(steps, i, n - 1);
        if jti in Before(steps, n).rows { StillMissing(s, steps[n - 1], jti); }
      } else {
        TwiceStays(s, steps[n - 1]);
      }
    }
  }

  lemma TwiceStays(s: Sessions, step: Step)
    requires !UsedOnce(s)
    ensures !UsedOnce(After(s, step))
  {
    var a, b :| 0 <= a < b < |s.log| && s.log[a].jti == s.log[b].jti;
    assert After(s, step).log[a].jti == After(s, step).log[b].jti;
  }

  lemma HeldUpIsTwice(steps: seq<Step>, i: nat, j: nat, k: nat)
    requires IsRun(START, steps) && HeldUp(steps, i, j, k)
    ensures !UsedOnce(Run(START, steps))
  {
    var s, s' := Before(steps, k), Before(steps, k + 1);
    MissingOrTwice(steps, i, j, k, k);
    RunOneMore(START, steps, k);
    Reached(steps, k);
    SpentIsUsed(steps, i, k);
    LogOnlyGrows(steps, k, k + 1);
    LogOnlyGrows(steps, k + 1, |steps|);
    assert steps[..|steps|] == steps;
    if UsedOnce(s) {
      var m :| 0 <= m < |s.log| && s.log[m].jti == steps[k].payload.jti.value;
      assert s'.log[|s.log|].jti == s'.log[m].jti;
    }
  }

  // A token is consumed twice in exactly the runs in which two requests spend it with a purge between
  // them that runs after the token's expiry: told from the schedule alone.
  lemma SingleUseExactly(steps: seq<Step>)
    requires IsRun(START, steps)
    ensures UsedOnce(Run(START, steps)) <==> !exists i, j, k :: HeldUp(steps, i, j, k)
  {
    assert steps[..|steps|] == steps;
    if i, j, k :| HeldUp(steps, i, j, k) {
      HeldUpIsTwice(steps, i, j, k);
    } else if !UsedOnce(Run(START, steps)) {
      var i, j, k := TwiceWasHeldUp(steps, |steps|);
      assert false;
    }
  }

  // ---- the service ----

  // The table behind the service, and what the requests have done so far.
  class SessionStore {
    var rows: Rows
    ghost var history: Sessions

    ghost predicate Valid()
      reads this
    {
      && rows == history.rows && Inv(history)
      && forall jti :: jti in rows ==> Used(history, jti)
    }

    constructor ()
      ensures Valid() && history == START
    {
      rows := map[];
      history := START;
    }

    method CreateInitialSession(jti: string, now: nat) returns (token: Payload)
      requires Valid() && now >= history.now && Enabled(history, Start(InitialSession, jti))
      modifies this
      ensures Valid() && history == After(At(old(history), now), Start(InitialSession, jti))
      ensures token in history.issued && token !in old(history.issued) && token.jti == Some(jti)
    {
      token := Payload(InitialSession, Some(jti), Some(now / 1000 + SESSION_TTL_SECONDS));
      AtKeepsInv(history, now);
      StepKeepsInv(At(history, now), Start(InitialSession, jti));
      history := After(At(history, now), Start(InitialSession, jti));
      assert forall j :: Used(old(history), j) ==> Used(history, j);
    }

    // Tokens whose signature verifies are tokens that were issued.
    method ValidateSession(token: Option<Payload>, now: nat) returns (r: Result<Payload>)
      requires Valid() && now >= history.now && (token.Some? ==> token.value in history.issued)
      modifies this`history
      ensures Valid() && history.log == old(history.log)
      ensures r.Success? ==> Some(r.value) == token && r.value in history.passed
      ensures r.Success? <==> token.Some? && token.value.step == InitialSession
                              && token.value.exp.Some? && now / 1000 < token.value.exp.value
    {
      AtKeepsInv(history, now);
      history := At(history, now);
      if token.None? {
        return Failure(Unauthorized);
      }
      var payload := token.value;
      StepKeepsInv(history, Check(payload));
      history := After(history, Check(payload));
      assert forall j :: Used(old(history), j) ==> Used(history, j);
      if payload.exp.Some? && now / 1000 >= payload.exp.value {
        return Failure(Unauthorized);
      }
      if payload.step != InitialSession {
        return Failure(Unauthorized);
      }
      return Success(payload);
    }

    // In time, a token is accepted exactly if it was never consumed before. `paid` says whether the
    // checkout that follows creates a payment.
    method ConsumeSession(payload: Payload, now: nat, ghost paid: bool) returns (r: Result<()>)
      requires Valid() && now >= history.now && payload in history.passed
      modifies this
      ensures Valid() && history == After(At(old(history), now), Spend(payload, paid))
      ensures r.Success? <==> history.log != old(history.log)
      ensures now <= payload.exp.value * 1000 ==> (r.Success? <==> !Used(old(history), payload.jti.value))
      ensures now <= payload.exp.value * 1000 && UsedOnce(old(history)) ==> UsedOnce(history)
    {
      ghost var s := At(history, now);
      AtKeepsInv(history, now);
      StepKeepsInv(s, Spend(payload, paid));
      SpendRecords(s, payload, paid);
      history := After(s, Spend(payload, paid));
      if payload.jti == None || payload.jti == Some("") {
        return Failure(Unauthorized);
      }
      if payload.exp == None || payload.exp == Some(0) {
        return Failure(Unauthorized);
      }
      var expiresAt := payload.exp.value * 1000;
      if payload.jti.value in rows {
        return Failure(Unauthorized);
      }
      rows := rows[payload.jti.value := expiresAt];
      return Success(());
    }

    method PurgeExpiredSessions(now: nat) returns (count: nat)
      requires Valid() && now >= history.now
      modifies this
      ensures Valid() && history == After(At(old(history), now), Sweep)
      ensures rows == Purge(old(rows), now)
      ensures count == |old(rows)| - |rows|
    {
      var expired := set jti | jti in rows && rows[jti] < now;
      PurgedCount(rows, now);
      SweepRecords(history, now);
      count := |expired|;
      rows := rows - expired;
      history := After(At(history, now), Sweep);
    }
  }

  // The same sessions at a later time.
  function At(s: Sessions, now: nat): Sessions
    requires now >= s.now
  {
    After(s, Tick(now - s.now))
  }

  lemma AtKeepsInv(s: Sessions, now: nat)
    requires Inv(s) && now >= s.now
    ensures Inv(At(s, now)) && forall jti :: Used(At(s, now), jti) <==> Used(s, jti)
  {
    StepKeepsInv(s, Tick(now - s.now));
  }

  lemma SweepRecords(s: Sessions, now: nat)
    requires Inv(s) && now >= s.now
    ensures var s' := After(At(s, now), Sweep);
            && Inv(s') && s'.rows == Purge(s.rows, now)
            && forall j :: Used(s', j) <==> Used(s, j)
  {
    AtKeepsInv(s, now);
    StepKeepsInv(At(s, now), Sweep);
    assert After(At(s, now), Sweep).log == s.log;
  }

  lemma SpendRecords(s: Sessions, payload: Payload, paid: bool)
    requires Inv(s) && payload in s.passed
    ensures var s', jti := After(s, Spend(payload, paid)), payload.jti.value;
            && (s'.log != s.log <==> jti !in s.rows)
            && (jti !in s.rows && UsedOnce(s) && !Used(s, jti) ==> UsedOnce(s'))
            && (forall j :: Used(s, j) ==> Used(s', j))
            && (jti !in s.rows ==> Used(s', jti))
  {
    var s', jti := After(s, Spend(payload, paid)), payload.jti.value;
    forall j | Used(s, j)
      ensures Used(s', j)
    {
      var k :| 0 <= k < |s.log| && s.log[k].jti == j;
      assert s'.log[k].jti == j;
    }
    if jti !in s.rows {
      assert s'.log[|s.log|].jti == jti;
    }
  }

  // A token that validates at the moment it is consumed is consumed in time.
  lemma ValidIsInTime(s: Sessions, payload: Payload, works: bool)
    requires payload.exp.Some? && Validate(Some(payload), InitialSession, s.now).Success?
    ensures InTime(s, Spend(payload, works))
  {
  }

  // Validation and consumption are two steps of a request. When a request is held up between them past
  // the expiry and past a purge, its token is consumed a second time.
  lemma LateConsumptionRepeats()
    ensures var token := Issue(InitialSession, "a", 0);
            var steps := [Start(InitialSession, "a"), Check(token), Spend(token, true),
                          Tick(300001), Sweep, Spend(token, true)];
            && IsRun(START, steps)
            && Run(START, steps).log == [Use("a", true), Use("a", true)]
  {
    var token := Issue(InitialSession, "a", 0);
    assert token == Payload(InitialSession, Some("a"), Some(300));
    var s1 := After(START, Start(InitialSession, "a"));
    var s2 := After(s1, Check(token));
    var s3 := After(s2, Spend(token, true));
    var s4 := After(s3, Tick(300001));
    var s5 := After(s4, Sweep);
    var s6 := After(s5, Spend(token, true));
    assert s3.rows == map["a" := 300000];
    assert s5.rows == map[];
    RunSix(START, Start(InitialSession, "a"), Check(token), Spend(token, true), Tick(300001), Sweep,
           Spend(token, true));
  }

  lemma RunSix(s: Sessions, a: Step, b: Step, c: Step, d: Step, e: Step, f: Step)
    requires var s1 := After(s, a); var s2 := After(s1, b); var s3 := After(s2, c);
             var s4 := After(s3, d); var s5 := After(s4, e);
             Enabled(s, a) && Enabled(s1, b) && Enabled(s2, c) && Enabled(s3, d) && Enabled(s4, e) && Enabled(s5, f)
    ensures IsRun(s, [a, b, c, d, e, f])
    ensures Run(s, [a, b, c, d, e, f]) == After(After(After(After(After(After(s, a), b), c), d), e), f)
  {
    var s1 := After(s, a);
    var s2 := After(s1, b);
    var s3 := After(s2, c);
    var s4 := After(s3, d);
    var s5 := After(s4, e);
    RunOne(s5, f, []);
    RunOne(s4, e, [f]);
    RunOne(s3, d, [e, f]);
    RunOne(s2, c, [d, e, f]);
    RunOne(s1, b, [c, d, e, f]);
    RunOne(s, a, [b, c, d, e, f]);
  }

  lemma RunOne(s: Sessions, step: Step, rest: seq<Step>)
    requires Enabled(s, step) && IsRun(After(s, step), rest)
    ensures IsRun(s, [step] + rest) && Run(s, [step] + rest) == Run(After(s, step), rest)
  {
    assert ([step] + rest)[1..] == rest;
  }
}
