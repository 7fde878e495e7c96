/** What a server with a working credential promises: calls go to their handlers first, and an expired token is
    renewed without asking anybody. */
module ReauthWarm {
  import opened Wrappers
  import opened Reauth
  import opened ReauthInvariant
  import opened ReauthSafety
  import opened ReauthSingleFlight

  // ---------------------------------------------------------------------------
  // Handlers first
  // ---------------------------------------------------------------------------

  /** The startup probe or an earlier call has confirmed the credential. */
  predicate Warm(h: Shared) {
    h.preAuthenticated || h.authenticated
  }

  /** On the way to an authentication prompt without having tried the handler. */
  predicate Skipping(q: Request) {
    && q.calls == 0
    && ((q.pc.Free? && (q.pc.f.FreshSilent? || q.pc.f.SilentCas? || q.pc.f.SilentLog? || q.pc.f.AwaitLock?)) || q.pc.HoldsLock())
  }

  /** Between the two loads of the fresh-credential test, with the second still to fail. */
  predicate HalfTested(h: Shared, q: Request) {
    q.pc == Free(CheckAuth) && !h.authenticated
  }

  predicate Straight(h: Shared, q: Request) {
    !Skipping(q) && !HalfTested(h, q)
  }

  ghost predicate AllStraight(s: State) {
    Warm(s.shared) && forall r :: 0 <= r < |s.requests| ==> Straight(s.shared, s.requests[r])
  }

  lemma EdgeStraight(h: Shared, attempts: seq<Attempt>, r: nat, q: Request, c: Choice)
    requires CanMove(h, attempts, q, c) && Warm(h) && Straight(h, q) && CallsOk(q.pc, q.calls)
    ensures var edge := NextEdge(h, attempts, q, c);
            && Warm(PerformShared(h, r, attempts, edge.op))
            && Straight(PerformShared(h, r, attempts, edge.op), PerformLocal(h.defaultAuth, q, edge.op).(pc := edge.pc))
  {
  }

  lemma StepStraight(s: State, step: Step)
    requires Inv(s) && AllStraight(s) && Enabled(s, step) && !step.EntryAtomic?
    ensures AllStraight(Apply(s, step))
  {
    StepNeverTakesBack(s, step);
    if step.RequestStep? {
      assert RequestOk(s.shared, s.attempts, step.r, s.requests[step.r]);
      EdgeStraight(s.shared, s.attempts, step.r, s.requests[step.r], step.c);
    }
  }

  /** Once the credential is confirmed and no call is past or inside the fresh-credential test, no call ever
      probes, waits for the lock or re-authenticates before its handler has run, under any interleaving. */
  lemma {:induction false} WarmCallsHandlerFirst(s: State, run: seq<Step>)
    requires Inv(s) && AllStraight(s) && Fine(run) && Feasible(s, run)
    ensures AllStraight(Exec(s, run))
    decreases |run|
  {
    if run != [] {
      StepKeeps(s, run[0]);
      StepStraight(s, run[0]);
      WarmCallsHandlerFirst(Apply(s, run[0]), run[1..]);
    }
  }

  /** So it is from the start when the startup probe succeeds before the first call. */
  lemma ProbedServerCallsHandlerFirst(d: AccountAuth, run: seq<Step>, r: nat)
    requires Fine(run) && Feasible(Init(d), [MarkPreAuthenticated] + run)
    requires r < |Exec(Init(d), [MarkPreAuthenticated] + run).requests|
    ensures !Skipping(Exec(Init(d), [MarkPreAuthenticated] + run).requests[r])
  {
    var probed := Apply(Init(d), MarkPreAuthenticated);
    assert ([MarkPreAuthenticated] + run)[1..] == run;
    StepKeeps(Init(d), MarkPreAuthenticated);
    WarmCallsHandlerFirst(probed, run);
  }

  // ---------------------------------------------------------------------------
  // Silent renewal
  // ---------------------------------------------------------------------------

  const RENEWAL_CHOICES := [Refuse, Proceed, Proceed, Proceed, Accept, Proceed, Proceed, Accept, Proceed]

  const RENEWAL_PCS := [
    Free(AwaitLock), Locked(LockedCheck), Locked(LoadSlot), Locked(LockedSilent), Locked(LockedCas), Locked(CallRetry),
    Locked(InRetry(false)), Locked(Unlock(HandlerAnswer)), Replied(HandlerAnswer)]

  const RENEWAL_OPS := [Skip, Acquire, Skip, ChooseAccount, Skip, CasAuthenticated, CallHandler, Skip, Release]

  /** The request after `i` of these steps. */
  function Renewing(defaultAuth: AccountAuth, q: Request, i: nat): Request
    requires i <= 9
  {
    if i == 0 then q
    else q.(pc := RENEWAL_PCS[i - 1],
            used := if i >= 4 then Some(ChosenAuth(defaultAuth, q)) else q.used,
            calls := q.calls + if i >= 7 then 1 else 0)
  }

  function Stage(s: State, r: nat, i: nat): State
    requires r < |s.requests| && i <= 9
  {
    State(if 2 <= i <= 8 then s.shared.(mutex := Some(r)) else s.shared,
          s.requests[r := Renewing(s.shared.defaultAuth, s.requests[r], i)],
          s.attempts)
  }

  function RenewalRun(r: nat, i: nat): seq<Step>
    requires i <= 9
    decreases 9 - i
  {
    if i == 9 then [] else [RequestStep(r, RENEWAL_CHOICES[i])] + RenewalRun(r, i + 1)
  }

  /** The handler has answered with an authentication error to come, nobody holds the lock or a flow. */
  predicate TokenExpired(s: State, r: nat) {
    && r < |s.requests| && s.requests[r].pc.Free? && s.requests[r].pc.f.InFirst?
    && s.shared.authenticated && s.shared.mutex.None? && !s.shared.pendingAuth
  }

  /** What the request does at each stage. */
  lemma StageEdge(s: State, r: nat, i: nat)
    requires TokenExpired(s, r) && i < 9
    ensures var stage := Stage(s, r, i);
            && CanMove(stage.shared, s.attempts, stage.requests[r], RENEWAL_CHOICES[i])
            && NextEdge(stage.shared, s.attempts, stage.requests[r], RENEWAL_CHOICES[i]) == Do(RENEWAL_OPS[i], RENEWAL_PCS[i])
  {
  }

  lemma StageFollow(s: State, r: nat, i: nat)
    requires TokenExpired(s, r) && i < 9
    ensures OpDefined(s.attempts, RENEWAL_OPS[i])
    ensures Follow(Stage(s, r, i), r, Do(RENEWAL_OPS[i], RENEWAL_PCS[i])) == Stage(s, r, i + 1)
  {
    var q, q' := Renewing(s.shared.defaultAuth, s.requests[r], i), Renewing(s.shared.defaultAuth, s.requests[r], i + 1);
    assert s.requests[r := q][r := q'] == s.requests[r := q'];
  }

  lemma StageStep(s: State, r: nat, i: nat)
    requires TokenExpired(s, r) && i < 9
    ensures Enabled(Stage(s, r, i), RequestStep(r, RENEWAL_CHOICES[i]))
    ensures Apply(Stage(s, r, i), RequestStep(r, RENEWAL_CHOICES[i])) == Stage(s, r, i + 1)
  {
    StageEdge(s, r, i);
    StageFollow(s, r, i);
  }

  lemma {:induction false} RenewalFrom(s: State, r: nat, i: nat)
    requires TokenExpired(s, r) && i <= 9
    ensures Feasible(Stage(s, r, i), RenewalRun(r, i))
    ensures Exec(Stage(s, r, i), RenewalRun(r, i)) == Stage(s, r, 9)
    decreases 9 - i
  {
    if i < 9 {
      StageStep(s, r, i);
      RenewalFrom(s, r, i + 1);
      RunOneMore(Stage(s, r, i), RequestStep(r, RENEWAL_CHOICES[i]), RenewalRun(r, i + 1));
    }
  }

  /** An authentication error with a renewable token: in nine steps of its own the call takes the lock, renews
      silently for the account it chose, retries its handler once, answers, and leaves no attempt, no flag and
      no lock behind. */
  lemma SilentRenewalRetries(s: State, r: nat)
    requires TokenExpired(s, r)
    ensures Feasible(s, RenewalRun(r, 0))
    ensures var q := s.requests[r];
            Exec(s, RenewalRun(r, 0)) ==
              s.(requests := s.requests[r := q.(pc := Replied(HandlerAnswer), calls := q.calls + 1,
                                                used := Some(ChosenAuth(s.shared.defaultAuth, q)))])
  {
    assert s.requests[r := s.requests[r]] == s.requests;
    assert Stage(s, r, 0) == s;
    RenewalFrom(s, r, 0);
  }
}
