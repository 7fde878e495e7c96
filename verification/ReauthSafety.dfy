/** What the re-authentication protocol guarantees in every reachable state, under any interleaving. */
module ReauthSafety {
  import opened Wrappers
  import opened Reauth
  import opened ReauthInvariant

  // ---------------------------------------------------------------------------
  // From steps to runs
  // ---------------------------------------------------------------------------

  lemma StepKeeps(s: State, step: Step)
    requires Inv(s) && Enabled(s, step) && !step.EntryAtomic?
    ensures Inv(Apply(s, step))
  {
    match step
    case RequestStep(r, c) => RequestStepKeeps(s, r, c);
    case AttemptStep(a, c) => AttemptStepKeeps(s, a, c);
    case _ => EnvironmentKeeps(s, step);
  }

  lemma {:induction false} RunKeeps(s: State, run: seq<Step>)
    requires Inv(s) && Fine(run) && Feasible(s, run)
    ensures Inv(Exec(s, run))
    decreases |run|
  {
    if run != [] {
      StepKeeps(s, run[0]);
      RunKeeps(Apply(s, run[0]), run[1..]);
    }
  }

  lemma ReachableInv(d: AccountAuth, s: State)
    requires Reachable(d, s)
    ensures Inv(s)
  {
    var run :| Fine(run) && Feasible(Init(d), run) && s == Exec(Init(d), run);
    RunKeeps(Init(d), run);
  }

  // ---------------------------------------------------------------------------
  // What a run never takes back
  // ---------------------------------------------------------------------------

  /** The default account is fixed, `authenticated` never falls, and a closed attempt is final. */
  ghost predicate Keeps(s: State, s': State) {
    && s'.shared.defaultAuth == s.shared.defaultAuth
    && (s.shared.authenticated ==> s'.shared.authenticated)
    && s.shared.readyLogs <= s'.shared.readyLogs
    && |s.requests| <= |s'.requests|
    && Advances(s.attempts, s'.attempts)
  }

  lemma StepNeverTakesBack(s: State, step: Step)
    requires Inv(s) && Enabled(s, step) && !step.EntryAtomic?
    ensures Keeps(s, Apply(s, step))
  {
    match step
    case RequestStep(r, c) =>
      var q := s.requests[r];
      var op := NextEdge(s.shared, s.attempts, q, c).op;
      EdgeLegal(s.shared, s.attempts, r, q, c);
      PerformEffect(s.shared, |s.requests|, r, s.attempts, q.used, q.used.GetOr(s.shared.defaultAuth), op);
      assert PerformShared(s.shared, r, s.attempts, op).readyLogs >= s.shared.readyLogs;
    case AttemptStep(a, c) => AdvanceKeeps(s.shared, a, s.attempts[a], c);
    case _ =>
  }

  /** Over any run, from any reachable state on. */
  lemma {:induction false} RunNeverTakesBack(s: State, run: seq<Step>)
    requires Inv(s) && Fine(run) && Feasible(s, run)
    ensures Keeps(s, Exec(s, run))
    decreases |run|
  {
    if run != [] {
      StepKeeps(s, run[0]);
      StepNeverTakesBack(s, run[0]);
      RunNeverTakesBack(Apply(s, run[0]), run[1..]);
    }
  }

  // ---------------------------------------------------------------------------
  // Reachable states
  // ---------------------------------------------------------------------------

  /** The lock is held by exactly the request that stands in the critical section; a request that
      has been answered holds nothing, and has invoked the inner handler at most twice. */
  lemma LockAndRetries(d: AccountAuth, s: State, r: nat)
    requires Reachable(d, s) && r < |s.requests|
    ensures s.shared.mutex == Some(r) <==> s.requests[r].pc.HoldsLock()
    ensures s.requests[r].pc.Replied? ==> s.shared.mutex != Some(r)
    ensures s.requests[r].calls <= 2
    ensures s.requests[r].calls == 2 ==> s.requests[r].pc.HoldsLock() || s.requests[r].pc.Replied?
  {
    ReachableInv(d, s);
  }

  /** Re-authentication runs with the account the resolver stored in this same request, with a value
      injected upstream when it stored none, and with the server default when there is neither. */
  lemma NoCredentialExchange(d: AccountAuth, s: State, a: nat)
    requires Reachable(d, s) && a < |s.attempts|
    ensures s.attempts[a].owner < |s.requests|
    ensures var q := s.requests[s.attempts[a].owner];
            s.attempts[a].auth == q.resolved.GetOr(q.injected.GetOr(d))
  {
    ReachableInv(d, s);
    DefaultIsFixed(d, s);
  }

  lemma DefaultIsFixed(d: AccountAuth, s: State)
    requires Reachable(d, s)
    ensures s.shared.defaultAuth == d
  {
    var run :| Fine(run) && Feasible(Init(d), run) && s == Exec(Init(d), run);
    RunNeverTakesBack(Init(d), run);
  }

  /** The account a request resolved was handed over by one of that request's own steps. */
  lemma {:induction false} ResolvedByOwnStep(s: State, run: seq<Step>, r: nat)
    requires Feasible(s, run) && r < |Exec(s, run).requests| && Exec(s, run).requests[r].resolved.Some?
    requires r < |s.requests| ==> s.requests[r].resolved.None?
    ensures RequestStep(r, Resolve(Exec(s, run).requests[r].resolved.value)) in run
    decreases |run|
  {
    if run != [] {
      var s1 := Apply(s, run[0]);
      if r < |s1.requests| && s1.requests[r].resolved.Some? {
        ResolvedStaysOrChanges(s1, run[1..], r);
        assert run[0] == RequestStep(r, Resolve(s1.requests[r].resolved.value));
      } else {
        ResolvedByOwnStep(s1, run[1..], r);
      }
    }
  }

  lemma {:induction false} ResolvedStaysOrChanges(s: State, run: seq<Step>, r: nat)
    requires Feasible(s, run) && r < |s.requests| && s.requests[r].resolved.Some?
    ensures r < |Exec(s, run).requests|
    ensures var x := Exec(s, run).requests[r].resolved;
            x == s.requests[r].resolved || (x.Some? && RequestStep(r, Resolve(x.value)) in run)
    decreases |run|
  {
    if run != [] {
      ResolvedStaysOrChanges(Apply(s, run[0]), run[1..], r);
    }
  }

  /** "Ready to serve" is logged at most once, never before `authenticated`, and exactly once as soon
      as whoever turned `authenticated` true has taken its next step. */
  lemma ReadyLoggedOnce(d: AccountAuth, s: State)
    requires Reachable(d, s)
    ensures !s.shared.authenticated ==> s.shared.readyLogs == 0
    ensures s.shared.readyLogs <= 1
    ensures s.shared.authenticated && s.shared.readyLogs == 0 ==>
              || (exists r :: 0 <= r < |s.requests| && s.requests[r].pc.Logging())
              || (exists a :: 0 <= a < |s.attempts| && s.attempts[a].phase.LogOwed?)
  {
    ReachableInv(d, s);
    if s.shared.authenticated && s.shared.readyLogs == 0 {
      match s.shared.winner.value
      case OfRequest(r) => assert RequestOk(s.shared, s.attempts, r, s.requests[r]);
      case OfAttempt(a) => assert AttemptOk(s.shared, s.requests[s.attempts[a].owner], a, s.attempts[a]);
    }
  }

  /** A closed attempt without an error implies `authenticated`, and a request that fell through after
      settling a success does not take the fresh-credential path: if it ever waits for the lock or
      re-authenticates, its handler has run first. */
  lemma SuccessImpliesAuthenticated(d: AccountAuth, s: State)
    requires Reachable(d, s)
    ensures forall a :: 0 <= a < |s.attempts| && s.attempts[a].phase.Finished? && !s.attempts[a].failed ==> s.shared.authenticated
    ensures forall r :: 0 <= r < |s.requests| && s.requests[r].fellThrough ==>
              var q := s.requests[r];
              && s.shared.authenticated
              && !(q.pc.Free? && (q.pc.f.FreshSilent? || q.pc.f.SilentCas? || q.pc.f.SilentLog?))
              && ((q.pc.Free? && q.pc.f.AwaitLock?) || q.pc.HoldsLock() ==> q.calls >= 1)
  {
    ReachableInv(d, s);
    forall r | 0 <= r < |s.requests| && s.requests[r].fellThrough
      ensures PathOk(s.shared, s.requests[r])
    {
      assert RequestOk(s.shared, s.attempts, r, s.requests[r]);
    }
  }

  /** The error of an attempt is assigned exactly once before `done` closes, agrees with the outcome of
      `authenticate`, and has been read only after the close. */
  lemma ErrorWrittenOnceReadAfterClose(d: AccountAuth, s: State)
    requires Reachable(d, s)
    ensures forall a :: 0 <= a < |s.attempts| ==>
              && s.attempts[a].writes <= 1
              && (s.attempts[a].phase.Finished? ==> s.attempts[a].writes == 1 && s.attempts[a].failed == !s.attempts[a].ok)
    ensures s.shared.earlyReads == 0
  {
    ReachableInv(d, s);
    forall a | 0 <= a < |s.attempts| ensures OutcomeOk(s.shared, a, s.attempts[a]) {
      assert AttemptOk(s.shared, s.requests[s.attempts[a].owner], a, s.attempts[a]);
    }
  }

  lemma {:induction false} CountedPositive(attempts: seq<Attempt>, a: nat)
    requires a < |attempts| && attempts[a].phase.InCounter()
    ensures CountedIn(attempts) > 0
  {
    if a > 0 {
      CountedPositive(attempts[1..], a - 1);
    }
  }

  /** The in-flight counter is the number of flows between begin and end, so it is never negative, and
      it is positive while any background authenticate call runs. */
  lemma InFlightCountsFlows(d: AccountAuth, s: State)
    requires Reachable(d, s)
    ensures s.shared.inFlight == CountedIn(s.attempts) >= 0
    ensures (exists a :: 0 <= a < |s.attempts| && s.attempts[a].phase.Running?) ==> s.shared.inFlight > 0
  {
    ReachableInv(d, s);
    if a :| 0 <= a < |s.attempts| && s.attempts[a].phase.Running? {
      CountedPositive(s.attempts, a);
    }
  }

  /** An account-domain request reaches its handler before any lock or probe. The one exception is an
      answer carrying the error of an attempt that is finished and failed. */
  lemma RecoveryReachesHandler(d: AccountAuth, s: State, r: nat)
    requires Reachable(d, s) && r < |s.requests| && s.requests[r].recovery && s.requests[r].calls == 0
    ensures var pc := s.requests[r].pc;
            && !pc.HoldsLock()
            && !(pc.Free? && (pc.f.FreshSilent? || pc.f.AwaitLock?))
            && (pc.Replied? ==> pc.reply.FailedAttempt?)
            && (pc.Entering? && pc.e.EntrySettle? && pc.e.failed ==>
                  && pc.e.seen.Some? && pc.e.seen.value < |s.attempts|
                  && s.attempts[pc.e.seen.value].phase.Finished? && s.attempts[pc.e.seen.value].failed)
  {
    ReachableInv(d, s);
    assert RequestOk(s.shared, s.attempts, r, s.requests[r]);
  }
}
