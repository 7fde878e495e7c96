/** Why check-and-settle must be one step: a fine-grained run with two background attempts at once.

    Two requests see attempt 0 finish. One settles; a third request begins attempt 1; the other then
    settles too, which lowers the flag under attempt 1; a fourth request begins attempt 2. */
module ReauthRace {
  import opened Wrappers
  import opened Reauth
  import opened ReauthInvariant
  import opened ReauthSingleFlight

  lemma Extend(d: AccountAuth, s: State, step: Step)
    requires Reachable(d, s) && Enabled(s, step) && !step.EntryAtomic?
    ensures Reachable(d, Apply(s, step))
  {
    var run :| Fine(run) && Feasible(Init(d), run) && s == Exec(Init(d), run);
    RunOneMore(s, step, []);
    ExecConcat(Init(d), run, [step]);
    assert Fine(run + [step]);
  }

  /** Nobody has authenticated, nothing is pending, and request `r` has just arrived. */
  ghost predicate Cold(s: State, r: nat) {
    && r < |s.requests| && s.requests[r] == Request(false, None, Entering(Start), None, 0, None, None, false)
    && s.shared.mutex.None? && !s.shared.pendingAuth && !s.shared.preAuthenticated && !s.shared.authenticated
    && FlowOf(s.shared.defaultAuth.authMethod).DeviceCodeFlow?
  }

  /** Six steps: through the fresh-credential path to the lock. */
  lemma ColdToLock(d: AccountAuth, s: State, r: nat) returns (s': State)
    requires Reachable(d, s) && Cold(s, r)
    ensures Reachable(d, s')
    ensures s' == State(s.shared.(mutex := Some(r)), s.requests[r := s.requests[r].(pc := Locked(LoadSlot))], s.attempts)
  {
    s' := s;
    var choices := [Proceed, Proceed, Proceed, Refuse, Proceed, Proceed];
    var pcs := [Entering(Start), Free(CheckPre), Free(CheckAuth), Free(FreshSilent), Free(AwaitLock), Locked(LockedCheck), Locked(LoadSlot)];
    var i := 0;
    while i < 6
      invariant 0 <= i <= 6 && Reachable(d, s')
      invariant s' == State(if i < 5 then s.shared else s.shared.(mutex := Some(r)),
                            s.requests[r := s.requests[r].(pc := pcs[i])], s.attempts)
    {
      Extend(d, s', RequestStep(r, choices[i]));
      s' := Apply(s', RequestStep(r, choices[i]));
      i := i + 1;
    }
  }

  /** The record of a request that began a flow and gave up waiting for the device code. */
  function Detached(q: Request, auth: AccountAuth): Request {
    q.(pc := Replied(AuthFailed), used := Some(auth))
  }

  function RunningAttempt(r: nat, auth: AccountAuth): Attempt {
    NewAttempt(r, auth).(phase := Running)
  }

  /** One step of request `r` along a given edge. */
  lemma RequestGoes(d: AccountAuth, s: State, r: nat, c: Choice, edge: Edge) returns (s': State)
    requires Reachable(d, s) && r < |s.requests| && CanMove(s.shared, s.attempts, s.requests[r], c)
    requires NextEdge(s.shared, s.attempts, s.requests[r], c) == edge
    ensures Reachable(d, s') && s' == Follow(s, r, edge)
  {
    Extend(d, s, RequestStep(r, c));
    s' := Apply(s, RequestStep(r, c));
  }

  /** Up to the publication of the attempt. */
  lemma LockToPublished(d: AccountAuth, s: State, r: nat) returns (s': State)
    requires Reachable(d, s) && Cold(s, r)
    ensures Reachable(d, s')
    ensures var n, auth := |s.attempts|, s.shared.defaultAuth;
            s' == State(s.shared.(mutex := Some(r), pending := Some(n)),
                        s.requests[r := s.requests[r].(pc := InFlow(n, RaiseFlag), used := Some(auth))],
                        s.attempts + [NewAttempt(r, auth)])
  {
    s' := ColdToLock(d, s, r);
    s' := RequestGoes(d, s', r, Proceed, Do(ChooseAccount, Locked(LockedSilent)));
    s' := RequestGoes(d, s', r, Refuse, Do(Skip, Locked(Begin)));
    s' := RequestGoes(d, s', r, Proceed, Do(Publish, InFlow(|s.attempts|, RaiseFlag)));
  }

  /** Flag, counter, goroutine: the request waits for a device code. */
  lemma PublishedToWaiting(d: AccountAuth, s: State, r: nat) returns (s': State)
    requires Reachable(d, s) && Cold(s, r)
    ensures Reachable(d, s')
    ensures var n, auth := |s.attempts|, s.shared.defaultAuth;
            s' == State(s.shared.(mutex := Some(r), pendingAuth := true, pending := Some(n), inFlight := s.shared.inFlight + 1),
                        s.requests[r := s.requests[r].(pc := InFlow(n, AwaitPrompt), used := Some(auth))],
                        s.attempts + [RunningAttempt(r, auth)])
  {
    s' := LockToPublished(d, s, r);
    var n := |s.attempts|;
    s' := RequestGoes(d, s', r, Proceed, Do(RaiseBusy(n), InFlow(n, CountUp)));
    s' := RequestGoes(d, s', r, Proceed, Do(CountFlow(n), InFlow(n, Spawn)));
    s' := RequestGoes(d, s', r, Proceed, Do(SpawnFlow(n), InFlow(n, AwaitPrompt)));
  }

  /** A cold request begins a background attempt, waits in vain for the code, and is answered: the
      lock is free again and the attempt runs on. */
  lemma BeginDetached(d: AccountAuth, s: State, r: nat) returns (s': State)
    requires Reachable(d, s) && Cold(s, r)
    ensures Reachable(d, s')
    ensures var n, auth := |s.attempts|, s.shared.defaultAuth;
            s' == State(s.shared.(pendingAuth := true, pending := Some(n), inFlight := s.shared.inFlight + 1),
                        s.requests[r := Detached(s.requests[r], auth)],
                        s.attempts + [RunningAttempt(r, auth)])
  {
    s' := PublishedToWaiting(d, s, r);
    Extend(d, s', RequestStep(r, Expire));
    s' := Apply(s', RequestStep(r, Expire));
    Extend(d, s', RequestStep(r, Proceed));
    s' := Apply(s', RequestStep(r, Proceed));
  }

  /** One step of the goroutine of attempt `a`. */
  lemma AttemptGoes(d: AccountAuth, s: State, a: nat, c: Choice, h: Shared, att: Attempt) returns (s': State)
    requires Reachable(d, s) && a < |s.attempts| && CanAdvance(s.attempts[a], c)
    requires Advance(s.shared, a, s.attempts[a], c) == (h, att)
    ensures Reachable(d, s') && s' == State(h, s.requests, s.attempts[a := att])
  {
    Extend(d, s, AttemptStep(a, c));
    s' := Apply(s, AttemptStep(a, c));
  }

  /** A running attempt fails and closes. */
  lemma FailAttempt(d: AccountAuth, s: State, a: nat) returns (s': State)
    requires Reachable(d, s) && a < |s.attempts| && s.attempts[a].phase.Running?
    ensures Reachable(d, s')
    ensures s' == State(s.shared.(inFlight := s.shared.inFlight - 1), s.requests,
                        s.attempts[a := s.attempts[a].(phase := Finished, ok := false, failed := true, writes := s.attempts[a].writes + 1)])
  {
    var h := s.shared.(inFlight := s.shared.inFlight - 1);
    var ending := s.attempts[a].(phase := Ending, ok := false);
    var writing := ending.(phase := Writing);
    var closing := writing.(phase := Closing, failed := true, writes := s.attempts[a].writes + 1);
    s' := AttemptGoes(d, s, a, Refuse, s.shared, ending);
    s' := AttemptGoes(d, s', a, Proceed, h, writing);
    s' := AttemptGoes(d, s', a, Proceed, h, closing);
    s' := AttemptGoes(d, s', a, Proceed, h, closing.(phase := Finished));
  }

  /** A request that has just arrived sees the published attempt closed and failed, and stops short of its settle. */
  lemma SeeFailure(d: AccountAuth, s: State, r: nat, a: nat) returns (s': State)
    requires Reachable(d, s) && r < |s.requests| && s.requests[r].pc == Entering(Start)
    requires s.shared.pendingAuth && s.shared.pending == Some(a) && a < |s.attempts|
    requires s.attempts[a].phase.Finished? && s.attempts[a].failed
    ensures Reachable(d, s') && s' == At(s, r, Entering(EntrySettle(Some(a), true)))
  {
    InspectingSteps(s, r, a);
    SettlingSteps(s, r, a);
    Extend(d, s, RequestStep(r, Proceed));
    Extend(d, At(s, r, Entering(LoadPending)), RequestStep(r, Proceed));
    Extend(d, At(s, r, Entering(Inspect(a))), RequestStep(r, Proceed));
    Extend(d, At(s, r, Entering(EntryReadErr(a))), RequestStep(r, Proceed));
    s' := At(s, r, Entering(EntrySettle(Some(a), true)));
  }

  /** The settle of a request that saw a failure. */
  lemma SettleFailure(d: AccountAuth, s: State, r: nat, a: nat) returns (s': State)
    requires Reachable(d, s) && r < |s.requests| && s.requests[r].pc == Entering(EntrySettle(Some(a), true)) && a < |s.attempts|
    ensures Reachable(d, s')
    ensures s' == State(s.shared.(pendingAuth := false),
                        s.requests[r := s.requests[r].(pc := Replied(FailedAttempt))],
                        s.attempts[a := s.attempts[a].(intercepted := s.attempts[a].intercepted + 1)])
  {
    Extend(d, s, RequestStep(r, Proceed));
    s' := Apply(s, RequestStep(r, Proceed));
  }

  lemma FiveArrive(d: AccountAuth) returns (s: State)
    ensures Reachable(d, s) && s.shared == Init(d).shared && s.attempts == []
    ensures |s.requests| == 5
    ensures forall r :: 0 <= r < 5 ==> s.requests[r] == Request(false, None, Entering(Start), None, 0, None, None, false)
  {
    s := Init(d);
    assert Fine([]) && Exec(Init(d), []) == s;
    var i := 0;
    while i < 5
      invariant 0 <= i <= 5 && Reachable(d, s) && s.shared == Init(d).shared && s.attempts == [] && |s.requests| == i
      invariant forall r :: 0 <= r < i ==> s.requests[r] == Request(false, None, Entering(Start), None, 0, None, None, false)
    {
      Extend(d, s, Arrive(false, None));
      s := Apply(s, Arrive(false, None));
      i := i + 1;
    }
  }

  /** The failing run, up to the stale settle: an attempt runs while the busy flag is down. */
  lemma FlagLoweredUnderAttempt(d: AccountAuth) returns (s: State)
    requires FlowOf(d.authMethod).DeviceCodeFlow?
    ensures Reachable(d, s)
    ensures |s.attempts| == 2 && s.attempts[1].phase.Running? && !s.shared.pendingAuth
    ensures Cold(s, 4)
  {
    s := FiveArrive(d);
    s := BeginDetached(d, s, 0);
    s := FailAttempt(d, s, 0);
    s := SeeFailure(d, s, 1, 0);
    s := SeeFailure(d, s, 2, 0);
    s := SettleFailure(d, s, 2, 0);
    s := BeginDetached(d, s, 3);
    s := SettleFailure(d, s, 1, 0);
  }

  /** Under any interleaving of single accesses, two background attempts can run at once. */
  lemma TwoAttemptsAtOnce(d: AccountAuth) returns (s: State)
    requires FlowOf(d.authMethod).DeviceCodeFlow?
    ensures Reachable(d, s)
    ensures |s.attempts| == 3 && s.attempts[1].phase.Running? && s.attempts[2].phase.Running?
  {
    s := FlagLoweredUnderAttempt(d);
    s := BeginDetached(d, s, 4);
  }
}
