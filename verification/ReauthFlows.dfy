/** One call from the lock to its reply while nobody else holds it: silent renewal, the three interactive flows, and
    what becomes of the background attempt. */
module ReauthFlows {
  import opened Wrappers
  import opened Reauth
  import opened ReauthCalls
  import opened ReauthSingleFlight

  /** Room to take the lock. */
  predicate AtLock(s: State, r: nat) {
    r < |s.requests| && s.requests[r].pc == Free(AwaitLock) && s.shared.mutex.None?
  }

  lemma Locking(s: State, r: nat, v: View)
    requires r < |s.requests| && v.q.pc == Free(AwaitLock) && v.h.mutex.None?
    ensures Goes(s, r, v, [Proceed, Proceed],
                 View(v.h.(mutex := Some(r)), v.q.(pc := Locked(if v.h.pendingAuth then Unlock(InProgress) else LoadSlot)), v.attempts))
  {
    var taken, edge := After(r, v, Do(Acquire, Locked(LockedCheck))), Do(Skip, Locked(if v.h.pendingAuth then Unlock(InProgress) else LoadSlot));
    LastTurn(s, r, taken, Proceed, edge);
    Turn(s, r, v, Proceed, Do(Acquire, Locked(LockedCheck)), [Proceed], After(r, taken, edge));
    assert [Proceed] + [Proceed] == [Proceed, Proceed];
  }

  /** While the busy flag is up nobody begins anything: the call is told that authentication is in progress. */
  lemma BusyCall(s: State, r: nat)
    requires AtLock(s, r) && s.shared.pendingAuth
    ensures Runs(s, Steps(r, [Proceed, Proceed] + [Proceed]),
                 State(s.shared, s.requests[r := s.requests[r].(pc := Replied(InProgress))], s.attempts))
  {
    var v := Of(s, r);
    var busy := View(v.h.(mutex := Some(r)), v.q.(pc := Locked(Unlock(InProgress))), v.attempts);
    Locking(s, r, v);
    Released(s, r, busy, InProgress);
    Then(s, r, v, [Proceed, Proceed], busy, [Proceed], v.(q := v.q.(pc := Replied(InProgress))));
    Told(s, r, [Proceed, Proceed] + [Proceed], v.(q := v.q.(pc := Replied(InProgress))));
  }

  /** The account a request re-authenticates: its own, else the one injected, else the default. */
  function Chosen(h: Shared, q: Request): AccountAuth {
    match q.slot
    case Some(auth) => auth
    case None => match q.injected case Some(auth) => auth case None => h.defaultAuth
  }

  /** The lock taken, the account chosen. */
  lemma Choosing(s: State, r: nat, v: View)
    requires r < |s.requests| && v.q.pc == Free(AwaitLock) && v.h.mutex.None? && !v.h.pendingAuth
    ensures Goes(s, r, v, [Proceed, Proceed] + [Proceed],
                 View(v.h.(mutex := Some(r)), v.q.(pc := Locked(LockedSilent), used := Some(Chosen(v.h, v.q))), v.attempts))
  {
    var taken := View(v.h.(mutex := Some(r)), v.q.(pc := Locked(LoadSlot)), v.attempts);
    Locking(s, r, v);
    LastTurn(s, r, taken, Proceed, Do(ChooseAccount, Locked(LockedSilent)));
    Then(s, r, v, [Proceed, Proceed], taken, [Proceed], After(r, taken, Do(ChooseAccount, Locked(LockedSilent))));
  }

  lemma ConfirmedUnderLock(s: State, r: nat, v: View)
    requires r < |s.requests| && v.q.pc == Locked(LockedCas)
    ensures Goes(s, r, v, Confirming(v.h), View(Confirmed(v.h, OfRequest(r)), v.q.(pc := Locked(CallRetry)), v.attempts))
  {
    var edge := Do(CasAuthenticated, Locked(if v.h.authenticated then CallRetry else LockedLog));
    if v.h.authenticated {
      LastTurn(s, r, v, Proceed, edge);
    } else {
      LastTurn(s, r, After(r, v, edge), Proceed, Do(LogReady, Locked(CallRetry)));
      Turn(s, r, v, Proceed, edge, [Proceed], After(r, After(r, v, edge), Do(LogReady, Locked(CallRetry))));
      assert [Proceed] + [Proceed] == [Proceed, Proceed];
    }
  }

  function Retrying(h: Shared, resolved: Option<AccountAuth>): seq<Choice> {
    Confirming(h) + ([Proceed] + (Handled(resolved, Accept) + [Proceed]))
  }

  /** A call with a working credential again: confirmed, retried, answered, unlocked. */
  function Served(r: nat, v: View, resolved: Option<AccountAuth>): View {
    View(Confirmed(v.h, OfRequest(r)).(mutex := None),
         v.q.(pc := Replied(HandlerAnswer), calls := v.q.calls + 1, slot := Later(resolved, v.q.slot)), v.attempts)
  }

  lemma ConfirmAndRetry(s: State, r: nat, v: View, resolved: Option<AccountAuth>)
    requires r < |s.requests| && v.q.pc == Locked(LockedCas)
    ensures Goes(s, r, v, Retrying(v.h, resolved), Served(r, v, resolved))
  {
    var ready := View(Confirmed(v.h, OfRequest(r)), v.q.(pc := Locked(CallRetry)), v.attempts);
    ConfirmedUnderLock(s, r, v);
    Retried(s, r, ready, resolved);
    Then(s, r, v, Confirming(v.h), ready, [Proceed] + (Handled(resolved, Accept) + [Proceed]), Served(r, v, resolved));
  }

  /** A token for the chosen account: no attempt is begun, the handler is retried and its answer is the reply. */
  lemma RenewedCall(s: State, r: nat, resolved: Option<AccountAuth>)
    requires AtLock(s, r) && !s.shared.pendingAuth
    ensures var q := s.requests[r];
            Runs(s, Steps(r, [Proceed, Proceed] + [Proceed] + ([Accept] + Retrying(s.shared, resolved))),
                 State(Confirmed(s.shared, OfRequest(r)),
                       s.requests[r := q.(pc := Replied(HandlerAnswer), calls := q.calls + 1,
                                          slot := Later(resolved, q.slot), used := Some(Chosen(s.shared, q)))],
                       s.attempts))
  {
    var v := Of(s, r);
    var asking := View(v.h.(mutex := Some(r)), v.q.(pc := Locked(LockedSilent), used := Some(Chosen(v.h, v.q))), v.attempts);
    var told := asking.(q := asking.q.(pc := Locked(LockedCas)));
    Choosing(s, r, v);
    ConfirmAndRetry(s, r, told, resolved);
    Turn(s, r, asking, Accept, Do(Skip, Locked(LockedCas)), Retrying(v.h, resolved), Served(r, told, resolved));
    Then(s, r, v, [Proceed, Proceed] + [Proceed], asking, [Accept] + Retrying(v.h, resolved), Served(r, told, resolved));
    Told(s, r, [Proceed, Proceed] + [Proceed] + ([Accept] + Retrying(v.h, resolved)), Served(r, told, resolved));
  }

  /** No token: the flow the account's method asks for. */
  lemma Refused(s: State, r: nat, v: View)
    requires r < |s.requests| && v.q.pc == Locked(LockedSilent) && v.q.used.Some?
    ensures Goes(s, r, v, [Refuse],
                 v.(q := v.q.(pc := Locked(if v.q.used.value.authMethod == "auth_code" then AuthCode else Begin))))
  {
    LastTurn(s, r, v, Refuse, Do(Skip, Locked(if v.q.used.value.authMethod == "auth_code" then AuthCode else Begin)));
  }

  lemma ChoosingInVain(s: State, r: nat, v: View)
    requires r < |s.requests| && v.q.pc == Free(AwaitLock) && v.h.mutex.None? && !v.h.pendingAuth
    ensures Goes(s, r, v, [Proceed, Proceed] + [Proceed] + [Refuse],
                 View(v.h.(mutex := Some(r)),
                      v.q.(pc := Locked(if Chosen(v.h, v.q).authMethod == "auth_code" then AuthCode else Begin),
                           used := Some(Chosen(v.h, v.q))),
                      v.attempts))
  {
    var asking := View(v.h.(mutex := Some(r)), v.q.(pc := Locked(LockedSilent), used := Some(Chosen(v.h, v.q))), v.attempts);
    Choosing(s, r, v);
    Refused(s, r, asking);
    Then(s, r, v, [Proceed, Proceed] + [Proceed], asking, [Refuse],
         asking.(q := asking.q.(pc := Locked(if Chosen(v.h, v.q).authMethod == "auth_code" then AuthCode else Begin))));
  }

  /** The method "auth_code" signs in under the lock: with the handler's retry as reply if that succeeds, and an
      authentication failure if not. No attempt is begun either way. */
  lemma AuthCodeCall(s: State, r: nat, ok: bool, resolved: Option<AccountAuth>)
    requires AtLock(s, r) && !s.shared.pendingAuth && Chosen(s.shared, s.requests[r]).authMethod == "auth_code"
    ensures var q := s.requests[r];
            Runs(s, Steps(r, [Proceed, Proceed] + [Proceed] + [Refuse] +
                             (if ok then [Accept] + Retrying(s.shared, resolved) else [Refuse] + [Proceed])),
                 State(if ok then Confirmed(s.shared, OfRequest(r)) else s.shared,
                       s.requests[r := q.(pc := Replied(if ok then HandlerAnswer else AuthFailed),
                                          calls := q.calls + if ok then 1 else 0,
                                          slot := if ok then Later(resolved, q.slot) else q.slot,
                                          used := Some(Chosen(s.shared, q)))],
                       s.attempts))
  {
    var v := Of(s, r);
    var asking := View(v.h.(mutex := Some(r)), v.q.(pc := Locked(AuthCode), used := Some(Chosen(v.h, v.q))), v.attempts);
    ChoosingInVain(s, r, v);
    AuthCodeAnswered(s, r, asking, ok, resolved);
    Then(s, r, v, [Proceed, Proceed] + [Proceed] + [Refuse], asking,
         if ok then [Accept] + Retrying(v.h, resolved) else [Refuse] + [Proceed], AuthCodeEnd(r, asking, ok, resolved));
    Told(s, r, [Proceed, Proceed] + [Proceed] + [Refuse] + (if ok then [Accept] + Retrying(v.h, resolved) else [Refuse] + [Proceed]),
         AuthCodeEnd(r, asking, ok, resolved));
  }

  function AuthCodeEnd(r: nat, v: View, ok: bool, resolved: Option<AccountAuth>): View {
    if ok then Served(r, v, resolved) else View(v.h.(mutex := None), v.q.(pc := Replied(AuthFailed)), v.attempts)
  }

  lemma AuthCodeAnswered(s: State, r: nat, v: View, ok: bool, resolved: Option<AccountAuth>)
    requires r < |s.requests| && v.q.pc == Locked(AuthCode)
    ensures Goes(s, r, v, if ok then [Accept] + Retrying(v.h, resolved) else [Refuse] + [Proceed], AuthCodeEnd(r, v, ok, resolved))
  {
    if ok {
      var told := v.(q := v.q.(pc := Locked(LockedCas)));
      ConfirmAndRetry(s, r, told, resolved);
      Turn(s, r, v, Accept, Do(Skip, Locked(LockedCas)), Retrying(v.h, resolved), Served(r, told, resolved));
    } else {
      var failed := v.(q := v.q.(pc := Locked(Unlock(AuthFailed))));
      Released(s, r, failed, AuthFailed);
      Turn(s, r, v, Refuse, Do(Skip, Locked(Unlock(AuthFailed))), [Proceed], AuthCodeEnd(r, v, ok, resolved));
    }
  }

  // ---------------------------------------------------------------------------
  // Background flows
  // ---------------------------------------------------------------------------

  /** Where a call waits once its attempt runs. */
  function WaitFor(authMethod: string): FlowPc {
    if authMethod == "browser" then Await else AwaitPrompt
  }

  lemma Published(s: State, r: nat, v: View)
    requires r < |s.requests| && v.q.pc == Locked(Begin) && v.q.used.Some?
    ensures var n := |v.attempts|;
            Goes(s, r, v, [Proceed], View(v.h.(pending := Some(n)), v.q.(pc := InFlow(n, RaiseFlag)),
                                          v.attempts + [Attempt(r, v.q.used.value, Phase.Published, false, false, 0, false, 0)]))
  {
    LastTurn(s, r, v, Proceed, Do(Publish, InFlow(|v.attempts|, RaiseFlag)));
  }

  lemma Spawned(s: State, r: nat, v: View, n: nat, att: Attempt)
    requires r < |s.requests| && v.q.pc == InFlow(n, CountUp) && n < |v.attempts| && v.attempts[n] == att
    ensures Goes(s, r, v, [Proceed] + [Proceed],
                 View(v.h.(inFlight := v.h.inFlight + 1), v.q.(pc := InFlow(n, WaitFor(att.auth.authMethod))),
                      v.attempts[n := att.(phase := Running)]))
  {
    var count, spawn := Do(CountFlow(n), InFlow(n, Spawn)), Do(SpawnFlow(n), InFlow(n, WaitFor(att.auth.authMethod)));
    var counted := After(r, v, count);
    LastTurn(s, r, counted, Proceed, spawn);
    Turn(s, r, v, Proceed, count, [Proceed], After(r, counted, spawn));
    assert After(r, counted, spawn).attempts == v.attempts[n := att.(phase := Running)];
  }

  lemma Started(s: State, r: nat, v: View, n: nat, att: Attempt)
    requires r < |s.requests| && v.q.pc == InFlow(n, RaiseFlag) && n < |v.attempts| && v.attempts[n] == att
    ensures Goes(s, r, v, [Proceed] + ([Proceed] + [Proceed]),
                 View(v.h.(pendingAuth := true, inFlight := v.h.inFlight + 1), v.q.(pc := InFlow(n, WaitFor(att.auth.authMethod))),
                      v.attempts[n := att.(phase := Running)]))
  {
    var raise := Do(RaiseBusy(n), InFlow(n, CountUp));
    var raised := After(r, v, raise);
    Spawned(s, r, raised, n, att.(phase := Flagged));
    assert raised.attempts[n := att.(phase := Running)] == v.attempts[n := att.(phase := Running)];
    Turn(s, r, v, Proceed, raise, [Proceed] + [Proceed],
         View(v.h.(pendingAuth := true, inFlight := v.h.inFlight + 1), v.q.(pc := InFlow(n, WaitFor(att.auth.authMethod))),
              v.attempts[n := att.(phase := Running)]));
  }

  /** Any other method begins one background attempt with the chosen account: published, the flag up, counted and
      running, while the call holds the lock and waits for it as its method says. */
  lemma CallBeginsAttempt(s: State, r: nat)
    requires AtLock(s, r) && !s.shared.pendingAuth && Chosen(s.shared, s.requests[r]).authMethod != "auth_code"
    ensures var q, n, auth := s.requests[r], |s.attempts|, Chosen(s.shared, s.requests[r]);
            Runs(s, Steps(r, [Proceed, Proceed] + [Proceed] + [Refuse] + ([Proceed] + ([Proceed] + ([Proceed] + [Proceed])))),
                 State(s.shared.(mutex := Some(r), pending := Some(n), pendingAuth := true, inFlight := s.shared.inFlight + 1),
                       s.requests[r := q.(pc := InFlow(n, if auth.authMethod == "browser" then Await else AwaitPrompt), used := Some(auth))],
                       s.attempts + [Attempt(r, auth, Running, false, false, 0, false, 0)]))
  {
    var v, n, auth := Of(s, r), |s.attempts|, Chosen(s.shared, s.requests[r]);
    var begin := View(v.h.(mutex := Some(r)), v.q.(pc := Locked(Begin), used := Some(auth)), v.attempts);
    var att := Attempt(r, auth, Phase.Published, false, false, 0, false, 0);
    var published := View(begin.h.(pending := Some(n)), begin.q.(pc := InFlow(n, RaiseFlag)), v.attempts + [att]);
    var w := View(published.h.(pendingAuth := true, inFlight := v.h.inFlight + 1), published.q.(pc := InFlow(n, WaitFor(auth.authMethod))),
                  v.attempts + [att.(phase := Running)]);
    ChoosingInVain(s, r, v);
    Published(s, r, begin);
    Started(s, r, published, n, att);
    assert (v.attempts + [att])[n := att.(phase := Running)] == w.attempts;
    Then(s, r, begin, [Proceed], published, [Proceed] + ([Proceed] + [Proceed]), w);
    Then(s, r, v, [Proceed, Proceed] + [Proceed] + [Refuse], begin, [Proceed] + ([Proceed] + ([Proceed] + [Proceed])), w);
    Told(s, r, [Proceed, Proceed] + [Proceed] + [Refuse] + ([Proceed] + ([Proceed] + ([Proceed] + [Proceed]))), w);
  }

  /** A call waits for the attempt it began. */
  predicate Waiting(s: State, r: nat, a: nat, w: FlowPc) {
    && r < |s.requests| && a < |s.attempts| && s.requests[r].pc == InFlow(a, w) && s.shared.mutex == Some(r)
    && (w.Await? || (w.AwaitPrompt? && s.attempts[a].auth.authMethod != "browser"))
  }

  /** The reply decided on and the lock released. */
  function Leaving(v: View, reply: Reply): View {
    View(v.h.(mutex := None), v.q.(pc := Replied(reply)), v.attempts)
  }

  lemma Decided(s: State, r: nat, v: View, c: Choice, reply: Reply)
    requires r < |s.requests| && Takes(v, c, Do(Skip, Locked(Unlock(reply))))
    ensures Goes(s, r, v, [c] + [Proceed], Leaving(v, reply))
  {
    Released(s, r, After(r, v, Do(Skip, Locked(Unlock(reply)))), reply);
    Turn(s, r, v, c, Do(Skip, Locked(Unlock(reply))), [Proceed], Leaving(v, reply));
  }

  /** When the wait runs out, the attempt runs on and the flag stays up: a browser sign-in and a device code that
      never came are reported as failures, a device code that was shown is shown again. */
  lemma WaitRunsOut(s: State, r: nat, a: nat, w: FlowPc)
    requires Waiting(s, r, a, w)
    ensures var reply := if w.Await? && s.attempts[a].auth.authMethod != "browser" then Instructions else AuthFailed;
            Runs(s, Steps(r, [Expire] + [Proceed]),
                 State(s.shared.(mutex := None), s.requests[r := s.requests[r].(pc := Replied(reply))], s.attempts))
  {
    var v, reply := Of(s, r), if w.Await? && s.attempts[a].auth.authMethod != "browser" then Instructions else AuthFailed;
    assert s.attempts[a].auth.authMethod == "auth_code" && w.Await? ==> reply == Instructions;
    Decided(s, r, v, Expire, reply);
    Told(s, r, [Expire] + [Proceed], Leaving(v, reply));
  }

  /** A user who opens the sign-in link keeps the call waiting; one who does not, or cannot be shown it, gets the device
      code as the reply. */
  lemma CodeIsShown(s: State, r: nat, a: nat, shown: bool)
    requires Waiting(s, r, a, AwaitPrompt) && s.attempts[a].prompted
    ensures Runs(s, Steps(r, [Accept] + (if shown then [Accept] else [Refuse] + [Proceed])),
                 State(if shown then s.shared else s.shared.(mutex := None),
                       s.requests[r := s.requests[r].(pc := if shown then InFlow(a, Await) else Replied(Instructions))], s.attempts))
  {
    var v := Of(s, r);
    var showing := v.(q := v.q.(pc := InFlow(a, Present)));
    var w := if shown then v.(q := v.q.(pc := InFlow(a, Await))) else Leaving(v, Instructions);
    if shown {
      LastTurn(s, r, showing, Accept, Do(Skip, InFlow(a, Await)));
    } else {
      Decided(s, r, showing, Refuse, Instructions);
    }
    Turn(s, r, v, Accept, Do(Skip, InFlow(a, Present)), if shown then [Accept] else [Refuse] + [Proceed], w);
    Told(s, r, [Accept] + (if shown then [Accept] else [Refuse] + [Proceed]), w);
  }

  lemma Settling(s: State, r: nat, v: View, a: nat)
    requires r < |s.requests| && v.q.pc == InFlow(a, FlowSettle) && a < |v.attempts| && v.attempts[a].phase.Finished?
    ensures Goes(s, r, v, [Proceed] + [Proceed],
                 View(v.h.(pendingAuth := false), v.q.(pc := Locked(if v.attempts[a].failed then Unlock(AuthFailed) else CallRetry)), v.attempts))
  {
    var settled := After(r, v, Do(Op.Settle, InFlow(a, FlowReadErr)));
    var edge := Do(ReadErr(a), Locked(if v.attempts[a].failed then Unlock(AuthFailed) else CallRetry));
    LastTurn(s, r, settled, Proceed, edge);
    Turn(s, r, v, Proceed, Do(Op.Settle, InFlow(a, FlowReadErr)), [Proceed], After(r, settled, edge));
  }

  lemma Finishing(s: State, r: nat, v: View, a: nat, w: FlowPc)
    requires r < |s.requests| && v.q.pc == InFlow(a, w) && (w.Await? || w.AwaitPrompt?)
    requires a < |v.attempts| && v.attempts[a].phase.Finished?
    ensures Goes(s, r, v, [Proceed] + ([Proceed] + [Proceed]),
                 View(v.h.(pendingAuth := false), v.q.(pc := Locked(if v.attempts[a].failed then Unlock(AuthFailed) else CallRetry)), v.attempts))
  {
    Settling(s, r, v.(q := v.q.(pc := InFlow(a, FlowSettle))), a);
    Turn(s, r, v, Proceed, Do(Skip, InFlow(a, FlowSettle)), [Proceed] + [Proceed],
         View(v.h.(pendingAuth := false), v.q.(pc := Locked(if v.attempts[a].failed then Unlock(AuthFailed) else CallRetry)), v.attempts));
  }

  /** When the attempt ends in time, the call lowers the flag: after a success it retries its handler, whose answer
      is the reply, and after a failure it reports the failure. */
  lemma AttemptEndsInTime(s: State, r: nat, a: nat, w: FlowPc, resolved: Option<AccountAuth>)
    requires Waiting(s, r, a, w) && s.attempts[a].phase.Finished?
    ensures var q, failed := s.requests[r], s.attempts[a].failed;
            Runs(s, Steps(r, [Proceed] + ([Proceed] + [Proceed]) +
                             (if failed then [Proceed] else [Proceed] + (Handled(resolved, Accept) + [Proceed]))),
                 State(s.shared.(mutex := None, pendingAuth := false),
                       s.requests[r := if failed then q.(pc := Replied(AuthFailed))
                                       else q.(pc := Replied(HandlerAnswer), calls := q.calls + 1, slot := Later(resolved, q.slot))],
                       s.attempts))
  {
    var v, failed := Of(s, r), s.attempts[a].failed;
    var read := View(v.h.(pendingAuth := false), v.q.(pc := Locked(if failed then Unlock(AuthFailed) else CallRetry)), v.attempts);
    var rest := if failed then [Proceed] else [Proceed] + (Handled(resolved, Accept) + [Proceed]);
    var w' := View(read.h.(mutex := None),
                   if failed then v.q.(pc := Replied(AuthFailed))
                   else v.q.(pc := Replied(HandlerAnswer), calls := v.q.calls + 1, slot := Later(resolved, v.q.slot)),
                   v.attempts);
    Finishing(s, r, v, a, w);
    if failed {
      Released(s, r, read, AuthFailed);
    } else {
      Retried(s, r, read, resolved);
    }
    Then(s, r, v, [Proceed] + ([Proceed] + [Proceed]), read, rest, w');
    Told(s, r, [Proceed] + ([Proceed] + [Proceed]) + rest, w');
  }

  /** What a waiting call waits for: its attempt to close, a device code if that is still to come, or its timer. */
  lemma WaitsFor(s: State, r: nat, a: nat, w: FlowPc, c: Choice)
    requires Waiting(s, r, a, w)
    ensures Enabled(s, RequestStep(r, c)) <==>
              || c.Expire?
              || (c.Proceed? && s.attempts[a].phase.Finished?)
              || (c.Accept? && w.AwaitPrompt? && s.attempts[a].prompted)
  {
  }

  // ---------------------------------------------------------------------------
  // The background attempt
  // ---------------------------------------------------------------------------

  function OfAttemptSteps(a: nat, answers: seq<Choice>): seq<Step> {
    if answers == [] then [] else [AttemptStep(a, answers[0])] + OfAttemptSteps(a, answers[1..])
  }

  lemma Works(s: State, a: nat, c: Choice, h: Shared, att: Attempt, answers: seq<Choice>, w: State)
    requires a < |s.attempts| && CanAdvance(s.attempts[a], c) && Advance(s.shared, a, s.attempts[a], c) == (h, att)
    requires Runs(State(h, s.requests, s.attempts[a := att]), OfAttemptSteps(a, answers), w)
    ensures Runs(s, OfAttemptSteps(a, [c] + answers), w)
  {
    assert ([c] + answers)[1..] == answers;
    RunOneMore(s, AttemptStep(a, c), OfAttemptSteps(a, answers));
  }

  /** From the end of the sign-in to the close of `done`: counted down, the error written, closed. */
  lemma Closes(s: State, a: nat)
    requires a < |s.attempts| && s.attempts[a].phase.Ending?
    ensures var att := s.attempts[a];
            Runs(s, OfAttemptSteps(a, [Proceed] + ([Proceed] + ([Proceed] + []))),
                 State(s.shared.(inFlight := s.shared.inFlight - 1), s.requests,
                       s.attempts[a := att.(phase := Finished, failed := !att.ok, writes := att.writes + 1)]))
  {
    var att, h := s.attempts[a], s.shared.(inFlight := s.shared.inFlight - 1);
    var writing := att.(phase := Writing);
    var closing := writing.(phase := Closing, failed := !att.ok, writes := att.writes + 1);
    var s1, s2 := State(h, s.requests, s.attempts[a := writing]), State(h, s.requests, s.attempts[a := closing]);
    var w := State(h, s.requests, s.attempts[a := closing.(phase := Finished)]);
    assert s1.attempts[a := closing] == s2.attempts && s2.attempts[a := closing.(phase := Finished)] == w.attempts;
    Works(s2, a, Proceed, h, closing.(phase := Finished), [], w);
    Works(s1, a, Proceed, h, closing, [Proceed] + [], w);
    Works(s, a, Proceed, h, writing, [Proceed] + ([Proceed] + []), w);
  }

  /** A sign-in that succeeds confirms the credential, logs it if it is the first to, and closes without an error;
      one that fails closes with one and confirms nothing. The flag is left as it is either way. */
  lemma AttemptEnds(s: State, a: nat, ok: bool)
    requires a < |s.attempts| && s.attempts[a].phase.Running?
    ensures var att := s.attempts[a];
            Runs(s, OfAttemptSteps(a, (if ok then [Accept] + Confirming(s.shared) else [Refuse]) + ([Proceed] + ([Proceed] + ([Proceed] + [])))),
                 State((if ok then Confirmed(s.shared, OfAttempt(a)) else s.shared).(inFlight := s.shared.inFlight - 1), s.requests,
                       s.attempts[a := att.(phase := Finished, ok := ok, failed := !ok, writes := att.writes + 1)]))
  {
    var att, h, tail := s.attempts[a], if ok then Confirmed(s.shared, OfAttempt(a)) else s.shared, [Proceed] + ([Proceed] + ([Proceed] + []));
    var ending := State(h, s.requests, s.attempts[a := att.(phase := Ending, ok := ok)]);
    var w := State(h.(inFlight := s.shared.inFlight - 1), s.requests,
                   s.attempts[a := att.(phase := Finished, ok := ok, failed := !ok, writes := att.writes + 1)]);
    Closes(ending, a);
    assert ending.attempts[a := att.(phase := Finished, ok := ok, failed := !ok, writes := att.writes + 1)] == w.attempts;
    if ok {
      var wanted := State(s.shared, s.requests, s.attempts[a := att.(phase := CasWanted, ok := true)]);
      assert wanted.attempts[a := att.(phase := Ending, ok := ok)] == ending.attempts;
      assert wanted.attempts[a] == att.(phase := CasWanted, ok := true);
      ConfirmsFirst(wanted, a, tail, w);
      Works(s, a, Accept, s.shared, att.(phase := CasWanted, ok := true), Confirming(s.shared) + tail, w);
      assert [Accept] + (Confirming(s.shared) + tail) == [Accept] + Confirming(s.shared) + tail;
    } else {
      Works(s, a, Refuse, s.shared, att.(phase := Ending, ok := false), tail, w);
    }
  }

  lemma ConfirmsFirst(s: State, a: nat, tail: seq<Choice>, w: State)
    requires a < |s.attempts| && s.attempts[a].phase.CasWanted?
    requires Runs(State(Confirmed(s.shared, OfAttempt(a)), s.requests, s.attempts[a := s.attempts[a].(phase := Ending)]), OfAttemptSteps(a, tail), w)
    ensures Runs(s, OfAttemptSteps(a, Confirming(s.shared) + tail), w)
  {
    var att := s.attempts[a];
    if s.shared.authenticated {
      Works(s, a, Proceed, s.shared, att.(phase := Ending), tail, w);
    } else {
      var h := s.shared.(authenticated := true, winner := Some(OfAttempt(a)));
      var owed := State(h, s.requests, s.attempts[a := att.(phase := LogOwed)]);
      assert owed.attempts[a := att.(phase := Ending)] == s.attempts[a := att.(phase := Ending)];
      Works(owed, a, Proceed, Confirmed(s.shared, OfAttempt(a)), att.(phase := Ending), tail, w);
      Works(s, a, Proceed, h, att.(phase := LogOwed), [Proceed] + tail, w);
      assert [Proceed] + ([Proceed] + tail) == Confirming(s.shared) + tail;
    }
  }

  /** Only the device code flow sends a prompt, once. */
  lemma PromptIsSent(s: State, a: nat)
    requires a < |s.attempts| && s.attempts[a].phase.Running?
    ensures Enabled(s, AttemptStep(a, Proceed)) <==>
              s.attempts[a].auth.authMethod != "browser" && s.attempts[a].auth.authMethod != "auth_code" && !s.attempts[a].prompted
    ensures Enabled(s, AttemptStep(a, Proceed)) ==>
              Apply(s, AttemptStep(a, Proceed)) == s.(attempts := s.attempts[a := s.attempts[a].(prompted := true)])
  {
  }
}
