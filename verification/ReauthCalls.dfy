/** One call from entry to reply while nobody else moves: what each answer of the outside world leads to. Any
    interleaving is covered by ReauthSafety and ReauthReplies; here every branch is followed to its end. */
module ReauthCalls {
  import opened Wrappers
  import opened Reauth
  import opened ReauthSingleFlight

  /** The steps of request `r` that get these answers. */
  function Steps(r: nat, answers: seq<Choice>): seq<Step> {
    if answers == [] then [] else [RequestStep(r, answers[0])] + Steps(r, answers[1..])
  }

  /** What one request sees and changes. */
  datatype View = View(h: Shared, q: Request, attempts: seq<Attempt>)

  /** The view after an edge has been taken. */
  function After(r: nat, v: View, edge: Edge): View
    requires OpDefined(v.attempts, edge.op)
  {
    View(PerformShared(v.h, r, v.attempts, edge.op),
         PerformLocal(v.h.defaultAuth, v.q, edge.op).(pc := edge.pc),
         PerformAttempts(v.attempts, r, v.q.used.GetOr(v.h.defaultAuth), edge.op))
  }

  predicate Takes(v: View, c: Choice, edge: Edge) {
    CanMove(v.h, v.attempts, v.q, c) && NextEdge(v.h, v.attempts, v.q, c) == edge
  }

  function Of(s: State, r: nat): View
    requires r < |s.requests|
  {
    View(s.shared, s.requests[r], s.attempts)
  }

  /** The state with one request's view replaced. */
  function With(s: State, r: nat, v: View): State
    requires r < |s.requests|
  {
    State(v.h, s.requests[r := v.q], v.attempts)
  }

  predicate AreSteps(r: nat, answers: seq<Choice>, run: seq<Step>) {
    run == Steps(r, answers)
  }

  /** With these answers the request takes the state from one view of it to another. */
  ghost predicate Goes(s: State, r: nat, v: View, answers: seq<Choice>, w: View)
    requires r < |s.requests|
  {
    forall run: seq<Step> {:trigger AreSteps(r, answers, run)} :: AreSteps(r, answers, run) ==> Runs(With(s, r, v), run, With(s, r, w))
  }

  lemma Went(s: State, r: nat, v: View, answers: seq<Choice>, w: View)
    requires r < |s.requests| && Goes(s, r, v, answers, w)
    ensures Runs(With(s, r, v), Steps(r, answers), With(s, r, w))
  {
    assert AreSteps(r, answers, Steps(r, answers));
  }

  lemma Stop(s: State, r: nat, v: View)
    requires r < |s.requests|
    ensures Goes(s, r, v, [], v)
  {
  }

  lemma Turn(s: State, r: nat, v: View, c: Choice, edge: Edge, answers: seq<Choice>, w: View)
    requires r < |s.requests| && Takes(v, c, edge) && Goes(s, r, After(r, v, edge), answers, w)
    ensures Goes(s, r, v, [c] + answers, w)
  {
    var t := With(s, r, v);
    assert t.requests[r := After(r, v, edge).q] == s.requests[r := After(r, v, edge).q];
    assert ([c] + answers)[1..] == answers;
    Went(s, r, After(r, v, edge), answers, w);
    RunOneMore(t, RequestStep(r, c), Steps(r, answers));
  }

  lemma LastTurn(s: State, r: nat, v: View, c: Choice, edge: Edge)
    requires r < |s.requests| && Takes(v, c, edge)
    ensures Goes(s, r, v, [c], After(r, v, edge))
  {
    Stop(s, r, After(r, v, edge));
    Turn(s, r, v, c, edge, [], After(r, v, edge));
    assert [c] + [] == [c];
  }

  lemma OfItself(s: State, r: nat)
    requires r < |s.requests|
    ensures With(s, r, Of(s, r)) == s
  {
    assert s.requests[r := s.requests[r]] == s.requests;
  }

  lemma {:induction false} StepsConcat(r: nat, xs: seq<Choice>, ys: seq<Choice>)
    ensures Steps(r, xs + ys) == Steps(r, xs) + Steps(r, ys)
  {
    if xs == [] {
      assert xs + ys == ys;
    } else {
      assert (xs + ys)[0] == xs[0] && (xs + ys)[1..] == xs[1..] + ys;
      StepsConcat(r, xs[1..], ys);
    }
  }

  lemma Then(s: State, r: nat, v: View, xs: seq<Choice>, u: View, ys: seq<Choice>, w: View)
    requires r < |s.requests| && Goes(s, r, v, xs, u) && Goes(s, r, u, ys, w)
    ensures Goes(s, r, v, xs + ys, w)
  {
    StepsConcat(r, xs, ys);
    Went(s, r, v, xs, u);
    Went(s, r, u, ys, w);
    ExecConcat(With(s, r, v), Steps(r, xs), Steps(r, ys));
  }

  // ---------------------------------------------------------------------------
  // The handler
  // ---------------------------------------------------------------------------

  /** The resolver may store an account, then the handler answers. */
  function Handled(resolved: Option<AccountAuth>, answer: Choice): seq<Choice> {
    (if resolved.Some? then [Resolve(resolved.value)] else []) + [answer]
  }

  function Later(resolved: Option<AccountAuth>, slot: Option<AccountAuth>): Option<AccountAuth> {
    if resolved.Some? then resolved else slot
  }

  /** In the words of the step system: the run of these steps ends in that state. */
  lemma Told(s: State, r: nat, answers: seq<Choice>, w: View)
    requires r < |s.requests| && Goes(s, r, Of(s, r), answers, w)
    ensures Runs(s, Steps(r, answers), State(w.h, s.requests[r := w.q], w.attempts))
  {
    OfItself(s, r);
    Went(s, r, Of(s, r), answers, w);
  }

  /** The answer to a handler that runs without the lock and is not retried. */
  lemma DirectAnswer(s: State, r: nat, v: View, resolved: Option<AccountAuth>)
    requires r < |s.requests| && v.q.pc == Free(InDirect(false))
    ensures Goes(s, r, v, Handled(resolved, Accept), v.(q := v.q.(pc := Replied(HandlerAnswer), slot := Later(resolved, v.q.slot))))
  {
    if resolved.Some? {
      var edge := Do(Store(resolved.value), Free(InDirect(true)));
      LastTurn(s, r, After(r, v, edge), Accept, Do(Skip, Replied(HandlerAnswer)));
      Turn(s, r, v, Resolve(resolved.value), edge, [Accept], v.(q := v.q.(pc := Replied(HandlerAnswer), slot := resolved)));
    } else {
      LastTurn(s, r, v, Accept, Do(Skip, Replied(HandlerAnswer)));
      assert [] + [Accept] == [Accept];
    }
  }

  /** The answer to a handler that runs without the lock and is retried after an authentication error. */
  lemma FirstAnswer(s: State, r: nat, v: View, resolved: Option<AccountAuth>, ok: bool)
    requires r < |s.requests| && v.q.pc == Free(InFirst(false))
    ensures Goes(s, r, v, Handled(resolved, if ok then Accept else Refuse),
                 v.(q := v.q.(pc := if ok then Replied(HandlerAnswer) else Free(AwaitLock),
                              slot := Later(resolved, v.q.slot), resolved := Later(resolved, v.q.resolved))))
  {
    var answer, last := if ok then Accept else Refuse, Do(Skip, if ok then Replied(HandlerAnswer) else Free(AwaitLock));
    if resolved.Some? {
      var edge := Do(StoreFirst(resolved.value), Free(InFirst(true)));
      LastTurn(s, r, After(r, v, edge), answer, last);
      Turn(s, r, v, Resolve(resolved.value), edge, [answer], After(r, After(r, v, edge), last));
    } else {
      LastTurn(s, r, v, answer, last);
      assert [] + [answer] == [answer];
    }
  }

  /** Leaving the lock with the reply decided on. */
  lemma Released(s: State, r: nat, v: View, reply: Reply)
    requires r < |s.requests| && v.q.pc == Locked(Unlock(reply))
    ensures Goes(s, r, v, [Proceed], View(v.h.(mutex := None), v.q.(pc := Replied(reply)), v.attempts))
  {
    LastTurn(s, r, v, Proceed, Do(Release, Replied(reply)));
  }

  lemma FinalAnswer(s: State, r: nat, v: View, resolved: Option<AccountAuth>)
    requires r < |s.requests| && v.q.pc == Locked(InRetry(false))
    ensures Goes(s, r, v, Handled(resolved, Accept),
                 v.(q := v.q.(pc := Locked(Unlock(HandlerAnswer)), slot := Later(resolved, v.q.slot))))
  {
    if resolved.Some? {
      var edge := Do(Store(resolved.value), Locked(InRetry(true)));
      LastTurn(s, r, After(r, v, edge), Accept, Do(Skip, Locked(Unlock(HandlerAnswer))));
      Turn(s, r, v, Resolve(resolved.value), edge, [Accept], v.(q := v.q.(pc := Locked(Unlock(HandlerAnswer)), slot := resolved)));
    } else {
      LastTurn(s, r, v, Accept, Do(Skip, Locked(Unlock(HandlerAnswer))));
      assert [] + [Accept] == [Accept];
    }
  }

  /** The answer to the retry, and the release of the lock. */
  lemma RetryAnswer(s: State, r: nat, v: View, resolved: Option<AccountAuth>)
    requires r < |s.requests| && v.q.pc == Locked(InRetry(false))
    ensures Goes(s, r, v, Handled(resolved, Accept) + [Proceed],
                 View(v.h.(mutex := None), v.q.(pc := Replied(HandlerAnswer), slot := Later(resolved, v.q.slot)), v.attempts))
  {
    var answered := v.(q := v.q.(pc := Locked(Unlock(HandlerAnswer)), slot := Later(resolved, v.q.slot)));
    FinalAnswer(s, r, v, resolved);
    Released(s, r, answered, HandlerAnswer);
    Then(s, r, v, Handled(resolved, Accept), answered, [Proceed],
         View(v.h.(mutex := None), answered.q.(pc := Replied(HandlerAnswer)), v.attempts));
  }

  /** Retrying the handler once the credential works again. */
  lemma Retried(s: State, r: nat, v: View, resolved: Option<AccountAuth>)
    requires r < |s.requests| && v.q.pc == Locked(CallRetry)
    ensures Goes(s, r, v, [Proceed] + (Handled(resolved, Accept) + [Proceed]),
                 v.(h := v.h.(mutex := None),
                    q := v.q.(pc := Replied(HandlerAnswer), calls := v.q.calls + 1, slot := Later(resolved, v.q.slot))))
  {
    var called := After(r, v, Do(CallHandler, Locked(InRetry(false))));
    RetryAnswer(s, r, called, resolved);
    Turn(s, r, v, Proceed, Do(CallHandler, Locked(InRetry(false))), Handled(resolved, Accept) + [Proceed],
         called.(h := called.h.(mutex := None), q := called.q.(pc := Replied(HandlerAnswer), slot := Later(resolved, v.q.slot))));
  }

  // ---------------------------------------------------------------------------
  // Without the lock
  // ---------------------------------------------------------------------------

  /** Calling the handler whose answer is final. */
  lemma Direct(s: State, r: nat, v: View, resolved: Option<AccountAuth>)
    requires r < |s.requests| && v.q.pc == Free(CallDirect)
    ensures Goes(s, r, v, [Proceed] + Handled(resolved, Accept),
                 v.(q := v.q.(pc := Replied(HandlerAnswer), calls := v.q.calls + 1, slot := Later(resolved, v.q.slot))))
  {
    var called := After(r, v, Do(CallHandler, Free(InDirect(false))));
    DirectAnswer(s, r, called, resolved);
    Turn(s, r, v, Proceed, Do(CallHandler, Free(InDirect(false))), Handled(resolved, Accept),
         called.(q := called.q.(pc := Replied(HandlerAnswer), slot := Later(resolved, v.q.slot))));
  }

  lemma First(s: State, r: nat, v: View, resolved: Option<AccountAuth>, ok: bool)
    requires r < |s.requests| && v.q.pc == Free(CallFirst)
    ensures Goes(s, r, v, [Proceed] + Handled(resolved, if ok then Accept else Refuse),
                 v.(q := v.q.(pc := if ok then Replied(HandlerAnswer) else Free(AwaitLock), calls := v.q.calls + 1,
                              slot := Later(resolved, v.q.slot), resolved := Later(resolved, v.q.resolved))))
  {
    var called := After(r, v, Do(CallHandler, Free(InFirst(false))));
    FirstAnswer(s, r, called, resolved, ok);
    Turn(s, r, v, Proceed, Do(CallHandler, Free(InFirst(false))), Handled(resolved, if ok then Accept else Refuse),
         called.(q := called.q.(pc := if ok then Replied(HandlerAnswer) else Free(AwaitLock),
                                slot := Later(resolved, v.q.slot), resolved := Later(resolved, v.q.resolved))));
  }

  /** With a working credential the handler is called at once. An answer that is no authentication error is the
      reply, given without lock or prompt; an authentication error leads to the lock and nowhere else. */
  lemma WarmCall(s: State, r: nat, resolved: Option<AccountAuth>, ok: bool)
    requires r < |s.requests| && s.requests[r].pc == Free(CheckPre)
    requires s.shared.preAuthenticated || s.shared.authenticated
    ensures var q, loads := s.requests[r], if s.shared.preAuthenticated then [Proceed] else [Proceed, Proceed];
            Runs(s, Steps(r, loads + ([Proceed] + Handled(resolved, if ok then Accept else Refuse))),
                 State(s.shared,
                       s.requests[r := q.(pc := if ok then Replied(HandlerAnswer) else Free(AwaitLock), calls := q.calls + 1,
                                          slot := Later(resolved, q.slot), resolved := Later(resolved, q.resolved))],
                       s.attempts))
  {
    var v, loads := Of(s, r), if s.shared.preAuthenticated then [Proceed] else [Proceed, Proceed];
    var ready := v.(q := v.q.(pc := Free(CallFirst)));
    var w := v.(q := v.q.(pc := if ok then Replied(HandlerAnswer) else Free(AwaitLock), calls := v.q.calls + 1,
                          slot := Later(resolved, v.q.slot), resolved := Later(resolved, v.q.resolved)));
    TestedWarm(s, r, v);
    First(s, r, ready, resolved, ok);
    Then(s, r, v, loads, ready, [Proceed] + Handled(resolved, if ok then Accept else Refuse), w);
    Told(s, r, loads + ([Proceed] + Handled(resolved, if ok then Accept else Refuse)), w);
  }

  lemma TestedWarm(s: State, r: nat, v: View)
    requires r < |s.requests| && v.q.pc == Free(CheckPre) && (v.h.preAuthenticated || v.h.authenticated)
    ensures Goes(s, r, v, if v.h.preAuthenticated then [Proceed] else [Proceed, Proceed], v.(q := v.q.(pc := Free(CallFirst))))
  {
    if v.h.preAuthenticated {
      LastTurn(s, r, v, Proceed, Do(Skip, Free(CallFirst)));
    } else {
      LastTurn(s, r, v.(q := v.q.(pc := Free(CheckAuth))), Proceed, Do(Skip, Free(CallFirst)));
      Turn(s, r, v, Proceed, Do(Skip, Free(CheckAuth)), [Proceed], v.(q := v.q.(pc := Free(CallFirst))));
      assert [Proceed] + [Proceed] == [Proceed, Proceed];
    }
  }

  lemma TestedCold(s: State, r: nat, v: View)
    requires r < |s.requests| && v.q.pc == Free(CheckPre) && !v.h.preAuthenticated && !v.h.authenticated
    ensures Goes(s, r, v, [Proceed, Proceed], v.(q := v.q.(pc := Free(if v.q.recovery then CallDirect else FreshSilent))))
  {
    var edge := Do(Skip, Free(if v.q.recovery then CallDirect else FreshSilent));
    LastTurn(s, r, v.(q := v.q.(pc := Free(CheckAuth))), Proceed, edge);
    Turn(s, r, v, Proceed, Do(Skip, Free(CheckAuth)), [Proceed], v.(q := v.q.(pc := edge.pc)));
    assert [Proceed] + [Proceed] == [Proceed, Proceed];
  }

  /** Without a credential an account-domain call still gets its handler, at once and for good. */
  lemma RecoveryCall(s: State, r: nat, resolved: Option<AccountAuth>)
    requires r < |s.requests| && s.requests[r].pc == Free(CheckPre) && s.requests[r].recovery
    requires !s.shared.preAuthenticated && !s.shared.authenticated
    ensures var q := s.requests[r];
            Runs(s, Steps(r, [Proceed, Proceed] + ([Proceed] + Handled(resolved, Accept))),
                 State(s.shared,
                       s.requests[r := q.(pc := Replied(HandlerAnswer), calls := q.calls + 1, slot := Later(resolved, q.slot))],
                       s.attempts))
  {
    var v := Of(s, r);
    var ready := v.(q := v.q.(pc := Free(CallDirect)));
    var w := v.(q := v.q.(pc := Replied(HandlerAnswer), calls := v.q.calls + 1, slot := Later(resolved, v.q.slot)));
    TestedCold(s, r, v);
    Direct(s, r, ready, resolved);
    Then(s, r, v, [Proceed, Proceed], ready, [Proceed] + Handled(resolved, Accept), w);
    Told(s, r, [Proceed, Proceed] + ([Proceed] + Handled(resolved, Accept)), w);
  }

  /** Any other call without a credential asks for a token first; when there is none, it goes for the lock without
      having called its handler. */
  lemma ColdCallWithoutToken(s: State, r: nat)
    requires r < |s.requests| && s.requests[r].pc == Free(CheckPre) && !s.requests[r].recovery
    requires !s.shared.preAuthenticated && !s.shared.authenticated
    ensures Runs(s, Steps(r, [Proceed, Proceed] + [Refuse]),
                 State(s.shared, s.requests[r := s.requests[r].(pc := Free(AwaitLock))], s.attempts))
  {
    var v := Of(s, r);
    var asking := v.(q := v.q.(pc := Free(FreshSilent)));
    TestedCold(s, r, v);
    LastTurn(s, r, asking, Refuse, Do(Skip, Free(AwaitLock)));
    Then(s, r, v, [Proceed, Proceed], asking, [Refuse], v.(q := v.q.(pc := Free(AwaitLock))));
    Told(s, r, [Proceed, Proceed] + [Refuse], v.(q := v.q.(pc := Free(AwaitLock))));
  }

  /** The credential is confirmed, and the line logged, by whoever was first. */
  function Confirmed(h: Shared, who: Actor): Shared {
    if h.authenticated then h else h.(authenticated := true, winner := Some(who), readyLogs := h.readyLogs + 1)
  }

  function Confirming(h: Shared): seq<Choice> {
    if h.authenticated then [Proceed] else [Proceed, Proceed]
  }

  lemma SilentlyConfirmed(s: State, r: nat, v: View)
    requires r < |s.requests| && v.q.pc == Free(SilentCas)
    ensures Goes(s, r, v, Confirming(v.h), View(Confirmed(v.h, OfRequest(r)), v.q.(pc := Free(CallDirect)), v.attempts))
  {
    var edge := Do(CasAuthenticated, Free(if v.h.authenticated then CallDirect else SilentLog));
    if v.h.authenticated {
      LastTurn(s, r, v, Proceed, edge);
    } else {
      LastTurn(s, r, After(r, v, edge), Proceed, Do(LogReady, Free(CallDirect)));
      Turn(s, r, v, Proceed, edge, [Proceed], After(r, After(r, v, edge), Do(LogReady, Free(CallDirect))));
      assert [Proceed] + [Proceed] == [Proceed, Proceed];
    }
  }

  /** With a token it confirms the credential and calls its handler once, whose answer is the reply. */
  lemma ColdCallWithToken(s: State, r: nat, resolved: Option<AccountAuth>)
    requires r < |s.requests| && s.requests[r].pc == Free(CheckPre) && !s.requests[r].recovery
    requires !s.shared.preAuthenticated && !s.shared.authenticated
    ensures var q := s.requests[r];
            Runs(s, Steps(r, [Proceed, Proceed] + ([Accept] + ([Proceed, Proceed] + ([Proceed] + Handled(resolved, Accept))))),
                 State(s.shared.(authenticated := true, winner := Some(OfRequest(r)), readyLogs := s.shared.readyLogs + 1),
                       s.requests[r := q.(pc := Replied(HandlerAnswer), calls := q.calls + 1, slot := Later(resolved, q.slot))],
                       s.attempts))
  {
    var v := Of(s, r);
    var asking := v.(q := v.q.(pc := Free(FreshSilent)));
    var told := v.(q := v.q.(pc := Free(SilentCas)));
    var ready := View(Confirmed(v.h, OfRequest(r)), v.q.(pc := Free(CallDirect)), v.attempts);
    var w := ready.(q := v.q.(pc := Replied(HandlerAnswer), calls := v.q.calls + 1, slot := Later(resolved, v.q.slot)));
    TestedCold(s, r, v);
    SilentlyConfirmed(s, r, told);
    Direct(s, r, ready, resolved);
    Then(s, r, told, [Proceed, Proceed], ready, [Proceed] + Handled(resolved, Accept), w);
    Turn(s, r, asking, Accept, Do(Skip, Free(SilentCas)), [Proceed, Proceed] + ([Proceed] + Handled(resolved, Accept)), w);
    Then(s, r, v, [Proceed, Proceed], asking, [Accept] + ([Proceed, Proceed] + ([Proceed] + Handled(resolved, Accept))), w);
    Told(s, r, [Proceed, Proceed] + ([Accept] + ([Proceed, Proceed] + ([Proceed] + Handled(resolved, Accept)))), w);
  }

  // ---------------------------------------------------------------------------
  // Entry
  // ---------------------------------------------------------------------------

  /** With the busy flag down a call goes straight on. */
  lemma QuietEntry(s: State, r: nat)
    requires r < |s.requests| && s.requests[r].pc == Entering(Start) && !s.shared.pendingAuth
    ensures Runs(s, Steps(r, [Proceed]), State(s.shared, s.requests[r := s.requests[r].(pc := Free(CheckPre))], s.attempts))
  {
    LastTurn(s, r, Of(s, r), Proceed, Do(Skip, Free(CheckPre)));
    Told(s, r, [Proceed], Of(s, r).(q := s.requests[r].(pc := Free(CheckPre))));
  }

  /** The flag is up, and `pending` is this attempt. */
  predicate BusyEntry(s: State, r: nat, a: nat) {
    && r < |s.requests| && s.requests[r].pc == Entering(Start)
    && s.shared.pendingAuth && s.shared.pending == Some(a) && a < |s.attempts|
  }

  lemma Inspecting(s: State, r: nat, v: View, a: nat)
    requires r < |s.requests| && v.q.pc == Entering(Start) && v.h.pendingAuth && v.h.pending == Some(a) && a < |v.attempts|
    ensures Goes(s, r, v, [Proceed] + [Proceed], v.(q := v.q.(pc := Entering(Inspect(a)))))
  {
    LastTurn(s, r, v.(q := v.q.(pc := Entering(LoadPending))), Proceed, Do(Skip, Entering(Inspect(a))));
    Turn(s, r, v, Proceed, Do(Skip, Entering(LoadPending)), [Proceed], v.(q := v.q.(pc := Entering(Inspect(a)))));
  }

  /** While that attempt is unfinished an account-domain call gets its handler, and any other is told that
      authentication is in progress; the flag stays up either way. */
  lemma EntryWhileRunning(s: State, r: nat, a: nat, resolved: Option<AccountAuth>)
    requires BusyEntry(s, r, a) && !s.attempts[a].phase.Finished?
    ensures var q := s.requests[r];
            Runs(s, Steps(r, [Proceed] + [Proceed] + ([Proceed] + if q.recovery then [Proceed] + Handled(resolved, Accept) else [])),
                 State(s.shared,
                       s.requests[r := if q.recovery
                                       then q.(pc := Replied(HandlerAnswer), calls := q.calls + 1, slot := Later(resolved, q.slot))
                                       else q.(pc := Replied(InProgress))],
                       s.attempts))
  {
    var v := Of(s, r);
    var looking := v.(q := v.q.(pc := Entering(Inspect(a))));
    var rest := if v.q.recovery then [Proceed] + Handled(resolved, Accept) else [];
    var w := v.(q := if v.q.recovery
                     then v.q.(pc := Replied(HandlerAnswer), calls := v.q.calls + 1, slot := Later(resolved, v.q.slot))
                     else v.q.(pc := Replied(InProgress)));
    Inspecting(s, r, v, a);
    if v.q.recovery {
      Direct(s, r, v.(q := v.q.(pc := Free(CallDirect))), resolved);
      Turn(s, r, looking, Proceed, Do(Skip, Free(CallDirect)), rest, w);
    } else {
      Stop(s, r, w);
      Turn(s, r, looking, Proceed, Do(Skip, Replied(InProgress)), rest, w);
    }
    Then(s, r, v, [Proceed] + [Proceed], looking, [Proceed] + rest, w);
    Told(s, r, [Proceed] + [Proceed] + ([Proceed] + rest), w);
  }

  lemma SeesOutcome(s: State, r: nat, v: View, a: nat)
    requires r < |s.requests| && v.q.pc == Entering(Inspect(a)) && a < |v.attempts| && v.attempts[a].phase.Finished?
    ensures Goes(s, r, v, [Proceed] + [Proceed], v.(q := v.q.(pc := Entering(EntrySettle(Some(a), v.attempts[a].failed)))))
  {
    var edge := Do(ReadErr(a), Entering(EntrySettle(Some(a), v.attempts[a].failed)));
    LastTurn(s, r, v.(q := v.q.(pc := Entering(EntryReadErr(a)))), Proceed, edge);
    Turn(s, r, v, Proceed, Do(Skip, Entering(EntryReadErr(a))), [Proceed], v.(q := v.q.(pc := edge.pc)));
  }

  /** Once it has failed the call that finds it so lowers the flag and is answered with the failure, whatever it
      was for. */
  lemma EntryAfterFailure(s: State, r: nat, a: nat)
    requires BusyEntry(s, r, a) && s.attempts[a].phase.Finished? && s.attempts[a].failed
    ensures Runs(s, Steps(r, [Proceed] + [Proceed] + ([Proceed] + [Proceed] + [Proceed])),
                 State(s.shared.(pendingAuth := false),
                       s.requests[r := s.requests[r].(pc := Replied(FailedAttempt))],
                       s.attempts[a := s.attempts[a].(intercepted := s.attempts[a].intercepted + 1)]))
  {
    var v := Of(s, r);
    var looking, settling := v.(q := v.q.(pc := Entering(Inspect(a)))), v.(q := v.q.(pc := Entering(EntrySettle(Some(a), true))));
    var edge := Do(SettleFailed(a), Replied(FailedAttempt));
    Inspecting(s, r, v, a);
    SeesOutcome(s, r, looking, a);
    LastTurn(s, r, settling, Proceed, edge);
    Then(s, r, looking, [Proceed] + [Proceed], settling, [Proceed], After(r, settling, edge));
    Then(s, r, v, [Proceed] + [Proceed], looking, [Proceed] + [Proceed] + [Proceed], After(r, settling, edge));
    Told(s, r, [Proceed] + [Proceed] + ([Proceed] + [Proceed] + [Proceed]), After(r, settling, edge));
  }

  lemma ConfirmedAtEntry(s: State, r: nat, v: View)
    requires r < |s.requests| && v.q.pc == Free(EntryCas)
    ensures Goes(s, r, v, Confirming(v.h), View(Confirmed(v.h, OfRequest(r)), v.q.(pc := Free(CheckPre)), v.attempts))
  {
    var edge := Do(CasAuthenticated, Free(if v.h.authenticated then CheckPre else EntryLog));
    if v.h.authenticated {
      LastTurn(s, r, v, Proceed, edge);
    } else {
      LastTurn(s, r, After(r, v, edge), Proceed, Do(LogReady, Free(CheckPre)));
      Turn(s, r, v, Proceed, edge, [Proceed], After(r, After(r, v, edge), Do(LogReady, Free(CheckPre))));
      assert [Proceed] + [Proceed] == [Proceed, Proceed];
    }
  }

  /** Once it has succeeded the call lowers the flag, confirms the credential and goes on as if it had just come. */
  lemma EntryAfterSuccess(s: State, r: nat, a: nat)
    requires BusyEntry(s, r, a) && s.attempts[a].phase.Finished? && !s.attempts[a].failed
    ensures Runs(s, Steps(r, [Proceed] + [Proceed] + ([Proceed] + [Proceed] + ([Proceed] + Confirming(s.shared)))),
                 State(Confirmed(s.shared, OfRequest(r)).(pendingAuth := false),
                       s.requests[r := s.requests[r].(pc := Free(CheckPre), fellThrough := true)], s.attempts))
  {
    var v := Of(s, r);
    var looking, settling := v.(q := v.q.(pc := Entering(Inspect(a)))), v.(q := v.q.(pc := Entering(EntrySettle(Some(a), false))));
    var settled := View(v.h.(pendingAuth := false), v.q.(pc := Free(EntryCas), fellThrough := true), v.attempts);
    var w := View(Confirmed(settled.h, OfRequest(r)), settled.q.(pc := Free(CheckPre)), v.attempts);
    Inspecting(s, r, v, a);
    SeesOutcome(s, r, looking, a);
    ConfirmedAtEntry(s, r, settled);
    Turn(s, r, settling, Proceed, Do(SettleOk, Free(EntryCas)), Confirming(v.h), w);
    Then(s, r, looking, [Proceed] + [Proceed], settling, [Proceed] + Confirming(v.h), w);
    Then(s, r, v, [Proceed] + [Proceed], looking, [Proceed] + [Proceed] + ([Proceed] + Confirming(v.h)), w);
    Told(s, r, [Proceed] + [Proceed] + ([Proceed] + [Proceed] + ([Proceed] + Confirming(v.h))), w);
  }
}
