/** At most one background attempt: exactly which runs have it, and why the check-and-settle at
    entry must be one step. */
module ReauthSingleFlight {
  import opened Wrappers
  import opened Reauth
  import opened ReauthInvariant
  import opened ReauthSafety

  /** The busy flag tells the truth: whatever runs is the published attempt, and the flag is up. */
  ghost predicate FlagTruthful(h: Shared, attempts: seq<Attempt>) {
    forall a :: 0 <= a < |attempts| && attempts[a].phase.Live() ==>
      h.pendingAuth && h.pending.Some? && h.pending.value == a
  }

  ghost predicate BusyOk(s: State) {
    FlagTruthful(s.shared, s.attempts)
  }

  /** Past the check of the flag under the lock, up to the publication of a new attempt. */
  predicate AboutToBegin(pc: Pc) {
    pc.Locked? && (pc.l.LoadSlot? || pc.l.LockedSilent? || pc.l.AuthCode? || pc.l.Begin?)
  }

  ghost predicate FlagDownBeforeBegin(s: State) {
    forall r :: 0 <= r < |s.requests| && AboutToBegin(s.requests[r].pc) ==> !s.shared.pendingAuth
  }

  /** A settle at entry while the published attempt is alive: the caller saw an older one finish. */
  predicate StaleSettle(s: State, step: Step) {
    && step.RequestStep? && step.r < |s.requests|
    && s.requests[step.r].pc.Entering? && s.requests[step.r].pc.e.EntrySettle?
    && s.shared.pending.Some? && s.shared.pending.value < |s.attempts|
    && s.attempts[s.shared.pending.value].phase.Live()
  }

  // ---------------------------------------------------------------------------
  // One step
  // ---------------------------------------------------------------------------

  lemma EdgeFlagDown(h: Shared, attempts: seq<Attempt>, r: nat, q: Request, c: Choice)
    requires CanMove(h, attempts, q, c) && (AboutToBegin(q.pc) ==> !h.pendingAuth)
    ensures var edge := NextEdge(h, attempts, q, c);
            AboutToBegin(edge.pc) ==> !PerformShared(h, r, attempts, edge.op).pendingAuth
  {
  }

  lemma StepFlagDown(s: State, step: Step)
    requires Inv(s) && FlagDownBeforeBegin(s) && Enabled(s, step) && !step.EntryAtomic?
    ensures FlagDownBeforeBegin(Apply(s, step))
  {
    var s' := Apply(s, step);
    match step
    case RequestStep(r, c) =>
      var q := s.requests[r];
      var op := NextEdge(s.shared, s.attempts, q, c).op;
      EdgeLegal(s.shared, s.attempts, r, q, c);
      EdgeFlagDown(s.shared, s.attempts, r, q, c);
      forall b | 0 <= b < |s'.requests| && b != r && AboutToBegin(s'.requests[b].pc) ensures !s'.shared.pendingAuth {
        assert RequestOk(s.shared, s.attempts, b, s.requests[b]);
        assert !op.RaiseBusy?;
      }
    case AttemptStep(a, c) => AdvanceKeeps(s.shared, a, s.attempts[a], c);
    case _ =>
  }

  /** The flag stays truthful under every access except a stale settle. */
  lemma PerformBusy(h: Shared, attempts: seq<Attempt>, r: nat, used: Option<AccountAuth>, auth: AccountAuth, op: Op)
    requires OpLegal(h, attempts, r, used, op) && PendingOk(h, attempts)
    requires FlagTruthful(h, attempts)
    requires op.Publish? ==> forall a :: 0 <= a < |attempts| ==> !attempts[a].phase.Live()
    requires op.RaiseBusy? || op.CountFlow? || op.SpawnFlow? ==> op.a + 1 == |attempts|
    requires op.Settle? || op.SettleOk? || op.SettleFailed? ==> attempts != [] && !attempts[|attempts| - 1].phase.Live()
    ensures FlagTruthful(PerformShared(h, r, attempts, op), PerformAttempts(attempts, r, auth, op))
  {
  }

  lemma NoneLive(s: State)
    requires Inv(s) && BusyOk(s) && !s.shared.pendingAuth
    ensures forall a :: 0 <= a < |s.attempts| ==> !s.attempts[a].phase.Live()
  {
  }

  /** Where the accesses that concern the flag are made. */
  lemma EdgePlaces(h: Shared, attempts: seq<Attempt>, q: Request, c: Choice)
    requires CanMove(h, attempts, q, c)
    ensures var op := NextEdge(h, attempts, q, c).op;
            && (op.Publish? ==> AboutToBegin(q.pc))
            && (op.RaiseBusy? || op.CountFlow? || op.SpawnFlow? ==> q.pc.InFlow? && op.a == q.pc.a)
            && (op.Settle? ==> q.pc.InFlow? && q.pc.w.FlowSettle?)
            && (op.SettleOk? || op.SettleFailed? ==> q.pc.Entering? && q.pc.e.EntrySettle?)
  {
  }

  /** What the accesses of request `r` presuppose for the flag to stay truthful. */
  lemma EdgeBusy(s: State, r: nat, c: Choice)
    requires Inv(s) && BusyOk(s) && FlagDownBeforeBegin(s)
    requires r < |s.requests| && CanMove(s.shared, s.attempts, s.requests[r], c)
    requires !StaleSettle(s, RequestStep(r, c))
    ensures var op := NextEdge(s.shared, s.attempts, s.requests[r], c).op;
            && (op.Publish? ==> forall a :: 0 <= a < |s.attempts| ==> !s.attempts[a].phase.Live())
            && (op.RaiseBusy? || op.CountFlow? || op.SpawnFlow? ==> op.a + 1 == |s.attempts|)
            && (op.Settle? || op.SettleOk? || op.SettleFailed? ==>
                  s.attempts != [] && !s.attempts[|s.attempts| - 1].phase.Live())
  {
    var q := s.requests[r];
    EdgePlaces(s.shared, s.attempts, q, c);
    assert FlowOk(s.attempts, r, q) && EntryOk(s.shared, s.attempts, q);
    if AboutToBegin(q.pc) {
      NoneLive(s);
    }
  }

  lemma RequestBusy(s: State, r: nat, c: Choice)
    requires Inv(s) && BusyOk(s) && FlagDownBeforeBegin(s)
    requires r < |s.requests| && CanMove(s.shared, s.attempts, s.requests[r], c)
    requires !StaleSettle(s, RequestStep(r, c))
    ensures BusyOk(Follow(s, r, NextEdge(s.shared, s.attempts, s.requests[r], c)))
  {
    var q := s.requests[r];
    EdgeLegal(s.shared, s.attempts, r, q, c);
    EdgeBusy(s, r, c);
    PerformBusy(s.shared, s.attempts, r, q.used, q.used.GetOr(s.shared.defaultAuth),
                NextEdge(s.shared, s.attempts, q, c).op);
  }

  lemma AdvanceBusy(h: Shared, attempts: seq<Attempt>, a: nat, c: Choice)
    requires a < |attempts| && CanAdvance(attempts[a], c) && FlagTruthful(h, attempts)
    ensures var (h', att') := Advance(h, a, attempts[a], c);
            FlagTruthful(h', attempts[a := att'])
  {
  }

  lemma StepBusy(s: State, step: Step)
    requires Inv(s) && BusyOk(s) && FlagDownBeforeBegin(s)
    requires Enabled(s, step) && !step.EntryAtomic? && !StaleSettle(s, step)
    ensures BusyOk(Apply(s, step))
  {
    match step
    case RequestStep(r, c) => RequestBusy(s, r, c);
    case AttemptStep(a, c) => AdvanceBusy(s.shared, s.attempts, a, c);
    case _ =>
  }

  lemma StaleSettleBreaks(s: State, step: Step)
    requires Inv(s) && Enabled(s, step) && StaleSettle(s, step)
    ensures !BusyOk(Apply(s, step))
  {
    var p := s.shared.pending.value;
    var s' := Apply(s, step);
    assert s'.attempts[p].phase == s.attempts[p].phase;
    assert !s'.shared.pendingAuth;
  }

  // ---------------------------------------------------------------------------
  // Fine-grained runs: exactly when the flag tells the truth
  // ---------------------------------------------------------------------------

  ghost predicate AlwaysBusyOk(s: State, run: seq<Step>)
    requires Feasible(s, run)
    decreases |run|
  {
    BusyOk(s) && (run != [] ==> AlwaysBusyOk(Apply(s, run[0]), run[1..]))
  }

  ghost predicate NoStaleSettle(s: State, run: seq<Step>)
    requires Feasible(s, run)
    decreases |run|
  {
    run != [] ==> !StaleSettle(s, run[0]) && NoStaleSettle(Apply(s, run[0]), run[1..])
  }

  lemma {:induction false} BusyIffNoStaleSettleFrom(s: State, run: seq<Step>)
    requires Inv(s) && BusyOk(s) && FlagDownBeforeBegin(s) && Fine(run) && Feasible(s, run)
    ensures AlwaysBusyOk(s, run) <==> NoStaleSettle(s, run)
    decreases |run|
  {
    if run != [] {
      if StaleSettle(s, run[0]) {
        StaleSettleBreaks(s, run[0]);
      } else {
        StepKeeps(s, run[0]);
        StepFlagDown(s, run[0]);
        StepBusy(s, run[0]);
        BusyIffNoStaleSettleFrom(Apply(s, run[0]), run[1..]);
      }
    }
  }

  /** Over a whole fine-grained run: at most one attempt is alive, it is the published one, and the
      flag is up while it lives, in every state of the run, if and only if no request settles at
      entry while the published attempt is alive. */
  lemma BusyIffNoStaleSettle(d: AccountAuth, run: seq<Step>)
    requires Fine(run) && Feasible(Init(d), run)
    ensures AlwaysBusyOk(Init(d), run) <==> NoStaleSettle(Init(d), run)
  {
    BusyIffNoStaleSettleFrom(Init(d), run);
  }

  // ---------------------------------------------------------------------------
  // Check-and-settle as one step
  // ---------------------------------------------------------------------------

  /** The uninterrupted fine-grained schedule of one entry check. */
  function EntrySchedule(s: State, r: nat): seq<Step> {
    var go := RequestStep(r, Proceed);
    if !s.shared.pendingAuth then [go]
    else if s.shared.pending.Some? && s.shared.pending.value < |s.attempts|
            && s.attempts[s.shared.pending.value].phase.Finished? then [go, go, go, go, go]
    else [go, go, go]
  }

  lemma RunOneMore(s: State, step: Step, rest: seq<Step>)
    requires Enabled(s, step) && Feasible(Apply(s, step), rest)
    ensures Feasible(s, [step] + rest) && Exec(s, [step] + rest) == Exec(Apply(s, step), rest)
  {
  }

  /** The state with request `r` moved to another position. */
  function At(s: State, r: nat, pc: Pc): State
    requires r < |s.requests|
  {
    s.(requests := s.requests[r := s.requests[r].(pc := pc)])
  }

  lemma InspectingSteps(s: State, r: nat, a: nat)
    requires Enabled(s, EntryAtomic(r)) && s.shared.pendingAuth && s.shared.pending == Some(a) && a < |s.attempts|
    ensures Enabled(s, RequestStep(r, Proceed))
    ensures Apply(s, RequestStep(r, Proceed)) == At(s, r, Entering(LoadPending))
    ensures Enabled(At(s, r, Entering(LoadPending)), RequestStep(r, Proceed))
    ensures Apply(At(s, r, Entering(LoadPending)), RequestStep(r, Proceed)) == At(s, r, Entering(Inspect(a)))
    ensures Enabled(At(s, r, Entering(Inspect(a))), RequestStep(r, Proceed))
    ensures Apply(At(s, r, Entering(Inspect(a))), RequestStep(r, Proceed)) ==
            if s.attempts[a].phase.Finished? then At(s, r, Entering(EntryReadErr(a))) else Apply(s, EntryAtomic(r))
  {
  }

  lemma SettlingSteps(s: State, r: nat, a: nat)
    requires Enabled(s, EntryAtomic(r)) && s.shared.pendingAuth && s.shared.pending == Some(a) && a < |s.attempts|
    requires s.attempts[a].phase.Finished?
    ensures var s3, s4 := At(s, r, Entering(EntryReadErr(a))), At(s, r, Entering(EntrySettle(Some(a), s.attempts[a].failed)));
            && Enabled(s3, RequestStep(r, Proceed)) && Apply(s3, RequestStep(r, Proceed)) == s4
            && Enabled(s4, RequestStep(r, Proceed)) && Apply(s4, RequestStep(r, Proceed)) == Apply(s, EntryAtomic(r))
  {
  }

  /** One step from a state to a known next one. */
  predicate Leads(s: State, step: Step, s': State) {
    Enabled(s, step) && Apply(s, step) == s'
  }

  predicate Runs(s: State, run: seq<Step>, s': State) {
    Feasible(s, run) && Exec(s, run) == s'
  }

  lemma TwoSteps(s: State, s1: State, s2: State, step: Step)
    requires Leads(s, step, s1) && Leads(s1, step, s2)
    ensures Runs(s, [step, step], s2)
  {
    RunOneMore(s1, step, []);
    RunOneMore(s, step, [step]);
  }

  lemma ThreeSteps(s: State, s1: State, s2: State, s3: State, step: Step)
    requires Leads(s, step, s1) && Leads(s1, step, s2) && Leads(s2, step, s3)
    ensures Runs(s, [step, step, step], s3)
  {
    TwoSteps(s1, s2, s3, step);
    RunOneMore(s, step, [step, step]);
  }

  lemma FiveSteps(s: State, s1: State, s2: State, s3: State, s4: State, s5: State, step: Step)
    requires Leads(s, step, s1) && Leads(s1, step, s2) && Leads(s2, step, s3)
    requires Leads(s3, step, s4) && Leads(s4, step, s5)
    ensures Runs(s, [step, step, step, step, step], s5)
  {
    ThreeSteps(s2, s3, s4, s5, step);
    RunOneMore(s1, step, [step, step, step]);
    RunOneMore(s, step, [step, step, step, step]);
  }

  lemma FinishedSchedule(s: State, r: nat, a: nat)
    requires Inv(s) && Enabled(s, EntryAtomic(r)) && s.shared.pendingAuth
    requires s.shared.pending == Some(a) && a < |s.attempts| && s.attempts[a].phase.Finished?
    ensures Runs(s, EntrySchedule(s, r), Apply(s, EntryAtomic(r)))
  {
    InspectingSteps(s, r, a);
    SettlingSteps(s, r, a);
    FiveSteps(s, At(s, r, Entering(LoadPending)), At(s, r, Entering(Inspect(a))), At(s, r, Entering(EntryReadErr(a))),
              At(s, r, Entering(EntrySettle(Some(a), s.attempts[a].failed))), Apply(s, EntryAtomic(r)),
              RequestStep(r, Proceed));
  }

  lemma RunningSchedule(s: State, r: nat, a: nat)
    requires Inv(s) && Enabled(s, EntryAtomic(r)) && s.shared.pendingAuth
    requires s.shared.pending == Some(a) && a < |s.attempts| && !s.attempts[a].phase.Finished?
    ensures Runs(s, EntrySchedule(s, r), Apply(s, EntryAtomic(r)))
  {
    InspectingSteps(s, r, a);
    ThreeSteps(s, At(s, r, Entering(LoadPending)), At(s, r, Entering(Inspect(a))), Apply(s, EntryAtomic(r)),
               RequestStep(r, Proceed));
  }

  /** Running it is the atomic step. */
  lemma AtomicIsASchedule(s: State, r: nat)
    requires Inv(s) && Enabled(s, EntryAtomic(r))
    ensures Feasible(s, EntrySchedule(s, r))
    ensures Exec(s, EntrySchedule(s, r)) == Apply(s, EntryAtomic(r))
  {
    if !s.shared.pendingAuth {
      RunOneMore(s, RequestStep(r, Proceed), []);
    } else {
      var a := s.shared.pending.value;
      if s.attempts[a].phase.Finished? {
        FinishedSchedule(s, r, a);
      } else {
        RunningSchedule(s, r, a);
      }
    }
  }

  /** In a coarse run every entry check is one step. */
  predicate CoarseStep(s: State, step: Step) {
    step.RequestStep? ==> step.r < |s.requests| && !s.requests[step.r].pc.Entering?
  }

  predicate CoarseRun(s: State, run: seq<Step>)
    requires Feasible(s, run)
    decreases |run|
  {
    run != [] ==> CoarseStep(s, run[0]) && CoarseRun(Apply(s, run[0]), run[1..])
  }

  ghost predicate CoarseReachable(d: AccountAuth, s: State) {
    exists run: seq<Step> :: Feasible(Init(d), run) && CoarseRun(Init(d), run) && s == Exec(Init(d), run)
  }

  /** An attempt has answered at most one entering request, and none while the flag is still up. */
  predicate InterceptionsOk(h: Shared, a: nat, att: Attempt) {
    && att.intercepted <= 1
    && (att.intercepted == 1 && h.pending == Some(a) ==> !h.pendingAuth)
  }

  ghost predicate CoarseInv(s: State) {
    && Inv(s) && BusyOk(s) && FlagDownBeforeBegin(s)
    && (forall r :: 0 <= r < |s.requests| && s.requests[r].pc.Entering? ==> s.requests[r].pc.e.Start?)
    && (forall a :: 0 <= a < |s.attempts| ==> InterceptionsOk(s.shared, a, s.attempts[a]))
  }

  /** No edge leads back into the entry check. */
  lemma EdgeLeavesEntry(h: Shared, attempts: seq<Attempt>, q: Request, c: Choice)
    requires CanMove(h, attempts, q, c) && !q.pc.Entering?
    ensures !NextEdge(h, attempts, q, c).pc.Entering?
  {
  }

  lemma PerformInterceptions(h: Shared, attempts: seq<Attempt>, r: nat, used: Option<AccountAuth>, auth: AccountAuth, op: Op, a: nat)
    requires OpLegal(h, attempts, r, used, op) && !op.SettleFailed? && PendingOk(h, attempts)
    requires a < |attempts| && InterceptionsOk(h, a, attempts[a]) && OutcomeOk(h, a, attempts[a])
    requires op.RaiseBusy? ==> op.a + 1 == |attempts|
    ensures InterceptionsOk(PerformShared(h, r, attempts, op), a, PerformAttempts(attempts, r, auth, op)[a])
  {
  }

  lemma CoarseRequestKeeps(s: State, r: nat, c: Choice)
    requires CoarseInv(s) && Enabled(s, RequestStep(r, c)) && CoarseStep(s, RequestStep(r, c))
    ensures CoarseInv(Apply(s, RequestStep(r, c)))
  {
    var q := s.requests[r];
    var op := NextEdge(s.shared, s.attempts, q, c).op;
    var s' := Apply(s, RequestStep(r, c));
    StepKeeps(s, RequestStep(r, c));
    StepFlagDown(s, RequestStep(r, c));
    RequestBusy(s, r, c);
    EdgeLeavesEntry(s.shared, s.attempts, q, c);
    EdgeLegal(s.shared, s.attempts, r, q, c);
    EdgePlaces(s.shared, s.attempts, q, c);
    EdgeBusy(s, r, c);
    forall a | 0 <= a < |s'.attempts| ensures InterceptionsOk(s'.shared, a, s'.attempts[a]) {
      if a < |s.attempts| {
        assert AttemptOk(s.shared, s.requests[s.attempts[a].owner], a, s.attempts[a]);
        PerformInterceptions(s.shared, s.attempts, r, q.used, q.used.GetOr(s.shared.defaultAuth), op, a);
      }
    }
  }

  lemma AtomicEntryEffect(h: Shared, attempts: seq<Attempt>, r: nat, recovery: bool, auth: AccountAuth)
    requires PendingOk(h, attempts) && FlagTruthful(h, attempts)
    requires forall a :: 0 <= a < |attempts| ==> InterceptionsOk(h, a, attempts[a])
    ensures var edge := AtomicEntryEdge(h, attempts, recovery);
            && OpDefined(attempts, edge.op) && !edge.pc.Entering? && !AboutToBegin(edge.pc)
            && (var h', attempts' := PerformShared(h, r, attempts, edge.op), PerformAttempts(attempts, r, auth, edge.op);
                && FlagTruthful(h', attempts')
                && (h'.pendingAuth ==> h.pendingAuth)
                && forall a :: 0 <= a < |attempts'| ==> InterceptionsOk(h', a, attempts'[a]))
  {
  }

  lemma AtomicKeepsInv(s: State, r: nat)
    requires Inv(s) && Enabled(s, EntryAtomic(r))
    ensures Inv(Apply(s, EntryAtomic(r)))
  {
    AtomicIsASchedule(s, r);
    RunKeeps(s, EntrySchedule(s, r));
  }

  lemma CoarseEntryKeeps(s: State, r: nat)
    requires CoarseInv(s) && Enabled(s, EntryAtomic(r))
    ensures CoarseInv(Apply(s, EntryAtomic(r)))
  {
    var q := s.requests[r];
    AtomicKeepsInv(s, r);
    AtomicEntryEffect(s.shared, s.attempts, r, q.recovery, q.used.GetOr(s.shared.defaultAuth));
    EntryMoves(s, r, AtomicEntryEdge(s.shared, s.attempts, q.recovery));
  }

  /** A request that leaves the entry check leaves the places of all the others alone. */
  lemma EntryMoves(s: State, r: nat, edge: Edge)
    requires r < |s.requests| && OpDefined(s.attempts, edge.op) && !edge.pc.Entering? && !AboutToBegin(edge.pc)
    requires FlagDownBeforeBegin(s) && (PerformShared(s.shared, r, s.attempts, edge.op).pendingAuth ==> s.shared.pendingAuth)
    requires forall b :: 0 <= b < |s.requests| && s.requests[b].pc.Entering? ==> s.requests[b].pc.e.Start?
    ensures var s' := Follow(s, r, edge);
            && FlagDownBeforeBegin(s')
            && forall b :: 0 <= b < |s'.requests| && s'.requests[b].pc.Entering? ==> s'.requests[b].pc.e.Start?
  {
  }

  lemma AdvanceInterceptions(h: Shared, attempts: seq<Attempt>, b: nat, c: Choice, a: nat)
    requires b < |attempts| && CanAdvance(attempts[b], c) && a < |attempts| && InterceptionsOk(h, a, attempts[a])
    ensures var (h', att') := Advance(h, b, attempts[b], c);
            InterceptionsOk(h', a, attempts[b := att'][a])
  {
  }

  lemma CoarseOtherKeeps(s: State, step: Step)
    requires CoarseInv(s) && Enabled(s, step) && !step.RequestStep? && !step.EntryAtomic?
    ensures CoarseInv(Apply(s, step))
  {
    StepKeeps(s, step);
    StepFlagDown(s, step);
    StepBusy(s, step);
    if step.AttemptStep? {
      forall a | 0 <= a < |s.attempts|
        ensures InterceptionsOk(Apply(s, step).shared, a, Apply(s, step).attempts[a])
      {
        AdvanceInterceptions(s.shared, s.attempts, step.a, step.c, a);
      }
    }
  }

  lemma CoarseStepKeeps(s: State, step: Step)
    requires CoarseInv(s) && Enabled(s, step) && CoarseStep(s, step)
    ensures CoarseInv(Apply(s, step))
  {
    match step
    case RequestStep(r, c) => CoarseRequestKeeps(s, r, c);
    case EntryAtomic(r) => CoarseEntryKeeps(s, r);
    case _ => CoarseOtherKeeps(s, step);
  }

  lemma {:induction false} CoarseRunKeeps(s: State, run: seq<Step>)
    requires CoarseInv(s) && Feasible(s, run) && CoarseRun(s, run)
    ensures CoarseInv(Exec(s, run))
    decreases |run|
  {
    if run != [] {
      CoarseStepKeeps(s, run[0]);
      CoarseRunKeeps(Apply(s, run[0]), run[1..]);
    }
  }

  /** With check-and-settle as one step: at most one background attempt is alive; it is the one
      `pending` points to; and the busy flag is up while it lives, wherever its starter is. */
  lemma AtMostOneAttempt(d: AccountAuth, s: State, a: nat)
    requires CoarseReachable(d, s) && a < |s.attempts| && s.attempts[a].phase.Live()
    ensures s.shared.pending == Some(a) && s.shared.pendingAuth
    ensures forall b :: 0 <= b < |s.attempts| && s.attempts[b].phase.Live() ==> b == a
  {
    var run :| Feasible(Init(d), run) && CoarseRun(Init(d), run) && s == Exec(Init(d), run);
    CoarseRunKeeps(Init(d), run);
  }

  /** With check-and-settle as one step: a failed attempt answers at most one entering request. */
  lemma AtMostOneInterception(d: AccountAuth, s: State, a: nat)
    requires CoarseReachable(d, s) && a < |s.attempts|
    ensures s.attempts[a].intercepted <= 1
    ensures s.attempts[a].intercepted == 1 ==> s.attempts[a].phase.Finished? && s.attempts[a].failed
  {
    var run :| Feasible(Init(d), run) && CoarseRun(Init(d), run) && s == Exec(Init(d), run);
    CoarseRunKeeps(Init(d), run);
    assert AttemptOk(s.shared, s.requests[s.attempts[a].owner], a, s.attempts[a]);
  }

  /** The entry check turns an account-domain request away exactly when the state holds a finished,
      failed attempt that nobody has settled. */
  lemma RecoveryTurnedAwayIff(d: AccountAuth, s: State, r: nat)
    requires CoarseReachable(d, s) && Enabled(s, EntryAtomic(r)) && s.requests[r].recovery
    ensures Apply(s, EntryAtomic(r)).requests[r].pc.Replied? <==>
            s.shared.pendingAuth && s.attempts != []
            && s.attempts[|s.attempts| - 1].phase.Finished? && s.attempts[|s.attempts| - 1].failed
  {
    var run :| Feasible(Init(d), run) && CoarseRun(Init(d), run) && s == Exec(Init(d), run);
    CoarseRunKeeps(Init(d), run);
  }

  // ---------------------------------------------------------------------------
  // Coarse runs are fine-grained runs
  // ---------------------------------------------------------------------------

  function OneRefined(s: State, step: Step): seq<Step> {
    if step.EntryAtomic? then EntrySchedule(s, step.r) else [step]
  }

  function Refined(s: State, run: seq<Step>): seq<Step>
    requires Feasible(s, run)
    decreases |run|
  {
    if run == [] then [] else OneRefined(s, run[0]) + Refined(Apply(s, run[0]), run[1..])
  }

  lemma OneRefinedReaches(s: State, step: Step)
    requires Inv(s) && Enabled(s, step)
    ensures var fine := OneRefined(s, step); Fine(fine) && Feasible(s, fine) && Exec(s, fine) == Apply(s, step)
  {
    if step.EntryAtomic? {
      AtomicIsASchedule(s, step.r);
    } else {
      RunOneMore(s, step, []);
    }
  }

  lemma FineConcat(xs: seq<Step>, ys: seq<Step>)
    requires Fine(xs) && Fine(ys)
    ensures Fine(xs + ys)
  {
  }

  lemma {:induction false} ExecConcat(s: State, xs: seq<Step>, ys: seq<Step>)
    requires Feasible(s, xs) && Feasible(Exec(s, xs), ys)
    ensures Feasible(s, xs + ys) && Exec(s, xs + ys) == Exec(Exec(s, xs), ys)
    decreases |xs|
  {
    if xs == [] {
      assert xs + ys == ys;
    } else {
      ExecConcat(Apply(s, xs[0]), xs[1..], ys);
      assert xs + ys == [xs[0]] + (xs[1..] + ys);
      RunOneMore(s, xs[0], xs[1..] + ys);
    }
  }

  lemma {:induction false} RefinedReaches(s: State, run: seq<Step>)
    requires CoarseInv(s) && Feasible(s, run) && CoarseRun(s, run)
    ensures var fine := Refined(s, run); Fine(fine) && Feasible(s, fine) && Exec(s, fine) == Exec(s, run)
    decreases |run|
  {
    if run != [] {
      var s1, rest := Apply(s, run[0]), run[1..];
      CoarseStepKeeps(s, run[0]);
      RefinedReaches(s1, rest);
      OneRefinedReaches(s, run[0]);
      ExecConcat(s, OneRefined(s, run[0]), Refined(s1, rest));
      FineConcat(OneRefined(s, run[0]), Refined(s1, rest));
    }
  }

  /** So whatever holds under any interleaving holds of coarse runs too. */
  lemma CoarseReachableIsReachable(d: AccountAuth, s: State)
    requires CoarseReachable(d, s)
    ensures Reachable(d, s)
  {
    var run :| Feasible(Init(d), run) && CoarseRun(Init(d), run) && s == Exec(Init(d), run);
    RefinedReaches(Init(d), run);
  }
}
