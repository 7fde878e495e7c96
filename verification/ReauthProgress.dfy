/** Progress of the re-authentication protocol: nothing waits for what waits for it, and the work of a
    run is bounded by the number of requests that arrive. */
module ReauthProgress {
  import opened Wrappers
  import opened Reauth
  import opened ReauthInvariant
  import opened ReauthSafety
  import opened ReauthSingleFlight

  // ---------------------------------------------------------------------------
  // No reachable state is stuck
  // ---------------------------------------------------------------------------

  /** A step of a request or of a background attempt that is not an elapsed timer. */
  predicate Untimed(step: Step) {
    (step.RequestStep? && !step.c.Expire?) || step.AttemptStep?
  }

  ghost predicate CanProgress(s: State) {
    exists step :: Untimed(step) && Enabled(s, step)
  }

  /** A choice that moves a request on, if anything but the lock or an open `done` holds it back. */
  function AnyChoice(pc: Pc): Choice {
    match pc
    case Free(f) => if f.FreshSilent? || f.InDirect? || f.InFirst? then Accept else Proceed
    case Locked(l) => if l.LockedSilent? || l.AuthCode? || l.InRetry? then Accept else Proceed
    case InFlow(_, w) => if w.Present? then Accept else Proceed
    case _ => Proceed
  }

  /** The goroutine of a spawned attempt never waits, and in particular never for the lock. */
  lemma SpawnedAttemptMoves(s: State, a: nat)
    requires a < |s.attempts| && Running.Rank() <= s.attempts[a].phase.Rank() < Finished.Rank()
    ensures exists c :: Enabled(s, AttemptStep(a, c))
  {
    var c := if s.attempts[a].phase.Running? then Accept else Proceed;
    assert Enabled(s, AttemptStep(a, c));
  }

  /** The holder of the lock can move, or the attempt it waits for can. */
  lemma LockHolderMoves(s: State, r: nat)
    requires Inv(s) && r < |s.requests| && s.requests[r].pc.HoldsLock()
    ensures CanProgress(s)
  {
    var q := s.requests[r];
    assert RequestOk(s.shared, s.attempts, r, q);
    if q.pc.InFlow? && (q.pc.w.AwaitPrompt? || q.pc.w.Await?) && !s.attempts[q.pc.a].phase.Finished? {
      SpawnedAttemptMoves(s, q.pc.a);
    } else {
      assert Enabled(s, RequestStep(r, AnyChoice(q.pc)));
    }
  }

  ghost predicate Quiet(s: State) {
    && (forall r :: 0 <= r < |s.requests| ==> s.requests[r].pc.Replied?)
    && (forall a :: 0 <= a < |s.attempts| ==> s.attempts[a].phase.Finished?)
  }

  /** A request that does not hold the lock can move while nobody holds it. */
  lemma FreeRequestMoves(s: State, r: nat)
    requires Inv(s) && r < |s.requests| && !s.requests[r].pc.Replied? && s.shared.mutex.None?
    ensures CanProgress(s)
  {
    var q := s.requests[r];
    assert RequestOk(s.shared, s.attempts, r, q);
    assert !q.pc.HoldsLock();
    assert Enabled(s, RequestStep(r, AnyChoice(q.pc)));
  }

  lemma UnansweredMoves(s: State, r: nat)
    requires Inv(s) && r < |s.requests| && !s.requests[r].pc.Replied?
    ensures CanProgress(s)
  {
    if s.shared.mutex.Some? {
      var holder := s.shared.mutex.value;
      assert RequestOk(s.shared, s.attempts, holder, s.requests[holder]);
      LockHolderMoves(s, holder);
    } else {
      FreeRequestMoves(s, r);
    }
  }

  lemma UnfinishedMoves(s: State, a: nat)
    requires Inv(s) && a < |s.attempts| && !s.attempts[a].phase.Finished?
    requires forall r :: 0 <= r < |s.requests| ==> s.requests[r].pc.Replied?
    ensures CanProgress(s)
  {
    assert AttemptOk(s.shared, s.requests[s.attempts[a].owner], a, s.attempts[a]);
    assert s.requests[s.attempts[a].owner].pc.Replied?;
    SpawnedAttemptMoves(s, a);
  }

  /** Even if no timer ever fires: while a request is unanswered or an attempt unfinished, someone can move. */
  lemma NeverStuckFrom(s: State)
    requires Inv(s) && !Quiet(s)
    ensures CanProgress(s)
  {
    if r :| 0 <= r < |s.requests| && !s.requests[r].pc.Replied? {
      UnansweredMoves(s, r);
    } else {
      var a :| 0 <= a < |s.attempts| && !s.attempts[a].phase.Finished?;
      UnfinishedMoves(s, a);
    }
  }

  lemma NeverStuck(d: AccountAuth, s: State)
    requires Reachable(d, s) && !Quiet(s)
    ensures CanProgress(s)
  {
    ReachableInv(d, s);
    NeverStuckFrom(s);
  }

  // ---------------------------------------------------------------------------
  // Bounded work
  // ---------------------------------------------------------------------------

  /** An upper bound on the steps left in an attempt. */
  function AttemptRank(att: Attempt): nat {
    Finished.Rank() - att.phase.Rank() + (if att.prompted then 0 else 1)
  }

  function FreeRank(f: FreePc): nat {
    match f
    case InDirect(stored) => if stored then 1 else 2
    case CallDirect => 3
    case SilentLog => 4
    case SilentCas => 5
    case AwaitLock => 27
    case FreshSilent => 28
    case InFirst(stored) => if stored then 28 else 29
    case CallFirst => 30
    case CheckAuth => 31
    case CheckPre => 32
    case EntryLog => 33
    case EntryCas => 34
  }

  function LockedRank(l: LockedPc): nat {
    match l
    case Unlock(_) => 1
    case InRetry(stored) => if stored then 2 else 3
    case CallRetry => 4
    case LockedLog => 5
    case LockedCas => 6
    case AuthCode => 7
    case Begin => 23
    case LockedSilent => 24
    case LoadSlot => 25
    case LockedCheck => 26
  }

  function FlowRank(w: FlowPc): nat {
    match w
    case FlowReadErr => 5
    case FlowSettle => 6
    case Await => 7
    case Present => 8
    case AwaitPrompt => 9
    case Spawn => 10
    case CountUp => 11
    case RaiseFlag => 12
  }

  function EntryRank(e: EntryPc): nat {
    match e
    case EntrySettle(_, _) => 35
    case EntryReadErr(_) => 36
    case Inspect(_) => 37
    case LoadPending => 38
    case Start => 39
  }

  /** An upper bound on the steps left in a request, including those of an attempt it will begin. */
  function PcRank(pc: Pc): nat {
    match pc
    case Entering(e) => EntryRank(e)
    case Free(f) => FreeRank(f)
    case Locked(l) => LockedRank(l)
    case InFlow(_, w) => FlowRank(w)
    case Replied(_) => 0
  }

  const REQUEST_STEPS: nat := 39

  /** What an edge costs: the rank it leads to, and the attempt it creates. */
  function EdgeCost(edge: Edge): nat {
    PcRank(edge.pc) + if edge.op.Publish? then 10 else 0
  }

  lemma UnlockedEdgeRank(h: Shared, attempts: seq<Attempt>, recovery: bool, e: EntryPc, f: FreePc, c: Choice)
    requires CanEnter(attempts, e)
    requires f.InDirect? || f.InFirst? ==> c.Resolve? ==> !f.stored
    ensures EdgeCost(EntryEdge(h, attempts, recovery, e)) < EntryRank(e)
    ensures EdgeCost(FreeEdge(h, recovery, f, c)) < FreeRank(f)
  {
  }

  lemma LockedEdgeRank(h: Shared, next: nat, used: AccountAuth, l: LockedPc, c: Choice)
    requires l.InRetry? && c.Resolve? ==> !l.stored
    ensures EdgeCost(LockedEdge(h, next, used, l, c)) < LockedRank(l)
  {
  }

  /** Every edge of a request lowers its rank, and the one that creates an attempt pays for it. */
  lemma EdgeRank(h: Shared, attempts: seq<Attempt>, q: Request, c: Choice)
    requires CanMove(h, attempts, q, c)
    ensures EdgeCost(NextEdge(h, attempts, q, c)) < PcRank(q.pc)
  {
    match q.pc
    case Entering(e) => UnlockedEdgeRank(h, attempts, q.recovery, e, CheckPre, c);
    case Free(f) => UnlockedEdgeRank(h, attempts, q.recovery, Start, f, c);
    case Locked(l) => LockedEdgeRank(h, |attempts|, q.used.GetOr(h.defaultAuth), l, c);
    case InFlow(_, _) =>
  }

  function RequestWork(requests: seq<Request>): nat {
    if requests == [] then 0 else PcRank(requests[0].pc) + RequestWork(requests[1..])
  }

  function AttemptWork(attempts: seq<Attempt>): nat {
    if attempts == [] then 0 else AttemptRank(attempts[0]) + AttemptWork(attempts[1..])
  }

  lemma {:induction false} RequestWorkUpdate(requests: seq<Request>, r: nat, q: Request)
    requires r < |requests|
    ensures RequestWork(requests[r := q]) == RequestWork(requests) - PcRank(requests[r].pc) + PcRank(q.pc)
  {
    if r > 0 {
      assert requests[r := q][1..] == requests[1..][r - 1 := q];
      RequestWorkUpdate(requests[1..], r - 1, q);
    } else {
      assert requests[0 := q][1..] == requests[1..];
    }
  }

  lemma {:induction false} RequestWorkAppend(requests: seq<Request>, q: Request)
    ensures RequestWork(requests + [q]) == RequestWork(requests) + PcRank(q.pc)
  {
    if requests == [] {
      assert (requests + [q])[1..] == [];
    } else {
      assert (requests + [q])[1..] == requests[1..] + [q];
      RequestWorkAppend(requests[1..], q);
    }
  }

  lemma {:induction false} AttemptWorkUpdate(attempts: seq<Attempt>, a: nat, att: Attempt)
    requires a < |attempts|
    ensures AttemptWork(attempts[a := att]) == AttemptWork(attempts) - AttemptRank(attempts[a]) + AttemptRank(att)
  {
    if a > 0 {
      assert attempts[a := att][1..] == attempts[1..][a - 1 := att];
      AttemptWorkUpdate(attempts[1..], a - 1, att);
    } else {
      assert attempts[0 := att][1..] == attempts[1..];
    }
  }

  lemma {:induction false} AttemptWorkAppend(attempts: seq<Attempt>, att: Attempt)
    ensures AttemptWork(attempts + [att]) == AttemptWork(attempts) + AttemptRank(att)
  {
    if attempts == [] {
      assert (attempts + [att])[1..] == [];
    } else {
      assert (attempts + [att])[1..] == attempts[1..] + [att];
      AttemptWorkAppend(attempts[1..], att);
    }
  }

  function Work(s: State): nat {
    RequestWork(s.requests) + AttemptWork(s.attempts)
  }

  lemma PerformWork(h: Shared, attempts: seq<Attempt>, r: nat, used: Option<AccountAuth>, auth: AccountAuth, op: Op)
    requires OpLegal(h, attempts, r, used, op)
    ensures AttemptWork(PerformAttempts(attempts, r, auth, op)) <= AttemptWork(attempts) + (if op.Publish? then 10 else 0)
  {
    var attempts' := PerformAttempts(attempts, r, auth, op);
    match op
    case SettleFailed(a) => AttemptWorkUpdate(attempts, a, attempts'[a]);
    case RaiseBusy(a) => AttemptWorkUpdate(attempts, a, attempts'[a]);
    case CountFlow(a) => AttemptWorkUpdate(attempts, a, attempts'[a]);
    case SpawnFlow(a) => AttemptWorkUpdate(attempts, a, attempts'[a]);
    case Publish => AttemptWorkAppend(attempts, NewAttempt(r, auth));
    case _ =>
  }

  lemma RequestStepWork(s: State, r: nat, c: Choice)
    requires Inv(s) && Enabled(s, RequestStep(r, c))
    ensures Work(Apply(s, RequestStep(r, c))) < Work(s)
  {
    var q := s.requests[r];
    var edge := NextEdge(s.shared, s.attempts, q, c);
    EdgeLegal(s.shared, s.attempts, r, q, c);
    EdgeRank(s.shared, s.attempts, q, c);
    PerformWork(s.shared, s.attempts, r, q.used, q.used.GetOr(s.shared.defaultAuth), edge.op);
    RequestWorkUpdate(s.requests, r, PerformLocal(s.shared.defaultAuth, q, edge.op).(pc := edge.pc));
  }

  lemma AttemptStepWork(s: State, a: nat, c: Choice)
    requires Enabled(s, AttemptStep(a, c))
    ensures Work(Apply(s, AttemptStep(a, c))) < Work(s)
  {
    AttemptWorkUpdate(s.attempts, a, Advance(s.shared, a, s.attempts[a], c).1);
  }

  lemma StepWork(s: State, step: Step)
    requires Inv(s) && Enabled(s, step) && !step.EntryAtomic?
    ensures match step
            case Arrive(_, _) => Work(Apply(s, step)) == Work(s) + REQUEST_STEPS
            case MarkPreAuthenticated => Work(Apply(s, step)) == Work(s)
            case _ => Work(Apply(s, step)) < Work(s)
  {
    match step
    case Arrive(recovery, injected) =>
      RequestWorkAppend(s.requests, Request(recovery, injected, Entering(Start), None, 0, None, None, false));
    case RequestStep(r, c) => RequestStepWork(s, r, c);
    case AttemptStep(a, c) => AttemptStepWork(s, a, c);
    case _ =>
  }

  function Arrivals(run: seq<Step>): nat {
    if run == [] then 0 else (if run[0].Arrive? then 1 else 0) + Arrivals(run[1..])
  }

  /** Steps of requests and of background attempts. */
  function InternalSteps(run: seq<Step>): nat {
    if run == [] then 0 else (if run[0].RequestStep? || run[0].AttemptStep? then 1 else 0) + InternalSteps(run[1..])
  }

  lemma {:induction false} WorkIsBoundedFrom(s: State, run: seq<Step>)
    requires Inv(s) && Fine(run) && Feasible(s, run)
    ensures InternalSteps(run) + Work(Exec(s, run)) <= Work(s) + REQUEST_STEPS * Arrivals(run)
    decreases |run|
  {
    if run != [] {
      StepKeeps(s, run[0]);
      StepWork(s, run[0]);
      WorkIsBoundedFrom(Apply(s, run[0]), run[1..]);
    }
  }

  /** Every run ends: requests and the attempts they begin take at most 39 steps per arrival, together. */
  lemma WorkIsBounded(d: AccountAuth, run: seq<Step>)
    requires Fine(run) && Feasible(Init(d), run)
    ensures InternalSteps(run) <= 39 * Arrivals(run)
  {
    WorkIsBoundedFrom(Init(d), run);
  }

  // ---------------------------------------------------------------------------
  // Both together
  // ---------------------------------------------------------------------------

  lemma NextStep(s: State) returns (step: Step)
    requires Inv(s) && !Quiet(s)
    ensures Untimed(step) && Enabled(s, step) && Inv(Apply(s, step)) && Work(Apply(s, step)) < Work(s)
  {
    NeverStuckFrom(s);
    step :| Untimed(step) && Enabled(s, step);
    StepKeeps(s, step);
    StepWork(s, step);
  }

  ghost predicate AllUntimed(run: seq<Step>) {
    Fine(run) && forall i :: 0 <= i < |run| ==> Untimed(run[i])
  }

  lemma UntimedCons(step: Step, rest: seq<Step>)
    requires Untimed(step) && AllUntimed(rest)
    ensures AllUntimed([step] + rest)
  {
  }

  /** From every state satisfying the invariant, steps that are not timers lead to a quiet one, within the work left. */
  lemma {:induction false} QuietsDown(s: State) returns (run: seq<Step>)
    requires Inv(s)
    ensures AllUntimed(run) && |run| <= Work(s) && Feasible(s, run) && Quiet(Exec(s, run))
    decreases Work(s)
  {
    if Quiet(s) {
      run := [];
    } else {
      var step := NextStep(s);
      var rest := QuietsDown(Apply(s, step));
      RunOneMore(s, step, rest);
      UntimedCons(step, rest);
      run := [step] + rest;
    }
  }

  /** Whatever has happened, every call can be answered and every attempt finished, in a bounded number of steps
      and without waiting for any timer. */
  lemma EveryStateQuietsDown(d: AccountAuth, s: State)
    requires Reachable(d, s)
    ensures exists run: seq<Step> :: AllUntimed(run) && |run| <= Work(s) && Feasible(s, run) && Quiet(Exec(s, run))
  {
    ReachableInv(d, s);
    var run := QuietsDown(s);
  }
}
