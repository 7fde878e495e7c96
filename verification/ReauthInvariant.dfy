/** One inductive invariant of the re-authentication protocol, under any interleaving.

    It is split into what holds of each request, of each attempt and of the shared fields.
    ReauthSafety states what follows from it. */
module ReauthInvariant {
  import opened Wrappers
  import opened Reauth

  // ---------------------------------------------------------------------------
  // The invariant
  // ---------------------------------------------------------------------------

  /** How many handler invocations a request may have made when it stands at `pc`. */
  predicate CallsOk(pc: Pc, calls: nat) {
    match pc
    case Entering(_) => calls == 0
    case Free(f) => if f.InDirect? || f.InFirst? then calls == 1 else if f.AwaitLock? then calls <= 1 else calls == 0
    case Locked(l) =>
      if l.InRetry? then 1 <= calls <= 2
      else if l.Unlock? then calls <= 2 && (l.reply.HandlerAnswer? ==> 1 <= calls) && !l.reply.FailedAttempt?
      else calls <= 1
    case InFlow(_, _) => calls <= 1
    case Replied(reply) => calls <= 2 && (reply.FailedAttempt? ==> calls == 0) && (reply.HandlerAnswer? ==> 1 <= calls)
  }

  /** Positions before the account is chosen, after it, and between the first handler call and the choice. */
  predicate BeforeChoice(pc: Pc) {
    pc.Entering? || pc.Free? || (pc.Locked? && (pc.l.LockedCheck? || pc.l.LoadSlot?))
  }

  predicate AfterChoice(pc: Pc) {
    pc.InFlow? || (pc.Locked? && (pc.l.LockedSilent? || pc.l.AuthCode? || pc.l.Begin?))
  }

  predicate AwaitsChoice(pc: Pc) {
    (pc.Free? && (pc.f.AwaitLock? || pc.f.InFirst?)) || (pc.Locked? && (pc.l.LockedCheck? || pc.l.LoadSlot?))
  }

  /** The slot of a request before the account is chosen, and the choice after it. */
  predicate SlotOk(defaultAuth: AccountAuth, q: Request) {
    && (q.used.Some? ==> q.used.value == q.resolved.GetOr(q.injected.GetOr(defaultAuth)))
    && (q.calls == 0 ==> q.slot.None? && q.resolved.None?)
    && (BeforeChoice(q.pc) ==> q.used.None?)
    && (AfterChoice(q.pc) ==> q.used.Some?)
    && (AwaitsChoice(q.pc) ==> q.slot == q.resolved)
  }

  /** A request that holds an attempt holds the newest one, in the phase its position implies. */
  predicate FlowOk(attempts: seq<Attempt>, r: nat, q: Request) {
    q.pc.InFlow? ==>
      && q.pc.a + 1 == |attempts|
      && HeldOk(attempts[q.pc.a], r, q.used, q.pc.w)
  }

  predicate HeldOk(att: Attempt, r: nat, used: Option<AccountAuth>, w: FlowPc) {
    && att.owner == r
    && used == Some(att.auth)
    && (w.RaiseFlag? <==> att.phase.Published?)
    && (w.CountUp? <==> att.phase.Flagged?)
    && (w.Spawn? <==> att.phase.Counted?)
    && (w.FlowSettle? || w.FlowReadErr? ==> att.phase.Finished?)
  }

  /** What a request has learnt about an attempt at entry stays true. */
  predicate EntryOk(h: Shared, attempts: seq<Attempt>, q: Request) {
    q.pc.Entering? ==>
      match q.pc.e
      case Start => true
      case LoadPending => h.pending.Some?
      case Inspect(a) => a < |attempts|
      case EntryReadErr(a) => a < |attempts| && attempts[a].phase.Finished?
      case EntrySettle(seen, failed) =>
        && seen.Some? && seen.value < |attempts|
        && attempts[seen.value].phase.Finished? && attempts[seen.value].failed == failed
  }

  /** Who takes the fresh-credential path, and which account-domain calls never see their handler. */
  predicate PathOk(h: Shared, q: Request) {
    && (q.fellThrough ==> h.authenticated && !q.pc.Entering?)
    && (q.pc.Free? && (q.pc.f.FreshSilent? || q.pc.f.SilentCas? || q.pc.f.SilentLog?) ==> !q.fellThrough && !q.recovery)
    && ((q.pc == Free(AwaitLock) || q.pc.HoldsLock()) && q.calls == 0 ==> !q.fellThrough && !q.recovery)
    && (q.pc.Replied? && q.calls == 0 && q.recovery ==> q.pc.reply.FailedAttempt?)
  }

  predicate HeldBy(h: Shared, r: nat) {
    h.mutex.Some? && h.mutex.value == r
  }

  predicate OwesLog(h: Shared, who: Actor) {
    h.winner == Some(who) && h.readyLogs == 0
  }

  /** Lock and log line: who holds the one, who owes the other. */
  predicate HoldsOk(h: Shared, r: nat, q: Request) {
    && (HeldBy(h, r) <==> q.pc.HoldsLock())
    && (OwesLog(h, OfRequest(r)) <==> q.pc.Logging())
  }

  /** What a request may be doing. */
  predicate ControlOk(h: Shared, r: nat, q: Request) {
    && HoldsOk(h, r, q)
    && CallsOk(q.pc, q.calls)
    && SlotOk(h.defaultAuth, q)
    && PathOk(h, q)
  }

  /** What a request knows about attempts. */
  predicate ViewOk(h: Shared, attempts: seq<Attempt>, r: nat, q: Request) {
    && FlowOk(attempts, r, q)
    && EntryOk(h, attempts, q)
  }

  predicate RequestOk(h: Shared, attempts: seq<Attempt>, r: nat, q: Request) {
    && ControlOk(h, r, q)
    && ViewOk(h, attempts, r, q)
  }

  /** The "ready to serve" line belongs to the one winner of the compare-and-swap. */
  predicate LogOk(h: Shared) {
    && (h.winner.Some? <==> h.authenticated)
    && h.readyLogs <= (if h.authenticated then 1 else 0)
  }

  /** An attempt authenticates with the account its owner chose, and is prepared by its owner. */
  predicate OwnerOk(owner: Request, a: nat, att: Attempt) {
    && owner.used.Some? && owner.used.value == att.auth
    && (att.phase.Published? || att.phase.Flagged? || att.phase.Counted? ==>
          && owner.pc.InFlow? && owner.pc.a == a
          && (att.phase.Published? ==> owner.pc.w.RaiseFlag?)
          && (att.phase.Flagged? ==> owner.pc.w.CountUp?)
          && (att.phase.Counted? ==> owner.pc.w.Spawn?))
  }

  /** The goroutine of an attempt: its log line, its outcome, the single write of its error. */
  predicate OutcomeOk(h: Shared, a: nat, att: Attempt) {
    && (OwesLog(h, OfAttempt(a)) <==> att.phase.LogOwed?)
    && (att.phase.CasWanted? || att.phase.LogOwed? ==> att.ok)
    && (att.phase.Rank() > CasWanted.Rank() && att.ok ==> h.authenticated)
    && (if att.phase.Closing? || att.phase.Finished? then att.writes == 1 && att.failed == !att.ok
        else att.writes == 0 && !att.failed)
    && (att.intercepted > 0 ==> att.phase.Finished? && att.failed)
  }

  predicate AttemptOk(h: Shared, owner: Request, a: nat, att: Attempt) {
    && OwnerOk(owner, a, att)
    && OutcomeOk(h, a, att)
  }

  /** Attempts between the increment and the decrement of the in-flight counter. */
  function CountedIn(attempts: seq<Attempt>): nat {
    if attempts == [] then 0
    else (if attempts[0].phase.InCounter() then 1 else 0) + CountedIn(attempts[1..])
  }

  /** `pending` names the newest attempt, and the flag is raised only once there is one. */
  predicate PendingOk(h: Shared, attempts: seq<Attempt>) {
    && (h.pending.None? ==> attempts == [] && !h.pendingAuth)
    && (h.pending.Some? ==> h.pending.value + 1 == |attempts|)
  }

  predicate SharedOk(h: Shared, requests: nat, attempts: seq<Attempt>) {
    && PendingOk(h, attempts)
    && (h.mutex.Some? ==> h.mutex.value < requests)
    && h.inFlight == CountedIn(attempts)
    && LogOk(h)
    && (h.winner.Some? ==> match h.winner.value case OfRequest(r) => r < requests case OfAttempt(a) => a < |attempts|)
    && h.earlyReads == 0
  }

  ghost predicate RequestsOk(s: State) {
    forall r :: 0 <= r < |s.requests| ==> RequestOk(s.shared, s.attempts, r, s.requests[r])
  }

  ghost predicate AttemptsOk(s: State) {
    forall a :: 0 <= a < |s.attempts| ==>
      && s.attempts[a].owner < |s.requests|
      && AttemptOk(s.shared, s.requests[s.attempts[a].owner], a, s.attempts[a])
  }

  ghost predicate Inv(s: State) {
    && SharedOk(s.shared, |s.requests|, s.attempts)
    && RequestsOk(s)
    && AttemptsOk(s)
  }

  // ---------------------------------------------------------------------------
  // Counting
  // ---------------------------------------------------------------------------

  lemma {:induction false} CountedUpdate(attempts: seq<Attempt>, a: nat, att: Attempt)
    requires a < |attempts|
    ensures CountedIn(attempts[a := att]) ==
            CountedIn(attempts) - (if attempts[a].phase.InCounter() then 1 else 0)
                                + (if att.phase.InCounter() then 1 else 0)
  {
    if a > 0 {
      assert attempts[a := att][1..] == attempts[1..][a - 1 := att];
      CountedUpdate(attempts[1..], a - 1, att);
    } else {
      assert attempts[0 := att][1..] == attempts[1..];
    }
  }

  lemma {:induction false} CountedAppend(attempts: seq<Attempt>, att: Attempt)
    ensures CountedIn(attempts + [att]) == CountedIn(attempts) + (if att.phase.InCounter() then 1 else 0)
  {
    if attempts == [] {
      assert (attempts + [att])[1..] == [];
    } else {
      assert (attempts + [att])[1..] == attempts[1..] + [att];
      CountedAppend(attempts[1..], att);
    }
  }

  // ---------------------------------------------------------------------------
  // What one actor's step leaves true for the others
  // ---------------------------------------------------------------------------

  predicate SamePreparation(x: Phase, y: Phase) {
    && (x.Published? <==> y.Published?)
    && (x.Flagged? <==> y.Flagged?)
    && (x.Counted? <==> y.Counted?)
  }

  /** Owner and account are fixed, and a closed attempt is final. */
  predicate AttemptAdvances(x: Attempt, y: Attempt) {
    && x.owner == y.owner && x.auth == y.auth
    && (x.phase.Finished? ==> y.phase.Finished? && y.failed == x.failed)
  }

  ghost predicate Advances(old_: seq<Attempt>, new_: seq<Attempt>) {
    && |old_| <= |new_|
    && forall a :: 0 <= a < |old_| ==> AttemptAdvances(old_[a], new_[a])
  }

  ghost predicate SamePreparations(old_: seq<Attempt>, new_: seq<Attempt>) {
    && |old_| == |new_|
    && forall a :: 0 <= a < |old_| ==> SamePreparation(old_[a].phase, new_[a].phase)
  }

  /** The shared fields as an actor other than `who` may rely on them. */
  ghost predicate SharedAdvances(h: Shared, h': Shared, who: Actor) {
    && h'.defaultAuth == h.defaultAuth
    && (h.authenticated ==> h'.authenticated)
    && (h.pending.Some? ==> h'.pending.Some?)
    && (forall r: nat :: who != OfRequest(r) ==> (HeldBy(h', r) <==> HeldBy(h, r)))
    && (forall w: Actor :: who != w ==> (OwesLog(h', w) <==> OwesLog(h, w)))
  }

  lemma OtherRequestKept(h: Shared, h': Shared, old_: seq<Attempt>, new_: seq<Attempt>, who: Actor, r: nat, q: Request)
    requires RequestOk(h, old_, r, q) && who != OfRequest(r)
    requires SharedAdvances(h, h', who) && Advances(old_, new_)
    requires HeldBy(h, r) ==> SamePreparations(old_, new_)
    ensures RequestOk(h', new_, r, q)
  {
  }

  // ---------------------------------------------------------------------------
  // Accesses of a request
  // ---------------------------------------------------------------------------

  /** What each access demands of the state it is made in. */
  predicate OpLegal(h: Shared, attempts: seq<Attempt>, r: nat, used: Option<AccountAuth>, op: Op) {
    && OpDefined(attempts, op)
    && match op
       case LogReady => OwesLog(h, OfRequest(r))
       case SettleFailed(a) => attempts[a].phase.Finished? && attempts[a].failed
       case ReadErr(a) => attempts[a].phase.Finished?
       case Acquire => h.mutex.None?
       case Release => HeldBy(h, r)
       case ChooseAccount => used.None?
       case Publish => HeldBy(h, r) && used.Some?
       case RaiseBusy(a) => HeldBy(h, r) && attempts[a].phase.Published?
       case CountFlow(a) => HeldBy(h, r) && attempts[a].phase.Flagged?
       case SpawnFlow(a) => HeldBy(h, r) && attempts[a].phase.Counted?
       case _ => true
  }

  /** The effect of a step of request `r` on the fields and attempts others can see. */
  ghost predicate EffectOk(h: Shared, requests: nat, r: nat, attempts: seq<Attempt>, h': Shared, attempts': seq<Attempt>) {
    && SharedOk(h', requests, attempts')
    && SharedAdvances(h, h', OfRequest(r))
    && Advances(attempts, attempts')
    && (HeldBy(h, r) || SamePreparations(attempts, attempts'))
  }

  lemma PerformCounts(h: Shared, r: nat, attempts: seq<Attempt>, used: Option<AccountAuth>, auth: AccountAuth, op: Op)
    requires OpLegal(h, attempts, r, used, op) && h.inFlight == CountedIn(attempts)
    ensures PerformShared(h, r, attempts, op).inFlight == CountedIn(PerformAttempts(attempts, r, auth, op))
  {
    var attempts' := PerformAttempts(attempts, r, auth, op);
    match op
    case SettleFailed(a) => CountedUpdate(attempts, a, attempts'[a]);
    case RaiseBusy(a) => CountedUpdate(attempts, a, attempts'[a]);
    case CountFlow(a) => CountedUpdate(attempts, a, attempts'[a]);
    case SpawnFlow(a) => CountedUpdate(attempts, a, attempts'[a]);
    case Publish => CountedAppend(attempts, NewAttempt(r, auth));
    case _ =>
  }

  lemma PerformSharedOk(h: Shared, requests: nat, r: nat, attempts: seq<Attempt>, used: Option<AccountAuth>, auth: AccountAuth, op: Op)
    requires r < requests && SharedOk(h, requests, attempts) && OpLegal(h, attempts, r, used, op)
    ensures SharedOk(PerformShared(h, r, attempts, op), requests, PerformAttempts(attempts, r, auth, op))
  {
    PerformCounts(h, r, attempts, used, auth, op);
  }

  lemma PerformShows(h: Shared, r: nat, attempts: seq<Attempt>, used: Option<AccountAuth>, op: Op)
    requires OpLegal(h, attempts, r, used, op) && LogOk(h)
    ensures SharedAdvances(h, PerformShared(h, r, attempts, op), OfRequest(r))
  {
  }

  lemma PerformAdvances(h: Shared, r: nat, attempts: seq<Attempt>, used: Option<AccountAuth>, auth: AccountAuth, op: Op)
    requires OpLegal(h, attempts, r, used, op)
    ensures Advances(attempts, PerformAttempts(attempts, r, auth, op))
    ensures HeldBy(h, r) || SamePreparations(attempts, PerformAttempts(attempts, r, auth, op))
  {
  }

  lemma PerformEffect(h: Shared, requests: nat, r: nat, attempts: seq<Attempt>, used: Option<AccountAuth>, auth: AccountAuth, op: Op)
    requires r < requests && SharedOk(h, requests, attempts) && OpLegal(h, attempts, r, used, op)
    ensures EffectOk(h, requests, r, attempts, PerformShared(h, r, attempts, op), PerformAttempts(attempts, r, auth, op))
  {
    PerformSharedOk(h, requests, r, attempts, used, auth, op);
    PerformShows(h, r, attempts, used, op);
    PerformAdvances(h, r, attempts, used, auth, op);
  }

  // ---------------------------------------------------------------------------
  // Edges of a request
  // ---------------------------------------------------------------------------

  lemma EdgeLegal(h: Shared, attempts: seq<Attempt>, r: nat, q: Request, c: Choice)
    requires CanMove(h, attempts, q, c) && RequestOk(h, attempts, r, q)
    ensures OpLegal(h, attempts, r, q.used, NextEdge(h, attempts, q, c).op)
  {
  }

  lemma EdgeLock(h: Shared, attempts: seq<Attempt>, r: nat, q: Request, c: Choice)
    requires CanMove(h, attempts, q, c) && (HeldBy(h, r) <==> q.pc.HoldsLock())
    ensures var edge := NextEdge(h, attempts, q, c);
            HeldBy(PerformShared(h, r, attempts, edge.op), r) <==> edge.pc.HoldsLock()
  {
  }

  /** The winner of a compare-and-swap moves to its log line, and moves on from it by logging. */
  lemma EdgeLogs(h: Shared, attempts: seq<Attempt>, q: Request, c: Choice)
    requires CanMove(h, attempts, q, c)
    ensures var edge := NextEdge(h, attempts, q, c);
            && (q.pc.Logging() <==> edge.op.LogReady?)
            && (edge.pc.Logging() <==> edge.op.CasAuthenticated? && !h.authenticated)
  {
  }

  lemma PerformLog(h: Shared, attempts: seq<Attempt>, r: nat, op: Op)
    requires OpDefined(attempts, op) && LogOk(h) && (OwesLog(h, OfRequest(r)) <==> op.LogReady?)
    ensures OwesLog(PerformShared(h, r, attempts, op), OfRequest(r)) <==> op.CasAuthenticated? && !h.authenticated
  {
  }

  lemma EdgeLog(h: Shared, attempts: seq<Attempt>, r: nat, q: Request, c: Choice)
    requires CanMove(h, attempts, q, c) && (OwesLog(h, OfRequest(r)) <==> q.pc.Logging()) && LogOk(h)
    ensures var edge := NextEdge(h, attempts, q, c);
            OwesLog(PerformShared(h, r, attempts, edge.op), OfRequest(r)) <==> edge.pc.Logging()
  {
    EdgeLogs(h, attempts, q, c);
    PerformLog(h, attempts, r, NextEdge(h, attempts, q, c).op);
  }

  lemma EdgeCalls(h: Shared, attempts: seq<Attempt>, q: Request, c: Choice)
    requires CanMove(h, attempts, q, c) && CallsOk(q.pc, q.calls)
    ensures var edge := NextEdge(h, attempts, q, c);
            CallsOk(edge.pc, q.calls + if edge.op.CallHandler? then 1 else 0)
  {
  }

  /** Accesses to the slot and the choice, and the positions around them. */
  lemma EdgeStages(h: Shared, attempts: seq<Attempt>, q: Request, c: Choice)
    requires CanMove(h, attempts, q, c)
    ensures var edge := NextEdge(h, attempts, q, c);
            && (edge.op.ChooseAccount? ==> AwaitsChoice(q.pc) && AfterChoice(edge.pc))
            && (!edge.op.ChooseAccount? && BeforeChoice(edge.pc) ==> BeforeChoice(q.pc))
            && (!edge.op.ChooseAccount? && AfterChoice(edge.pc) ==> AfterChoice(q.pc))
            && (AwaitsChoice(edge.pc) ==> AwaitsChoice(q.pc) || edge.op.CallHandler? || (q.pc.Free? && q.pc.f.FreshSilent?))
            && (edge.op.StoreFirst? ==> q.pc.Free? && q.pc.f.InFirst?)
            && (edge.op.Store? ==> (q.pc.Free? && q.pc.f.InDirect?) || (q.pc.Locked? && q.pc.l.InRetry?))
            && (edge.op.Store? ==> edge.pc.Locked? || (edge.pc.Free? && edge.pc.f.InDirect?))
            && (edge.op.Store? ==> !AwaitsChoice(edge.pc))
            && (edge.op.CallHandler? && AwaitsChoice(edge.pc) ==> q.pc.Free?)
  {
  }

  lemma EdgeSlots(h: Shared, attempts: seq<Attempt>, q: Request, c: Choice)
    requires CanMove(h, attempts, q, c) && CallsOk(q.pc, q.calls) && SlotOk(h.defaultAuth, q)
    ensures var edge := NextEdge(h, attempts, q, c);
            SlotOk(h.defaultAuth, PerformLocal(h.defaultAuth, q, edge.op).(pc := edge.pc))
  {
    EdgeStages(h, attempts, q, c);
  }

  lemma EntryPaths(h: Shared, attempts: seq<Attempt>, r: nat, q: Request)
    requires q.pc.Entering? && CanEnter(attempts, q.pc.e) && q.calls == 0 && PathOk(h, q) && EntryOk(h, attempts, q)
    requires forall a :: 0 <= a < |attempts| ==> attempts[a].phase.Finished? && !attempts[a].failed ==> h.authenticated
    ensures var edge := EntryEdge(h, attempts, q.recovery, q.pc.e);
            PathOk(PerformShared(h, r, attempts, edge.op), PerformLocal(h.defaultAuth, q, edge.op).(pc := edge.pc))
  {
  }

  lemma EdgePaths(h: Shared, attempts: seq<Attempt>, r: nat, q: Request, c: Choice)
    requires CanMove(h, attempts, q, c) && CallsOk(q.pc, q.calls) && PathOk(h, q) && EntryOk(h, attempts, q)
    requires forall a :: 0 <= a < |attempts| ==> attempts[a].phase.Finished? && !attempts[a].failed ==> h.authenticated
    ensures var edge := NextEdge(h, attempts, q, c);
            PathOk(PerformShared(h, r, attempts, edge.op), PerformLocal(h.defaultAuth, q, edge.op).(pc := edge.pc))
  {
    if q.pc.Entering? {
      EntryPaths(h, attempts, r, q);
    }
  }

  lemma EdgeEntry(h: Shared, attempts: seq<Attempt>, r: nat, q: Request, c: Choice)
    requires CanMove(h, attempts, q, c) && EntryOk(h, attempts, q) && PendingOk(h, attempts)
    ensures var edge := NextEdge(h, attempts, q, c);
            EntryOk(PerformShared(h, r, attempts, edge.op),
                    PerformAttempts(attempts, r, q.used.GetOr(h.defaultAuth), edge.op), q.(pc := edge.pc))
  {
  }

  /** A request enters a flow by publishing an attempt under the lock. */
  lemma EdgeBegins(h: Shared, attempts: seq<Attempt>, q: Request, c: Choice)
    requires CanMove(h, attempts, q, c) && !q.pc.InFlow?
    ensures var edge := NextEdge(h, attempts, q, c);
            && (edge.pc.InFlow? <==> edge.op.Publish?)
            && (edge.op.Publish? ==> q.pc == Locked(Begin) && edge.pc == InFlow(|attempts|, RaiseFlag))
            && !edge.op.RaiseBusy? && !edge.op.CountFlow? && !edge.op.SpawnFlow?
  {
  }

  lemma FlowKept(h: Shared, attempts: seq<Attempt>, r: nat, q: Request, c: Choice)
    requires CanMove(h, attempts, q, c) && q.pc.InFlow? && FlowOk(attempts, r, q)
    ensures var edge := FlowEdge(q.pc.a, attempts[q.pc.a], q.pc.w, c);
            FlowOk(PerformAttempts(attempts, r, q.used.GetOr(h.defaultAuth), edge.op), r, q.(pc := edge.pc))
  {
  }

  lemma EdgeFlow(h: Shared, attempts: seq<Attempt>, r: nat, q: Request, c: Choice)
    requires CanMove(h, attempts, q, c) && FlowOk(attempts, r, q) && SlotOk(h.defaultAuth, q)
    ensures var edge := NextEdge(h, attempts, q, c);
            FlowOk(PerformAttempts(attempts, r, q.used.GetOr(h.defaultAuth), edge.op), r,
                   PerformLocal(h.defaultAuth, q, edge.op).(pc := edge.pc))
  {
    if q.pc.InFlow? {
      FlowKept(h, attempts, r, q, c);
    } else {
      EdgeBegins(h, attempts, q, c);
    }
  }

  lemma FlowOwner(h: Shared, attempts: seq<Attempt>, r: nat, q: Request, c: Choice, owner: Request, a: nat)
    requires CanMove(h, attempts, q, c) && q.pc.InFlow? && FlowOk(attempts, r, q)
    requires a < |attempts| && OwnerOk(owner, a, attempts[a]) && (attempts[a].owner == r ==> owner == q)
    ensures var edge := FlowEdge(q.pc.a, attempts[q.pc.a], q.pc.w, c);
            OwnerOk(if attempts[a].owner == r then q.(pc := edge.pc) else owner, a,
                    PerformAttempts(attempts, r, q.used.GetOr(h.defaultAuth), edge.op)[a])
  {
  }

  lemma EdgeOwner(h: Shared, attempts: seq<Attempt>, r: nat, q: Request, c: Choice, owner: Request, a: nat)
    requires CanMove(h, attempts, q, c) && FlowOk(attempts, r, q) && SlotOk(h.defaultAuth, q)
    requires a < |attempts| && OwnerOk(owner, a, attempts[a]) && (attempts[a].owner == r ==> owner == q)
    ensures var edge := NextEdge(h, attempts, q, c);
            var owner' := if attempts[a].owner == r then PerformLocal(h.defaultAuth, q, edge.op).(pc := edge.pc) else owner;
            OwnerOk(owner', a, PerformAttempts(attempts, r, q.used.GetOr(h.defaultAuth), edge.op)[a])
  {
    if q.pc.InFlow? {
      FlowOwner(h, attempts, r, q, c, owner, a);
    } else {
      EdgeBegins(h, attempts, q, c);
      EdgeStages(h, attempts, q, c);
    }
  }

  lemma PerformOutcome(h: Shared, attempts: seq<Attempt>, r: nat, used: Option<AccountAuth>, auth: AccountAuth, op: Op, a: nat)
    requires OpLegal(h, attempts, r, used, op) && LogOk(h)
    requires a < |attempts| && OutcomeOk(h, a, attempts[a])
    ensures OutcomeOk(PerformShared(h, r, attempts, op), a, PerformAttempts(attempts, r, auth, op)[a])
  {
  }

  /** What a step of a background attempt must establish, for itself and for what the others see. */
  ghost predicate AdvanceOk(h: Shared, a: nat, att: Attempt, h': Shared, att': Attempt) {
    && OutcomeOk(h', a, att')
    && LogOk(h')
    && (h'.winner == h.winner || h'.winner == Some(OfAttempt(a)))
    && SharedAdvances(h, h', OfAttempt(a))
    && AttemptAdvances(att, att') && SamePreparation(att.phase, att'.phase)
    && att'.phase.Rank() >= Running.Rank()
    && h'.inFlight == h.inFlight + (if att'.phase.InCounter() then 1 else 0) - (if att.phase.InCounter() then 1 else 0)
    && h'.pending == h.pending && h'.pendingAuth == h.pendingAuth && h'.mutex == h.mutex && h'.earlyReads == h.earlyReads
  }

  lemma AdvanceOutcome(h: Shared, a: nat, att: Attempt, c: Choice)
    requires CanAdvance(att, c) && OutcomeOk(h, a, att) && LogOk(h)
    ensures var (h', att') := Advance(h, a, att, c);
            OutcomeOk(h', a, att') && LogOk(h') && (h'.winner == h.winner || h'.winner == Some(OfAttempt(a)))
  {
  }

  lemma AdvanceShows(h: Shared, a: nat, att: Attempt, c: Choice)
    requires CanAdvance(att, c) && OutcomeOk(h, a, att) && LogOk(h)
    ensures SharedAdvances(h, Advance(h, a, att, c).0, OfAttempt(a))
  {
  }

  lemma AdvanceKeeps(h: Shared, a: nat, att: Attempt, c: Choice)
    requires CanAdvance(att, c) && OutcomeOk(h, a, att) && LogOk(h)
    ensures var (h', att') := Advance(h, a, att, c);
            AdvanceOk(h, a, att, h', att')
  {
    AdvanceOutcome(h, a, att, c);
    AdvanceShows(h, a, att, c);
  }

  // ---------------------------------------------------------------------------
  // Every step keeps the invariant
  // ---------------------------------------------------------------------------

  lemma OwnRequestKept(h: Shared, requests: nat, attempts: seq<Attempt>, r: nat, q: Request, c: Choice)
    requires CanMove(h, attempts, q, c) && RequestOk(h, attempts, r, q) && SharedOk(h, requests, attempts)
    requires forall a :: 0 <= a < |attempts| ==> attempts[a].phase.Finished? && !attempts[a].failed ==> h.authenticated
    ensures var edge := NextEdge(h, attempts, q, c);
            var h' := PerformShared(h, r, attempts, edge.op);
            h'.defaultAuth == h.defaultAuth ==>
            RequestOk(h', PerformAttempts(attempts, r, q.used.GetOr(h.defaultAuth), edge.op), r,
                      PerformLocal(h.defaultAuth, q, edge.op).(pc := edge.pc))
  {
    EdgeLock(h, attempts, r, q, c);
    EdgeLog(h, attempts, r, q, c);
    EdgeCalls(h, attempts, q, c);
    EdgeSlots(h, attempts, q, c);
    EdgePaths(h, attempts, r, q, c);
    EdgeEntry(h, attempts, r, q, c);
    EdgeFlow(h, attempts, r, q, c);
  }

  lemma OldAttemptKept(h: Shared, attempts: seq<Attempt>, r: nat, q: Request, c: Choice, owner: Request, a: nat)
    requires CanMove(h, attempts, q, c) && RequestOk(h, attempts, r, q) && LogOk(h)
    requires a < |attempts| && AttemptOk(h, owner, a, attempts[a]) && (attempts[a].owner == r ==> owner == q)
    ensures var edge := NextEdge(h, attempts, q, c);
            var owner' := if attempts[a].owner == r then PerformLocal(h.defaultAuth, q, edge.op).(pc := edge.pc) else owner;
            AttemptOk(PerformShared(h, r, attempts, edge.op), owner', a,
                      PerformAttempts(attempts, r, q.used.GetOr(h.defaultAuth), edge.op)[a])
  {
    var op := NextEdge(h, attempts, q, c).op;
    EdgeLegal(h, attempts, r, q, c);
    EdgeOwner(h, attempts, r, q, c, owner, a);
    PerformOutcome(h, attempts, r, q.used, q.used.GetOr(h.defaultAuth), op, a);
  }

  lemma NewAttemptKept(h: Shared, requests: nat, attempts: seq<Attempt>, r: nat, q: Request, c: Choice)
    requires CanMove(h, attempts, q, c) && RequestOk(h, attempts, r, q) && SharedOk(h, requests, attempts)
    requires NextEdge(h, attempts, q, c).op.Publish?
    ensures var edge := NextEdge(h, attempts, q, c);
            AttemptOk(PerformShared(h, r, attempts, edge.op), q.(pc := edge.pc), |attempts|,
                      NewAttempt(r, q.used.GetOr(h.defaultAuth)))
  {
  }

  lemma AttemptsKept(s: State, r: nat, c: Choice)
    requires Inv(s) && r < |s.requests| && CanMove(s.shared, s.attempts, s.requests[r], c)
    ensures AttemptsOk(Follow(s, r, NextEdge(s.shared, s.attempts, s.requests[r], c)))
  {
    var edge := NextEdge(s.shared, s.attempts, s.requests[r], c);
    var s' := Follow(s, r, edge);
    forall a | 0 <= a < |s'.attempts|
      ensures s'.attempts[a].owner < |s'.requests|
      ensures AttemptOk(s'.shared, s'.requests[s'.attempts[a].owner], a, s'.attempts[a])
    {
      if a < |s.attempts| {
        OldAttemptKept(s.shared, s.attempts, r, s.requests[r], c, s.requests[s.attempts[a].owner], a);
      } else {
        NewAttemptKept(s.shared, |s.requests|, s.attempts, r, s.requests[r], c);
      }
    }
  }

  /** What a step of request `r` leaves for the others. */
  lemma EdgeEffect(h: Shared, requests: nat, attempts: seq<Attempt>, r: nat, q: Request, c: Choice)
    requires r < requests && SharedOk(h, requests, attempts)
    requires CanMove(h, attempts, q, c) && RequestOk(h, attempts, r, q)
    ensures var op := NextEdge(h, attempts, q, c).op;
            EffectOk(h, requests, r, attempts, PerformShared(h, r, attempts, op),
                     PerformAttempts(attempts, r, q.used.GetOr(h.defaultAuth), op))
  {
    EdgeLegal(h, attempts, r, q, c);
    PerformEffect(h, requests, r, attempts, q.used, q.used.GetOr(h.defaultAuth), NextEdge(h, attempts, q, c).op);
  }

  lemma OthersKept(s: State, r: nat, h': Shared, attempts': seq<Attempt>)
    requires Inv(s) && EffectOk(s.shared, |s.requests|, r, s.attempts, h', attempts')
    ensures forall b :: 0 <= b < |s.requests| && b != r ==> RequestOk(h', attempts', b, s.requests[b])
  {
    forall b | 0 <= b < |s.requests| && b != r ensures RequestOk(h', attempts', b, s.requests[b]) {
      OtherRequestKept(s.shared, h', s.attempts, attempts', OfRequest(r), b, s.requests[b]);
    }
  }

  lemma RequestsKept(s: State, r: nat, c: Choice)
    requires Inv(s) && r < |s.requests| && CanMove(s.shared, s.attempts, s.requests[r], c)
    ensures var s' := Follow(s, r, NextEdge(s.shared, s.attempts, s.requests[r], c));
            SharedOk(s'.shared, |s'.requests|, s'.attempts) && RequestsOk(s')
  {
    var s' := Follow(s, r, NextEdge(s.shared, s.attempts, s.requests[r], c));
    EdgeEffect(s.shared, |s.requests|, s.attempts, r, s.requests[r], c);
    OthersKept(s, r, s'.shared, s'.attempts);
    OwnRequestKept(s.shared, |s.requests|, s.attempts, r, s.requests[r], c);
  }

  lemma RequestStepKeeps(s: State, r: nat, c: Choice)
    requires Inv(s) && r < |s.requests| && CanMove(s.shared, s.attempts, s.requests[r], c)
    ensures Inv(Follow(s, r, NextEdge(s.shared, s.attempts, s.requests[r], c)))
  {
    RequestsKept(s, r, c);
    AttemptsKept(s, r, c);
  }

  /** Of an attempt that is past its preparation, nothing about its owner's position is demanded. */
  lemma ReplacedOwner(owner: Request, a: nat, att: Attempt, att': Attempt)
    requires OwnerOk(owner, a, att) && att'.auth == att.auth && att'.phase.Rank() >= Running.Rank()
    ensures OwnerOk(owner, a, att')
  {
  }

  lemma ReplacedOther(h: Shared, h': Shared, b: nat, owner: Request, a: nat, att: Attempt)
    requires SharedAdvances(h, h', OfAttempt(b)) && AttemptOk(h, owner, a, att) && a != b
    ensures AttemptOk(h', owner, a, att)
  {
  }

  lemma ReplacedShared(h: Shared, requests: nat, attempts: seq<Attempt>, b: nat, h': Shared, att': Attempt)
    requires SharedOk(h, requests, attempts) && b < |attempts| && AdvanceOk(h, b, attempts[b], h', att')
    ensures SharedOk(h', requests, attempts[b := att'])
  {
    CountedUpdate(attempts, b, att');
  }

  lemma AttemptReplaced(s: State, b: nat, h': Shared, att': Attempt)
    requires Inv(s) && b < |s.attempts| && AdvanceOk(s.shared, b, s.attempts[b], h', att')
    ensures Inv(State(h', s.requests, s.attempts[b := att']))
  {
    var attempts' := s.attempts[b := att'];
    ReplacedShared(s.shared, |s.requests|, s.attempts, b, h', att');
    forall r | 0 <= r < |s.requests| ensures RequestOk(h', attempts', r, s.requests[r]) {
      OtherRequestKept(s.shared, h', s.attempts, attempts', OfAttempt(b), r, s.requests[r]);
    }
    forall a | 0 <= a < |attempts'|
      ensures attempts'[a].owner < |s.requests|
      ensures AttemptOk(h', s.requests[attempts'[a].owner], a, attempts'[a])
    {
      if a == b {
        ReplacedOwner(s.requests[s.attempts[a].owner], a, s.attempts[a], att');
      } else {
        ReplacedOther(s.shared, h', b, s.requests[s.attempts[a].owner], a, s.attempts[a]);
      }
    }
  }

  lemma AttemptStepKeeps(s: State, b: nat, c: Choice)
    requires Inv(s) && b < |s.attempts| && CanAdvance(s.attempts[b], c)
    ensures Inv(Apply(s, AttemptStep(b, c)))
  {
    var (h', att') := Advance(s.shared, b, s.attempts[b], c);
    AdvanceKeeps(s.shared, b, s.attempts[b], c);
    AttemptReplaced(s, b, h', att');
  }

  lemma EnvironmentKeeps(s: State, step: Step)
    requires Inv(s) && (step.Arrive? || step.MarkPreAuthenticated?)
    ensures Inv(Apply(s, step))
  {
    var s' := Apply(s, step);
    forall r | 0 <= r < |s'.requests| ensures RequestOk(s'.shared, s'.attempts, r, s'.requests[r]) {
      if r < |s.requests| {
        assert RequestOk(s.shared, s.attempts, r, s.requests[r]);
      }
    }
    forall a | 0 <= a < |s'.attempts|
      ensures s'.attempts[a].owner < |s'.requests|
      ensures AttemptOk(s'.shared, s'.requests[s'.attempts[a].owner], a, s'.attempts[a])
    {
      assert AttemptOk(s.shared, s.requests[s.attempts[a].owner], a, s.attempts[a]);
    }
  }
}
