/** What each answer of the re-authentication protocol tells the caller, under any interleaving. */
module ReauthReplies {
  import opened Wrappers
  import opened Reauth
  import opened ReauthInvariant
  import opened ReauthSafety

  /** What has happened to a request that gives, or is about to give, this reply. */
  predicate ReplyMeans(h: Shared, q: Request, reply: Reply) {
    match reply
    case HandlerAnswer => 1 <= q.calls && (q.used.Some? ==> h.authenticated) && (q.calls == 2 ==> q.used.Some?)
    case InProgress => q.calls <= 1 && q.used.None?
    case FailedAttempt => q.calls == 0 && q.used.None?
    case AuthFailed => q.calls <= 1 && q.used.Some?
    case Instructions => q.calls <= 1 && q.used.Some? && FlowOf(q.used.value.authMethod).DeviceCodeFlow?
  }

  predicate LockedMeans(h: Shared, q: Request, l: LockedPc) {
    match l
    case LockedCheck | LoadSlot => q.used.None?
    case AuthCode => q.used.Some? && FlowOf(q.used.value.authMethod).AuthCodeFlow?
    case Begin => q.used.Some? && !FlowOf(q.used.value.authMethod).AuthCodeFlow?
    case LockedLog | CallRetry | InRetry(_) => q.used.Some? && h.authenticated
    case LockedSilent | LockedCas => q.used.Some?
    case Unlock(reply) => ReplyMeans(h, q, reply)
  }

  /** The flow a request is in is the one its account asks for. */
  predicate FlowMeans(q: Request, w: FlowPc) {
    && q.used.Some? && !FlowOf(q.used.value.authMethod).AuthCodeFlow?
    && (w.AwaitPrompt? || w.Present? ==> FlowOf(q.used.value.authMethod).DeviceCodeFlow?)
  }

  predicate PcMeans(h: Shared, q: Request) {
    match q.pc
    case Entering(_) => q.used.None?
    case Free(_) => q.used.None?
    case Locked(l) => LockedMeans(h, q, l)
    case InFlow(_, w) => FlowMeans(q, w)
    case Replied(reply) => ReplyMeans(h, q, reply)
  }

  ghost predicate Meaningful(s: State) {
    forall r :: 0 <= r < |s.requests| ==> PcMeans(s.shared, s.requests[r])
  }

  // ---------------------------------------------------------------------------
  // One step
  // ---------------------------------------------------------------------------

  lemma UnlockedEdgeMeans(h: Shared, attempts: seq<Attempt>, r: nat, q: Request, c: Choice)
    requires CanMove(h, attempts, q, c) && PcMeans(h, q) && CallsOk(q.pc, q.calls)
    requires q.pc.Entering? || q.pc.Free?
    ensures var edge := NextEdge(h, attempts, q, c);
            PcMeans(PerformShared(h, r, attempts, edge.op), PerformLocal(h.defaultAuth, q, edge.op).(pc := edge.pc))
  {
  }

  lemma LockedEdgeMeans(h: Shared, attempts: seq<Attempt>, r: nat, q: Request, c: Choice)
    requires CanMove(h, attempts, q, c) && PcMeans(h, q) && CallsOk(q.pc, q.calls)
    requires q.pc.Locked?
    ensures var edge := LockedEdge(h, |attempts|, q.used.GetOr(h.defaultAuth), q.pc.l, c);
            && OpDefined(attempts, edge.op)
            && PcMeans(PerformShared(h, r, attempts, edge.op), PerformLocal(h.defaultAuth, q, edge.op).(pc := edge.pc))
  {
  }

  /** A flow ends in a retry only when its attempt has succeeded. */
  lemma FlowEdgeMeans(h: Shared, attempts: seq<Attempt>, r: nat, q: Request, c: Choice)
    requires CanMove(h, attempts, q, c) && PcMeans(h, q) && CallsOk(q.pc, q.calls)
    requires q.pc.InFlow? && q.used == Some(attempts[q.pc.a].auth)
    requires q.pc.w.FlowReadErr? && !attempts[q.pc.a].failed ==> h.authenticated
    ensures var edge := NextEdge(h, attempts, q, c);
            PcMeans(PerformShared(h, r, attempts, edge.op), PerformLocal(h.defaultAuth, q, edge.op).(pc := edge.pc))
  {
  }

  lemma PcMeansMonotone(h: Shared, h': Shared, q: Request)
    requires PcMeans(h, q) && (h.authenticated ==> h'.authenticated)
    ensures PcMeans(h', q)
  {
  }

  lemma OwnStepMeans(s: State, r: nat, c: Choice)
    requires Inv(s) && Meaningful(s) && Enabled(s, RequestStep(r, c))
    ensures var s' := Apply(s, RequestStep(r, c)); PcMeans(s'.shared, s'.requests[r])
  {
    var q := s.requests[r];
    assert RequestOk(s.shared, s.attempts, r, q);
    if q.pc.InFlow? {
      var att := s.attempts[q.pc.a];
      assert HeldOk(att, r, q.used, q.pc.w);
      assert AttemptOk(s.shared, s.requests[att.owner], q.pc.a, att);
      FlowEdgeMeans(s.shared, s.attempts, r, q, c);
    } else if q.pc.Locked? {
      LockedEdgeMeans(s.shared, s.attempts, r, q, c);
    } else {
      UnlockedEdgeMeans(s.shared, s.attempts, r, q, c);
    }
  }

  lemma RequestStepMeans(s: State, r: nat, c: Choice)
    requires Inv(s) && Meaningful(s) && Enabled(s, RequestStep(r, c))
    ensures Meaningful(Apply(s, RequestStep(r, c)))
  {
    var s' := Apply(s, RequestStep(r, c));
    OwnStepMeans(s, r, c);
    StepNeverTakesBack(s, RequestStep(r, c));
    forall b | 0 <= b < |s'.requests| && b != r ensures PcMeans(s'.shared, s'.requests[b]) {
      PcMeansMonotone(s.shared, s'.shared, s.requests[b]);
    }
  }

  lemma StepMeans(s: State, step: Step)
    requires Inv(s) && Meaningful(s) && Enabled(s, step) && !step.EntryAtomic?
    ensures Meaningful(Apply(s, step))
  {
    var s' := Apply(s, step);
    if step.RequestStep? {
      RequestStepMeans(s, step.r, step.c);
    } else {
      StepNeverTakesBack(s, step);
      forall b | 0 <= b < |s.requests| ensures PcMeans(s'.shared, s'.requests[b]) {
        PcMeansMonotone(s.shared, s'.shared, s.requests[b]);
      }
    }
  }

  lemma {:induction false} RunMeans(s: State, run: seq<Step>)
    requires Inv(s) && Meaningful(s) && Fine(run) && Feasible(s, run)
    ensures Meaningful(Exec(s, run))
    decreases |run|
  {
    if run != [] {
      StepKeeps(s, run[0]);
      StepMeans(s, run[0]);
      RunMeans(Apply(s, run[0]), run[1..]);
    }
  }

  /** The reply "in progress" and a failure seen at entry come from calls that chose no account and prompted
      nobody; a failed authentication or device code instructions from calls that did, the latter on the
      device code flow; and a handler answer given after an account was chosen, in particular any second
      invocation of the handler, comes after authentication has succeeded. */
  lemma ReplyMeaning(d: AccountAuth, s: State, r: nat)
    requires Reachable(d, s) && r < |s.requests|
    ensures s.requests[r].pc.Replied? ==> ReplyMeans(s.shared, s.requests[r], s.requests[r].pc.reply)
    ensures s.requests[r].pc.Locked? && s.requests[r].pc.l.InRetry? ==> s.shared.authenticated
  {
    var run :| Fine(run) && Feasible(Init(d), run) && s == Exec(Init(d), run);
    RunMeans(Init(d), run);
    assert PcMeans(s.shared, s.requests[r]);
  }

  // ---------------------------------------------------------------------------
  // What a handler's answer leads to
  // ---------------------------------------------------------------------------

  /** On the way to the lock, under it, or past it. */
  predicate Reauthenticates(q: Request) {
    q.pc == Free(AwaitLock) || q.pc.HoldsLock() || q.calls == 2 || q.used.Some?
  }

  lemma EdgeReauthenticates(h: Shared, attempts: seq<Attempt>, q: Request, c: Choice)
    requires CanMove(h, attempts, q, c) && CallsOk(q.pc, q.calls) && !Reauthenticates(q)
    ensures var edge := NextEdge(h, attempts, q, c);
            Reauthenticates(PerformLocal(h.defaultAuth, q, edge.op).(pc := edge.pc)) ==> c.Refuse?
  {
  }

  lemma StepReauthenticates(s: State, step: Step, r: nat)
    requires Inv(s) && Enabled(s, step) && !step.EntryAtomic? && r < |Apply(s, step).requests|
    requires Reauthenticates(Apply(s, step).requests[r]) && (r < |s.requests| ==> !Reauthenticates(s.requests[r]))
    ensures step == RequestStep(r, Refuse)
  {
    if r < |s.requests| {
      assert RequestOk(s.shared, s.attempts, r, s.requests[r]);
      if step.RequestStep? && step.r == r {
        EdgeReauthenticates(s.shared, s.attempts, s.requests[r], step.c);
      }
    }
  }

  lemma {:induction false} RefusedBefore(s: State, run: seq<Step>, r: nat)
    requires Inv(s) && Fine(run) && Feasible(s, run) && r < |Exec(s, run).requests|
    requires Reauthenticates(Exec(s, run).requests[r]) && (r < |s.requests| ==> !Reauthenticates(s.requests[r]))
    ensures RequestStep(r, Refuse) in run
    decreases |run|
  {
    if run != [] {
      var next := Apply(s, run[0]);
      StepKeeps(s, run[0]);
      if r < |next.requests| && Reauthenticates(next.requests[r]) {
        StepReauthenticates(s, run[0], r);
      } else {
        RefusedBefore(next, run[1..], r);
      }
    }
  }

  /** Whatever the interleaving: a call that waits for the lock, holds it, has chosen an account or has invoked its
      handler again was refused before, by its handler or by the token probe. A call whose probe and handler never
      fail for want of authentication never re-authenticates. */
  lemma OnlyRefusalReauthenticates(d: AccountAuth, run: seq<Step>, r: nat)
    requires Fine(run) && Feasible(Init(d), run) && r < |Exec(Init(d), run).requests|
    ensures var q := Exec(Init(d), run).requests[r];
            q.pc == Free(AwaitLock) || q.pc.HoldsLock() || q.calls == 2 || q.used.Some? ==> RequestStep(r, Refuse) in run
  {
    if Reauthenticates(Exec(Init(d), run).requests[r]) {
      RefusedBefore(Init(d), run, r);
    }
  }

  /** A handler outside the lock that answers, with anything but an authentication error, has answered the call:
      after one invocation, without an account chosen, and with nothing shared changed. */
  lemma GoodAnswerIsTheReply(d: AccountAuth, s: State, r: nat)
    requires Reachable(d, s) && r < |s.requests|
    requires s.requests[r].pc in {Free(InFirst(false)), Free(InFirst(true)), Free(InDirect(false)), Free(InDirect(true))}
    ensures Enabled(s, RequestStep(r, Accept))
    ensures Apply(s, RequestStep(r, Accept)) == s.(requests := s.requests[r := s.requests[r].(pc := Replied(HandlerAnswer))])
    ensures s.requests[r].calls == 1 && s.requests[r].used.None?
  {
    ReachableInv(d, s);
    assert RequestOk(s.shared, s.attempts, r, s.requests[r]);
  }

  /** Only a handler that may be retried can fail for want of authentication, and then its call goes for the lock. */
  lemma AuthErrorGoesForTheLock(s: State, r: nat)
    requires r < |s.requests| && s.requests[r].pc.Free? && (s.requests[r].pc.f.InFirst? || s.requests[r].pc.f.InDirect?)
    ensures Enabled(s, RequestStep(r, Refuse)) <==> s.requests[r].pc.f.InFirst?
    ensures Enabled(s, RequestStep(r, Refuse)) ==>
              Apply(s, RequestStep(r, Refuse)) == s.(requests := s.requests[r := s.requests[r].(pc := Free(AwaitLock))])
  {
  }
}
