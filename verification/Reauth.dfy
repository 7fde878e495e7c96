/** The re-authentication protocol of the auth middleware, as a step system.

    Any number of tool calls run at once. Each is a `Request` that walks through the
    middleware, one step for each access to shared state (an atomic load or store, a
    compare-and-swap, a lock operation, a channel receive) and one for each answer of the
    outside world (a handler result, a token probe, a prompt, an elapsed timer). Each
    interactive flow runs in the background as an `Attempt`, which takes steps of its own
    and never touches the lock.

    Fields whose comment says "history" are not in the program: they record what happened
    so that properties of a whole run can be read off a single state. */
module Reauth {
  import opened Wrappers

  /** What the resolver hands back for one account. The credential is an opaque token. */
  datatype AccountAuth = AccountAuth(credential: nat, recordPath: string, authMethod: string)

  datatype Flow = AuthCodeFlow | BrowserFlow | DeviceCodeFlow

  /** Any method other than "auth_code" and "browser" falls through to the device code flow. */
  function FlowOf(authMethod: string): Flow {
    if authMethod == "auth_code" then AuthCodeFlow
    else if authMethod == "browser" then BrowserFlow
    else DeviceCodeFlow
  }

  /** How a tool call was answered. */
  datatype Reply =
    | HandlerAnswer   // whatever the inner handler returned
    | InProgress      // "authentication is still in progress"
    | FailedAttempt   // the error of a background attempt seen at entry
    | AuthFailed      // an error of the flow this call started
    | Instructions    // the device code text

  /** Entry: the busy flag, the pointer, the done channel, the error, the flag again. */
  datatype EntryPc = Start | LoadPending | Inspect(a: nat) | EntryReadErr(a: nat) | EntrySettle(seen: Option<nat>, failed: bool)

  /** Past the entry check and without the lock. */
  datatype FreePc =
    | EntryCas | EntryLog
    | CheckPre | CheckAuth
    | FreshSilent | SilentCas | SilentLog
    | CallDirect | InDirect(stored: bool)   // the handler whose answer is final
    | CallFirst | InFirst(stored: bool)     // the handler whose auth errors are retried
    | AwaitLock

  /** Between the acquisition and the deferred release of the lock, with no flow begun. */
  datatype LockedPc =
    | LockedCheck | LoadSlot | LockedSilent | LockedCas | LockedLog | AuthCode | Begin
    | CallRetry | InRetry(stored: bool)
    | Unlock(reply: Reply)

  /** Holding the lock and an attempt this request began. */
  datatype FlowPc = RaiseFlag | CountUp | Spawn | AwaitPrompt | Present | Await | FlowSettle | FlowReadErr

  datatype Pc =
    | Entering(e: EntryPc)
    | Free(f: FreePc)
    | Locked(l: LockedPc)
    | InFlow(a: nat, w: FlowPc)
    | Replied(reply: Reply)
  {
    predicate HoldsLock() { Locked? || InFlow? }
    predicate Logging() { (Free? && (f.EntryLog? || f.SilentLog?)) || (Locked? && l.LockedLog?) }
  }

  datatype Request = Request(
    recovery: bool,                  // the call targets the account domain
    injected: Option<AccountAuth>,   // account details placed in the context upstream
    pc: Pc,
    slot: Option<AccountAuth>,       // the account slot of this request
    calls: nat,                      // history: invocations of the inner handler
    resolved: Option<AccountAuth>,   // history: stored by the resolver during the first handler call
    used: Option<AccountAuth>,       // the account chosen under the lock
    fellThrough: bool                // history: settled a successful attempt at entry
  )

  datatype Phase =
    | Published   // stored in the pointer
    | Flagged     // busy flag raised
    | Counted     // in-flight counter incremented
    | Running     // goroutine inside authenticate
    | CasWanted   // authenticate succeeded
    | LogOwed     // this goroutine won the compare-and-swap
    | Ending      // about to decrement the counter
    | Writing     // about to assign err
    | Closing     // about to close done
    | Finished    // done is closed
  {
    function Rank(): nat {
      match this
      case Published => 0 case Flagged => 1 case Counted => 2 case Running => 3 case CasWanted => 4
      case LogOwed => 5 case Ending => 6 case Writing => 7 case Closing => 8 case Finished => 9
    }

    predicate Live() { Flagged.Rank() <= Rank() < Finished.Rank() }
    predicate InCounter() { Counted.Rank() <= Rank() <= Ending.Rank() }
  }

  datatype Attempt = Attempt(
    owner: nat,          // history: the request that began it
    auth: AccountAuth,   // credential, record path and method it authenticates with
    phase: Phase,
    ok: bool,            // local result of authenticate
    failed: bool,        // the err field: false is nil
    writes: nat,         // history: assignments to err
    prompted: bool,      // the device code prompt was sent
    intercepted: nat     // history: entering requests answered with this attempt's error
  )

  datatype Actor = OfRequest(r: nat) | OfAttempt(a: nat)

  /** The fields every tool call and every background goroutine shares. */
  datatype Shared = Shared(
    defaultAuth: AccountAuth,
    pendingAuth: bool,
    pending: Option<nat>,
    preAuthenticated: bool,
    authenticated: bool,
    mutex: Option<nat>,
    inFlight: int,
    readyLogs: nat,        // history: "ready to serve" lines emitted
    winner: Option<Actor>, // history: who turned `authenticated` from false to true
    earlyReads: nat        // history: reads of err on an attempt whose done is open
  )

  datatype State = State(shared: Shared, requests: seq<Request>, attempts: seq<Attempt>)

  function Init(defaultAuth: AccountAuth): State {
    State(Shared(defaultAuth, false, None, false, false, None, 0, 0, None, 0), [], [])
  }

  /** The answer of the outside world, where a step waits for one. */
  datatype Choice = Proceed | Accept | Refuse | Expire | Resolve(auth: AccountAuth)

  datatype Step =
    | Arrive(recovery: bool, injected: Option<AccountAuth>)
    | MarkPreAuthenticated
    | RequestStep(r: nat, c: Choice)
    | AttemptStep(a: nat, c: Choice)
    | EntryAtomic(r: nat)

  // ---------------------------------------------------------------------------
  // Accesses to shared state
  // ---------------------------------------------------------------------------

  /** What one step of a request does, apart from moving on. */
  datatype Op =
    | Skip                        // a load, or an answer of the outside world
    | CasAuthenticated            // `authenticated` from false to true
    | LogReady                    // the "ready to serve" line
    | Settle                      // lower the busy flag
    | SettleOk                    // at entry, after a success
    | SettleFailed(a: nat)        // at entry, after a failure that answers this request
    | ReadErr(a: nat)
    | CallHandler
    | Store(auth: AccountAuth)    // the resolver fills the slot
    | StoreFirst(auth: AccountAuth)
    | Acquire
    | ChooseAccount
    | Publish                     // allocate an attempt and store the pointer
    | RaiseBusy(a: nat)
    | CountFlow(a: nat)
    | SpawnFlow(a: nat)
    | Release

  /** The compare-and-swap on `authenticated`: the winner owes the log line. */
  function Cas(h: Shared, who: Actor): Shared {
    if h.authenticated then h else h.(authenticated := true, winner := Some(who))
  }

  function EmitReady(h: Shared): Shared {
    h.(readyLogs := h.readyLogs + 1)
  }

  function LowerFlag(h: Shared): Shared {
    h.(pendingAuth := false)
  }

  /** The slot first, then a value injected upstream, then the server default. */
  function ChosenAuth(defaultAuth: AccountAuth, q: Request): AccountAuth {
    q.slot.GetOr(q.injected.GetOr(defaultAuth))
  }

  function NewAttempt(r: nat, auth: AccountAuth): Attempt {
    Attempt(r, auth, Published, false, false, 0, false, 0)
  }

  predicate OpDefined(attempts: seq<Attempt>, op: Op) {
    match op
    case SettleFailed(a) => a < |attempts|
    case ReadErr(a) => a < |attempts|
    case RaiseBusy(a) => a < |attempts|
    case CountFlow(a) => a < |attempts|
    case SpawnFlow(a) => a < |attempts|
    case _ => true
  }

  /** The shared fields after an access by request `r`. */
  function PerformShared(h: Shared, r: nat, attempts: seq<Attempt>, op: Op): Shared
    requires OpDefined(attempts, op)
  {
    match op
    case CasAuthenticated => Cas(h, OfRequest(r))
    case LogReady => EmitReady(h)
    case Settle | SettleOk | SettleFailed(_) => LowerFlag(h)
    case ReadErr(a) => if attempts[a].phase.Finished? then h else h.(earlyReads := h.earlyReads + 1)
    case Acquire => h.(mutex := Some(r))
    case Release => h.(mutex := None)
    case Publish => h.(pending := Some(|attempts|))
    case RaiseBusy(_) => h.(pendingAuth := true)
    case CountFlow(_) => h.(inFlight := h.inFlight + 1)
    case _ => h
  }

  /** The attempts after an access by request `r`, whose chosen account is `used`. */
  function PerformAttempts(attempts: seq<Attempt>, r: nat, used: AccountAuth, op: Op): (attempts': seq<Attempt>)
    requires OpDefined(attempts, op)
    ensures |attempts'| == |attempts| + if op.Publish? then 1 else 0
    ensures forall a :: 0 <= a < |attempts| ==> attempts'[a].owner == attempts[a].owner
    ensures op.Publish? ==> attempts'[|attempts|] == NewAttempt(r, used)
  {
    match op
    case SettleFailed(a) => attempts[a := attempts[a].(intercepted := attempts[a].intercepted + 1)]
    case Publish => attempts + [NewAttempt(r, used)]
    case RaiseBusy(a) => attempts[a := attempts[a].(phase := Flagged)]
    case CountFlow(a) => attempts[a := attempts[a].(phase := Counted)]
    case SpawnFlow(a) => attempts[a := attempts[a].(phase := Running)]
    case _ => attempts
  }

  /** The request's own record after the access. */
  function PerformLocal(defaultAuth: AccountAuth, q: Request, op: Op): Request {
    match op
    case SettleOk => q.(fellThrough := true)
    case CallHandler => q.(calls := q.calls + 1)
    case Store(auth) => q.(slot := Some(auth))
    case StoreFirst(auth) => q.(slot := Some(auth), resolved := Some(auth))
    case ChooseAccount => q.(used := Some(ChosenAuth(defaultAuth, q)))
    case _ => q
  }

  // ---------------------------------------------------------------------------
  // Request steps
  // ---------------------------------------------------------------------------

  predicate CanMove(h: Shared, attempts: seq<Attempt>, q: Request, c: Choice) {
    match q.pc
    case Entering(e) => c.Proceed? && CanEnter(attempts, e)
    case Free(f) =>
      if f.FreshSilent? then c.Accept? || c.Refuse?
      else if f.InDirect? then (c.Resolve? && !f.stored) || c.Accept?
      else if f.InFirst? then (c.Resolve? && !f.stored) || c.Accept? || c.Refuse?
      else c.Proceed? && (f.AwaitLock? ==> h.mutex.None?)
    case Locked(l) =>
      if l.LockedSilent? || l.AuthCode? then c.Accept? || c.Refuse?
      else if l.InRetry? then (c.Resolve? && !l.stored) || c.Accept?
      else c.Proceed?
    case InFlow(a, w) => a < |attempts| && CanFlow(attempts[a], w, c)
    case Replied(_) => false
  }

  predicate CanEnter(attempts: seq<Attempt>, e: EntryPc) {
    match e
    case Inspect(a) => a < |attempts|
    case EntryReadErr(a) => a < |attempts|
    case EntrySettle(seen, failed) => (seen.Some? ==> seen.value < |attempts|) && (failed ==> seen.Some?)
    case _ => true
  }

  /** The two waits end on whichever of their events is ready; a timer can always fire. */
  predicate CanFlow(att: Attempt, w: FlowPc, c: Choice) {
    match w
    case AwaitPrompt => c.Expire? || (c.Accept? && att.prompted) || (c.Proceed? && att.phase.Finished?)
    case Await => c.Expire? || (c.Proceed? && att.phase.Finished?)
    case Present => c.Accept? || c.Refuse?
    case _ => c.Proceed?
  }

  /** What a step does and where it leads. */
  datatype Edge = Do(op: Op, pc: Pc)

  /** The entry check: the busy flag, the outcome of the published attempt, the settle. */
  function EntryEdge(h: Shared, attempts: seq<Attempt>, recovery: bool, e: EntryPc): (edge: Edge)
    requires CanEnter(attempts, e)
    ensures OpDefined(attempts, edge.op)
  {
    match e
    case Start => Do(Skip, if h.pendingAuth then Entering(LoadPending) else Free(CheckPre))
    case LoadPending =>
      Do(Skip, Entering(if h.pending.None? then EntrySettle(None, false) else Inspect(h.pending.value)))
    case Inspect(a) =>
      Do(Skip, if attempts[a].phase.Finished? then Entering(EntryReadErr(a))
               else if recovery then Free(CallDirect) else Replied(InProgress))
    case EntryReadErr(a) => Do(ReadErr(a), Entering(EntrySettle(Some(a), attempts[a].failed)))
    case EntrySettle(seen, failed) =>
      if failed then Do(SettleFailed(seen.value), Replied(FailedAttempt)) else Do(SettleOk, Free(EntryCas))
  }

  /** The fresh-credential test, the silent probe, and handler calls without the lock. */
  function FreeEdge(h: Shared, recovery: bool, f: FreePc, c: Choice): Edge {
    match f
    case EntryCas => Do(CasAuthenticated, Free(if h.authenticated then CheckPre else EntryLog))
    case EntryLog => Do(LogReady, Free(CheckPre))
    case CheckPre => Do(Skip, Free(if h.preAuthenticated then CallFirst else CheckAuth))
    case CheckAuth =>
      Do(Skip, Free(if h.authenticated then CallFirst else if recovery then CallDirect else FreshSilent))
    case FreshSilent => Do(Skip, Free(if c.Accept? then SilentCas else AwaitLock))
    case SilentCas => Do(CasAuthenticated, Free(if h.authenticated then CallDirect else SilentLog))
    case SilentLog => Do(LogReady, Free(CallDirect))
    case CallDirect => Do(CallHandler, Free(InDirect(false)))
    case InDirect(_) => if c.Resolve? then Do(Store(c.auth), Free(InDirect(true))) else Do(Skip, Replied(HandlerAnswer))
    case CallFirst => Do(CallHandler, Free(InFirst(false)))
    case InFirst(_) =>
      if c.Resolve? then Do(StoreFirst(c.auth), Free(InFirst(true)))
      else Do(Skip, if c.Accept? then Replied(HandlerAnswer) else Free(AwaitLock))
    case AwaitLock => Do(Acquire, Locked(LockedCheck))
  }

  /** Re-authentication under the lock, up to the start of a background flow. */
  function LockedEdge(h: Shared, next: nat, used: AccountAuth, l: LockedPc, c: Choice): Edge {
    match l
    case LockedCheck => Do(Skip, Locked(if h.pendingAuth then Unlock(InProgress) else LoadSlot))
    case LoadSlot => Do(ChooseAccount, Locked(LockedSilent))
    case LockedSilent =>
      Do(Skip, Locked(if c.Accept? then LockedCas
                      else if FlowOf(used.authMethod).AuthCodeFlow? then AuthCode else Begin))
    case LockedCas => Do(CasAuthenticated, Locked(if h.authenticated then CallRetry else LockedLog))
    case LockedLog => Do(LogReady, Locked(CallRetry))
    case AuthCode => Do(Skip, Locked(if c.Accept? then LockedCas else Unlock(AuthFailed)))
    case Begin => Do(Publish, InFlow(next, RaiseFlag))
    case CallRetry => Do(CallHandler, Locked(InRetry(false)))
    case InRetry(_) => if c.Resolve? then Do(Store(c.auth), Locked(InRetry(true))) else Do(Skip, Locked(Unlock(HandlerAnswer)))
    case Unlock(reply) => Do(Release, Replied(reply))
  }

  /** The foreground of a flow this request began: publish, count, spawn, wait. */
  function FlowEdge(a: nat, att: Attempt, w: FlowPc, c: Choice): Edge {
    match w
    case RaiseFlag => Do(RaiseBusy(a), InFlow(a, CountUp))
    case CountUp => Do(CountFlow(a), InFlow(a, Spawn))
    case Spawn => Do(SpawnFlow(a), InFlow(a, if FlowOf(att.auth.authMethod).BrowserFlow? then Await else AwaitPrompt))
    case AwaitPrompt =>
      Do(Skip, if c.Expire? then Locked(Unlock(AuthFailed)) else InFlow(a, if c.Accept? then Present else FlowSettle))
    case Present => Do(Skip, if c.Accept? then InFlow(a, Await) else Locked(Unlock(Instructions)))
    case Await =>
      Do(Skip, if c.Proceed? then InFlow(a, FlowSettle)
               else Locked(Unlock(if FlowOf(att.auth.authMethod).BrowserFlow? then AuthFailed else Instructions)))
    case FlowSettle => Do(Settle, InFlow(a, FlowReadErr))
    case FlowReadErr => Do(ReadErr(a), Locked(if att.failed then Unlock(AuthFailed) else CallRetry))
  }

  function NextEdge(h: Shared, attempts: seq<Attempt>, q: Request, c: Choice): (edge: Edge)
    requires CanMove(h, attempts, q, c)
    ensures OpDefined(attempts, edge.op)
  {
    match q.pc
    case Entering(e) => EntryEdge(h, attempts, q.recovery, e)
    case Free(f) => FreeEdge(h, q.recovery, f, c)
    case Locked(l) => LockedEdge(h, |attempts|, q.used.GetOr(h.defaultAuth), l, c)
    case InFlow(a, w) => FlowEdge(a, attempts[a], w, c)
  }

  function Follow(s: State, r: nat, edge: Edge): State
    requires r < |s.requests| && OpDefined(s.attempts, edge.op)
  {
    var q := s.requests[r];
    State(PerformShared(s.shared, r, s.attempts, edge.op),
          s.requests[r := PerformLocal(s.shared.defaultAuth, q, edge.op).(pc := edge.pc)],
          PerformAttempts(s.attempts, r, q.used.GetOr(s.shared.defaultAuth), edge.op))
  }

  /** The entry check with the flag test, the outcome and the settle in one step. */
  function AtomicEntryEdge(h: Shared, attempts: seq<Attempt>, recovery: bool): Edge {
    if !h.pendingAuth then Do(Skip, Free(CheckPre))
    else if h.pending.Some? && h.pending.value < |attempts| then
      var a := h.pending.value;
      if !attempts[a].phase.Finished? then Do(Skip, if recovery then Free(CallDirect) else Replied(InProgress))
      else if attempts[a].failed then Do(SettleFailed(a), Replied(FailedAttempt))
      else Do(SettleOk, Free(EntryCas))
    else Do(SettleOk, Free(EntryCas))
  }

  // ---------------------------------------------------------------------------
  // Steps of a background attempt
  // ---------------------------------------------------------------------------

  predicate CanAdvance(att: Attempt, c: Choice) {
    match att.phase
    case Published | Flagged | Counted | Finished => false
    case Running =>
      c.Accept? || c.Refuse? || (c.Proceed? && !att.prompted && FlowOf(att.auth.authMethod).DeviceCodeFlow?)
    case _ => c.Proceed?
  }

  /** One step of the goroutine of attempt `a`: authenticate, log, count down, publish the error. */
  function Advance(h: Shared, a: nat, att: Attempt, c: Choice): (Shared, Attempt)
    requires CanAdvance(att, c)
  {
    match att.phase
    case Running =>
      (h, if c.Proceed? then att.(prompted := true)
          else att.(phase := if c.Accept? then CasWanted else Ending, ok := c.Accept?))
    case CasWanted => (Cas(h, OfAttempt(a)), att.(phase := if h.authenticated then Ending else LogOwed))
    case LogOwed => (EmitReady(h), att.(phase := Ending))
    case Ending => (h.(inFlight := h.inFlight - 1), att.(phase := Writing))
    case Writing => (h, att.(phase := Closing, failed := !att.ok, writes := att.writes + 1))
    case Closing => (h, att.(phase := Finished))
  }

  // ---------------------------------------------------------------------------
  // Runs
  // ---------------------------------------------------------------------------

  predicate Enabled(s: State, step: Step) {
    match step
    case Arrive(_, _) => true
    case MarkPreAuthenticated => true
    case RequestStep(r, c) => r < |s.requests| && CanMove(s.shared, s.attempts, s.requests[r], c)
    case AttemptStep(a, c) => a < |s.attempts| && CanAdvance(s.attempts[a], c)
    case EntryAtomic(r) => r < |s.requests| && s.requests[r].pc == Entering(Start)
  }

  function Apply(s: State, step: Step): State
    requires Enabled(s, step)
  {
    match step
    case Arrive(recovery, injected) =>
      s.(requests := s.requests + [Request(recovery, injected, Entering(Start), None, 0, None, None, false)])
    case MarkPreAuthenticated => s.(shared := s.shared.(preAuthenticated := true))
    case RequestStep(r, c) => Follow(s, r, NextEdge(s.shared, s.attempts, s.requests[r], c))
    case AttemptStep(a, c) =>
      var (h, att) := Advance(s.shared, a, s.attempts[a], c);
      State(h, s.requests, s.attempts[a := att])
    case EntryAtomic(r) => Follow(s, r, AtomicEntryEdge(s.shared, s.attempts, s.requests[r].recovery))
  }

  predicate Feasible(s: State, run: seq<Step>)
    decreases |run|
  {
    run == [] || (Enabled(s, run[0]) && Feasible(Apply(s, run[0]), run[1..]))
  }

  function Exec(s: State, run: seq<Step>): State
    requires Feasible(s, run)
    decreases |run|
  {
    if run == [] then s else Exec(Apply(s, run[0]), run[1..])
  }

  /** One step per access to shared state. */
  predicate Fine(run: seq<Step>) {
    forall i :: 0 <= i < |run| ==> !run[i].EntryAtomic?
  }

  ghost predicate Reachable(d: AccountAuth, s: State) {
    exists run: seq<Step> :: Fine(run) && Feasible(Init(d), run) && s == Exec(Init(d), run)
  }
}
