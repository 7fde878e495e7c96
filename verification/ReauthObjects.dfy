/** The objects behind the protocol, in the form the program gives them: one attempt, the published
    attempt with its busy flag, the account slot of a request, and the in-flight counter. Where a method
    touches fields that every call shares, its contract is the access of the step system it stands for. */
module ReauthObjects {
  import opened Wrappers
  import opened Reauth

  /** A background attempt. `err` is meaningful only once `done` is closed. */
  class PendingAuthAttempt {
    var done: bool
    var err: Option<string>

    constructor ()
      ensures !done && err.None?
    {
      done, err := false, None;
    }

    /** Closing twice panics, hence the precondition. */
    method Finish(outcome: Option<string>)
      requires !done
      modifies this
      ensures done && err == outcome
    {
      err := outcome;
      done := true;
    }
  }

  /** The busy flag and the pointer to the attempt published last. */
  class AuthMiddlewareState {
    var pendingAuth: bool
    var pending: PendingAuthAttempt?
    ghost var published: seq<PendingAuthAttempt>  // every attempt ever published, oldest first

    ghost predicate Valid()
      reads this
    {
      && (pending == null <==> published == [])
      && (pending != null ==> published[|published| - 1] == pending)
    }

    /** The step system's view of the shared fields. */
    ghost function View(defaultAuth: AccountAuth): Shared
      reads this
    {
      Init(defaultAuth).shared.(pendingAuth := pendingAuth,
                                pending := if published == [] then None else Some(|published| - 1))
    }

    /** The step system's view of the attempts: closed or running, failed or not. */
    ghost function AttemptsView(auth: AccountAuth): (atts: seq<Attempt>)
      reads this, published
      ensures |atts| == |published|
    {
      seq(|published|, i requires 0 <= i < |published| reads this, published =>
        NewAttempt(0, auth).(phase := if published[i].done then Finished else Running,
                             failed := published[i].done && published[i].err.Some?))
    }

    constructor ()
      ensures Valid() && !pendingAuth && published == []
    {
      pendingAuth, pending, published := false, null, [];
    }

    /** Publishes a fresh, open attempt and raises the flag: the accesses `Publish` and `RaiseBusy`. */
    method Begin(ghost defaultAuth: AccountAuth, ghost auth: AccountAuth, ghost r: nat) returns (attempt: PendingAuthAttempt)
      requires Valid()
      modifies this
      ensures Valid() && fresh(attempt) && !attempt.done
      ensures published == old(published) + [attempt] && pending == attempt
      ensures var h, attempts := old(View(defaultAuth)), old(AttemptsView(auth));
              var after := PerformAttempts(attempts, r, auth, Publish);
              View(defaultAuth) == PerformShared(PerformShared(h, r, attempts, Publish), r, after, RaiseBusy(|attempts|))
    {
      attempt := new PendingAuthAttempt();
      pending := attempt;
      pendingAuth := true;
      published := published + [attempt];
    }

    /** The access `Settle`. */
    method Settle(ghost defaultAuth: AccountAuth, ghost auth: AccountAuth, ghost r: nat)
      requires Valid()
      modifies this
      ensures Valid() && !pendingAuth && pending == old(pending) && published == old(published)
      ensures View(defaultAuth) == PerformShared(old(View(defaultAuth)), r, old(AttemptsView(auth)), Op.Settle)
    {
      pendingAuth := false;
    }

    /** Running is reported only while the published attempt is open; an error only after it closed. */
    method PendingOutcome() returns (running: bool, err: Option<string>)
      requires Valid()
      ensures running <==> published != [] && !published[|published| - 1].done
      ensures err.Some? <==> published != [] && published[|published| - 1].done && published[|published| - 1].err.Some?
      ensures err.Some? ==> err == published[|published| - 1].err
    {
      if pending == null {
        return false, None;
      }
      if pending.done {
        return false, pending.err;
      }
      return true, None;
    }

    /** The entry check run without interruption takes the atomic edge of the step system, and leaves
        the flag as that edge's access leaves it. */
    method EntryCheck(recovery: bool, ghost defaultAuth: AccountAuth, ghost auth: AccountAuth) returns (next: Pc)
      requires Valid()
      modifies this
      ensures Valid() && pending == old(pending) && published == old(published)
      ensures var edge := AtomicEntryEdge(old(View(defaultAuth)), old(AttemptsView(auth)), recovery);
              next == edge.pc
              && pendingAuth == PerformShared(old(View(defaultAuth)), 0, old(AttemptsView(auth)), edge.op).pendingAuth
    {
      if !pendingAuth {
        return Free(CheckPre);
      }
      var running, err := PendingOutcome();
      if running {
        return if recovery then Free(CallDirect) else Replied(InProgress);
      }
      Settle(defaultAuth, auth, 0);
      return if err.Some? then Replied(FailedAttempt) else Free(EntryCas);
    }
  }

  /** The account slot: a value handed from the resolver back to the middleware. */
  class AccountAuthSlot {
    var auth: AccountAuth
    var isSet: bool

    constructor ()
      ensures !isSet
    {
      auth, isSet := AccountAuth(0, "", ""), false;
    }

    function View(): Option<AccountAuth>
      reads this
    {
      if isSet then Some(auth) else None
    }

    method StoreAuth(value: AccountAuth)
      modifies this
      ensures View() == Some(value)
    {
      auth := value;
      isSet := true;
    }

    /** Whatever was stored last comes out, and nothing comes out before a store. */
    method Load() returns (value: AccountAuth, ok: bool)
      ensures View() == if ok then Some(value) else None
    {
      return auth, isSet;
    }
  }

  /** The account of a request: its slot, else a value injected upstream, else the default. */
  method ResolvedAuth(slot: AccountAuthSlot, injected: Option<AccountAuth>, defaultAuth: AccountAuth, ghost q: Request)
    returns (chosen: AccountAuth)
    requires q.slot == slot.View() && q.injected == injected
    ensures chosen == ChosenAuth(defaultAuth, q)
  {
    var value, ok := slot.Load();
    if ok {
      return value;
    }
    return injected.GetOr(defaultAuth);
  }

  /** The process-wide counter of interactive flows. */
  class InFlightCounter {
    var count: int
    ghost var flows: nat  // begins without their end so far

    ghost predicate Valid()
      reads this
    {
      count == flows
    }

    constructor ()
      ensures Valid() && flows == 0
    {
      count, flows := 0, 0;
    }

    /** The step system's view of the counter. */
    ghost function View(h: Shared): Shared
      reads this
    {
      h.(inFlight := count)
    }

    /** The access `CountFlow`. */
    method BeginInteractiveAuth(ghost h: Shared, ghost attempts: seq<Attempt>, ghost r: nat, ghost a: nat)
      requires Valid() && a < |attempts|
      modifies this
      ensures Valid() && flows == old(flows) + 1
      ensures View(h) == PerformShared(old(View(h)), r, attempts, CountFlow(a))
    {
      count, flows := count + 1, flows + 1;
    }

    /** The step of an attempt that is about to end; every end has its begin. */
    method EndInteractiveAuth(ghost h: Shared, ghost a: nat, ghost att: Attempt)
      requires Valid() && flows > 0 && att.phase.Ending?
      modifies this
      ensures Valid() && flows == old(flows) - 1
      ensures View(h) == Advance(old(View(h)), a, att, Proceed).0
    {
      count, flows := count - 1, flows - 1;
    }

    method InteractiveAuthInFlight() returns (busy: bool)
      requires Valid()
      ensures busy <==> flows > 0
    {
      busy := count > 0;
    }
  }
}
