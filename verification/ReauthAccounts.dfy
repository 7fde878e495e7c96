/** Tool calls and accounts together: the resolver fills the account slot from the registry as it is at that
    moment, and re-authentication signs in for what it found there. */
module ReauthAccounts {
  import opened Wrappers
  import opened Reauth
  import opened ReauthObjects
  import opened ReauthSafety
  import AccountLifecycle
  import AccountsFile
  import Registry
  import RegistryObjects
  import Resolver

  // ---------------------------------------------------------------------------
  // What the resolver hands to the middleware
  // ---------------------------------------------------------------------------

  datatype CredentialKind = AuthCodeCredential | DeviceCodeCredential | OtherCredential

  /** The method an account was registered with, or what its credential suggests. */
  function InferAuthMethod(e: Registry.Entry, kind: nat -> CredentialKind): (authMethod: string)
    ensures e.authMethod in {"auth_code", "device_code", "browser"} ==> authMethod == e.authMethod
    ensures authMethod in {"auth_code", "device_code", "browser"}
  {
    if e.authMethod in {"auth_code", "device_code", "browser"} then e.authMethod
    else
      match kind(e.authenticator.GetOr(0))
      case AuthCodeCredential => "auth_code"
      case DeviceCodeCredential => "device_code"
      case OtherCredential => "browser"
  }

  /** The authenticator and record path of this account, with the method it was registered with, or without one the
      method its credential suggests. */
  predicate Describes(auth: AccountAuth, e: Registry.Entry, kind: nat -> CredentialKind) {
    && auth.credential == e.authenticator.GetOr(0) && auth.recordPath == e.recordPath
    && auth.authMethod == if e.authMethod in {"auth_code", "device_code", "browser"} then e.authMethod
                          else match kind(e.authenticator.GetOr(0))
                               case AuthCodeCredential => "auth_code"
                               case DeviceCodeCredential => "device_code"
                               case OtherCredential => "browser"
  }

  function AuthOf(e: Registry.Entry, kind: nat -> CredentialKind): AccountAuth {
    AccountAuth(e.authenticator.GetOr(0), e.recordPath, InferAuthMethod(e, kind))
  }

  lemma AuthDescribes(e: Registry.Entry, kind: nat -> CredentialKind)
    ensures Describes(AuthOf(e, kind), e, kind)
  {
  }

  method StoreResolved(slot: AccountAuthSlot, entry: RegistryObjects.AccountEntry, kind: nat -> CredentialKind)
    modifies slot
    ensures slot.View().Some? && Describes(slot.View().value, entry.data, kind)
  {
    AuthDescribes(entry.data, kind);
    slot.StoreAuth(AuthOf(entry.data, kind));
  }

  /** The resolver's middleware: on success the slot holds the resolved account, on failure nothing is stored and the
      inner handler is not reached. */
  method ResolveIntoSlot(registry: RegistryObjects.AccountRegistry, slot: AccountAuthSlot, param: Resolver.Param,
                         elicit: seq<string> -> Resolver.Answer, kind: nat -> CredentialKind)
    returns (r: Result<RegistryObjects.AccountEntry, Resolver.ResolveError>, ghost byUpn: Option<Registry.Entry>)
    requires registry.Valid()
    modifies slot
    ensures param.Given? ==> Resolver.FoundByUpn(registry.Contents(), param.text, byUpn)
    ensures Resolver.Outcome(r) == Resolver.Resolve(registry.Contents(), param, byUpn, elicit)
    ensures r.Err? ==> slot.View() == old(slot.View())
    ensures r.Ok? ==> slot.View().Some? && Describes(slot.View().value, r.value.data, kind)
  {
    r, byUpn := Resolver.ResolveAccount(registry, param, elicit);
    ghost var m, outcome := registry.Contents(), Resolver.Outcome(r);
    if r.Ok? {
      StoreResolved(slot, r.value, kind);
      assert registry.Contents() == m;
      assert Resolver.Outcome(r) == outcome;
    }
  }

  /** These are the details of an account the resolver may return from this registry. */
  ghost predicate Resolvable(m: Registry.Accounts, kind: nat -> CredentialKind, auth: AccountAuth) {
    exists param: Resolver.Param, byUpn: Option<Registry.Entry>, elicit: seq<string> -> Resolver.Answer ::
      && (param.Given? ==> Resolver.FoundByUpn(m, param.text, byUpn))
      && Resolver.Resolve(m, param, byUpn, elicit).Ok?
      && auth == AuthOf(Resolver.Resolve(m, param, byUpn, elicit).value, kind)
  }

  /** These are the details of a registered, connected account. */
  ghost predicate OfLiveAccount(m: Registry.Accounts, kind: nat -> CredentialKind, auth: AccountAuth) {
    exists e :: Resolver.Live(m, e) && e.authenticator.Some? && Describes(auth, e, kind)
  }

  lemma LiveDescribed(m: Registry.Accounts, kind: nat -> CredentialKind, auth: AccountAuth, e: Registry.Entry)
    requires Resolver.Live(m, e) && e.authenticator.Some? && Describes(auth, e, kind)
    ensures OfLiveAccount(m, kind, auth)
  {
  }

  lemma LiveHasAuthenticator(m: Registry.Accounts, e: Registry.Entry)
    requires Registry.Consistent(m) && Resolver.Live(m, e)
    ensures e.authenticator.Some?
  {
    assert Registry.Connectable(m[e.name]);
  }

  lemma ResolvableIsLive(m: Registry.Accounts, kind: nat -> CredentialKind, auth: AccountAuth)
    requires Registry.Consistent(m) && Resolvable(m, kind, auth)
    ensures OfLiveAccount(m, kind, auth)
  {
    var param: Resolver.Param, byUpn: Option<Registry.Entry>, elicit: seq<string> -> Resolver.Answer :|
      && (param.Given? ==> Resolver.FoundByUpn(m, param.text, byUpn))
      && Resolver.Resolve(m, param, byUpn, elicit).Ok?
      && auth == AuthOf(Resolver.Resolve(m, param, byUpn, elicit).value, kind);
    Resolver.ResolvedIsLive(m, param, byUpn, elicit);
    var e := Resolver.Resolve(m, param, byUpn, elicit).value;
    LiveHasAuthenticator(m, e);
    AuthDescribes(e, kind);
    LiveDescribed(m, kind, auth, e);
  }

  // ---------------------------------------------------------------------------
  // Runs of both systems
  // ---------------------------------------------------------------------------

  datatype Joint = Joint(calls: State, accounts: AccountLifecycle.State)

  datatype JointStep = OfCalls(step: Step) | OfAccounts(op: AccountLifecycle.Op)

  /** A resolver's answer comes from the registry of the moment. */
  ghost predicate JointEnabled(j: Joint, kind: nat -> CredentialKind, step: JointStep) {
    step.OfCalls? ==>
      && Enabled(j.calls, step.step) && !step.step.EntryAtomic?
      && (step.step.RequestStep? && step.step.c.Resolve? ==> Resolvable(j.accounts.accounts, kind, step.step.c.auth))
  }

  ghost function JointApply(j: Joint, step: JointStep): Joint
    requires step.OfCalls? ==> Enabled(j.calls, step.step)
  {
    match step
    case OfCalls(step) => j.(calls := Apply(j.calls, step))
    case OfAccounts(op) => j.(accounts := AccountLifecycle.Perform(j.accounts, op))
  }

  ghost predicate JointFeasible(j: Joint, kind: nat -> CredentialKind, run: seq<JointStep>)
    decreases |run|
  {
    run != [] ==> JointEnabled(j, kind, run[0]) && JointFeasible(JointApply(j, run[0]), kind, run[1..])
  }

  ghost function JointExec(j: Joint, kind: nat -> CredentialKind, run: seq<JointStep>): Joint
    requires JointFeasible(j, kind, run)
    decreases |run|
  {
    if run == [] then j else JointExec(JointApply(j, run[0]), kind, run[1..])
  }

  /** The steps of tool calls and attempts in a joint run. */
  function Calls(run: seq<JointStep>): seq<Step> {
    if run == [] then [] else (if run[0].OfCalls? then [run[0].step] else []) + Calls(run[1..])
  }

  lemma {:induction false} CallsOfRun(j: Joint, kind: nat -> CredentialKind, run: seq<JointStep>)
    requires JointFeasible(j, kind, run)
    ensures Fine(Calls(run)) && Feasible(j.calls, Calls(run)) && Exec(j.calls, Calls(run)) == JointExec(j, kind, run).calls
    decreases |run|
  {
    if run != [] {
      var next := JointApply(j, run[0]);
      CallsOfRun(next, kind, run[1..]);
      if run[0].OfCalls? {
        assert Calls(run)[1..] == Calls(run[1..]);
      } else {
        assert Calls(run) == Calls(run[1..]);
      }
    }
  }

  /** Request r resolved this account in the run, and at that moment it was registered and connected. */
  ghost predicate ResolvedWhileLive(j: Joint, kind: nat -> CredentialKind, run: seq<JointStep>, r: nat, auth: AccountAuth)
    requires JointFeasible(j, kind, run)
    decreases |run|
  {
    && run != []
    && (|| (run[0] == OfCalls(RequestStep(r, Resolve(auth))) && OfLiveAccount(j.accounts.accounts, kind, auth))
        || ResolvedWhileLive(JointApply(j, run[0]), kind, run[1..], r, auth))
  }

  lemma {:induction false} StoredFromRegistry(j: Joint, kind: nat -> CredentialKind, run: seq<JointStep>, r: nat, auth: AccountAuth)
    requires JointFeasible(j, kind, run) && Registry.Consistent(j.accounts.accounts)
    requires RequestStep(r, Resolve(auth)) in Calls(run)
    ensures ResolvedWhileLive(j, kind, run, r, auth)
    decreases |run|
  {
    if run[0] == OfCalls(RequestStep(r, Resolve(auth))) {
      ResolvableIsLive(j.accounts.accounts, kind, auth);
    } else {
      var next := JointApply(j, run[0]);
      if run[0].OfAccounts? {
        AccountLifecycle.StepKeepsConsistent(j.accounts, run[0].op);
      }
      StoredFromRegistry(next, kind, run[1..], r, auth);
    }
  }

  /** Whatever calls and account operations do meanwhile, every attempt signs in with the authenticator, record path
      and method of an account that its own request resolved and that was registered and connected at that moment,
      or, when that request resolved none, with what was injected upstream or the server default. */
  lemma AttemptSignsInForItsAccount(d: AccountAuth, kind: nat -> CredentialKind, file: seq<AccountsFile.Config>,
                                    run: seq<JointStep>, a: nat)
    requires var start := Joint(Init(d), AccountLifecycle.State(map[], map[], file));
             JointFeasible(start, kind, run) && a < |JointExec(start, kind, run).calls.attempts|
    ensures var start := Joint(Init(d), AccountLifecycle.State(map[], map[], file));
            var s := JointExec(start, kind, run).calls;
            && s.attempts[a].owner < |s.requests|
            && var q := s.requests[s.attempts[a].owner];
               match q.resolved
               case Some(auth) => s.attempts[a].auth == auth && ResolvedWhileLive(start, kind, run, s.attempts[a].owner, auth)
               case None => s.attempts[a].auth == q.injected.GetOr(d)
  {
    var start := Joint(Init(d), AccountLifecycle.State(map[], map[], file));
    CallsOfRun(start, kind, run);
    var s := Exec(Init(d), Calls(run));
    NoCredentialExchange(d, s, a);
    var owner := s.attempts[a].owner;
    if s.requests[owner].resolved.Some? {
      ResolvedByOwnStep(Init(d), Calls(run), owner);
      StoredFromRegistry(start, kind, run, owner, s.requests[owner].resolved.value);
    }
  }
}
