/** The life of accounts: startup, add (in one call or, for a device code shown to the user, in two), login,
    logout, removal and address lookup, with what each does to the registry and to accounts.json. Everything
    outside, such as credential set-up, sign-in, client creation and whether the file can be written, is an
    arbitrary answer inside the operation. */
module AccountLifecycle {
  import opened AccountsFile
  import opened Registry
  import opened Restore
  import opened Wrappers

  /** A sign-in that goes on after the call that started it returned the device code. */
  datatype Pending = Pending(identity: Identity, setup: Setup, signedIn: Option<bool>)

  /** The registry and the sign-ins pending live as long as the process; the file outlives it. */
  datatype State = State(accounts: Accounts, pending: map<string, Pending>, file: seq<Config>)

  datatype SignIn = SignedIn | NotSignedIn | CodeShown

  /** What happens after a registration: whether the account's line is written, the address fetched ("" for
      none), and whether the address is written. */
  datatype Followup = Followup(filed: bool, email: string, upnFiled: bool)

  /** One account.add call with the answers it gets. */
  datatype AddCall = AddCall(name: string, identity: Identity, setup: Option<Setup>, signIn: SignIn, clientMade: bool, after: Followup)

  /** One account.login call; `defaults` fill in what the entry leaves empty. */
  datatype LoginCall = LoginCall(name: string, defaults: Identity, setup: Option<Setup>, silent: bool, signIn: SignIn,
                                 clientMade: bool, after: Followup)

  /** A process start: the configured identity, its credential, the answers restoration gets, and whether the
      file can be read when the default account is decided on and when accounts are restored. */
  datatype Boot = Boot(identity: Identity, setup: Setup, world: World, readForDefault: bool, readForRestore: bool)

  datatype Reply =
    | Done
    | StillPending
    | SignInFailed
    | ShowCode
    | AlreadyExists
    | NoSetup
    | NoClient
    | NoAccount
    | AlreadyConnected
    | AlreadyDisconnected
    | Rejected(error: RegistryError)

  function NewEntry(name: string, identity: Identity, setup: Setup): Entry {
    Entry(name, identity.clientId, identity.tenantId, identity.authMethod, Some(setup.credential), Some(setup.authenticator),
          Some(setup.credential), setup.recordPath, setup.cacheName, true, "")
  }

  /** The address is fetched once, through the client. */
  function LearnEmail(e: Entry, email: string): Entry {
    if e.client.Some? && e.email == "" then e.(email := email) else e
  }

  /** After a registration or login: the address is fetched, and written if the line has none. */
  function PersistEmail(s: State, name: string, after: Followup): State
    requires name in s.accounts
  {
    var e := LearnEmail(s.accounts[name], after.email);
    s.(accounts := s.accounts[name := e], file := if after.upnFiled then Backfill(s.file, name, e.email) else s.file)
  }

  function RegisterAdded(s: State, name: string, identity: Identity, setup: Setup, clientMade: bool, after: Followup): (State, Reply) {
    if !clientMade then (s, NoClient)
    else
      match Register(s.accounts, NewEntry(name, identity, setup))
      case Ok(m) =>
        var filed := s.(accounts := m, file := if after.filed then s.file + [Config(name, identity, "")] else s.file);
        (PersistEmail(filed, name, after), Done)
      case Err(e) => (s, Rejected(e))
  }

  /** A label with a sign-in pending is settled first; only without one is a new sign-in started. */
  function Add(s: State, call: AddCall): (State, Reply) {
    if call.name in s.pending then
      var p := s.pending[call.name];
      match p.signedIn
      case None => (s, StillPending)
      case Some(ok) =>
        var settled := s.(pending := s.pending - {call.name});
        if ok then RegisterAdded(settled, call.name, p.identity, p.setup, call.clientMade, call.after) else (settled, SignInFailed)
    else if call.name in s.accounts then (s, AlreadyExists)
    else
      match call.setup
      case None => (s, NoSetup)
      case Some(setup) =>
        match call.signIn
        case NotSignedIn => (s, SignInFailed)
        case CodeShown => (s.(pending := s.pending[call.name := Pending(call.identity, setup, None)]), ShowCode)
        case SignedIn => RegisterAdded(s, call.name, call.identity, setup, call.clientMade, call.after)
  }

  /** The background sign-in of a pending account ends. */
  function SignInEnds(s: State, name: string, ok: bool): State {
    if name in s.pending && s.pending[name].signedIn.None?
    then s.(pending := s.pending[name := s.pending[name].(signedIn := Some(ok))])
    else s
  }

  function OrDefault(own: string, default: string): string {
    if own == "" then default else own
  }

  function Reconnected(e: Entry, call: LoginCall, setup: Setup): Entry {
    NewEntry(e.name,
             Identity(OrDefault(e.clientId, call.defaults.clientId),
                      OrDefault(e.tenantId, call.defaults.tenantId),
                      OrDefault(e.authMethod, call.defaults.authMethod)),
             setup)
  }

  function Login(s: State, call: LoginCall): (State, Reply) {
    if call.name !in s.accounts then (s, NoAccount)
    else if s.accounts[call.name].authenticated then (s, AlreadyConnected)
    else
      match call.setup
      case None => (s, NoSetup)
      case Some(setup) =>
        if !call.silent && call.signIn.NotSignedIn? then (s, SignInFailed)
        else if !call.silent && call.signIn.CodeShown? then (s, ShowCode)
        else if !call.clientMade then (s, NoClient)
        else
          var back := s.(accounts := s.accounts[call.name := Reconnected(s.accounts[call.name], call, setup)]);
          (PersistEmail(back, call.name, call.after), Done)
  }

  function Disconnected(e: Entry): Entry {
    e.(authenticated := false, client := None, credential := None, authenticator := None)
  }

  function Logout(m: Accounts, name: string): (Accounts, Reply) {
    if name !in m then (m, NoAccount)
    else if !m[name].authenticated then (m, AlreadyDisconnected)
    else (m[name := Disconnected(m[name])], Done)
  }

  /** The line goes with the account; `works` says whether the file could be changed. */
  function Remove(s: State, name: string, works: bool): (State, Reply) {
    if name !in s.accounts then (s, NoAccount)
    else (s.(accounts := s.accounts - {name}, file := if works then Erase(s.file, name) else s.file), Done)
  }

  // ---------------------------------------------------------------------------
  // Process start
  // ---------------------------------------------------------------------------

  const DEFAULT_ACCOUNT := "default"

  /** The configured identity becomes the account "default", unless the file has it or has a "default". */
  predicate ImplicitDefault(file: seq<Config>, identity: Identity) {
    && identity.clientId != ""
    && !Covers(file, identity.clientId, identity.tenantId)
    && forall c :: c in file ==> c.name != DEFAULT_ACCOUNT
  }

  function DefaultRegistry(file: seq<Config>, boot: Boot): Accounts {
    if ImplicitDefault(if boot.readForDefault then file else [], boot.identity)
    then map[DEFAULT_ACCOUNT := NewEntry(DEFAULT_ACCOUNT, boot.identity, boot.setup)] else map[]
  }

  /** The registry a process starts with. */
  function StartRegistry(file: seq<Config>, boot: Boot): Accounts {
    RestoreAll(boot.world, DefaultRegistry(file, boot), if boot.readForRestore then file else []).0
  }

  function Start(file: seq<Config>, boot: Boot): State {
    State(StartRegistry(file, boot), map[], file)
  }

  lemma DefaultLabelOk()
    ensures LabelOk(DEFAULT_ACCOUNT)
  {
  }

  // ---------------------------------------------------------------------------
  // Runs
  // ---------------------------------------------------------------------------

  datatype Op =
    | Restart(boot: Boot)
    | AddAccount(call: AddCall)
    | EndSignIn(name: string, ok: bool)
    | LoginAccount(login: LoginCall)
    | LogoutAccount(name: string)
    | RemoveAccount(name: string, works: bool)
    | FetchEmail(name: string, email: string)

  function Perform(s: State, op: Op): State {
    match op
    case Restart(boot) => Start(s.file, boot)
    case AddAccount(call) => Add(s, call).0
    case EndSignIn(name, ok) => SignInEnds(s, name, ok)
    case LoginAccount(call) => Login(s, call).0
    case LogoutAccount(name) => s.(accounts := Logout(s.accounts, name).0)
    case RemoveAccount(name, works) => Remove(s, name, works).0
    case FetchEmail(name, email) =>
      if name in s.accounts then s.(accounts := s.accounts[name := LearnEmail(s.accounts[name], email)]) else s
  }

  function Run(s: State, ops: seq<Op>): State
    decreases |ops|
  {
    if ops == [] then s else Run(Perform(s, ops[0]), ops[1..])
  }

  lemma RegisterKeepsConsistent(s: State, name: string, identity: Identity, setup: Setup, clientMade: bool, after: Followup)
    requires Consistent(s.accounts)
    ensures Consistent(RegisterAdded(s, name, identity, setup, clientMade, after).0.accounts)
  {
  }

  lemma AddKeepsConsistent(s: State, call: AddCall)
    requires Consistent(s.accounts)
    ensures Consistent(Add(s, call).0.accounts)
  {
    if call.name in s.pending {
      var p := s.pending[call.name];
      RegisterKeepsConsistent(s.(pending := s.pending - {call.name}), call.name, p.identity, p.setup, call.clientMade, call.after);
    } else if call.setup.Some? {
      RegisterKeepsConsistent(s, call.name, call.identity, call.setup.value, call.clientMade, call.after);
    }
  }

  lemma LoginKeepsConsistent(s: State, call: LoginCall)
    requires Consistent(s.accounts)
    ensures Consistent(Login(s, call).0.accounts)
  {
  }

  lemma StartConsistent(file: seq<Config>, boot: Boot)
    ensures Consistent(StartRegistry(file, boot))
  {
    DefaultLabelOk();
    RestoreKeepsConsistent(boot.world, DefaultRegistry(file, boot), if boot.readForRestore then file else []);
  }

  lemma StepKeepsConsistent(s: State, op: Op)
    requires Consistent(s.accounts)
    ensures Consistent(Perform(s, op).accounts)
  {
    match op
    case Restart(boot) => StartConsistent(s.file, boot);
    case AddAccount(call) => AddKeepsConsistent(s, call);
    case LoginAccount(call) => LoginKeepsConsistent(s, call);
    case _ =>
  }

  /** In every state the program can bring the registry to, each key is its entry's label and a legal one,
      an entry is authenticated exactly when it has a client, and that client was made from the entry's own
      credential. */
  lemma {:induction false} RunKeepsConsistent(s: State, ops: seq<Op>)
    requires Consistent(s.accounts)
    ensures Consistent(Run(s, ops).accounts)
    decreases |ops|
  {
    if ops != [] {
      StepKeepsConsistent(s, ops[0]);
      RunKeepsConsistent(Perform(s, ops[0]), ops[1..]);
    }
  }

  /** The operations that may change an entry `name` already has: those on it, and a new process. */
  predicate MayChange(op: Op, name: string) {
    match op
    case LoginAccount(call) => call.name == name
    case LogoutAccount(n) => n == name
    case RemoveAccount(n, _) => n == name
    case FetchEmail(n, _) => n == name
    case Restart(_) => true
    case _ => false
  }

  /** No other operation reaches an existing entry: not an operation on another account, and not an add under
      the same label. */
  lemma {:induction false} EntryUntouched(s: State, ops: seq<Op>, name: string)
    requires name in s.accounts
    requires forall i :: 0 <= i < |ops| ==> !MayChange(ops[i], name)
    ensures name in Run(s, ops).accounts && Run(s, ops).accounts[name] == s.accounts[name]
    decreases |ops|
  {
    if ops != [] {
      EntryUntouched(Perform(s, ops[0]), ops[1..], name);
    }
  }

  /** What an account was registered with stays with it while the process runs, until it is removed. */
  ghost predicate SameIdentity(before: Entry, after: Entry) {
    && after.name == before.name
    && (before.clientId != "" ==> after.clientId == before.clientId)
    && (before.tenantId != "" ==> after.tenantId == before.tenantId)
    && (before.authMethod != "" ==> after.authMethod == before.authMethod)
  }

  lemma LoginKeepsIdentity(s: State, call: LoginCall, name: string)
    requires name in s.accounts
    ensures name in Login(s, call).0.accounts && SameIdentity(s.accounts[name], Login(s, call).0.accounts[name])
  {
  }

  lemma AddKeepsEntries(s: State, call: AddCall, name: string)
    requires name in s.accounts
    ensures name in Add(s, call).0.accounts && Add(s, call).0.accounts[name] == s.accounts[name]
  {
  }

  lemma StepKeepsIdentity(s: State, op: Op, name: string)
    requires name in s.accounts && !op.Restart? && !(op.RemoveAccount? && op.name == name)
    ensures name in Perform(s, op).accounts && SameIdentity(s.accounts[name], Perform(s, op).accounts[name])
  {
    match op
    case AddAccount(call) => AddKeepsEntries(s, call, name);
    case LoginAccount(call) => LoginKeepsIdentity(s, call, name);
    case _ =>
  }

  lemma {:induction false} IdentityKept(s: State, ops: seq<Op>, name: string)
    requires name in s.accounts
    requires forall i :: 0 <= i < |ops| ==> !ops[i].Restart? && !(ops[i].RemoveAccount? && ops[i].name == name)
    ensures name in Run(s, ops).accounts && SameIdentity(s.accounts[name], Run(s, ops).accounts[name])
    decreases |ops|
  {
    if ops != [] {
      StepKeepsIdentity(s, ops[0], name);
      IdentityKept(Perform(s, ops[0]), ops[1..], name);
    }
  }

  /** Logging out leaves the account with no handle of its old connection and everything else as it was; a
      later login that succeeds gives it the entry a fresh registration with its identity would have, and one
      that fails leaves it disconnected. */
  lemma LogoutThenLogin(s: State, name: string, call: LoginCall)
    requires Consistent(s.accounts) && name in s.accounts && s.accounts[name].authenticated && call.name == name
    ensures var (out, said) := Logout(s.accounts, name);
            && said.Done? && out.Keys == s.accounts.Keys
            && out[name].(authenticated := true, credential := s.accounts[name].credential,
                          authenticator := s.accounts[name].authenticator, client := s.accounts[name].client) == s.accounts[name]
            && out[name].credential.None? && out[name].authenticator.None? && out[name].client.None?
            && Logout(out, name) == (out, AlreadyDisconnected)
    ensures var loggedOut := s.(accounts := Logout(s.accounts, name).0);
            var (back, reply) := Login(loggedOut, call);
            var own := s.accounts[name];
            var identity := Identity(OrDefault(own.clientId, call.defaults.clientId),
                                     OrDefault(own.tenantId, call.defaults.tenantId),
                                     OrDefault(own.authMethod, call.defaults.authMethod));
            && (reply.Done? <==> call.setup.Some? && (call.silent || call.signIn.SignedIn?) && call.clientMade)
            && (reply.Done? ==>
                  back.accounts == s.accounts[name := LearnEmail(NewEntry(name, identity, call.setup.value), call.after.email)])
            && (!reply.Done? ==> back == loggedOut)
  {
  }

  // ---------------------------------------------------------------------------
  // Adding in two calls
  // ---------------------------------------------------------------------------

  /** The operations that may settle a pending sign-in, or lose it. */
  predicate Settles(op: Op, name: string) {
    op.Restart? || (op.AddAccount? && op.call.name == name) || (op.EndSignIn? && op.name == name)
  }

  lemma {:induction false} PendingKept(s: State, ops: seq<Op>, name: string)
    requires name in s.pending
    requires forall i :: 0 <= i < |ops| ==> !Settles(ops[i], name)
    ensures name in Run(s, ops).pending && Run(s, ops).pending[name] == s.pending[name]
    decreases |ops|
  {
    if ops != [] {
      PendingKept(Perform(s, ops[0]), ops[1..], name);
    }
  }

  /** What a second call makes of a sign-in that has ended. */
  function SettledReply(s: State, name: string, ok: bool, clientMade: bool): Reply {
    if !ok then SignInFailed
    else if !clientMade then NoClient
    else if !LabelOk(name) then Rejected(InvalidLabel)
    else if name in s.accounts then Rejected(Duplicate)
    else Done
  }

  /** The entry a settled sign-in is registered with. */
  function SettledEntry(name: string, p: Pending, call: AddCall): Entry {
    LearnEmail(NewEntry(name, p.identity, p.setup), call.after.email)
  }

  lemma AddSettles(s: State, call: AddCall, p: Pending, ok: bool)
    requires call.name in s.pending && s.pending[call.name] == p.(signedIn := Some(ok))
    ensures Add(s, call).1 == SettledReply(s, call.name, ok, call.clientMade)
    ensures Add(s, call).0.pending == s.pending - {call.name}
    ensures Add(s, call).0.accounts ==
            if Add(s, call).1.Done? then s.accounts[call.name := SettledEntry(call.name, p, call)] else s.accounts
  {
  }

  lemma CodeShownIsPending(s: State, call: AddCall)
    requires Add(s, call).1.ShowCode?
    ensures call.setup.Some?
    ensures Add(s, call).0.pending == s.pending[call.name := Pending(call.identity, call.setup.value, None)]
  {
  }

  /** An address lookup fills in the address of an account that has a client and no address yet, and changes nothing
      else. */
  lemma EmailLearntOnce(s: State, name: string, email: string)
    ensures var after := Perform(s, FetchEmail(name, email));
            && after.pending == s.pending && after.file == s.file
            && after.accounts ==
               if name in s.accounts && s.accounts[name].client.Some? && s.accounts[name].email == ""
               then s.accounts[name := s.accounts[name].(email := email)] else s.accounts
  {
    if name in s.accounts {
      assert s.accounts[name := s.accounts[name]] == s.accounts;
    }
  }

  /** Why an add without a sign-in pending is refused, the first reason that holds; nothing changes then. */
  lemma AddRefused(s: State, call: AddCall)
    requires call.name !in s.pending
    ensures var (after, reply) := Add(s, call);
            && (reply.AlreadyExists? <==> call.name in s.accounts)
            && (reply.NoSetup? <==> call.name !in s.accounts && call.setup.None?)
            && (reply.SignInFailed? <==> call.name !in s.accounts && call.setup.Some? && call.signIn.NotSignedIn?)
            && (reply.ShowCode? <==> call.name !in s.accounts && call.setup.Some? && call.signIn.CodeShown?)
            && (reply.NoClient? <==> call.name !in s.accounts && call.setup.Some? && call.signIn.SignedIn? && !call.clientMade)
            && (reply == Rejected(InvalidLabel) <==>
                  call.name !in s.accounts && call.setup.Some? && call.signIn.SignedIn? && call.clientMade && !LabelOk(call.name))
            && (reply.Done? || reply.ShowCode? || after == s)
  {
  }

  /** Why a login, a logout or a removal is refused. */
  lemma OthersRefused(s: State, call: LoginCall)
    ensures var (after, reply) := Login(s, call);
            && (reply.NoAccount? <==> call.name !in s.accounts)
            && (reply.AlreadyConnected? <==> call.name in s.accounts && s.accounts[call.name].authenticated)
            && (reply.NoSetup? <==> call.name in s.accounts && !s.accounts[call.name].authenticated && call.setup.None?)
            && (reply.Done? || after == s)
    ensures Logout(s.accounts, call.name).1 ==
            if call.name !in s.accounts then NoAccount else if s.accounts[call.name].authenticated then Done else AlreadyDisconnected
    ensures call.name !in s.accounts ==> Logout(s.accounts, call.name).0 == s.accounts
    ensures forall works :: call.name !in s.accounts ==> Remove(s, call.name, works) == (s, NoAccount)
  {
  }

  /** What an add that signs in at once registers: identity as asked, handles and paths as set up, the address as
      fetched. */
  lemma AddedAccount(s: State, call: AddCall)
    requires call.name !in s.pending && Add(s, call).1.Done?
    ensures call.setup.Some? && call.signIn.SignedIn? && call.clientMade && call.name !in s.accounts && LabelOk(call.name)
    ensures Add(s, call).0.accounts.Keys == s.accounts.Keys + {call.name} && Add(s, call).0.pending == s.pending
    ensures var e, setup := Add(s, call).0.accounts[call.name], call.setup.value;
            && e.name == call.name && e.clientId == call.identity.clientId && e.tenantId == call.identity.tenantId
            && e.authMethod == call.identity.authMethod && e.email == call.after.email
            && e.credential == Some(setup.credential) && e.authenticator == Some(setup.authenticator) && e.client == e.credential
            && e.recordPath == setup.recordPath && e.cacheName == setup.cacheName && e.authenticated
  {
  }

  /** And the line it files: at the end, with the address where that could be written. */
  lemma AddedLine(s: State, call: AddCall)
    requires call.name !in s.pending && Add(s, call).1.Done? && !HasLine(s.file, call.name)
    ensures Add(s, call).0.file ==
            if call.after.filed then s.file + [Config(call.name, call.identity, if call.after.upnFiled then call.after.email else "")]
            else s.file
  {
    BackfillsOwnLine(s.file, Config(call.name, call.identity, ""), call.after.email);
    BackfillsNothing(s.file, call.name, call.after.email);
  }

  lemma BackfillsNothing(file: seq<Config>, name: string, upn: string)
    requires !HasLine(file, name)
    ensures Backfill(file, name, upn) == file
  {
  }

  lemma BackfillsOwnLine(file: seq<Config>, c: Config, upn: string)
    requires !HasLine(file, c.name) && c.upn == ""
    ensures Backfill(file + [c], c.name, upn) == file + [c.(upn := upn)]
  {
    AppendedLines(file, c, c.name);
    HasLineIn(file, c.name);
    assert FirstLine(file + [c], c.name) == Some(c);
    SetUpnAt(file + [c], c.name, upn, |file|);
    assert (file + [c])[|file| := c.(upn := upn)] == file + [c.(upn := upn)];
  }

  /** Whatever else happens in between, a second call before the sign-in ends changes nothing; after it has
      ended, the second call forgets the pending sign-in and registers the account with the credential and
      identity of the first call, exactly when the sign-in succeeded, a client can be made, the label is
      legal and nobody has taken it meanwhile. */
  lemma TwoCallAdd(s: State, first: AddCall, before: seq<Op>, ok: bool, after: seq<Op>, second: AddCall)
    requires Add(s, first).1.ShowCode? && second.name == first.name
    requires forall i :: 0 <= i < |before| ==> !Settles(before[i], first.name)
    requires forall i :: 0 <= i < |after| ==> !Settles(after[i], first.name)
    ensures var waiting := Run(Add(s, first).0, before);
            Add(waiting, second) == (waiting, StillPending)
    ensures var waiting := Run(Add(s, first).0, before);
            var ended := Run(SignInEnds(waiting, first.name, ok), after);
            var (last, reply) := Add(ended, second);
            && reply == SettledReply(ended, first.name, ok, second.clientMade)
            && last.pending == ended.pending - {first.name}
            && first.setup.Some?
            && var p := Pending(first.identity, first.setup.value, None);
               last.accounts == if reply.Done? then ended.accounts[first.name := SettledEntry(first.name, p, second)]
                                else ended.accounts
  {
    CodeShownIsPending(s, first);
    var p := Pending(first.identity, first.setup.value, None);
    var waiting := Run(Add(s, first).0, before);
    PendingKept(Add(s, first).0, before, first.name);
    assert waiting.pending[first.name] == p;
    PendingKept(SignInEnds(waiting, first.name, ok), after, first.name);
    AddSettles(Run(SignInEnds(waiting, first.name, ok), after), second, p, ok);
  }
}
