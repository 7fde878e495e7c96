/** The handlers that change the registry and accounts.json, as the program runs them, against the functions of
    `AccountLifecycle` and `Restore`. */
module AccountObjects {
  import opened AccountLifecycle
  import opened AccountsFile
  import opened Registry
  import opened RegistryObjects
  import opened Restore
  import opened Wrappers

  // ---------------------------------------------------------------------------
  // Restore
  // ---------------------------------------------------------------------------

  /** The entry, filled in as the answers come. */
  method RestoreEntry(w: World, acct: Config, setup: Setup) returns (entry: AccountEntry)
    ensures fresh(entry) && entry.data == RestoredEntry(w, acct, setup)
  {
    entry := new AccountEntry(
      Entry(acct.name, acct.identity.clientId, acct.identity.tenantId, acct.identity.authMethod, Some(setup.credential),
            Some(setup.authenticator), None, setup.recordPath, setup.cacheName, false, ""));
    if acct.upn != "" {
      entry.data := entry.data.(email := acct.upn);
    }
    var attemptSilent := acct.identity.authMethod != "device_code" || w.recorded(setup.recordPath);
    if attemptSilent {
      if w.token(setup.credential) {
        if w.client(setup.credential) {
          entry.data := entry.data.(client := Some(setup.credential), authenticated := true);
        }
      }
    }
  }

  method RestoreAccount(registry: AccountRegistry, w: World, acct: Config) returns (live: bool)
    requires registry.Valid()
    modifies registry
    ensures registry.Valid()
    ensures (registry.Contents(), live) == RestoreOne(w, old(registry.Contents()), acct)
  {
    var existing := registry.Get(acct.name);
    if existing.Some? {
      return false;
    }
    var made := w.setup(acct);
    if made.None? {
      return false;
    }
    var entry := RestoreEntry(w, acct, made.value);
    var failure := registry.Add(entry);
    live := failure.None? && entry.data.client.Some?;
  }

  /** `loaded` is None when accounts.json cannot be read. */
  method RestoreAccounts(registry: AccountRegistry, w: World, loaded: Option<seq<Config>>) returns (restored: nat, total: nat)
    requires registry.Valid()
    modifies registry
    ensures registry.Valid()
    ensures (registry.Contents(), restored) == RestoreAll(w, old(registry.Contents()), loaded.GetOr([]))
    ensures total == |loaded.GetOr([])|
  {
    restored, total := 0, 0;
    if loaded.None? {
      return;
    }
    var accounts := loaded.value;
    total := |accounts|;
    for i := 0 to total
      invariant registry.Valid()
      invariant RestoreAll(w, registry.Contents(), accounts[i..]).0 == RestoreAll(w, old(registry.Contents()), accounts).0
      invariant RestoreAll(w, registry.Contents(), accounts[i..]).1 + restored == RestoreAll(w, old(registry.Contents()), accounts).1
    {
      assert accounts[i..][0] == accounts[i] && accounts[i..][1..] == accounts[i + 1..];
      var live := RestoreAccount(registry, w, accounts[i]);
      if live {
        restored := restored + 1;
      }
    }
  }

  // ---------------------------------------------------------------------------
  // Add
  // ---------------------------------------------------------------------------

  class PendingAccount {
    const identity: Identity
    const setup: Setup
    var signedIn: Option<bool>

    constructor (identity: Identity, setup: Setup)
      ensures Value() == Pending(identity, setup, None)
    {
      this.identity := identity;
      this.setup := setup;
      signedIn := None;
    }

    ghost function Value(): Pending
      reads this
    {
      Pending(identity, setup, signedIn)
    }

    /** What the background sign-in does when it ends: it writes its result and closes `done`. */
    method Finish(ok: bool)
      requires signedIn.None?
      modifies this
      ensures Value() == old(Value()).(signedIn := Some(ok))
    {
      signedIn := Some(ok);
    }
  }

  datatype Checked = NothingPending | Ready(account: PendingAccount) | Report(reply: Reply)

  class AddAccountState {
    var pending: map<string, PendingAccount>

    constructor ()
      ensures Pendings() == map[]
    {
      pending := map[];
    }

    ghost function Pendings(): map<string, Pending>
      reads this, pending.Values
    {
      map l | l in pending :: pending[l].Value()
    }

    method StorePending(name: string, p: PendingAccount)
      modifies this
      ensures pending == old(pending)[name := p]
      ensures Pendings() == old(Pendings())[name := p.Value()]
    {
      pending := pending[name := p];
    }

    /** A sign-in that has ended is taken off the map, whichever way it ended. */
    method CheckPending(name: string) returns (r: Checked)
      modifies this
      ensures r.NothingPending? <==> name !in old(pending)
      ensures r.Ready? ==> name in old(pending) && r.account == old(pending)[name] && r.account.signedIn == Some(true)
      ensures r.Report? ==> name in old(pending) && old(pending)[name].signedIn != Some(true) &&
                            r.reply == if old(pending)[name].signedIn.None? then StillPending else SignInFailed
      ensures pending == if name in old(pending) && old(pending)[name].signedIn.Some? then old(pending) - {name} else old(pending)
      ensures Pendings() == if name in old(pending) && old(pending)[name].signedIn.Some? then old(Pendings()) - {name} else old(Pendings())
    {
      if name !in pending {
        return NothingPending;
      }
      var p := pending[name];
      if p.signedIn.None? {
        return Report(StillPending);
      }
      pending := pending - {name};
      if !p.signedIn.value {
        return Report(SignInFailed);
      }
      r := Ready(p);
    }

    method HandleAddAccount(registry: AccountRegistry, store: AccountsStore, call: AddCall) returns (reply: Reply)
      requires registry.Valid()
      modifies this, registry, store
      ensures registry.Valid()
      ensures (State(registry.Contents(), Pendings(), store.lines), reply) ==
              Add(State(old(registry.Contents()), old(Pendings()), old(store.lines)), call)
    {
      var checked := CheckPending(call.name);
      if checked.Report? {
        return checked.reply;
      }
      if checked.Ready? {
        var p := checked.account;
        reply := RegisterNew(registry, store, call.name, p.identity, p.setup, call.clientMade, call.after, Pendings());
        return;
      }
      reply := StartAdd(registry, store, call);
    }

    /** A call with nothing pending. */
    method StartAdd(registry: AccountRegistry, store: AccountsStore, call: AddCall) returns (reply: Reply)
      requires registry.Valid() && call.name !in pending
      modifies this, registry, store
      ensures registry.Valid()
      ensures (State(registry.Contents(), Pendings(), store.lines), reply) ==
              Add(State(old(registry.Contents()), old(Pendings()), old(store.lines)), call)
    {
      var existing := registry.Get(call.name);
      if existing.Some? {
        return AlreadyExists;
      }
      if call.setup.None? {
        return NoSetup;
      }
      if call.signIn.NotSignedIn? {
        return SignInFailed;
      }
      if call.signIn.CodeShown? {
        var p := new PendingAccount(call.identity, call.setup.value);
        StorePending(call.name, p);
        return ShowCode;
      }
      reply := RegisterNew(registry, store, call.name, call.identity, call.setup.value, call.clientMade, call.after, Pendings());
    }
  }

  /** The tail of an add: a client, the entry, its line, its address. */
  method RegisterNew(registry: AccountRegistry, store: AccountsStore, name: string, identity: Identity, setup: Setup,
                     clientMade: bool, after: Followup, ghost pending: map<string, Pending>)
    returns (reply: Reply)
    requires registry.Valid()
    modifies registry, store
    ensures registry.Valid()
    ensures (State(registry.Contents(), pending, store.lines), reply) ==
            RegisterAdded(State(old(registry.Contents()), pending, old(store.lines)), name, identity, setup, clientMade, after)
  {
    if !clientMade {
      return NoClient;
    }
    var entry := new AccountEntry(NewEntry(name, identity, setup));
    var failure := registry.Add(entry);
    if failure.Some? {
      return Rejected(failure.value);
    }
    FileNew(registry, store, entry, identity, after, pending);
    reply := Done;
  }

  method FileNew(registry: AccountRegistry, store: AccountsStore, entry: AccountEntry, identity: Identity, after: Followup,
                 ghost pending: map<string, Pending>)
    requires registry.Valid() && registry.Holds(entry)
    modifies entry, store
    ensures registry.Valid()
    ensures var name := old(entry.data.name);
            var filed := if after.filed then old(store.lines) + [Config(name, identity, "")] else old(store.lines);
            State(registry.Contents(), pending, store.lines) == PersistEmail(State(old(registry.Contents()), pending, filed), name, after)
  {
    ghost var m := registry.Contents();
    var filed := store.AddAccountConfig(Config(entry.data.name, identity, ""), after.filed);
    assert registry.Contents() == m;
    EnsureEmailAndPersistUPN(registry, store, entry, after, pending);
  }

  method EnsureEmail(registry: AccountRegistry, entry: AccountEntry, email: string)
    requires registry.Valid() && registry.Holds(entry)
    modifies entry
    ensures registry.Valid() && entry.data == LearnEmail(old(entry.data), email)
    ensures registry.Contents() == old(registry.Contents())[entry.data.name := entry.data]
  {
    if entry.data.client.None? {
      return;
    }
    if entry.data.email != "" {
      return;
    }
    entry.data := entry.data.(email := email);
  }

  method EnsureEmailAndPersistUPN(registry: AccountRegistry, store: AccountsStore, entry: AccountEntry, after: Followup,
                                  ghost pending: map<string, Pending>)
    requires registry.Valid() && registry.Holds(entry)
    modifies entry, store
    ensures registry.Valid()
    ensures State(registry.Contents(), pending, store.lines) ==
            PersistEmail(State(old(registry.Contents()), pending, old(store.lines)), old(entry.data.name), after)
  {
    assert entry.data == registry.Contents()[entry.data.name];
    EnsureEmail(registry, entry, after.email);
    ghost var learnt := registry.Contents();
    store.PersistUPN(entry.data.name, entry.data.email, after.upnFiled);
    assert registry.Contents() == learnt;
  }

  // ---------------------------------------------------------------------------
  // Login, logout and removal
  // ---------------------------------------------------------------------------

  method HandleLoginAccount(registry: AccountRegistry, store: AccountsStore, call: LoginCall, ghost pending: map<string, Pending>)
    returns (reply: Reply)
    requires registry.Valid()
    modifies registry.accounts.Values, store
    ensures registry.Valid()
    ensures (State(registry.Contents(), pending, store.lines), reply) ==
            Login(State(old(registry.Contents()), pending, old(store.lines)), call)
  {
    var existing := registry.Get(call.name);
    if existing.None? {
      return NoAccount;
    }
    var entry := existing.value;
    if entry.data.authenticated {
      return AlreadyConnected;
    }
    if call.setup.None? {
      return NoSetup;
    }
    if !call.silent {
      if call.signIn.CodeShown? {
        return ShowCode;
      }
      if call.signIn.NotSignedIn? {
        return SignInFailed;
      }
    }
    if !call.clientMade {
      return NoClient;
    }
    Reconnect(registry, entry, call, call.setup.value);
    EnsureEmailAndPersistUPN(registry, store, entry, call.after, pending);
    reply := Done;
  }

  /** The update of a login. */
  method Reconnect(registry: AccountRegistry, entry: AccountEntry, call: LoginCall, setup: Setup)
    requires registry.Valid() && registry.Holds(entry)
    modifies registry.accounts.Values
    ensures registry.Valid() && registry.Holds(entry) && registry.accounts == old(registry.accounts)
    ensures entry.data.name == old(entry.data.name)
    ensures registry.Contents() == old(registry.Contents())[entry.data.name := Reconnected(old(entry.data), call, setup)]
  {
    var clientId := OrDefault(entry.data.clientId, call.defaults.clientId);
    var tenantId := OrDefault(entry.data.tenantId, call.defaults.tenantId);
    var authMethod := OrDefault(entry.data.authMethod, call.defaults.authMethod);
    var failure := registry.Update(entry.data.name, (e: Entry) => e.(
      clientId := clientId, tenantId := tenantId, authMethod := authMethod,
      credential := Some(setup.credential), authenticator := Some(setup.authenticator), client := Some(setup.credential),
      recordPath := setup.recordPath, cacheName := setup.cacheName, authenticated := true, email := ""));
  }

  method HandleLogoutAccount(registry: AccountRegistry, name: string) returns (reply: Reply)
    requires registry.Valid()
    modifies registry.accounts.Values
    ensures registry.Valid()
    ensures (registry.Contents(), reply) == Logout(old(registry.Contents()), name)
  {
    var existing := registry.Get(name);
    if existing.None? {
      return NoAccount;
    }
    if !existing.value.data.authenticated {
      return AlreadyDisconnected;
    }
    var failure := registry.Update(name, (e: Entry) =>
      e.(authenticated := false, client := None, credential := None, authenticator := None));
    reply := Done;
  }

  method HandleRemoveAccount(registry: AccountRegistry, store: AccountsStore, name: string, works: bool, ghost pending: map<string, Pending>)
    returns (reply: Reply)
    requires registry.Valid()
    modifies registry, store
    ensures registry.Valid()
    ensures (State(registry.Contents(), pending, store.lines), reply) ==
            Remove(State(old(registry.Contents()), pending, old(store.lines)), name, works)
  {
    var failure := registry.Remove(name);
    if failure.Some? {
      assert registry.Contents() == old(registry.Contents());
      return NoAccount;
    }
    var erased := store.RemoveAccountConfig(name, works);
    reply := Done;
  }

  // ---------------------------------------------------------------------------
  // Process start
  // ---------------------------------------------------------------------------

  method FindByIdentity(accounts: seq<Config>, clientId: string, tenantId: string) returns (found: bool)
    ensures found == Covers(accounts, clientId, tenantId)
  {
    if clientId == "" || tenantId == "" {
      return false;
    }
    for i := 0 to |accounts|
      invariant forall c :: c in accounts[..i] ==> !(c.identity.clientId == clientId && c.identity.tenantId == tenantId)
    {
      if accounts[i].identity.clientId == clientId && accounts[i].identity.tenantId == tenantId {
        return true;
      }
    }
    assert accounts[..|accounts|] == accounts;
    return false;
  }

  method ShouldAddImplicitDefault(store: AccountsStore, readable: bool, identity: Identity) returns (add: bool)
    ensures add == ImplicitDefault(if readable then store.lines else [], identity)
    ensures add <==>
              && identity.clientId != ""
              && (readable ==> forall c :: c in store.lines ==>
                    && c.name != "default"
                    && (identity.tenantId == "" || c.identity.clientId != identity.clientId || c.identity.tenantId != identity.tenantId))
  {
    if identity.clientId == "" {
      return false;
    }
    var accounts := if readable then store.lines else [];
    var covered := FindByIdentity(accounts, identity.clientId, identity.tenantId);
    if covered {
      return false;
    }
    for i := 0 to |accounts|
      invariant forall c :: c in accounts[..i] ==> c.name != DEFAULT_ACCOUNT
    {
      if accounts[i].name == DEFAULT_ACCOUNT {
        return false;
      }
    }
    assert accounts[..|accounts|] == accounts;
    return true;
  }

  method StartServer(store: AccountsStore, boot: Boot) returns (registry: AccountRegistry)
    ensures fresh(registry) && registry.Valid()
    ensures registry.Contents() == StartRegistry(store.lines, boot)
  {
    DefaultLabelOk();
    registry := new AccountRegistry();
    var add := ShouldAddImplicitDefault(store, boot.readForDefault, boot.identity);
    if add {
      var entry := new AccountEntry(NewEntry(DEFAULT_ACCOUNT, boot.identity, boot.setup));
      var failure := registry.Add(entry);
    }
    assert registry.Contents() == DefaultRegistry(store.lines, boot);
    var restored, total := RestoreAccounts(registry, boot.world, if boot.readForRestore then Some(store.lines) else None);
  }
}
