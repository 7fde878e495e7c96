/** Startup restoration of the persisted accounts into the registry. */
module Restore {
  import opened AccountsFile
  import opened Registry
  import opened Wrappers

  /** What credential set-up yields. */
  datatype Setup = Setup(credential: nat, authenticator: nat, recordPath: string, cacheName: string)

  /** The world restoration asks: credential set-up, silent token acquisition, client creation, and whether
      a non-empty authentication record is on disk. Deterministic, as functions. */
  datatype World = World(
    setup: Config -> Option<Setup>,
    token: nat -> bool,
    client: nat -> bool,
    recorded: string -> bool)

  /** Restoration only asks for a token where the answer cannot start an interactive sign-in. */
  predicate AttemptsSilent(w: World, c: Config, setup: Setup) {
    c.identity.authMethod != "device_code" || w.recorded(setup.recordPath)
  }

  function RestoredClient(w: World, c: Config, setup: Setup): Option<nat> {
    if AttemptsSilent(w, c, setup) && w.token(setup.credential) && w.client(setup.credential) then Some(setup.credential) else None
  }

  function RestoredEntry(w: World, c: Config, setup: Setup): Entry {
    var client := RestoredClient(w, c, setup);
    Entry(c.name, c.identity.clientId, c.identity.tenantId, c.identity.authMethod, Some(setup.credential),
          Some(setup.authenticator), client, setup.recordPath, setup.cacheName, client.Some?, c.upn)
  }

  /** The registry afterwards, and whether the account came back with a live client. */
  function RestoreOne(w: World, m: Accounts, c: Config): (Accounts, bool) {
    if c.name in m then (m, false)
    else
      match w.setup(c)
      case None => (m, false)
      case Some(setup) =>
        var e := RestoredEntry(w, c, setup);
        match Register(m, e)
        case Err(_) => (m, false)
        case Ok(added) => (added, e.client.Some?)
  }

  function RestoreAll(w: World, m: Accounts, configs: seq<Config>): (Accounts, nat)
    decreases |configs|
  {
    if configs == [] then (m, 0)
    else
      var (next, live) := RestoreOne(w, m, configs[0]);
      var (last, restored) := RestoreAll(w, next, configs[1..]);
      (last, restored + if live then 1 else 0)
  }

  /** A line that would restore into a registry without its label. */
  predicate Workable(w: World, c: Config) {
    LabelOk(c.name) && w.setup(c).Some?
  }

  /** The first workable line for a label. */
  function FirstWorkable(w: World, configs: seq<Config>, name: string): Option<Config> {
    if configs == [] then None
    else if configs[0].name == name && Workable(w, configs[0]) then Some(configs[0])
    else FirstWorkable(w, configs[1..], name)
  }

  /** The whole outcome, label by label: entries that were there are untouched, a new label gets the entry of
      its first workable line, and no other label appears. */
  lemma {:induction false} RestoredRegistry(w: World, m: Accounts, configs: seq<Config>, name: string)
    ensures name in m ==> name in RestoreAll(w, m, configs).0 && RestoreAll(w, m, configs).0[name] == m[name]
    ensures name !in m ==>
      var first := FirstWorkable(w, configs, name);
      && (name in RestoreAll(w, m, configs).0 <==> first.Some?)
      && (first.Some? ==>
            && w.setup(first.value).Some?
            && RestoreAll(w, m, configs).0[name] == RestoredEntry(w, first.value, w.setup(first.value).value))
    decreases |configs|
  {
    if configs != [] {
      RestoredRegistry(w, RestoreOne(w, m, configs[0]).0, configs[1..], name);
    }
  }

  /** The labels that are new and came back with a client. */
  ghost function NewLive(before: Accounts, after: Accounts): set<string> {
    set l | l in after && l !in before && after[l].client.Some?
  }

  lemma OneFewer(more: set<string>, fewer: set<string>, name: string)
    requires forall l :: l in fewer <==> l in more && l != name
    ensures |more| == |fewer| + if name in more then 1 else 0
  {
    assert fewer == more - {name};
  }

  lemma NewLiveInsert(before: Accounts, next: Accounts, after: Accounts, name: string)
    requires name !in before && name in after
    requires forall l :: l in next <==> l in before || l == name
    ensures |NewLive(before, after)| == |NewLive(next, after)| + if after[name].client.Some? then 1 else 0
  {
    OneFewer(NewLive(before, after), NewLive(next, after), name);
  }

  lemma NewLiveGrows(w: World, m: Accounts, c: Config, after: Accounts)
    requires forall l :: l in RestoreOne(w, m, c).0 ==> l in after && after[l] == RestoreOne(w, m, c).0[l]
    ensures |NewLive(m, after)| == |NewLive(RestoreOne(w, m, c).0, after)| + if RestoreOne(w, m, c).1 then 1 else 0
  {
    var next := RestoreOne(w, m, c).0;
    if c.name !in m && c.name in next {
      NewLiveInsert(m, next, after, c.name);
    }
  }

  /** The count is the number of new entries with a client. */
  lemma {:induction false} RestoredCount(w: World, m: Accounts, configs: seq<Config>)
    ensures RestoreAll(w, m, configs).1 == |NewLive(m, RestoreAll(w, m, configs).0)|
    decreases |configs|
  {
    var after := RestoreAll(w, m, configs).0;
    if configs == [] {
      assert NewLive(m, after) == {};
    } else {
      var next := RestoreOne(w, m, configs[0]).0;
      RestoredCount(w, next, configs[1..]);
      forall l ensures l in next ==> l in after && after[l] == next[l] {
        RestoredRegistry(w, next, configs[1..], l);
      }
      NewLiveGrows(w, m, configs[0], after);
    }
  }

  /** With the same answers, restoring again restores nothing and changes nothing. */
  lemma RestoreTwice(w: World, m: Accounts, configs: seq<Config>)
    ensures var once := RestoreAll(w, m, configs).0; RestoreAll(w, once, configs) == (once, 0)
  {
    var once := RestoreAll(w, m, configs).0;
    var twice := RestoreAll(w, once, configs).0;
    forall l ensures l in twice <==> l in once {
      RestoredRegistry(w, once, configs, l);
      RestoredRegistry(w, m, configs, l);
    }
    forall l | l in once ensures twice[l] == once[l] {
      RestoredRegistry(w, once, configs, l);
    }
    assert twice == once;
    RestoredCount(w, once, configs);
    assert NewLive(once, twice) == {};
  }

  lemma {:induction false} RestoreKeepsConsistent(w: World, m: Accounts, configs: seq<Config>)
    requires Consistent(m)
    ensures Consistent(RestoreAll(w, m, configs).0)
    decreases |configs|
  {
    if configs != [] {
      RestoreKeepsConsistent(w, RestoreOne(w, m, configs[0]).0, configs[1..]);
    }
  }

  /** What a new account comes back with: the line's label, identity and address, the handles and paths set up for
      it, and a connection exactly when asking for a token cannot start a sign-in, the token comes, and a client can
      be made. */
  lemma RestoredAccount(w: World, m: Accounts, configs: seq<Config>, name: string)
    requires name !in m && FirstWorkable(w, configs, name).Some?
    ensures name in RestoreAll(w, m, configs).0
    ensures var c, e := FirstWorkable(w, configs, name).value, RestoreAll(w, m, configs).0[name];
            && w.setup(c).Some? && c.name == e.name == name
            && e.clientId == c.identity.clientId && e.tenantId == c.identity.tenantId && e.authMethod == c.identity.authMethod
            && e.email == c.upn
            && var setup := w.setup(c).value;
               && e.credential == Some(setup.credential) && e.authenticator == Some(setup.authenticator)
               && e.recordPath == setup.recordPath && e.cacheName == setup.cacheName
               && (e.authenticated <==>
                     (c.identity.authMethod == "device_code" ==> w.recorded(setup.recordPath)) &&
                     w.token(setup.credential) && w.client(setup.credential))
               && e.client == if e.authenticated then Some(setup.credential) else None
  {
    RestoredRegistry(w, m, configs, name);
    FirstWorkableNamed(w, configs, name);
  }

  lemma {:induction false} FirstWorkableNamed(w: World, configs: seq<Config>, name: string)
    requires FirstWorkable(w, configs, name).Some?
    ensures FirstWorkable(w, configs, name).value in configs && FirstWorkable(w, configs, name).value.name == name
  {
    if configs[0].name != name || !Workable(w, configs[0]) {
      FirstWorkableNamed(w, configs[1..], name);
    }
  }

  /** A device code account without a record on disk is never asked for a token: whatever the answer would
      have been, it comes back disconnected. */
  lemma DeviceCodeNotProbed(w: World, token: nat -> bool, client: nat -> bool, c: Config, setup: Setup)
    requires c.identity.authMethod == "device_code" && !w.recorded(setup.recordPath)
    ensures RestoredEntry(w.(token := token, client := client), c, setup) == RestoredEntry(w, c, setup)
    ensures !RestoredEntry(w, c, setup).authenticated
  {
  }

  /** Adding a line at the end changes what comes back for its label only if nothing before it does. */
  lemma {:induction false} FirstWorkableAppend(w: World, configs: seq<Config>, c: Config, name: string)
    ensures FirstWorkable(w, configs + [c], name) ==
            if FirstWorkable(w, configs, name).Some? then FirstWorkable(w, configs, name)
            else if c.name == name && Workable(w, c) then Some(c) else None
    decreases |configs|
  {
    var longer := configs + [c];
    if configs == [] {
      assert longer[0] == c && longer[1..] == [];
    } else {
      assert longer[0] == configs[0] && longer[1..] == configs[1..] + [c];
      FirstWorkableAppend(w, configs[1..], c, name);
    }
  }

  /** When every set-up succeeds, a legal label comes back iff it has a line, as its first one. */
  lemma {:induction false} FirstWorkableIsFirstLine(w: World, configs: seq<Config>, name: string)
    requires forall c :: c in configs ==> w.setup(c).Some?
    ensures FirstWorkable(w, configs, name) == if LabelOk(name) then FirstLine(configs, name) else None
    decreases |configs|
  {
    if configs != [] {
      assert configs[0] in configs;
      FirstWorkableIsFirstLine(w, configs[1..], name);
    }
  }
}
