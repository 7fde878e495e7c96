/** Which accounts come back when the server is restarted, over all runs. */
module AccountRestart {
  import opened AccountLifecycle
  import opened AccountsFile
  import opened Registry
  import opened Restore
  import opened Wrappers

  // ---------------------------------------------------------------------------
  // What is on file: the history of a label
  // ---------------------------------------------------------------------------

  /** The operation registers `name` and its line is written. */
  predicate Files(s: State, op: Op, name: string) {
    op.AddAccount? && op.call.name == name && Add(s, op.call).1.Done? && op.call.after.filed
  }

  /** The operation removes `name` and its lines go. */
  predicate Erases(s: State, op: Op, name: string) {
    op.RemoveAccount? && op.name == name && name in s.accounts && op.works
  }

  lemma RegisterLines(s: State, name: string, identity: Identity, setup: Setup, clientMade: bool, after: Followup, other: string)
    ensures var (r, reply) := RegisterAdded(s, name, identity, setup, clientMade, after);
            HasLine(r.file, other) <==> HasLine(s.file, other) || (reply.Done? && after.filed && other == name)
  {
    var c := Config(name, identity, "");
    AppendedLines(s.file, c, other);
    var e := LearnEmail(NewEntry(name, identity, setup), after.email);
    BackfilledLines(s.file, name, e.email, other);
    BackfilledLines(s.file + [c], name, e.email, other);
  }

  lemma AddLines(s: State, call: AddCall, name: string)
    ensures HasLine(Add(s, call).0.file, name) <==> HasLine(s.file, name) || Files(s, AddAccount(call), name)
  {
    if call.name in s.pending {
      var p := s.pending[call.name];
      RegisterLines(s.(pending := s.pending - {call.name}), call.name, p.identity, p.setup, call.clientMade, call.after, name);
    } else if call.setup.Some? {
      RegisterLines(s, call.name, call.identity, call.setup.value, call.clientMade, call.after, name);
    }
  }

  lemma LoginLines(s: State, call: LoginCall, name: string)
    ensures HasLine(Login(s, call).0.file, name) <==> HasLine(s.file, name)
  {
    if Login(s, call).1.Done? {
      BackfilledLines(s.file, call.name, Login(s, call).0.accounts[call.name].email, name);
    }
  }

  /** No other operation gives a label a line or takes it away. */
  lemma StepLines(s: State, op: Op, name: string)
    ensures HasLine(Perform(s, op).file, name) <==> (HasLine(s.file, name) || Files(s, op, name)) && !Erases(s, op, name)
  {
    match op
    case AddAccount(call) => AddLines(s, call, name);
    case LoginAccount(call) => LoginLines(s, call, name);
    case RemoveAccount(n, works) => ErasedLines(s.file, n, name);
    case _ =>
  }

  /** The state before the `k`th operation of a run. */
  function At(s: State, ops: seq<Op>, k: nat): State
    requires k <= |ops|
  {
    Run(s, ops[..k])
  }

  lemma {:induction false} RunSnoc(s: State, ops: seq<Op>, op: Op)
    ensures Run(s, ops + [op]) == Perform(Run(s, ops), op)
    decreases |ops|
  {
    var longer := ops + [op];
    if ops == [] {
      assert longer[0] == op && longer[1..] == [];
    } else {
      assert longer[0] == ops[0] && longer[1..] == ops[1..] + [op];
      RunSnoc(Perform(s, ops[0]), ops[1..], op);
    }
  }

  lemma AtNext(s: State, ops: seq<Op>, k: nat)
    requires k < |ops|
    ensures At(s, ops, k + 1) == Perform(At(s, ops, k), ops[k])
  {
    RunSnoc(s, ops[..k], ops[k]);
    assert ops[..k + 1] == ops[..k] + [ops[k]];
  }

  /** The label has a line at the start (`k` is 0) or gets one from operation `k - 1`. */
  ghost predicate FiledAt(s: State, ops: seq<Op>, name: string, k: nat)
    requires k <= |ops|
  {
    if k == 0 then HasLine(s.file, name) else Files(At(s, ops, k - 1), ops[k - 1], name)
  }

  ghost predicate ErasedAt(s: State, ops: seq<Op>, name: string, k: nat)
    requires k < |ops|
  {
    Erases(At(s, ops, k), ops[k], name)
  }

  /** Filed at `k`, and not erased by an operation from `k` up to `n`. */
  ghost predicate FiledSince(s: State, ops: seq<Op>, name: string, k: nat, n: nat)
    requires k <= n <= |ops|
  {
    FiledAt(s, ops, name, k) && forall j :: k <= j < n ==> !ErasedAt(s, ops, name, j)
  }

  /** Among the first `n` operations, some filed the label and none after that erased it. */
  ghost predicate OnFile(s: State, ops: seq<Op>, name: string, n: nat)
    requires n <= |ops|
  {
    exists k :: 0 <= k <= n && FiledSince(s, ops, name, k, n)
  }

  lemma FiledSinceNext(s: State, ops: seq<Op>, name: string, k: nat, n: nat)
    requires k <= n < |ops|
    ensures FiledSince(s, ops, name, k, n + 1) <==> FiledSince(s, ops, name, k, n) && !ErasedAt(s, ops, name, n)
  {
  }

  lemma OnFileNext(s: State, ops: seq<Op>, name: string, n: nat)
    requires n < |ops|
    ensures OnFile(s, ops, name, n + 1) <==>
              (OnFile(s, ops, name, n) && !ErasedAt(s, ops, name, n)) || FiledAt(s, ops, name, n + 1)
  {
    if OnFile(s, ops, name, n) {
      var k :| 0 <= k <= n && FiledSince(s, ops, name, k, n);
      FiledSinceNext(s, ops, name, k, n);
    }
    if OnFile(s, ops, name, n + 1) {
      var k :| 0 <= k <= n + 1 && FiledSince(s, ops, name, k, n + 1);
      if k <= n {
        FiledSinceNext(s, ops, name, k, n);
      }
    }
    if FiledAt(s, ops, name, n + 1) {
      assert FiledSince(s, ops, name, n + 1, n + 1);
    }
  }

  lemma OnFileAtStart(s: State, ops: seq<Op>, name: string)
    ensures OnFile(s, ops, name, 0) <==> HasLine(s.file, name)
  {
    assert FiledSince(s, ops, name, 0, 0) <==> HasLine(s.file, name);
  }

  lemma FileNext(s: State, ops: seq<Op>, name: string, n: nat)
    requires n < |ops|
    ensures HasLine(At(s, ops, n + 1).file, name) <==>
              (HasLine(At(s, ops, n).file, name) && !ErasedAt(s, ops, name, n)) || FiledAt(s, ops, name, n + 1)
  {
    AtNext(s, ops, n);
    StepLines(At(s, ops, n), ops[n], name);
  }

  /** A label has a line exactly when the history says so. */
  lemma {:induction false} HasLineIffOnFile(s: State, ops: seq<Op>, name: string, n: nat)
    requires n <= |ops|
    ensures HasLine(At(s, ops, n).file, name) <==> OnFile(s, ops, name, n)
  {
    if n == 0 {
      OnFileAtStart(s, ops, name);
      assert ops[..0] == [];
    } else {
      HasLineIffOnFile(s, ops, name, n - 1);
      FileNext(s, ops, name, n - 1);
      OnFileNext(s, ops, name, n - 1);
    }
  }

  // ---------------------------------------------------------------------------
  // What comes back
  // ---------------------------------------------------------------------------

  /** The file can be read and every account of it set up. */
  ghost predicate CleanBoot(file: seq<Config>, boot: Boot) {
    boot.readForDefault && boot.readForRestore && forall c :: c in file ==> boot.world.setup(c).Some?
  }

  /** Whatever the file holds and whatever fails: the default account if it is implied, and otherwise each label
      with a workable line, as that line says. */
  lemma StartedRegistry(file: seq<Config>, boot: Boot, name: string)
    ensures var first := FirstWorkable(boot.world, if boot.readForRestore then file else [], name);
            var implied := name in DefaultRegistry(file, boot);
            && (name in StartRegistry(file, boot) <==> implied || first.Some?)
            && (implied ==> StartRegistry(file, boot)[name] == NewEntry(name, boot.identity, boot.setup))
            && (!implied && first.Some? ==>
                  && boot.world.setup(first.value).Some?
                  && StartRegistry(file, boot)[name] == RestoredEntry(boot.world, first.value, boot.world.setup(first.value).value))
  {
    RestoredRegistry(boot.world, DefaultRegistry(file, boot), if boot.readForRestore then file else [], name);
  }

  /** Over every run, with any failures on the way: after a clean restart a label is registered exactly when it is
      the implied default, or is legal and was filed by the start of the run or by an add, with no removal since
      that reached the file. */
  lemma ComesBackIff(s: State, ops: seq<Op>, boot: Boot, name: string)
    requires CleanBoot(Run(s, ops).file, boot)
    ensures name in StartRegistry(Run(s, ops).file, boot) <==>
              || (name == DEFAULT_ACCOUNT && ImplicitDefault(Run(s, ops).file, boot.identity))
              || (LabelOk(name) && OnFile(s, ops, name, |ops|))
  {
    var file := Run(s, ops).file;
    assert ops[..|ops|] == ops;
    HasLineIffOnFile(s, ops, name, |ops|);
    StartedRegistry(file, boot, name);
    FirstWorkableIsFirstLine(boot.world, file, name);
  }

  /** The account a process started with because its configuration implied it is on no file: after a restart that
      no longer implies it, it is gone. */
  lemma ImpliedDefaultIsNotFiled(file: seq<Config>, boot: Boot, next: Boot)
    requires ImplicitDefault(file, boot.identity) && CleanBoot(file, boot)
    requires CleanBoot(file, next) && !ImplicitDefault(file, next.identity)
    ensures DEFAULT_ACCOUNT in StartRegistry(file, boot)
    ensures DEFAULT_ACCOUNT !in StartRegistry(Start(file, boot).file, next)
  {
    StartedRegistry(file, boot, DEFAULT_ACCOUNT);
    StartedRegistry(file, next, DEFAULT_ACCOUNT);
    FirstWorkableIsFirstLine(next.world, file, DEFAULT_ACCOUNT);
  }

  /** Right after an add whose line was written, a restart brings back what was added, unless an older workable
      line for the label stands in front of it. */
  lemma AddedComesBackUnlessShadowed(file: seq<Config>, c: Config, boot: Boot)
    requires CleanBoot(file + [c], boot) && LabelOk(c.name)
    ensures c.name in StartRegistry(file + [c], boot)
    ensures IdentityOf(StartRegistry(file + [c], boot)[c.name]) ==
            if HasLine(file, c.name) then FirstLine(file, c.name).value.identity else c.identity
  {
    assert c in file + [c];
    assert forall d :: d in file ==> d in file + [c];
    StartedRegistry(file + [c], boot, c.name);
    FirstWorkableAppend(boot.world, file, c, c.name);
    FirstWorkableIsFirstLine(boot.world, file, c.name);
  }

  // ---------------------------------------------------------------------------
  // When nothing goes wrong on the way
  // ---------------------------------------------------------------------------

  function IdentityOf(e: Entry): Identity {
    Identity(e.clientId, e.tenantId, e.authMethod)
  }

  /** `whole` is `part` with empty fields filled in. */
  predicate Fills(part: Identity, whole: Identity) {
    && (part.clientId == "" || part.clientId == whole.clientId)
    && (part.tenantId == "" || part.tenantId == whole.tenantId)
    && (part.authMethod == "" || part.authMethod == whole.authMethod)
  }

  /** Registry and file agree: one line a label, every legal line is a registered account with its identity, and
      every account has a line unless it is the default one. */
  ghost predicate Mirrors(s: State) {
    && Consistent(s.accounts)
    && Distinct(s.file)
    && (forall i :: 0 <= i < |s.file| ==> LineOk(s.accounts, s.file[i]))
    && (forall n :: n in s.accounts ==> n == DEFAULT_ACCOUNT || HasLine(s.file, n))
  }

  predicate LineOk(m: Accounts, c: Config) {
    LabelOk(c.name) ==> c.name in m && Fills(c.identity, IdentityOf(m[c.name]))
  }

  /** The file is reached whenever a line is to be written or erased, and restarts are clean; writing an address
      may fail. */
  ghost predicate Healthy(s: State, op: Op) {
    match op
    case Restart(boot) => CleanBoot(s.file, boot)
    case AddAccount(call) => call.after.filed
    case RemoveAccount(_, works) => works
    case _ => true
  }

  ghost predicate AllHealthy(s: State, ops: seq<Op>)
    decreases |ops|
  {
    ops != [] ==> Healthy(s, ops[0]) && AllHealthy(Perform(s, ops[0]), ops[1..])
  }

  lemma StartMirrors(file: seq<Config>, boot: Boot)
    requires Distinct(file) && CleanBoot(file, boot)
    ensures Mirrors(Start(file, boot))
  {
    var m := StartRegistry(file, boot);
    StartConsistent(file, boot);
    forall i | 0 <= i < |file| ensures LineOk(m, file[i]) {
      StartedLine(file, boot, i);
    }
    forall n | n in m ensures n == DEFAULT_ACCOUNT || HasLine(file, n) {
      StartedRegistry(file, boot, n);
      FirstWorkableIsFirstLine(boot.world, file, n);
    }
  }

  lemma {:induction false} FirstLineOfDistinct(file: seq<Config>, i: nat)
    requires Distinct(file) && i < |file|
    ensures FirstLine(file, file[i].name) == Some(file[i])
  {
    if i > 0 {
      FirstLineOfDistinct(file[1..], i - 1);
    }
  }

  lemma StartedLine(file: seq<Config>, boot: Boot, i: nat)
    requires Distinct(file) && CleanBoot(file, boot) && i < |file|
    ensures LineOk(StartRegistry(file, boot), file[i])
    ensures LabelOk(file[i].name) ==> IdentityOf(StartRegistry(file, boot)[file[i].name]) == file[i].identity
  {
    var c := file[i];
    assert c in file;
    StartedRegistry(file, boot, c.name);
    FirstWorkableIsFirstLine(boot.world, file, c.name);
    FirstLineOfDistinct(file, i);
  }

  /** An edit of the addresses of lines changes neither labels nor identities. */
  lemma BackfillMirrors(s: State, name: string, upn: string)
    requires Mirrors(s)
    ensures Mirrors(s.(file := Backfill(s.file, name, upn)))
  {
    var file := Backfill(s.file, name, upn);
    forall i | 0 <= i < |file| ensures LineOk(s.accounts, file[i]) {
      assert LineOk(s.accounts, s.file[i]);
    }
    forall n | n in s.accounts ensures n == DEFAULT_ACCOUNT || HasLine(file, n) {
      BackfilledLines(s.file, name, upn, n);
    }
  }

  /** So does any change of an entry that keeps its label and identity and leaves it connectable. */
  lemma EntryMirrors(s: State, name: string, e: Entry)
    requires Mirrors(s) && name in s.accounts && e.name == name && Connectable(e)
    requires Fills(IdentityOf(s.accounts[name]), IdentityOf(e))
    ensures Mirrors(s.(accounts := s.accounts[name := e]))
  {
    forall i | 0 <= i < |s.file| ensures LineOk(s.accounts[name := e], s.file[i]) {
      assert LineOk(s.accounts, s.file[i]);
    }
  }

  lemma PersistMirrors(s: State, name: string, after: Followup)
    requires Mirrors(s) && name in s.accounts
    ensures Mirrors(PersistEmail(s, name, after))
  {
    var e := LearnEmail(s.accounts[name], after.email);
    EntryMirrors(s, name, e);
    BackfillMirrors(s.(accounts := s.accounts[name := e]), name, e.email);
  }

  lemma NewLineMirrors(s: State, e: Entry)
    requires Mirrors(s) && e.name !in s.accounts && LabelOk(e.name) && Connectable(e)
    ensures Mirrors(s.(accounts := s.accounts[e.name := e], file := s.file + [Config(e.name, IdentityOf(e), "")]))
  {
    var c := Config(e.name, IdentityOf(e), "");
    var file := s.file + [c];
    forall i | 0 <= i < |s.file| ensures file[i].name != e.name && LineOk(s.accounts[e.name := e], file[i]) {
      assert LineOk(s.accounts, s.file[i]);
    }
    forall n | n in s.accounts[e.name := e] ensures n == DEFAULT_ACCOUNT || HasLine(file, n) {
      AppendedLines(s.file, c, n);
    }
  }

  lemma RegisterMirrors(s: State, name: string, identity: Identity, setup: Setup, clientMade: bool, after: Followup)
    requires Mirrors(s) && after.filed
    ensures Mirrors(RegisterAdded(s, name, identity, setup, clientMade, after).0)
  {
    var e := NewEntry(name, identity, setup);
    if clientMade && Register(s.accounts, e).Ok? {
      NewLineMirrors(s, e);
      PersistMirrors(s.(accounts := s.accounts[name := e], file := s.file + [Config(name, identity, "")]), name, after);
    }
  }

  lemma AddMirrors(s: State, call: AddCall)
    requires Mirrors(s) && call.after.filed
    ensures Mirrors(Add(s, call).0)
  {
    if call.name in s.pending {
      var p := s.pending[call.name];
      RegisterMirrors(s.(pending := s.pending - {call.name}), call.name, p.identity, p.setup, call.clientMade, call.after);
    } else if call.setup.Some? {
      RegisterMirrors(s, call.name, call.identity, call.setup.value, call.clientMade, call.after);
    }
  }

  lemma LoginMirrors(s: State, call: LoginCall)
    requires Mirrors(s)
    ensures Mirrors(Login(s, call).0)
  {
    if Login(s, call).1.Done? {
      var e := Reconnected(s.accounts[call.name], call, call.setup.value);
      EntryMirrors(s, call.name, e);
      PersistMirrors(s.(accounts := s.accounts[call.name := e]), call.name, call.after);
    }
  }

  lemma RemoveMirrors(s: State, name: string)
    requires Mirrors(s)
    ensures Mirrors(Remove(s, name, true).0)
  {
    if name in s.accounts {
      var file := Erase(s.file, name);
      EraseKeepsDistinct(s.file, name);
      forall i | 0 <= i < |file| ensures LineOk(s.accounts - {name}, file[i]) {
        assert file[i] in file && file[i] in s.file;
      }
      forall n | n in s.accounts - {name} ensures n == DEFAULT_ACCOUNT || HasLine(file, n) {
        ErasedLines(s.file, name, n);
      }
    }
  }

  lemma StepMirrors(s: State, op: Op)
    requires Mirrors(s) && Healthy(s, op)
    ensures Mirrors(Perform(s, op))
  {
    match op
    case Restart(boot) => StartMirrors(s.file, boot);
    case AddAccount(call) => AddMirrors(s, call);
    case EndSignIn(_, _) =>
    case LoginAccount(call) => LoginMirrors(s, call);
    case LogoutAccount(name) =>
      if name in s.accounts && s.accounts[name].authenticated {
        EntryMirrors(s, name, Disconnected(s.accounts[name]));
      }
    case RemoveAccount(name, _) => RemoveMirrors(s, name);
    case FetchEmail(name, email) =>
      if name in s.accounts {
        EntryMirrors(s, name, LearnEmail(s.accounts[name], email));
      }
  }

  lemma {:induction false} RunMirrors(s: State, ops: seq<Op>)
    requires Mirrors(s) && AllHealthy(s, ops)
    ensures Mirrors(Run(s, ops))
    decreases |ops|
  {
    if ops != [] {
      StepMirrors(s, ops[0]);
      RunMirrors(Perform(s, ops[0]), ops[1..]);
    }
  }

  /** After any healthy run from a file with one line a label, through any number of restarts, the next clean
      restart brings back exactly the accounts registered now, each with its identity up to fields a login filled
      in; the default account alone may come or go, as the file and the configuration say. */
  lemma RestartKeepsAccounts(file: seq<Config>, first: Boot, ops: seq<Op>, boot: Boot, name: string)
    requires Distinct(file) && CleanBoot(file, first) && AllHealthy(Start(file, first), ops)
    requires CleanBoot(Run(Start(file, first), ops).file, boot)
    ensures var now := Run(Start(file, first), ops);
            var back := StartRegistry(now.file, boot);
            && (name != DEFAULT_ACCOUNT ==> (name in back <==> name in now.accounts))
            && (name in now.accounts && HasLine(now.file, name) ==>
                  name in back && Fills(IdentityOf(back[name]), IdentityOf(now.accounts[name])))
            && (name == DEFAULT_ACCOUNT ==>
                  (name in back <==> HasLine(now.file, name) || ImplicitDefault(now.file, boot.identity)))
  {
    StartMirrors(file, first);
    RunMirrors(Start(file, first), ops);
    MirrorComesBack(Run(Start(file, first), ops), boot, name);
  }

  lemma MirrorComesBack(s: State, boot: Boot, name: string)
    requires Mirrors(s) && CleanBoot(s.file, boot)
    ensures var back := StartRegistry(s.file, boot);
            && (name != DEFAULT_ACCOUNT ==> (name in back <==> name in s.accounts))
            && (name in s.accounts && HasLine(s.file, name) ==>
                  name in back && Fills(IdentityOf(back[name]), IdentityOf(s.accounts[name])))
            && (name == DEFAULT_ACCOUNT ==> (name in back <==> HasLine(s.file, name) || ImplicitDefault(s.file, boot.identity)))
  {
    StartedRegistry(s.file, boot, name);
    FirstWorkableIsFirstLine(boot.world, s.file, name);
    DefaultLabelOk();
    if HasLine(s.file, name) {
      var i :| 0 <= i < |s.file| && s.file[i].name == name;
      assert LineOk(s.accounts, s.file[i]);
      StartedLine(s.file, boot, i);
    }
  }
}
