/** Which account a call runs on: the `account` parameter, the only connected account, or the user's pick. */
module Resolver {
  import opened Order
  import opened Registry
  import opened RegistryObjects
  import opened Wrappers
  import AccountLifecycle
  import AccountsFile
  import Text

  /** The `account` argument. */
  datatype Param = Absent | NotText | Given(text: string)

  /** What comes back from the picker; `Accepted(None)` is an acceptance without a usable value. */
  datatype Answer = Unavailable | BadContent | Accepted(value: Option<string>) | Declined | Cancelled | OtherAction

  datatype ResolveError =
    | InvalidParam
    | NoSuchAccount(text: string)
    | IsDisconnected(entry: Entry)
    | NoAccounts
    | NoneConnected(identities: seq<string>)
    | NoDefault
    | NotPicked(answer: Answer)
    | PickedUnknown(name: string)

  const DISCONNECTED_MARK := " \U{2014} disconnected"

  // ---------------------------------------------------------------------------
  // The picker's lines
  // ---------------------------------------------------------------------------

  function FormatIdentity(e: Entry): string {
    if e.email == "" then e.name else e.name + " (" + e.email + ")"
  }

  function FormatChoice(e: Entry): string {
    if e.authenticated then FormatIdentity(e) else FormatIdentity(e) + DISCONNECTED_MARK
  }

  /** The leading token up to the first space. */
  function ParseChoice(value: string): string {
    if value == "" || value[0] == ' ' then "" else [value[0]] + ParseChoice(value[1..])
  }

  lemma {:induction false} ParseStopsAtSpace(name: string, rest: string)
    requires ' ' !in name && (rest == "" || rest[0] == ' ')
    ensures ParseChoice(name + rest) == name
  {
    if name == "" {
      assert name + rest == rest;
    } else {
      assert (name + rest)[1..] == name[1..] + rest;
      ParseStopsAtSpace(name[1..], rest);
    }
  }

  /** A printed choice reads back as its label, whatever the address is. */
  lemma ParseFormat(e: Entry)
    requires LabelOk(e.name)
    ensures ParseChoice(FormatChoice(e)) == e.name
  {
    assert !LabelChar(' ');
    var address := if e.email == "" then "" else " (" + e.email + ")";
    var rest := if e.authenticated then address else address + DISCONNECTED_MARK;
    assert FormatIdentity(e) == e.name + address;
    assert FormatChoice(e) == e.name + rest;
    ParseStopsAtSpace(e.name, rest);
  }

  function Choices(entries: seq<Entry>): (r: seq<string>) {
    seq(|entries|, i requires 0 <= i < |entries| => FormatChoice(entries[i]))
  }

  /** No two lines of the picker are the same. */
  lemma ChoicesDistinct(m: Accounts)
    requires Consistent(m)
    ensures forall i, j :: 0 <= i < j < |Listing(m)| ==> Choices(Listing(m))[i] != Choices(Listing(m))[j]
  {
    var all := Listing(m);
    ListingFacts(m);
    forall i, j | 0 <= i < j < |all| ensures Choices(all)[i] != Choices(all)[j] {
      assert all[i] in all && all[j] in all;
      ParseFormat(all[i]);
      ParseFormat(all[j]);
      assert Below(all[i], all[j]);
      LexTrichotomy(all[i].name, all[j].name);
    }
  }

  // ---------------------------------------------------------------------------
  // Resolution
  // ---------------------------------------------------------------------------

  function IfConnected(e: Entry): Result<Entry, ResolveError> {
    if e.authenticated then Ok(e) else Err(IsDisconnected(e))
  }

  /** What a lookup by address may return; with several matches, any of them. */
  ghost predicate FoundByUpn(m: Accounts, upn: string, found: Option<Entry>) {
    match found
    case Some(e) => upn != "" && e.name in m && m[e.name] == e && Text.Lower(e.email) == Text.Lower(upn)
    case None => upn == "" || forall l :: l in m ==> Text.Lower(m[l].email) != Text.Lower(upn)
  }

  /** Label first, then address. */
  function Explicit(m: Accounts, text: string, byUpn: Option<Entry>): Result<Entry, ResolveError> {
    if text == "" then Err(InvalidParam)
    else if text in m then IfConnected(m[text])
    else if byUpn.Some? then IfConnected(byUpn.value)
    else Err(NoSuchAccount(text))
  }

  function Picked(m: Accounts, answer: Answer): Result<Entry, ResolveError> {
    match answer
    case Unavailable => if AccountLifecycle.DEFAULT_ACCOUNT in m then IfConnected(m[AccountLifecycle.DEFAULT_ACCOUNT]) else Err(NoDefault)
    case Accepted(Some(value)) =>
      if value == "" then Err(NotPicked(answer))
      else if ParseChoice(value) in m then IfConnected(m[ParseChoice(value)])
      else Err(PickedUnknown(ParseChoice(value)))
    case _ => Err(NotPicked(answer))
  }

  function Identities(entries: seq<Entry>): seq<string> {
    seq(|entries|, i requires 0 <= i < |entries| => FormatIdentity(entries[i]))
  }

  function Unconnected(entries: seq<Entry>): seq<Entry> {
    if entries == [] then []
    else (if entries[0].authenticated then [] else [entries[0]]) + Unconnected(entries[1..])
  }

  lemma {:induction false} UnconnectedAppend(entries: seq<Entry>, e: Entry)
    ensures Unconnected(entries + [e]) == Unconnected(entries) + if e.authenticated then [] else [e]
  {
    var longer := entries + [e];
    if entries == [] {
      assert longer[1..] == [];
    } else {
      assert longer[0] == entries[0] && longer[1..] == entries[1..] + [e];
      UnconnectedAppend(entries[1..], e);
    }
  }

  lemma {:induction false} AllUnconnected(entries: seq<Entry>)
    requires forall e :: e in entries ==> !e.authenticated
    ensures Connected(entries) == [] && Unconnected(entries) == entries
  {
    if entries != [] {
      assert entries[0] in entries;
      AllUnconnected(entries[1..]);
    }
  }

  /** With nobody connected, everybody there is. */
  function Unusable(all: seq<Entry>): ResolveError {
    var others := Unconnected(all);
    if others == [] then NoAccounts else NoneConnected(Identities(others))
  }

  ghost function Implicit(m: Accounts, elicit: seq<string> -> Answer): Result<Entry, ResolveError> {
    var all := Listing(m);
    var connected := Connected(all);
    if |connected| == 0 then Err(Unusable(all))
    else if |connected| == 1 then Ok(connected[0])
    else Picked(m, elicit(Choices(all)))
  }

  ghost function Resolve(m: Accounts, param: Param, byUpn: Option<Entry>, elicit: seq<string> -> Answer): Result<Entry, ResolveError> {
    match param
    case NotText => Err(InvalidParam)
    case Given(text) => Explicit(m, text, byUpn)
    case Absent => Implicit(m, elicit)
  }

  /** A registered account that is connected, with a client made from its own credential. */
  ghost predicate Live(m: Accounts, e: Entry) {
    e.name in m && m[e.name] == e && e.authenticated && e.client.Some? && e.client == e.credential
  }

  lemma ConnectedIsLive(m: Accounts, i: nat)
    requires Consistent(m) && i < |Connected(Listing(m))|
    ensures Live(m, Connected(Listing(m))[i])
  {
  }

  /** Every resolution that succeeds, by whatever route, gives a registered account that is connected, with a
      client made from its own credential. */
  lemma ResolvedIsLive(m: Accounts, param: Param, byUpn: Option<Entry>, elicit: seq<string> -> Answer)
    requires Consistent(m)
    requires param.Given? ==> FoundByUpn(m, param.text, byUpn)
    ensures var r := Resolve(m, param, byUpn, elicit); r.Ok? ==> Live(m, r.value)
  {
  }

  /** Picking a line gives exactly the account it was printed from, or the error that says that account is
      disconnected. */
  lemma PickedIsPrinted(m: Accounts, elicit: seq<string> -> Answer, i: nat)
    requires Consistent(m) && |Connected(Listing(m))| > 1 && i < |Listing(m)|
    requires elicit(Choices(Listing(m))) == Accepted(Some(Choices(Listing(m))[i]))
    ensures var e := Listing(m)[i];
            Resolve(m, Absent, None, elicit) == if e.authenticated then Ok(e) else Err(IsDisconnected(e))
  {
    var e := Listing(m)[i];
    ListingFacts(m);
    assert e in Listing(m);
    ParseFormat(e);
  }

  /** So it is after any sequence of starts, adds, logins, logouts, removals and lookups on any file, and
      the picker's lines are then all different. */
  lemma ServedAccountIsLive(file: seq<AccountsFile.Config>, ops: seq<AccountLifecycle.Op>, param: Param, byUpn: Option<Entry>, elicit: seq<string> -> Answer)
    requires var m := AccountLifecycle.Run(AccountLifecycle.State(map[], map[], file), ops).accounts;
             param.Given? ==> FoundByUpn(m, param.text, byUpn)
    ensures var m := AccountLifecycle.Run(AccountLifecycle.State(map[], map[], file), ops).accounts;
            var r := Resolve(m, param, byUpn, elicit);
            && (r.Ok? ==> Live(m, r.value))
            && forall i, j :: 0 <= i < j < |Listing(m)| ==> Choices(Listing(m))[i] != Choices(Listing(m))[j]
  {
    AccountLifecycle.RunKeepsConsistent(AccountLifecycle.State(map[], map[], file), ops);
    var m := AccountLifecycle.Run(AccountLifecycle.State(map[], map[], file), ops).accounts;
    ResolvedIsLive(m, param, byUpn, elicit);
    ChoicesDistinct(m);
  }

  /** Every account can be named by its label, even one that is another account's address: a connected one is used,
      of any other it is said that it is disconnected. */
  lemma NamedByLabel(m: Accounts, name: string, byUpn: Option<Entry>, elicit: seq<string> -> Answer)
    requires Consistent(m) && name in m
    ensures Resolve(m, Given(name), byUpn, elicit) == if m[name].authenticated then Ok(m[name]) else Err(IsDisconnected(m[name]))
  {
  }

  /** A text that is no label but one account's address alone, in whatever case, names that account. */
  lemma NamedByAddress(m: Accounts, text: string, name: string, byUpn: Option<Entry>, elicit: seq<string> -> Answer)
    requires Keyed(m) && text != "" && text !in m && FoundByUpn(m, text, byUpn)
    requires name in m && Text.Lower(m[name].email) == Text.Lower(text)
    requires forall l :: l in m && Text.Lower(m[l].email) == Text.Lower(text) ==> l == name
    ensures Resolve(m, Given(text), byUpn, elicit) == if m[name].authenticated then Ok(m[name]) else Err(IsDisconnected(m[name]))
  {
  }

  /** A text that is neither names nothing, and an empty or non-text argument is an invalid one. */
  lemma NamesNothing(m: Accounts, text: string, byUpn: Option<Entry>, elicit: seq<string> -> Answer)
    requires text !in m && FoundByUpn(m, text, byUpn)
    requires forall l :: l in m ==> Text.Lower(m[l].email) != Text.Lower(text)
    ensures Resolve(m, Given(text), byUpn, elicit) == Err(if text == "" then InvalidParam else NoSuchAccount(text))
    ensures Resolve(m, Given(""), None, elicit) == Resolve(m, NotText, None, elicit) == Err(InvalidParam)
  {
  }

  /** Where no picker can be shown the account "default" is used, if there is one and it is connected. */
  lemma WithoutPicker(m: Accounts, elicit: seq<string> -> Answer)
    requires |Connected(Listing(m))| > 1 && elicit(Choices(Listing(m))) == Unavailable
    ensures Resolve(m, Absent, None, elicit) ==
            if "default" !in m then Err(NoDefault)
            else if m["default"].authenticated then Ok(m["default"]) else Err(IsDisconnected(m["default"]))
  {
  }

  /** Any answer of the picker that picks nothing is an error that tells which. */
  lemma NothingPicked(m: Accounts, elicit: seq<string> -> Answer)
    requires |Connected(Listing(m))| > 1
    requires elicit(Choices(Listing(m))) in {BadContent, Accepted(None), Accepted(Some("")), Declined, Cancelled, OtherAction}
    ensures Resolve(m, Absent, None, elicit) == Err(NotPicked(elicit(Choices(Listing(m)))))
  {
  }

  /** A line whose first word is the label of no account: it may have gone since the picker was shown. */
  lemma UnknownPicked(m: Accounts, elicit: seq<string> -> Answer, name: string, rest: string)
    requires |Connected(Listing(m))| > 1 && elicit(Choices(Listing(m))) == Accepted(Some(name + rest))
    requires name !in m && ' ' !in name && name + rest != "" && (rest == "" || rest[0] == ' ')
    ensures Resolve(m, Absent, None, elicit) == Err(PickedUnknown(name))
  {
    ParseStopsAtSpace(name, rest);
  }

  /** How an account is shown: its label, its address if it is known, and a mark unless it is connected. */
  lemma ChoiceShows(e: Entry)
    ensures FormatChoice(e) == e.name + (if e.email == "" then "" else " (" + e.email + ")") +
                               (if e.authenticated then "" else " \U{2014} disconnected")
    ensures FormatIdentity(e) == e.name + if e.email == "" then "" else " (" + e.email + ")"
  {
    assert e.name + (" (" + e.email + ")") == e.name + " (" + e.email + ")";
    assert FormatIdentity(e) + "" == FormatIdentity(e) && e.name + "" == e.name;
  }

  /** The user is asked only when no account is named and several are connected. */
  lemma AskedOnlyWhenAmbiguous(m: Accounts, param: Param, byUpn: Option<Entry>, elicit: seq<string> -> Answer, other: seq<string> -> Answer)
    requires !param.Absent? || |Connected(Listing(m))| <= 1
    ensures Resolve(m, param, byUpn, elicit) == Resolve(m, param, byUpn, other)
  {
  }

  /** With a single connected account, that is the one used. */
  lemma SoleConnectedIsUsed(m: Accounts, name: string, elicit: seq<string> -> Answer)
    requires Consistent(m) && name in m && m[name].authenticated
    requires forall l :: l in m && m[l].authenticated ==> l == name
    ensures Resolve(m, Absent, None, elicit) == Ok(m[name])
  {
    var connected := Connected(Listing(m));
    ListingFacts(m);
    ConnectedAscends(Listing(m));
    assert m[name] in connected;
    forall i | 0 <= i < |connected| ensures connected[i] == m[name] {
      ConnectedIsLive(m, i);
    }
    LexTrichotomy(name, name);
    assert |connected| > 1 ==> Below(connected[0], connected[1]);
  }

  /** With none connected, the error names every account there is. */
  lemma NoneConnectedNamesAll(m: Accounts, elicit: seq<string> -> Answer)
    requires Consistent(m) && forall l :: l in m ==> !m[l].authenticated
    ensures Resolve(m, Absent, None, elicit) ==
            if m == map[] then Err(NoAccounts) else Err(NoneConnected(Identities(Listing(m))))
  {
    ListingFacts(m);
    AllUnconnected(Listing(m));
    forall l | l in m ensures m[l] in Listing(m) {
      assert m[l].name == l;
    }
    assert Listing(m) != [] ==> Listing(m)[0].name in m;
  }

  // ---------------------------------------------------------------------------
  // As the program runs it
  // ---------------------------------------------------------------------------

  ghost function Outcome(r: Result<AccountEntry, ResolveError>): Result<Entry, ResolveError>
    reads if r.Ok? then {r.value} else {}
  {
    match r
    case Ok(e) => Ok(e.data)
    case Err(e) => Err(e)
  }

  method CheckConnected(e: AccountEntry) returns (r: Result<AccountEntry, ResolveError>)
    ensures Outcome(r) == if e.data.authenticated then Ok(e.data) else Err(IsDisconnected(e.data))
    ensures r.Ok? ==> r.value == e
  {
    r := if e.data.authenticated then Ok(e) else Err(IsDisconnected(e.data));
  }

  method FormatAll(all: seq<AccountEntry>) returns (choices: seq<string>)
    ensures choices == Choices(Data(all))
  {
    choices := [];
    for i := 0 to |all|
      invariant choices == Choices(Data(all))[..i]
    {
      choices := choices + [FormatChoice(all[i].data)];
    }
  }

  method ElicitAccountSelection(registry: AccountRegistry, elicit: seq<string> -> Answer) returns (r: Result<AccountEntry, ResolveError>)
    requires registry.Valid()
    ensures registry.Contents() == old(registry.Contents())
    ensures Outcome(r) == Picked(registry.Contents(), elicit(Choices(Listing(registry.Contents()))))
    ensures r.Ok? ==> registry.Holds(r.value)
  {
    var all := registry.List();
    var choices := FormatAll(all);
    r := ApplyAnswer(registry, elicit(choices));
  }

  method ApplyAnswer(registry: AccountRegistry, answer: Answer) returns (r: Result<AccountEntry, ResolveError>)
    requires registry.Valid()
    ensures Outcome(r) == Picked(registry.Contents(), answer)
    ensures r.Ok? ==> registry.Holds(r.value)
  {
    if answer.Unavailable? {
      var found := registry.Get(AccountLifecycle.DEFAULT_ACCOUNT);
      if found.None? {
        return Err(NoDefault);
      }
      r := CheckConnected(found.value);
      return;
    }
    if !answer.Accepted? || answer.value.None? || answer.value.value == "" {
      return Err(NotPicked(answer));
    }
    var name := ParseChoice(answer.value.value);
    var found := registry.Get(name);
    if found.None? {
      return Err(PickedUnknown(name));
    }
    r := CheckConnected(found.value);
  }

  method KeepDisconnected(all: seq<AccountEntry>) returns (out: seq<AccountEntry>)
    ensures Data(out) == Unconnected(Data(all)) && Data(all) == old(Data(all))
  {
    ghost var data := Data(all);
    out := [];
    for i := 0 to |all|
      invariant Data(out) == Unconnected(data[..i])
    {
      UnconnectedAppend(data[..i], data[i]);
      assert data[..i + 1] == data[..i] + [data[i]];
      assert Data(out + [all[i]]) == Data(out) + [data[i]];
      if !all[i].data.authenticated {
        out := out + [all[i]];
      }
    }
    assert data[..|all|] == data;
  }

  method FormatIdentities(entries: seq<AccountEntry>) returns (r: seq<string>)
    ensures r == Identities(Data(entries))
  {
    r := [];
    for i := 0 to |entries|
      invariant r == Identities(Data(entries))[..i]
    {
      r := r + [FormatIdentity(entries[i].data)];
    }
  }

  /** `byUpn` is what the lookup by address came back with, where one was made. */
  method ResolveAccount(registry: AccountRegistry, param: Param, elicit: seq<string> -> Answer)
    returns (r: Result<AccountEntry, ResolveError>, ghost byUpn: Option<Entry>)
    requires registry.Valid()
    ensures param.Given? ==> FoundByUpn(registry.Contents(), param.text, byUpn)
    ensures Outcome(r) == Resolve(registry.Contents(), param, byUpn, elicit)
    ensures r.Ok? ==> registry.Holds(r.value)
  {
    byUpn := None;
    match param
    case NotText => r := Err(InvalidParam);
    case Given(text) => r, byUpn := ResolveExplicit(registry, text);
    case Absent => r := ResolveImplicit(registry, elicit);
  }

  method ResolveExplicit(registry: AccountRegistry, text: string)
    returns (r: Result<AccountEntry, ResolveError>, ghost byUpn: Option<Entry>)
    requires registry.Valid()
    ensures FoundByUpn(registry.Contents(), text, byUpn)
    ensures Outcome(r) == Explicit(registry.Contents(), text, byUpn)
    ensures r.Ok? ==> registry.Holds(r.value)
  {
    var upn := registry.GetByUPN(text);
    byUpn := if upn.Some? then Some(upn.value.data) else None;
    if text == "" {
      return Err(InvalidParam), byUpn;
    }
    var found := registry.Get(text);
    if found.None? {
      found := upn;
    }
    if found.None? {
      return Err(NoSuchAccount(text)), byUpn;
    }
    r := CheckConnected(found.value);
  }

  method ResolveImplicit(registry: AccountRegistry, elicit: seq<string> -> Answer) returns (r: Result<AccountEntry, ResolveError>)
    requires registry.Valid()
    ensures Outcome(r) == Implicit(registry.Contents(), elicit)
    ensures r.Ok? ==> registry.Holds(r.value)
  {
    ghost var m := registry.Contents();
    var authenticated := registry.ListAuthenticated();
    assert |authenticated| == |Connected(Listing(m))|;
    if |authenticated| == 0 {
      var error := NoneUsable(registry);
      r := Err(error);
    } else if |authenticated| == 1 {
      r := Ok(authenticated[0]);
      assert Outcome(r) == Ok(Data(authenticated)[0]);
    } else {
      r := ElicitAccountSelection(registry, elicit);
    }
    assert registry.Contents() == m;
  }

  method NoneUsable(registry: AccountRegistry) returns (error: ResolveError)
    requires registry.Valid()
    ensures registry.Contents() == old(registry.Contents())
    ensures error == Unusable(Listing(registry.Contents()))
  {
    var all := registry.List();
    error := NameDisconnected(all);
  }

  method NameDisconnected(all: seq<AccountEntry>) returns (error: ResolveError)
    ensures error == Unusable(Data(all)) && Data(all) == old(Data(all))
  {
    var disconnected := KeepDisconnected(all);
    if |disconnected| == 0 {
      error := NoAccounts;
    } else {
      var identities := FormatIdentities(disconnected);
      error := NoneConnected(identities);
    }
  }
}
