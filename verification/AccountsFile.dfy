/** accounts.json: the accounts a restart starts from. Each change loads the file, edits the lines and saves
    them atomically; when that fails the file stays as it was. */
module AccountsFile {
  import opened Wrappers

  datatype Identity = Identity(clientId: string, tenantId: string, authMethod: string)

  /** One line of the file. */
  datatype Config = Config(name: string, identity: Identity, upn: string)

  ghost predicate HasLine(file: seq<Config>, name: string) {
    exists i :: 0 <= i < |file| && file[i].name == name
  }

  ghost predicate Distinct(file: seq<Config>) {
    forall i, j :: 0 <= i < j < |file| ==> file[i].name != file[j].name
  }

  function Erase(file: seq<Config>, name: string): (r: seq<Config>)
    ensures |r| <= |file| && (|r| == |file| <==> r == file)
    ensures forall c :: c in r <==> c in file && c.name != name
  {
    if file == [] then []
    else (if file[0].name == name then [] else [file[0]]) + Erase(file[1..], name)
  }

  /** The first line for the label gets the address. */
  function SetUpn(file: seq<Config>, name: string, upn: string): (r: seq<Config>)
    ensures |r| == |file|
    ensures forall i :: 0 <= i < |r| ==> r[i].name == file[i].name && r[i].identity == file[i].identity
  {
    if file == [] then []
    else if file[0].name == name then [file[0].(upn := upn)] + file[1..]
    else [file[0]] + SetUpn(file[1..], name, upn)
  }

  function FirstLine(file: seq<Config>, name: string): (r: Option<Config>)
    ensures r.Some? <==> HasLine(file, name)
    ensures r.Some? ==> r.value in file && r.value.name == name
  {
    if file == [] then None
    else if file[0].name == name then assert HasLine(file, name); Some(file[0])
    else
      var r := FirstLine(file[1..], name);
      assert HasLine(file[1..], name) <==> HasLine(file, name) by {
        if HasLine(file, name) {
          var i :| 0 <= i < |file| && file[i].name == name;
          assert file[1..][i - 1].name == name;
        }
      }
      r
  }

  /** An address learnt is written unless the line already has one. */
  function Backfill(file: seq<Config>, name: string, upn: string): (r: seq<Config>)
    ensures |r| == |file|
    ensures forall i :: 0 <= i < |r| ==> r[i].name == file[i].name && r[i].identity == file[i].identity
  {
    match FirstLine(file, name)
    case Some(c) => if upn != "" && c.upn == "" then SetUpn(file, name, upn) else file
    case None => file
  }

  predicate Covers(file: seq<Config>, clientId: string, tenantId: string) {
    clientId != "" && tenantId != "" && exists c :: c in file && c.identity.clientId == clientId && c.identity.tenantId == tenantId
  }

  // ---------------------------------------------------------------------------
  // What the edits do to a label
  // ---------------------------------------------------------------------------

  lemma HasLineIn(file: seq<Config>, name: string)
    ensures HasLine(file, name) <==> exists c :: c in file && c.name == name
  {
    if c :| c in file && c.name == name {
      var i :| 0 <= i < |file| && file[i] == c;
    }
    if HasLine(file, name) {
      var i :| 0 <= i < |file| && file[i].name == name;
      assert file[i] in file;
    }
  }

  lemma AppendedLines(file: seq<Config>, c: Config, name: string)
    ensures HasLine(file + [c], name) <==> HasLine(file, name) || c.name == name
  {
    if HasLine(file, name) {
      var i :| 0 <= i < |file| && file[i].name == name;
      assert (file + [c])[i].name == name;
    }
    assert (file + [c])[|file|] == c;
  }

  lemma ErasedLines(file: seq<Config>, erased: string, name: string)
    ensures HasLine(Erase(file, erased), name) <==> HasLine(file, name) && name != erased
  {
    HasLineIn(file, name);
    HasLineIn(Erase(file, erased), name);
  }

  lemma BackfilledLines(file: seq<Config>, filled: string, upn: string, name: string)
    ensures HasLine(Backfill(file, filled, upn), name) <==> HasLine(file, name)
  {
    var r := Backfill(file, filled, upn);
    if HasLine(file, name) {
      var i :| 0 <= i < |file| && file[i].name == name;
      assert r[i].name == name;
    }
  }

  lemma {:induction false} EraseKeepsDistinct(file: seq<Config>, name: string)
    requires Distinct(file)
    ensures Distinct(Erase(file, name))
  {
    if file != [] {
      EraseKeepsDistinct(file[1..], name);
    }
  }

  lemma {:induction false} EraseAppend(file: seq<Config>, c: Config, name: string)
    ensures Erase(file + [c], name) == Erase(file, name) + if c.name == name then [] else [c]
  {
    var longer := file + [c];
    if file == [] {
      assert longer[1..] == [];
    } else {
      assert longer[0] == file[0] && longer[1..] == file[1..] + [c];
      EraseAppend(file[1..], c, name);
    }
  }

  lemma {:induction false} EraseNothing(file: seq<Config>, name: string)
    requires !HasLine(file, name)
    ensures Erase(file, name) == file
  {
    if file != [] {
      assert file[0].name != name;
      assert forall i :: 0 <= i < |file[1..]| ==> file[1..][i] == file[i + 1];
      EraseNothing(file[1..], name);
    }
  }

  /** Erasing undoes adding exactly when there was no line for the label before. */
  lemma AddThenErase(file: seq<Config>, c: Config)
    ensures Erase(file + [c], c.name) == file <==> !HasLine(file, c.name)
  {
    EraseAppend(file, c, c.name);
    if HasLine(file, c.name) {
      ErasedLines(file, c.name, c.name);
    } else {
      EraseNothing(file, c.name);
    }
  }

  /** The line that gets the address is the first one for the label; without one nothing changes. */
  lemma {:induction false} SetUpnAt(file: seq<Config>, name: string, upn: string, i: nat)
    requires i <= |file| && forall j :: 0 <= j < i ==> file[j].name != name
    requires i < |file| ==> file[i].name == name
    ensures SetUpn(file, name, upn) == if i < |file| then file[i := file[i].(upn := upn)] else file
  {
    if i > 0 {
      SetUpnAt(file[1..], name, upn, i - 1);
    }
  }

  /** An address is written into the first line for the label, if that line has none. */
  lemma BackfillAt(file: seq<Config>, name: string, upn: string, i: nat)
    requires i <= |file| && forall j :: 0 <= j < i ==> file[j].name != name
    requires i < |file| ==> file[i].name == name
    ensures Backfill(file, name, upn) ==
            if i < |file| && upn != "" && file[i].upn == "" then file[i := file[i].(upn := upn)] else file
  {
    FirstLineAt(file, name, i);
    SetUpnAt(file, name, upn, i);
  }

  lemma {:induction false} FirstLineAt(file: seq<Config>, name: string, i: nat)
    requires i <= |file| && forall j :: 0 <= j < i ==> file[j].name != name
    requires i < |file| ==> file[i].name == name
    ensures FirstLine(file, name) == if i < |file| then Some(file[i]) else None
  {
    if i > 0 {
      FirstLineAt(file[1..], name, i - 1);
    }
  }

  // ---------------------------------------------------------------------------
  // As the program runs it
  // ---------------------------------------------------------------------------

  class AccountsStore {
    var lines: seq<Config>

    constructor (lines: seq<Config>)
      ensures this.lines == lines
    {
      this.lines := lines;
    }

    /** `works` says whether the file can be loaded and saved. */
    method AddAccountConfig(config: Config, works: bool) returns (ok: bool)
      modifies this
      ensures ok == works
      ensures lines == if works then old(lines) + [config] else old(lines)
    {
      if !works {
        return false;
      }
      lines := lines + [config];
      ok := true;
    }

    method RemoveAccountConfig(name: string, works: bool) returns (ok: bool)
      modifies this
      ensures lines == if works then Erase(old(lines), name) else old(lines)
    {
      if !works {
        return false;
      }
      var filtered: seq<Config> := [];
      for i := 0 to |lines|
        invariant lines == old(lines)
        invariant filtered == Erase(lines[..i], name)
      {
        EraseAppend(lines[..i], lines[i], name);
        assert lines[..i + 1] == lines[..i] + [lines[i]];
        if lines[i].name != name {
          filtered := filtered + [lines[i]];
        }
      }
      assert lines[..|lines|] == lines;
      if |filtered| != |lines| {
        lines := filtered;
      }
      ok := true;
    }

    method UpdateAccountUPN(name: string, upn: string, works: bool) returns (ok: bool)
      modifies this
      ensures lines == if works then SetUpn(old(lines), name, upn) else old(lines)
    {
      if !works {
        return false;
      }
      var i := 0;
      while i < |lines| && lines[i].name != name
        invariant 0 <= i <= |lines| && lines == old(lines)
        invariant forall j :: 0 <= j < i ==> lines[j].name != name
      {
        i := i + 1;
      }
      SetUpnAt(lines, name, upn, i);
      if i < |lines| {
        lines := lines[i := lines[i].(upn := upn)];
      }
      ok := true;
    }

    /** The tail of EnsureEmailAndPersistUPN. */
    method PersistUPN(name: string, email: string, works: bool)
      modifies this
      ensures lines == if works then Backfill(old(lines), name, email) else old(lines)
    {
      if email == "" || !works {
        return;
      }
      var i := 0;
      while i < |lines| && lines[i].name != name
        invariant 0 <= i <= |lines|
        invariant FirstLine(lines, name) == FirstLine(lines[i..], name)
      {
        assert lines[i..][1..] == lines[i + 1..];
        i := i + 1;
      }
      if i < |lines| && lines[i].upn == "" {
        var _ := UpdateAccountUPN(name, email, works);
      }
    }
  }
}
