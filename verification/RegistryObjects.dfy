/** The registry as an object: entries are shared by reference, its map changes in place, and its listings
    walk the map in whatever order it offers. */
module RegistryObjects {
  import opened Order
  import opened Registry
  import opened Wrappers
  import Text

  class AccountEntry {
    var data: Entry

    constructor (data: Entry)
      ensures this.data == data
    {
      this.data := data;
    }
  }

  class AccountRegistry {
    var accounts: map<string, AccountEntry>

    ghost predicate Valid()
      reads this, accounts.Values
    {
      forall l :: l in accounts ==> accounts[l].data.name == l
    }

    ghost function Contents(): (m: Accounts)
      reads this, accounts.Values
      ensures Valid() ==> Keyed(m)
    {
      map l | l in accounts :: accounts[l].data
    }

    /** `e` is the registered object of its label. */
    ghost predicate Holds(e: AccountEntry)
      reads this, e
    {
      e.data.name in accounts && accounts[e.data.name] == e
    }

    constructor ()
      ensures Valid() && Contents() == map[]
    {
      accounts := map[];
    }

    method Add(entry: AccountEntry) returns (failure: Option<RegistryError>)
      requires Valid()
      modifies this
      ensures Valid()
      ensures match Register(old(Contents()), entry.data)
              case Ok(m) => failure.None? && Contents() == m && accounts == old(accounts)[entry.data.name := entry]
              case Err(e) => failure == Some(e) && accounts == old(accounts) && Contents() == old(Contents())
    {
      var key := entry.data.name;
      if !LabelOk(key) {
        return Some(InvalidLabel);
      }
      if key in accounts {
        return Some(Duplicate);
      }
      accounts := accounts[key := entry];
      failure := None;
    }

    method Remove(name: string) returns (failure: Option<RegistryError>)
      requires Valid()
      modifies this
      ensures Valid()
      ensures failure == if name in old(accounts) then None else Some(NotFound)
      ensures accounts == old(accounts) - {name} && Contents() == old(Contents()) - {name}
    {
      if name !in accounts {
        return Some(NotFound);
      }
      accounts := accounts - {name};
      failure := None;
    }

    /** Runs the callback on the live entry. The registry stays well formed when the callback leaves the
        label alone, as every callback in the program does. */
    method Update(name: string, fn: Entry -> Entry) returns (failure: Option<RegistryError>)
      requires Valid()
      modifies accounts.Values
      ensures failure == if name in old(accounts) then None else Some(NotFound)
      ensures name in old(accounts) ==> Contents() == old(Contents())[name := fn(old(accounts[name].data))]
      ensures name !in old(accounts) ==> Contents() == old(Contents())
      ensures (name in old(accounts) ==> fn(old(accounts[name].data)).name == name) ==> Valid()
    {
      if name !in accounts {
        return Some(NotFound);
      }
      var entry := accounts[name];
      entry.data := fn(entry.data);
      failure := None;
    }

    /** Finds exactly the registered accounts, each as the object that later updates will change. */
    method Get(name: string) returns (found: Option<AccountEntry>)
      requires Valid()
      ensures found.Some? <==> name in Contents()
      ensures found.Some? ==> Holds(found.value) && found.value.data.name == name && found.value.data == Contents()[name]
    {
      found := if name in accounts then Some(accounts[name]) else None;
    }

    /** The first entry the map walk offers whose address matches; an empty address never does. */
    method GetByUPN(upn: string) returns (found: Option<AccountEntry>)
      requires Valid()
      ensures found.Some? ==> upn != "" && Holds(found.value) && Text.Lower(found.value.data.email) == Text.Lower(upn)
      ensures found.None? && upn != "" ==> forall l :: l in accounts ==> Text.Lower(accounts[l].data.email) != Text.Lower(upn)
    {
      if upn == "" {
        return None;
      }
      var rest := accounts.Keys;
      while rest != {}
        invariant rest <= accounts.Keys
        invariant forall l :: l in accounts.Keys - rest ==> Text.Lower(accounts[l].data.email) != Text.Lower(upn)
      {
        var l :| l in rest;
        if Text.Lower(accounts[l].data.email) == Text.Lower(upn) {
          return Some(accounts[l]);
        }
        rest := rest - {l};
      }
      found := None;
    }

    method List() returns (entries: seq<AccountEntry>)
      requires Valid()
      ensures forall e :: e in entries ==> Holds(e)
      ensures Contents() == old(Contents()) && Data(entries) == Listing(Contents())
    {
      entries := Collect(false);
      ListingUnique(Contents(), Data(entries), false);
    }

    method ListAuthenticated() returns (entries: seq<AccountEntry>)
      requires Valid()
      ensures forall e :: e in entries ==> Holds(e)
      ensures Contents() == old(Contents()) && Data(entries) == Connected(Listing(Contents()))
    {
      entries := Collect(true);
      ListingUnique(Contents(), Data(entries), true);
    }

    /** Walks the map, keeps the entries asked for, and sorts them by label. */
    method Collect(onlyAuthenticated: bool) returns (entries: seq<AccountEntry>)
      requires Valid()
      ensures forall e :: e in entries ==> Holds(e)
      ensures Ascending(Below, Data(entries))
      ensures forall e: Entry :: e in Data(entries) <==>
        e.name in accounts && accounts[e.name].data == e && (onlyAuthenticated ==> e.authenticated)
    {
      var found: seq<AccountEntry> := [];
      var rest := accounts.Keys;
      while rest != {}
        invariant rest <= accounts.Keys
        invariant forall i, j :: 0 <= i < j < |found| ==> found[i].data.name != found[j].data.name
        invariant forall e :: e in found <==>
          Holds(e) && e.data.name !in rest && (onlyAuthenticated ==> e.data.authenticated)
      {
        var l :| l in rest;
        rest := rest - {l};
        if !onlyAuthenticated || accounts[l].data.authenticated {
          found := found + [accounts[l]];
        }
      }
      entries := SortByLabel(found);
      forall e: Entry | e.name in accounts && accounts[e.name].data == e && (onlyAuthenticated ==> e.authenticated)
        ensures e in Data(entries)
      {
        assert accounts[e.name] in entries;
        var i :| 0 <= i < |entries| && entries[i] == accounts[e.name];
        assert Data(entries)[i] == e;
      }
      forall i | 0 <= i < |entries|
        ensures var e := Data(entries)[i];
          e.name in accounts && accounts[e.name].data == e && (onlyAuthenticated ==> e.authenticated)
      {
        assert entries[i] in found;
      }
    }
  }

  /** The entries' values. */
  ghost function Data(entries: seq<AccountEntry>): (r: seq<Entry>)
    reads entries
    ensures |r| == |entries| && forall i :: 0 <= i < |r| ==> r[i] == entries[i].data
  {
    seq(|entries|, i requires 0 <= i < |entries| reads entries => entries[i].data)
  }

  /** Where an entry goes among sorted ones none of which has its label. */
  method Position(sorted: seq<AccountEntry>, e: AccountEntry) returns (k: nat)
    requires Ascending(Below, Data(sorted))
    requires forall x :: x in sorted ==> x.data.name != e.data.name
    ensures k <= |sorted|
    ensures forall i :: 0 <= i < k ==> Below(Data(sorted)[i], e.data)
    ensures forall i :: k <= i < |sorted| ==> Below(e.data, Data(sorted)[i])
  {
    k := 0;
    while k < |sorted| && LexLess(sorted[k].data.name, e.data.name)
      invariant 0 <= k <= |sorted|
      invariant forall i :: 0 <= i < k ==> Below(Data(sorted)[i], e.data)
    {
      k := k + 1;
    }
    forall i | k <= i < |sorted| ensures Below(e.data, Data(sorted)[i]) {
      LexTrichotomy(sorted[k].data.name, e.data.name);
      if k < i {
        LexTransitive(e.data.name, Data(sorted)[k].name, Data(sorted)[i].name);
      }
    }
  }

  lemma InsertedAscends(s: seq<Entry>, k: nat, e: Entry)
    requires Ascending(Below, s) && k <= |s|
    requires forall i :: 0 <= i < k ==> Below(s[i], e)
    requires forall i :: k <= i < |s| ==> Below(e, s[i])
    ensures Ascending(Below, s[..k] + [e] + s[k..])
  {
  }

  method InsertByLabel(sorted: seq<AccountEntry>, e: AccountEntry) returns (r: seq<AccountEntry>)
    requires Ascending(Below, Data(sorted))
    requires forall x :: x in sorted ==> x.data.name != e.data.name
    ensures Ascending(Below, Data(r))
    ensures forall x :: x in r <==> x in sorted || x == e
  {
    var k := Position(sorted, e);
    r := sorted[..k] + [e] + sorted[k..];
    InsertedAscends(Data(sorted), k, e.data);
    assert Data(r) == Data(sorted)[..k] + [e.data] + Data(sorted)[k..];
    assert sorted == sorted[..k] + sorted[k..];
  }

  /** Sorts entries with distinct labels. */
  method SortByLabel(entries: seq<AccountEntry>) returns (sorted: seq<AccountEntry>)
    requires forall i, j :: 0 <= i < j < |entries| ==> entries[i].data.name != entries[j].data.name
    ensures forall e :: e in sorted <==> e in entries
    ensures Ascending(Below, Data(sorted))
  {
    sorted := [];
    for n := 0 to |entries|
      invariant forall e :: e in sorted <==> e in entries[..n]
      invariant Ascending(Below, Data(sorted))
    {
      sorted := InsertByLabel(sorted, entries[n]);
      assert entries[..n + 1] == entries[..n] + [entries[n]];
    }
  }
}
