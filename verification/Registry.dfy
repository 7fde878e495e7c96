/** The account registry: the store itself (`AccountRegistry`), what it holds (`Accounts`), and the order in
    which it lists its entries. */
module Registry {
  import opened Order
  import opened Wrappers
  import Text

  /** One account; `name` is its label. Credentials and authenticators are opaque handles, and a
      client is identified by the credential it was made from; None is nil. */
  datatype Entry = Entry(
    name: string,
    clientId: string,
    tenantId: string,
    authMethod: string,
    credential: Option<nat>,
    authenticator: Option<nat>,
    client: Option<nat>,
    recordPath: string,
    cacheName: string,
    authenticated: bool,
    email: string)

  type Accounts = map<string, Entry>

  datatype RegistryError = InvalidLabel | Duplicate | NotFound

  const MAX_LABEL := 64

  predicate LabelChar(c: char) {
    'a' <= c <= 'z' || 'A' <= c <= 'Z' || '0' <= c <= '9' || c == '_' || c == '-'
  }

  predicate LabelOk(name: string) {
    1 <= |name| <= MAX_LABEL && forall c :: c in name ==> LabelChar(c)
  }

  /** Every entry sits under its own label. */
  ghost predicate Keyed(m: Accounts) {
    forall l :: l in m ==> m[l].name == l
  }

  /** An entry that may serve calls has a client to serve them with, made from its own credential. */
  predicate Connectable(e: Entry) {
    && (e.authenticated <==> e.client.Some?)
    && (e.authenticated ==> e.client == e.credential && e.authenticator.Some?)
  }

  ghost predicate Consistent(m: Accounts) {
    Keyed(m) && forall l :: l in m ==> LabelOk(l) && Connectable(m[l])
  }

  function Register(m: Accounts, e: Entry): (r: Result<Accounts, RegistryError>)
    ensures r.Ok? <==> LabelOk(e.name) && e.name !in m
    ensures LabelOk(e.name) <==>
              1 <= |e.name| <= 64 &&
              forall c :: c in e.name ==> 'a' <= c <= 'z' || 'A' <= c <= 'Z' || '0' <= c <= '9' || c == '_' || c == '-'
    ensures r.Err? ==> r.error == if LabelOk(e.name) then Duplicate else InvalidLabel
    ensures r.Ok? ==> r.value.Keys == m.Keys + {e.name} && r.value[e.name] == e
    ensures r.Ok? ==> forall l :: l in m ==> r.value[l] == m[l]
  {
    if !LabelOk(e.name) then Err(InvalidLabel)
    else if e.name in m then Err(Duplicate)
    else Ok(m[e.name := e])
  }

  // ---------------------------------------------------------------------------
  // Listing order
  // ---------------------------------------------------------------------------

  ghost predicate IsLeast(least: string, labels: set<string>) {
    least in labels && forall l :: l in labels ==> l == least || LexLess(least, l)
  }

  lemma {:induction false} LeastLabel(labels: set<string>) returns (least: string)
    requires labels != {}
    ensures IsLeast(least, labels)
    decreases |labels|
  {
    var one :| one in labels;
    if labels == {one} {
      least := one;
    } else {
      var other := LeastLabel(labels - {one});
      LexTrichotomy(one, other);
      least := if LexLess(one, other) then one else other;
      forall l | l in labels ensures l == least || LexLess(least, l) {
        if l != one && l != other && LexLess(one, other) {
          LexTransitive(one, other, l);
        }
      }
    }
  }

  lemma SomeLeast(labels: set<string>)
    requires labels != {}
    ensures exists least :: IsLeast(least, labels)
  {
    var least := LeastLabel(labels);
  }

  /** The labels, alphabetically. */
  ghost function Alphabetical(labels: set<string>): (r: seq<string>)
    ensures forall l :: l in r <==> l in labels
    decreases |labels|
  {
    if labels == {} then []
    else
      SomeLeast(labels);
      var least :| IsLeast(least, labels);
      [least] + Alphabetical(labels - {least})
  }

  lemma {:induction false} AlphabeticalAscends(labels: set<string>)
    ensures Ascending(LexLess, Alphabetical(labels))
    decreases |labels|
  {
    if labels != {} {
      var least := Alphabetical(labels)[0];
      AlphabeticalAscends(labels - {least});
    }
  }

  /** All entries, alphabetically by label. */
  ghost function Listing(m: Accounts): (r: seq<Entry>)
    ensures |r| == |Alphabetical(m.Keys)|
    ensures forall i :: 0 <= i < |r| ==> Alphabetical(m.Keys)[i] in m && r[i] == m[Alphabetical(m.Keys)[i]]
  {
    var labels := Alphabetical(m.Keys);
    seq(|labels|, i requires 0 <= i < |labels| => assert labels[i] in labels; m[labels[i]])
  }

  /** Label order on entries. */
  predicate Below(a: Entry, b: Entry) {
    LexLess(a.name, b.name)
  }

  function Connected(entries: seq<Entry>): (r: seq<Entry>)
    ensures forall e :: e in r <==> e in entries && e.authenticated
  {
    if entries == [] then []
    else (if entries[0].authenticated then [entries[0]] else []) + Connected(entries[1..])
  }

  /** The listing is strictly ordered by label; each account appears in it and nothing else does. */
  lemma ListingFacts(m: Accounts)
    requires Keyed(m)
    ensures Ascending(Below, Listing(m))
    ensures forall e: Entry :: e in Listing(m) <==> e.name in m && m[e.name] == e
  {
    var labels := Alphabetical(m.Keys);
    AlphabeticalAscends(m.Keys);
    forall i, j | 0 <= i < j < |Listing(m)| ensures Below(Listing(m)[i], Listing(m)[j]) {
      assert labels[i] in m && labels[j] in m;
    }
    forall e: Entry | e.name in m && m[e.name] == e ensures e in Listing(m) {
      assert e.name in labels;
      var i :| 0 <= i < |labels| && labels[i] == e.name;
      assert Listing(m)[i] == e;
    }
  }

  lemma {:induction false} ConnectedAscends(entries: seq<Entry>)
    requires Ascending(Below, entries)
    ensures Ascending(Below, Connected(entries))
  {
    if entries != [] {
      ConnectedAscends(entries[1..]);
      forall e | e in Connected(entries[1..]) ensures Below(entries[0], e) {
        assert e in entries[1..];
      }
    }
  }

  /** However the map was walked, sorting what it holds by label gives the listing. */
  lemma ListingUnique(m: Accounts, r: seq<Entry>, onlyConnected: bool)
    requires Keyed(m) && Ascending(Below, r)
    requires forall e: Entry :: e in r <==> e.name in m && m[e.name] == e && (onlyConnected ==> e.authenticated)
    ensures r == if onlyConnected then Connected(Listing(m)) else Listing(m)
  {
    ListingFacts(m);
    ConnectedAscends(Listing(m));
    forall x, y | Below(x, y) ensures !Below(y, x) {
      LexTrichotomy(x.name, y.name);
    }
    AscendingUnique(Below, r, if onlyConnected then Connected(Listing(m)) else Listing(m));
  }
}
