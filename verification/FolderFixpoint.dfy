/** When a printed path leads back to where it came from: exactly, over any mailbox that is a forest. */
module FolderFixpoint {
  import opened Wrappers
  import opened Text
  import opened FolderRef
  import opened FolderTree
  import opened FolderMailbox

  /** No folder lies below two others. */
  ghost predicate Forest(m: Mailbox) {
    forall p, q, x, y :: p in m.below && q in m.below && x in m.below[p] && y in m.below[q] && x.Id() == y.Id() ==> p == q
  }

  ghost predicate UsableLabels(m: Mailbox) {
    forall k :: k in m.labels ==> Usable(m.labels[k])
  }

  /** The same folder, under the same canonical path. */
  predicate SamePlace(m: Mailbox, r: Result<Walked, RefError>, t: Result<Walked, RefError>) {
    r.Ok? && t.Ok? && m.Denotes(r.value.id) == m.Denotes(t.value.id) && r.value.canonical == t.value.canonical
  }

  // ---------------------------------------------------------------------------
  // Two walks by the same names
  // ---------------------------------------------------------------------------

  /** Both fail, or both go on to the same names and end at folders with the same children. */
  ghost predicate Alike(m: Mailbox, r: Result<Walked, RefError>, c: seq<string>, t: Result<Walked, RefError>, d: seq<string>) {
    && (r.Ok? <==> t.Ok?)
    && (r.Ok? ==>
          && m.Denotes(r.value.id) == m.Denotes(t.value.id)
          && c <= r.value.canonical && d <= t.value.canonical
          && r.value.canonical[|c|..] == t.value.canonical[|d|..])
  }

  /** From two names of one folder. */
  lemma {:induction false} WalkOnAlike(m: Mailbox, at: Walked, other: Walked, names: seq<string>)
    requires m.Denotes(at.id) == m.Denotes(other.id)
    ensures Alike(m, WalkOn(m.Serve(), at, names), at.canonical, WalkOn(m.Serve(), other, names), other.canonical)
    decreases |names|
  {
    if names != [] {
      var found := Step(m.Serve().children(at.id, FOLDER_LOOKUP_PAGE_SIZE), at.canonical, names[0]);
      assert m.ChildrenOf(at.id) == m.ChildrenOf(other.id);
      if found.Ok? {
        var f := found.value;
        var next, otherNext := Walked(f.Id(), at.canonical + [f.Name()]), Walked(f.Id(), other.canonical + [f.Name()]);
        WalkOnAlike(m, next, otherNext, names[1..]);
        var r, t := WalkOn(m.Serve(), next, names[1..]), WalkOn(m.Serve(), otherNext, names[1..]);
        if r.Ok? {
          SuffixGrows(r.value.canonical, at.canonical, t.value.canonical, other.canonical, f.Name());
        }
      }
    }
  }

  lemma SuffixGrows(r: seq<string>, c: seq<string>, t: seq<string>, d: seq<string>, name: string)
    requires c + [name] <= r && d + [name] <= t && r[|c| + 1..] == t[|d| + 1..]
    ensures c <= r && d <= t && r[|c|..] == t[|d|..]
  {
    assert r[|c|] == (c + [name])[|c|] == name && t[|d|] == (d + [name])[|d|] == name;
    assert r[|c|..] == [name] + r[|c| + 1..] && t[|d|..] == [name] + t[|d| + 1..];
  }

  /** In a forest, walks that end at one folder after the same number of steps began at one folder. */
  lemma {:induction false} WalkOnSameEnd(m: Mailbox, at: Walked, other: Walked, xs: seq<string>, ys: seq<string>)
    requires WellNamed(m) && Forest(m) && |xs| == |ys|
    requires WalkOn(m.Serve(), at, xs).Ok? && WalkOn(m.Serve(), other, ys).Ok?
    requires m.Denotes(WalkOn(m.Serve(), at, xs).value.id) == m.Denotes(WalkOn(m.Serve(), other, ys).value.id)
    ensures m.Denotes(at.id) == m.Denotes(other.id)
    decreases |xs|
  {
    if xs != [] {
      var f, g := NextFolder(m, at, xs), NextFolder(m, other, ys);
      WalkOnSameEnd(m, Walked(f.Id(), at.canonical + [f.Name()]), Walked(g.Id(), other.canonical + [g.Name()]), xs[1..], ys[1..]);
      SiblingFacts(m, Below(at.id), f);
      SiblingFacts(m, Below(other.id), g);
    }
  }

  /** The folder a successful walk goes to first. */
  function NextFolder(m: Mailbox, at: Walked, names: seq<string>): (f: GraphFolder)
    requires names != [] && WalkOn(m.Serve(), at, names).Ok?
    ensures f in m.ChildrenOf(at.id)
    ensures WalkOn(m.Serve(), at, names) == WalkOn(m.Serve(), Walked(f.Id(), at.canonical + [f.Name()]), names[1..])
  {
    Step(m.Serve().children(at.id, FOLDER_LOOKUP_PAGE_SIZE), at.canonical, names[0]).value
  }

  // ---------------------------------------------------------------------------
  // Canonical paths
  // ---------------------------------------------------------------------------

  /** Read as a first segment, the label of `k` leads to the folder `k` denotes. */
  predicate LabelLeads(m: Mailbox, k: string)
    requires k in m.labels
  {
    var start := WalkStart(m.Serve(), m.labels[k]);
    start.Ok? && m.Denotes(start.value.id) == m.Denotes(k)
  }

  /** And is printed as itself. */
  predicate LabelLeadsBack(m: Mailbox, k: string)
    requires k in m.labels
  {
    LabelLeads(m, k) && WalkStart(m.Serve(), m.labels[k]).value.canonical == [m.labels[k]]
  }

  /** A label that is no well-known name leads back exactly when a top-level folder of that very name is the folder
      the well-known name denotes. */
  lemma LabelLeadsBackIff(m: Mailbox, k: string)
    requires WellNamed(m) && k in m.labels && Key(m.labels[k]) !in m.labels
    ensures LabelLeadsBack(m, k) <==> exists f :: f in m.top && f.Name() == m.labels[k] && f.Id() == m.Denotes(k)
  {
    forall f | f in m.top && f.Name() == m.labels[k] ensures Match(m.top, m.labels[k]) == Some(f) && m.Denotes(f.Id()) == f.Id() {
      MatchFinds(m.top, f, m.labels[k]);
      SiblingFacts(m, Top, f);
    }
  }

  /** What a walk by the names of a canonical path does is what a walk by its text does. */
  lemma WalkOfText(g: Graph, names: seq<string>)
    requires names != [] && AllUsable(names)
    ensures var text := Walk(g, Segments(Join(names, '/')));
            (text.Ok? <==> Walk(g, names).Ok?) && (text.Ok? ==> text == Walk(g, names))
  {
    SegmentsOfJoin(names);
    if Walk(g, names).Ok? {
      WalkSameKeys(g, names, Segments(Join(names, '/')));
    } else if Walk(g, Segments(Join(names, '/'))).Ok? {
      WalkSameKeys(g, Segments(Join(names, '/')), names);
    }
  }

  /** The names after the first that a walk collects are usable and take the walk on. */
  lemma CanonicalTail(g: Graph, xs: seq<string>)
    requires xs != [] && AllUsable(xs) && Walk(g, xs).Ok?
    ensures var start, c := WalkStart(g, xs[0]).value, Walk(g, xs).value.canonical;
            && |c| == |xs| && start.canonical == [c[0]]
            && AllUsable(c[1..])
            && WalkOn(g, start, c[1..]) == Walk(g, xs)
  {
    var start, c := WalkStart(g, xs[0]).value, Walk(g, xs).value.canonical;
    WalkOnSameKeys(g, start, xs[1..], xs[1..]);
    assert start.canonical <= c && |start.canonical| == 1;
    WalkOnSameKeys(g, start, xs[1..], c[1..]);
    forall i | 0 <= i < |c[1..]| ensures Usable(c[1..][i]) {
      assert Usable(xs[i + 1]);
      KeyFacts(c[1..][i], xs[1..][i]);
    }
  }

  lemma SegmentsUsable(path: string)
    ensures AllUsable(Segments(path))
  {
    forall i | 0 <= i < |Segments(path)| ensures Usable(Segments(path)[i]) {
      SegmentIsClean(path, i);
    }
  }

  lemma CanonicalUsable(m: Mailbox, xs: seq<string>)
    requires WellNamed(m) && UsableLabels(m) && xs != [] && AllUsable(xs) && Walk(m.Serve(), xs).Ok?
    ensures Walk(m.Serve(), xs).value.canonical != [] && AllUsable(Walk(m.Serve(), xs).value.canonical)
  {
    var c := Walk(m.Serve(), xs).value.canonical;
    CanonicalTail(m.Serve(), xs);
    if Key(xs[0]) !in m.labels {
      SiblingFacts(m, Top, Match(m.top, xs[0]).value);
    }
    assert c == [c[0]] + c[1..];
  }

  /** A label that leads back takes the walk to the same place. */
  lemma TailBack(m: Mailbox, k: string, tail: seq<string>)
    requires k in m.labels && LabelLeadsBack(m, k) && WalkOn(m.Serve(), Walked(k, [m.labels[k]]), tail).Ok?
    ensures SamePlace(m, Walk(m.Serve(), [m.labels[k]] + tail), WalkOn(m.Serve(), Walked(k, [m.labels[k]]), tail))
  {
    var names, start := [m.labels[k]] + tail, Walked(k, [m.labels[k]]);
    var again := WalkStart(m.Serve(), m.labels[k]).value;
    assert names[0] == m.labels[k] && names[1..] == tail;
    WalkOnAlike(m, start, again, tail);
    var c, d := WalkOn(m.Serve(), start, tail).value.canonical, WalkOn(m.Serve(), again, tail).value.canonical;
    assert c == start.canonical + c[1..] && d == again.canonical + d[1..];
  }

  /** And only such a label does. */
  lemma TailOnlyBack(m: Mailbox, k: string, tail: seq<string>)
    requires WellNamed(m) && Forest(m) && k in m.labels && WalkOn(m.Serve(), Walked(k, [m.labels[k]]), tail).Ok?
    requires SamePlace(m, Walk(m.Serve(), [m.labels[k]] + tail), WalkOn(m.Serve(), Walked(k, [m.labels[k]]), tail))
    ensures LabelLeadsBack(m, k)
  {
    var names, start := [m.labels[k]] + tail, Walked(k, [m.labels[k]]);
    assert names[0] == m.labels[k] && names[1..] == tail;
    var again := WalkStart(m.Serve(), m.labels[k]).value;
    WalkOnSameKeys(m.Serve(), again, tail, tail);
    WalkOnSameKeys(m.Serve(), start, tail, tail);
    WalkOnSameEnd(m, start, again, tail, tail);
    var c, d := WalkOn(m.Serve(), start, tail).value.canonical, WalkOn(m.Serve(), again, tail).value.canonical;
    assert c[0] == start.canonical[0] && d[0] == again.canonical[0];
  }

  lemma TailIff(m: Mailbox, k: string, names: seq<string>, walked: Walked)
    requires WellNamed(m) && Forest(m) && k in m.labels && names != [] && names[0] == m.labels[k]
    requires WalkOn(m.Serve(), Walked(k, [m.labels[k]]), names[1..]) == Ok(walked)
    ensures SamePlace(m, Walk(m.Serve(), names), Ok(walked)) <==> LabelLeadsBack(m, k)
  {
    assert names == [m.labels[k]] + names[1..];
    if LabelLeadsBack(m, k) {
      TailBack(m, k, names[1..]);
    } else if SamePlace(m, Walk(m.Serve(), names), Ok(walked)) {
      TailOnlyBack(m, k, names[1..]);
    }
  }

  lemma KnownTail(m: Mailbox, xs: seq<string>, walked: Walked)
    requires xs != [] && AllUsable(xs) && Walk(m.Serve(), xs) == Ok(walked) && Key(xs[0]) in m.labels
    ensures var shown := m.labels[Key(xs[0])];
            && walked.canonical != [] && walked.canonical[0] == shown
            && WalkOn(m.Serve(), Walked(Key(xs[0]), [shown]), walked.canonical[1..]) == Ok(walked)
  {
    CanonicalTail(m.Serve(), xs);
  }

  lemma PlainWalkBack(m: Mailbox, xs: seq<string>)
    requires xs != [] && Walk(m.Serve(), xs).Ok? && Key(xs[0]) !in m.labels
    ensures SamePlace(m, Walk(m.Serve(), Walk(m.Serve(), xs).value.canonical), Walk(m.Serve(), xs))
  {
    var c := Walk(m.Serve(), xs).value.canonical;
    WalkSameKeys(m.Serve(), xs, xs);
    WalkSameKeys(m.Serve(), xs, c);
  }

  lemma WalkBackIff(m: Mailbox, xs: seq<string>, walked: Walked)
    requires WellNamed(m) && Forest(m) && xs != [] && AllUsable(xs) && Walk(m.Serve(), xs) == Ok(walked)
    ensures SamePlace(m, Walk(m.Serve(), walked.canonical), Ok(walked)) <==> Key(xs[0]) !in m.labels || LabelLeadsBack(m, Key(xs[0]))
  {
    if Key(xs[0]) in m.labels {
      KnownTail(m, xs, walked);
      TailIff(m, Key(xs[0]), walked.canonical, walked);
    } else {
      PlainWalkBack(m, xs);
    }
  }

  /** Walking the text of the canonical path of a walk leads to the same place. */
  predicate WalksBack(m: Mailbox, walked: Walked) {
    SamePlace(m, Walk(m.Serve(), Segments(Join(walked.canonical, '/'))), Ok(walked))
  }

  lemma WalksBackByNames(m: Mailbox, walked: Walked)
    requires walked.canonical != [] && AllUsable(walked.canonical)
    ensures WalksBack(m, walked) <==> SamePlace(m, Walk(m.Serve(), walked.canonical), Ok(walked))
  {
    WalkOfText(m.Serve(), walked.canonical);
  }

  /** Walking a canonical path leads to the same place with the same canonical path exactly when the walk does not
      start at a well-known name, or starts at one whose label leads back to it. */
  lemma CanonicalPathIff(m: Mailbox, xs: seq<string>)
    requires WellNamed(m) && Forest(m) && UsableLabels(m) && xs != [] && AllUsable(xs) && Walk(m.Serve(), xs).Ok?
    ensures WalksBack(m, Walk(m.Serve(), xs).value) <==> Key(xs[0]) !in m.labels || LabelLeadsBack(m, Key(xs[0]))
  {
    var walked := Walk(m.Serve(), xs).value;
    CanonicalUsable(m, xs);
    WalkBackIff(m, xs, walked);
    WalksBackByNames(m, walked);
  }

  /** So it is for the segments of any path text. */
  lemma CanonicalTextIff(m: Mailbox, path: string)
    requires WellNamed(m) && Forest(m) && UsableLabels(m) && Walk(m.Serve(), Segments(path)).Ok?
    ensures WalksBack(m, Walk(m.Serve(), Segments(path)).value) <==>
              Key(Segments(path)[0]) !in m.labels || LabelLeadsBack(m, Key(Segments(path)[0]))
  {
    SegmentsUsable(path);
    CanonicalPathIff(m, Segments(path));
  }

  // ---------------------------------------------------------------------------
  // A mailbox where it fails
  // ---------------------------------------------------------------------------

  function Folder(id: string, name: string): GraphFolder {
    GraphFolder(Some(id), Some(name), None, None, None)
  }

  /** A mailbox whose folder for sent items has a translated name. */
  function TranslatedMailbox(labels: map<string, string>): Mailbox {
    Mailbox(labels, map["sentitems" := "S"], [Folder("S", "Gesendet")], map["S" := [Folder("A", "a")]])
  }

  /** There "sentitems/a" is printed as "Sent Items/a", which no longer resolves. */
  lemma TranslatedPathFails(labels: map<string, string>)
    requires WellKnownFolder(labels, "sentitems") == Some(("sentitems", "Sent Items"))
    requires WellKnownFolder(labels, "Sent Items").None? && WellKnownFolder(labels, "Gesendet").None?
    ensures var g := TranslatedMailbox(labels).Serve();
            && Walk(g, ["sentitems", "a"]) == Ok(Walked("A", ["Sent Items", "a"]))
            && Walk(g, ["Sent Items", "a"]).Err?
  {
    var m := TranslatedMailbox(labels);
    assert m.top[0].Name() == "Gesendet" && Key("Gesendet") != Key("Sent Items") by {
      assert |Trim("Gesendet")| == 8 && |Trim("Sent Items")| == 10;
    }
    var g, a := m.Serve(), Folder("A", "a");
    var at, next := Walked("sentitems", ["Sent Items"]), Walked("A", ["Sent Items", "a"]);
    assert m.Denotes("sentitems") == "S" && m.ChildrenOf("sentitems") == [a] && PageOf([a], FOLDER_LOOKUP_PAGE_SIZE) == Page([a], false);
    assert g.children("sentitems", FOLDER_LOOKUP_PAGE_SIZE) == Page([a], false);
    MatchFinds([a], a, "a");
    assert at.canonical + [a.Name()] == next.canonical;
    WalkOneName(g, at, "a", a);
    assert ["sentitems", "a"][1..] == ["a"];
    assert WalkStart(g, "sentitems") == Ok(at);
  }

  lemma WalkOneName(g: Graph, at: Walked, name: string, f: GraphFolder)
    requires Step(g.children(at.id, FOLDER_LOOKUP_PAGE_SIZE), at.canonical, name) == Ok(f)
    ensures WalkOn(g, at, [name]) == Ok(Walked(f.Id(), at.canonical + [f.Name()]))
  {
    assert [name][1..] == [];
  }

  lemma RealTableFails()
    ensures var g := TranslatedMailbox(WELL_KNOWN_FOLDER_LABELS).Serve();
            && Walk(g, ["sentitems", "a"]) == Ok(Walked("A", ["Sent Items", "a"]))
            && Walk(g, ["Sent Items", "a"]).Err?
  {
    UnstableStart();
    assert Key("Gesendet") == "gesendet";
    TranslatedPathFails(WELL_KNOWN_FOLDER_LABELS);
  }

  // ---------------------------------------------------------------------------
  // Listings rooted at a reference
  // ---------------------------------------------------------------------------

  /** The path leads nowhere and is then taken for a Graph id, which happens to be the node's. */
  predicate TakenForId(m: Mailbox, n: FolderNode) {
    Walk(m.Serve(), Segments(n.path)).Err? && LooksLikeGraphFolderId(Trim(n.path)) && m.Denotes(Trim(n.path)) == n.id
  }

  /** A listing rooted at a well-known name prints paths under its label: they all resolve when the label leads to
      the folder, and otherwise none does but by accident. */
  lemma ListedUnderKnownIff(m: Mailbox, lister: Graph, k: string, depth: nat, maxResults: int, n: FolderNode)
    requires WellNamed(m) && Forest(m) && UsableLabels(m) && k in m.labels
    requires Honest(lister, m) && lister.children(k, maxResults).Page?
    requires n in Flatten(Build(lister, lister.children(k, maxResults).folders, m.labels[k], depth, maxResults))
    ensures ResolvesTo(m, n.path, n.id) <==> LabelLeads(m, k) || TakenForId(m, n)
  {
    var base := [m.labels[k]];
    assert Join(base, '/') == m.labels[k];
    ListingChains(m, lister, Below(k), base, lister.children(k, maxResults).folders, depth, maxResults, n);
    var chain: seq<GraphFolder> :| NodeAt(m, Below(k), base, n, chain);
    ChainUnderKnownIff(m, k, n, chain);
  }

  lemma WalkUnderKnownIff(m: Mailbox, k: string, chain: seq<GraphFolder>)
    requires WellNamed(m) && Forest(m) && k in m.labels && Chain(m, Below(k), chain) && chain != []
    ensures var r := Walk(m.Serve(), [m.labels[k]] + Names(chain));
            LabelLeads(m, k) <==> r.Ok? && m.Denotes(r.value.id) == chain[|chain| - 1].Id()
  {
    var names := [m.labels[k]] + Names(chain);
    assert names[0] == m.labels[k] && names[1..] == Names(chain);
    var start := WalkStart(m.Serve(), m.labels[k]);
    if start.Ok? {
      WalkChain(m, k, chain, Walked(k, []));
      if LabelLeads(m, k) {
        WalkChain(m, k, chain, start.value);
      } else if Walk(m.Serve(), names).Ok? && m.Denotes(Walk(m.Serve(), names).value.id) == chain[|chain| - 1].Id() {
        WalkOnSameEnd(m, Walked(k, []), start.value, Names(chain), Names(chain));
      }
    }
  }

  lemma ChainUnderKnownIff(m: Mailbox, k: string, n: FolderNode, chain: seq<GraphFolder>)
    requires WellNamed(m) && Forest(m) && UsableLabels(m) && k in m.labels
    requires NodeAt(m, Below(k), [m.labels[k]], n, chain)
    ensures ResolvesTo(m, n.path, n.id) <==> LabelLeads(m, k) || TakenForId(m, n)
  {
    var names := [m.labels[k]] + Names(chain);
    ChainUsable(m, Below(k), chain);
    LongPathWalks(m, names);
    WalkOfText(m.Serve(), names);
    WalkUnderKnownIff(m, k, chain);
  }

  /** The folders a walk passes. */
  ghost function Passed(m: Mailbox, at: Walked, names: seq<string>): (chain: seq<GraphFolder>)
    requires WalkOn(m.Serve(), at, names).Ok?
    ensures |chain| == |names|
    decreases |names|
  {
    if names == [] then []
    else
      var f := NextFolder(m, at, names);
      [f] + Passed(m, Walked(f.Id(), at.canonical + [f.Name()]), names[1..])
  }

  lemma NamesCons(f: GraphFolder, rest: seq<GraphFolder>)
    ensures Names([f] + rest) == [f.Name()] + Names(rest)
  {
  }

  /** They form a chain, under the names the walk collects. */
  lemma {:induction false} WalkIsChain(m: Mailbox, at: Walked, names: seq<string>)
    requires WalkOn(m.Serve(), at, names).Ok?
    ensures IsTrail(m, at, Passed(m, at, names), WalkOn(m.Serve(), at, names).value)
    decreases |names|
  {
    if names != [] {
      var f := NextFolder(m, at, names);
      var next := Walked(f.Id(), at.canonical + [f.Name()]);
      WalkIsChain(m, next, names[1..]);
      TrailCons(m, at, f, Passed(m, next, names[1..]), WalkOn(m.Serve(), at, names).value);
    }
  }

  ghost predicate IsTrail(m: Mailbox, at: Walked, chain: seq<GraphFolder>, r: Walked) {
    && Chain(m, Below(at.id), chain)
    && r.canonical == at.canonical + Names(chain)
    && EndOf(Below(at.id), chain) == Below(r.id)
  }

  lemma TrailCons(m: Mailbox, at: Walked, f: GraphFolder, rest: seq<GraphFolder>, r: Walked)
    requires f in m.ChildrenOf(at.id) && IsTrail(m, Walked(f.Id(), at.canonical + [f.Name()]), rest, r)
    ensures IsTrail(m, at, [f] + rest, r)
  {
    NamesCons(f, rest);
    ChainCons(m, at.id, f, rest);
  }

  lemma ChainCons(m: Mailbox, id: string, f: GraphFolder, rest: seq<GraphFolder>)
    requires f in m.ChildrenOf(id) && Chain(m, Below(f.Id()), rest)
    ensures Chain(m, Below(id), [f] + rest) && EndOf(Below(id), [f] + rest) == EndOf(Below(f.Id()), rest)
  {
    assert ([f] + rest)[1..] == rest;
  }

  lemma {:induction false} ChainConcat(m: Mailbox, from: Place, xs: seq<GraphFolder>, ys: seq<GraphFolder>)
    requires Chain(m, from, xs) && Chain(m, EndOf(from, xs), ys)
    ensures Chain(m, from, xs + ys)
    decreases |xs|
  {
    if xs == [] {
      assert xs + ys == ys;
    } else {
      ChainConcat(m, Below(xs[0].Id()), xs[1..], ys);
      assert (xs + ys)[1..] == xs[1..] + ys;
    }
  }

  /** A node below a chain stands at the longer chain from where that chain starts. */
  lemma NodeAtConcat(m: Mailbox, from: Place, base: seq<string>, xs: seq<GraphFolder>, n: FolderNode, ys: seq<GraphFolder>)
    requires Chain(m, from, xs) && NodeAt(m, EndOf(from, xs), base + Names(xs), n, ys)
    ensures NodeAt(m, from, base, n, xs + ys)
  {
    ChainConcat(m, from, xs, ys);
    assert base + Names(xs + ys) == base + Names(xs) + Names(ys);
  }

  /** Below where a walk from a well-known name ends, the same condition decides. */
  lemma UnderKnownPathIff(m: Mailbox, k: string, names: seq<string>, n: FolderNode, chain: seq<GraphFolder>)
    requires WellNamed(m) && Forest(m) && UsableLabels(m) && k in m.labels
    requires var r := WalkOn(m.Serve(), Walked(k, [m.labels[k]]), names);
             r.Ok? && NodeAt(m, Below(r.value.id), r.value.canonical, n, chain)
    ensures ResolvesTo(m, n.path, n.id) <==> LabelLeads(m, k) || TakenForId(m, n)
  {
    var start := Walked(k, [m.labels[k]]);
    var trail := Passed(m, start, names);
    WalkIsChain(m, start, names);
    NodeAtConcat(m, Below(k), [m.labels[k]], trail, n, chain);
    ChainUnderKnownIff(m, k, n, trail + chain);
  }

  /** A listing rooted at a path from a well-known name on. */
  lemma ListedUnderKnownPathIff(m: Mailbox, lister: Graph, xs: seq<string>, depth: nat, maxResults: int, n: FolderNode)
    requires WellNamed(m) && Forest(m) && UsableLabels(m) && Honest(lister, m)
    requires xs != [] && AllUsable(xs) && Key(xs[0]) in m.labels && Walk(m.Serve(), xs).Ok?
    requires var r := Walk(m.Serve(), xs).value;
             && lister.children(r.id, maxResults).Page?
             && n in Flatten(Build(lister, lister.children(r.id, maxResults).folders, Join(r.canonical, '/'), depth, maxResults))
    ensures ResolvesTo(m, n.path, n.id) <==> LabelLeads(m, Key(xs[0])) || TakenForId(m, n)
  {
    var r := Walk(m.Serve(), xs).value;
    CanonicalUsable(m, xs);
    ListingChains(m, lister, Below(r.id), r.canonical, lister.children(r.id, maxResults).folders, depth, maxResults, n);
    var chain: seq<GraphFolder> :| NodeAt(m, Below(r.id), r.canonical, n, chain);
    UnderKnownPathIff(m, Key(xs[0]), xs[1..], n, chain);
  }

  /** A reference read as a path, or as a top-level name: it does not start at a well-known name and is not taken for
      a raw id. */
  predicate ReadAsPath(m: Mailbox, ref: string) {
    var trimmed := Trim(ref);
    && Key(trimmed) !in m.labels
    && if '/' in trimmed then Walk(m.Serve(), Segments(trimmed)).Ok? && Key(Segments(trimmed)[0]) !in m.labels
       else !LooksLikeGraphFolderId(trimmed)
  }

  /** The path such a reference resolves to leads to its folder. */
  lemma RootPathLeads(m: Mailbox, ref: string) returns (base: seq<string>)
    requires WellNamed(m) && UsableLabels(m)
    requires ReadAsPath(m, ref) && ResolveFolderRef(m.Serve(), ref, true).Ok?
    ensures var r := ResolveFolderRef(m.Serve(), ref, true).value;
            Leads(m, base, Below(r.id)) && Join(base, '/') == r.path
  {
    var trimmed := Trim(ref);
    TrimFacts(ref);
    if '/' in trimmed {
      var xs := Segments(trimmed);
      base := Walk(m.Serve(), xs).value.canonical;
      SegmentsUsable(trimmed);
      CanonicalUsable(m, xs);
      PlainWalkBack(m, xs);
    } else {
      var f := Match(m.top, trimmed).value;
      base := [f.Name()];
      TopLeads(m, f);
    }
  }

  /** A listing rooted at such a path or name: every path it prints resolves to its folder. */
  lemma ListedUnderRefResolves(m: Mailbox, lister: Graph, ref: string, depth: nat, maxResults: int, n: FolderNode)
    requires WellNamed(m) && UsableLabels(m) && Honest(lister, m)
    requires ReadAsPath(m, ref) && ResolveFolderRef(m.Serve(), ref, true).Ok?
    requires var r := ResolveFolderRef(m.Serve(), ref, true).value;
             && lister.children(r.id, maxResults).Page?
             && n in Flatten(Build(lister, lister.children(r.id, maxResults).folders, r.path, depth, maxResults))
    ensures ResolvesTo(m, n.path, n.id)
  {
    var base := RootPathLeads(m, ref);
    ListedBelowResolves(m, lister, base, ResolveFolderRef(m.Serve(), ref, true).value.id, depth, maxResults, n);
  }
}
