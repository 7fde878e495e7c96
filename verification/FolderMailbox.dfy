/** The promise that the paths a listing prints are references the resolver accepts. */
module FolderMailbox {
  import opened Wrappers
  import opened Text
  import opened FolderRef
  import opened FolderTree

  /** A forest of folders. `wellKnown` says which folder a well-known name denotes. */
  datatype Mailbox = Mailbox(
    labels: map<string, string>, wellKnown: map<string, string>,
    top: seq<GraphFolder>, below: map<string, seq<GraphFolder>>)
  {
    function Denotes(ref: string): string {
      if ref in wellKnown then wellKnown[ref] else ref
    }

    function ChildrenOf(ref: string): seq<GraphFolder> {
      if Denotes(ref) in below then below[Denotes(ref)] else []
    }

    /** Graph serving lookups over this mailbox: a page is the first n folders. */
    function Serve(): Graph {
      Graph(labels, n => PageOf(top, n), (id, n) => PageOf(ChildrenOf(id), n), id => Err("not found"))
    }
  }

  function PageOf(folders: seq<GraphFolder>, n: int): Fetch {
    if 0 <= n < |folders| then Page(folders[..n], true) else Page(folders, false)
  }

  /** Names that can be addressed: at most one lookup page of siblings, names neither blank nor containing
      a slash, and no two with the same key. */
  ghost predicate Addressable(folders: seq<GraphFolder>) {
    && |folders| <= FOLDER_LOOKUP_PAGE_SIZE
    && (forall i :: 0 <= i < |folders| ==> Trim(folders[i].Name()) != "" && '/' !in folders[i].Name())
    && (forall i, j :: 0 <= i < j < |folders| ==> Key(folders[i].Name()) != Key(folders[j].Name()))
  }

  /** Addressable on every level; no folder id and no path is itself a well-known name; and a top-level
      folder whose name is a well-known one is the folder that name denotes. */
  ghost predicate WellNamed(m: Mailbox) {
    && Addressable(m.top)
    && (forall id :: id in m.below ==> Addressable(m.below[id]))
    && (forall f :: f in m.top ==> m.Denotes(f.Id()) == f.Id())
    && (forall id, f :: id in m.below && f in m.below[id] ==> m.Denotes(f.Id()) == f.Id())
    && (forall f :: f in m.top && Key(f.Name()) in m.labels ==> m.Denotes(Key(f.Name())) == f.Id())
    && (forall k :: k in m.labels ==> '/' !in k)
  }

  /** A listing source that may fail, cut pages and withhold folders, but invents none. */
  ghost predicate Honest(lister: Graph, m: Mailbox) {
    && (forall n: int {:trigger lister.top(n)} :: lister.top(n).Page? ==> forall f :: f in lister.top(n).folders ==> f in m.top)
    && (forall id: string, n: int {:trigger lister.children(id, n)} ::
          lister.children(id, n).Page? ==> forall f :: f in lister.children(id, n).folders ==> f in m.ChildrenOf(id))
  }

  // ---------------------------------------------------------------------------
  // Chains: how a folder is reached
  // ---------------------------------------------------------------------------

  /** Where a chain of folders starts: at the top of the mailbox, or below a folder. */
  datatype Place = Top | Below(id: string)

  function Siblings(m: Mailbox, p: Place): seq<GraphFolder> {
    match p
    case Top => m.top
    case Below(id) => m.ChildrenOf(id)
  }

  /** Folders each of which lies below the one before. */
  ghost predicate Chain(m: Mailbox, from: Place, chain: seq<GraphFolder>)
    decreases |chain|
  {
    chain != [] ==> chain[0] in Siblings(m, from) && Chain(m, Below(chain[0].Id()), chain[1..])
  }

  function EndOf(from: Place, chain: seq<GraphFolder>): Place {
    if chain == [] then from else Below(chain[|chain| - 1].Id())
  }

  /** A name that can stand in a path. */
  predicate Usable(name: string) {
    Trim(name) != "" && '/' !in name
  }

  ghost predicate AllUsable(names: seq<string>) {
    forall i :: 0 <= i < |names| ==> Usable(names[i])
  }

  /** Walking `base` leads to the place; no name at all leads to the top. */
  ghost predicate Leads(m: Mailbox, base: seq<string>, from: Place) {
    match from
    case Top => base == []
    case Below(id) =>
      && base != [] && AllUsable(base)
      && Walk(m.Serve(), base).Ok? && m.Denotes(Walk(m.Serve(), base).value.id) == m.Denotes(id)
  }

  lemma SiblingFacts(m: Mailbox, p: Place, f: GraphFolder)
    requires WellNamed(m) && f in Siblings(m, p)
    ensures Usable(f.Name()) && m.Denotes(f.Id()) == f.Id()
    ensures Addressable(Siblings(m, p))
  {
  }

  lemma UsableCons(name: string, names: seq<string>)
    requires Usable(name) && AllUsable(names)
    ensures AllUsable([name] + names)
  {
  }

  lemma {:induction false} ChainUsable(m: Mailbox, from: Place, chain: seq<GraphFolder>)
    requires WellNamed(m) && Chain(m, from, chain)
    ensures AllUsable(Names(chain))
    decreases |chain|
  {
    if chain != [] {
      SiblingFacts(m, from, chain[0]);
      ChainUsable(m, Below(chain[0].Id()), chain[1..]);
      UsableCons(chain[0].Name(), Names(chain[1..]));
      assert Names(chain) == [chain[0].Name()] + Names(chain[1..]);
    }
  }

  lemma {:induction false} ChainEndDenotes(m: Mailbox, from: Place, chain: seq<GraphFolder>)
    requires WellNamed(m) && Chain(m, from, chain) && chain != []
    ensures m.Denotes(chain[|chain| - 1].Id()) == chain[|chain| - 1].Id()
    decreases |chain|
  {
    SiblingFacts(m, from, chain[0]);
    if |chain| > 1 {
      ChainEndDenotes(m, Below(chain[0].Id()), chain[1..]);
    }
  }

  // ---------------------------------------------------------------------------
  // Every listed node has its chain
  // ---------------------------------------------------------------------------

  ghost predicate NodeAt(m: Mailbox, from: Place, base: seq<string>, n: FolderNode, chain: seq<GraphFolder>) {
    && chain != [] && Chain(m, from, chain)
    && n.id == chain[|chain| - 1].Id() && Shows(n, chain[|chain| - 1])
    && n.path == Join(base + Names(chain), '/')
  }

  lemma {:induction false} JoinExtend(names: seq<string>, name: string)
    requires names != []
    ensures Join(names + [name], '/') == Join(names, '/') + "/" + name
  {
    if |names| > 1 {
      assert (names + [name])[1..] == names[1..] + [name];
      JoinExtend(names[1..], name);
    }
  }

  lemma JoinNonEmpty(names: seq<string>)
    requires names != [] && names[0] != ""
    ensures Join(names, '/') != ""
  {
  }

  /** Folders that belong below the end of a chain. */
  ghost predicate Under(m: Mailbox, from: Place, above: seq<GraphFolder>, folders: seq<GraphFolder>) {
    Chain(m, from, above) && forall f :: f in folders ==> f in Siblings(m, EndOf(from, above))
  }

  lemma {:induction false} ChainExtend(m: Mailbox, from: Place, above: seq<GraphFolder>, f: GraphFolder)
    requires Chain(m, from, above) && f in Siblings(m, EndOf(from, above))
    ensures Chain(m, from, above + [f])
    decreases |above|
  {
    if above != [] {
      ChainExtend(m, Below(above[0].Id()), above[1..], f);
      assert (above + [f])[1..] == above[1..] + [f];
    }
  }

  /** The node of a folder below a chain stands at the chain one folder longer. */
  lemma NewNodeAt(m: Mailbox, from: Place, base: seq<string>, above: seq<GraphFolder>, f: GraphFolder)
    requires WellNamed(m) && AllUsable(base)
    requires Chain(m, from, above) && f in Siblings(m, EndOf(from, above))
    ensures NodeAt(m, from, base, NewFolderNode(f, Join(base + Names(above), '/')), above + [f])
  {
    var names := base + Names(above);
    ChainExtend(m, from, above, f);
    ChainUsable(m, from, above);
    assert base + Names(above + [f]) == names + [f.Name()];
    if names != [] {
      assert Usable(names[0]) && names[0] != "";
      JoinNonEmpty(names);
      JoinExtend(names, f.Name());
    }
  }

  lemma ChildPath(m: Mailbox, from: Place, base: seq<string>, above: seq<GraphFolder>, f: GraphFolder)
    requires WellNamed(m) && AllUsable(base)
    requires Chain(m, from, above) && f in Siblings(m, EndOf(from, above))
    ensures NewFolderNode(f, Join(base + Names(above), '/')).path == Join(base + Names(above + [f]), '/')
  {
    NewNodeAt(m, from, base, above, f);
  }

  /** The children of a listed folder belong below its chain. */
  lemma ChildrenUnder(m: Mailbox, lister: Graph, from: Place, above: seq<GraphFolder>, f: GraphFolder, maxResults: int)
    requires Honest(lister, m) && Chain(m, from, above) && f in Siblings(m, EndOf(from, above))
    requires lister.children(f.Id(), maxResults).Page?
    ensures Under(m, from, above + [f], lister.children(f.Id(), maxResults).folders)
  {
    ChainExtend(m, from, above, f);
  }

  lemma RestUnder(m: Mailbox, from: Place, above: seq<GraphFolder>, folders: seq<GraphFolder>)
    requires folders != [] && Under(m, from, above, folders)
    ensures folders[0] in Siblings(m, EndOf(from, above)) && Under(m, from, above, folders[1..])
  {
    assert folders == [folders[0]] + folders[1..];
  }

  ghost predicate HasChain(m: Mailbox, from: Place, base: seq<string>, n: FolderNode) {
    exists chain :: NodeAt(m, from, base, n, chain)
  }

  ghost predicate AllChained(m: Mailbox, from: Place, base: seq<string>, nodes: seq<FolderNode>)
    decreases nodes
  {
    nodes == [] ||
    (HasChain(m, from, base, nodes[0]) && AllChained(m, from, base, nodes[0].children) && AllChained(m, from, base, nodes[1..]))
  }

  lemma NodeHasChain(m: Mailbox, from: Place, base: seq<string>, above: seq<GraphFolder>, f: GraphFolder, node: FolderNode)
    requires WellNamed(m) && AllUsable(base)
    requires Chain(m, from, above) && f in Siblings(m, EndOf(from, above))
    requires Shows(node, f) && node.path == NewFolderNode(f, Join(base + Names(above), '/')).path
    ensures HasChain(m, from, base, node)
  {
    NewNodeAt(m, from, base, above, f);
    assert NodeAt(m, from, base, node, above + [f]);
  }

  lemma BuiltNode(g: Graph, f: GraphFolder, path: string, depth: nat, maxResults: int)
    ensures var node := BuildNode(g, f, path, depth, maxResults);
            Shows(node, f) && node.path == NewFolderNode(f, path).path
  {
    BuiltHead(g, f, path, depth, maxResults);
    HeadIs(BuildNode(g, f, path, depth, maxResults), f, path);
  }

  /** A node has no children, or the level below its folder. */
  lemma BuiltChildren(g: Graph, f: GraphFolder, path: string, depth: nat, maxResults: int)
    ensures var children, page := BuildNode(g, f, path, depth, maxResults).children, g.children(f.Id(), maxResults);
            children == [] ||
            (depth > 0 && page.Page? && children == Build(g, page.folders, NewFolderNode(f, path).path, depth - 1, maxResults))
  {
  }

  /** Everything below one folder's node. */
  lemma {:induction false} NodeChained(m: Mailbox, lister: Graph, from: Place, base: seq<string>, above: seq<GraphFolder>,
                                       f: GraphFolder, path: string, depth: nat, maxResults: int)
    requires WellNamed(m) && Honest(lister, m) && AllUsable(base) && path == Join(base + Names(above), '/')
    requires Chain(m, from, above) && f in Siblings(m, EndOf(from, above))
    ensures AllChained(m, from, base, BuildNode(lister, f, path, depth, maxResults).children)
    decreases depth, 1
  {
    var page := lister.children(f.Id(), maxResults);
    BuiltChildren(lister, f, path, depth, maxResults);
    ChildPath(m, from, base, above, f);
    if page.Page? {
      ChildrenUnder(m, lister, from, above, f, maxResults);
      ChildrenChained(m, lister, from, base, above + [f], page.folders, depth, maxResults,
                      BuildNode(lister, f, path, depth, maxResults).children);
    }
  }

  lemma {:induction false} ChildrenChained(m: Mailbox, lister: Graph, from: Place, base: seq<string>, above: seq<GraphFolder>,
                                           folders: seq<GraphFolder>, depth: nat, maxResults: int, children: seq<FolderNode>)
    requires WellNamed(m) && Honest(lister, m) && AllUsable(base) && Under(m, from, above, folders)
    requires children == [] ||
             (depth > 0 && children == Build(lister, folders, Join(base + Names(above), '/'), depth - 1, maxResults))
    ensures AllChained(m, from, base, children)
    decreases depth, 0
  {
    if children != [] {
      BuildChained(m, lister, from, base, above, folders, depth - 1, maxResults);
    }
  }

  lemma ChainedCons(m: Mailbox, from: Place, base: seq<string>, node: FolderNode, rest: seq<FolderNode>)
    requires HasChain(m, from, base, node) && AllChained(m, from, base, node.children) && AllChained(m, from, base, rest)
    ensures AllChained(m, from, base, [node] + rest)
  {
    assert ([node] + rest)[1..] == rest;
  }

  lemma {:induction false} BuildChained(m: Mailbox, lister: Graph, from: Place, base: seq<string>, above: seq<GraphFolder>,
                                        folders: seq<GraphFolder>, depth: nat, maxResults: int)
    requires WellNamed(m) && Honest(lister, m) && AllUsable(base) && Under(m, from, above, folders)
    ensures AllChained(m, from, base, Build(lister, folders, Join(base + Names(above), '/'), depth, maxResults))
    decreases depth, |folders| + 2
  {
    if folders != [] {
      var path := Join(base + Names(above), '/');
      RestUnder(m, from, above, folders);
      BuiltNode(lister, folders[0], path, depth, maxResults);
      NodeHasChain(m, from, base, above, folders[0], BuildNode(lister, folders[0], path, depth, maxResults));
      NodeChained(m, lister, from, base, above, folders[0], path, depth, maxResults);
      BuildChained(m, lister, from, base, above, folders[1..], depth, maxResults);
      ChainedCons(m, from, base, BuildNode(lister, folders[0], path, depth, maxResults),
                  Build(lister, folders[1..], path, depth, maxResults));
    }
  }

  lemma {:induction false} ChainedNode(m: Mailbox, from: Place, base: seq<string>, nodes: seq<FolderNode>, n: FolderNode)
    requires AllChained(m, from, base, nodes) && n in Flatten(nodes)
    ensures HasChain(m, from, base, n)
    decreases nodes
  {
    if n in Flatten(nodes[0].children) {
      ChainedNode(m, from, base, nodes[0].children, n);
    } else if n != nodes[0] {
      ChainedNode(m, from, base, nodes[1..], n);
    }
  }

  /** Every node of a listing is reached from where the listing starts, along its path. */
  lemma ListingChains(m: Mailbox, lister: Graph, from: Place, base: seq<string>, folders: seq<GraphFolder>, depth: nat,
                      maxResults: int, n: FolderNode)
    requires WellNamed(m) && Honest(lister, m) && AllUsable(base) && Under(m, from, [], folders)
    requires n in Flatten(Build(lister, folders, Join(base, '/'), depth, maxResults))
    ensures HasChain(m, from, base, n)
  {
    assert base + Names([]) == base;
    BuildChained(m, lister, from, base, [], folders, depth, maxResults);
    ChainedNode(m, from, base, Build(lister, folders, Join(base, '/'), depth, maxResults), n);
  }

  // ---------------------------------------------------------------------------
  // Walking a chain
  // ---------------------------------------------------------------------------

  /** Among siblings with distinct keys, a name finds its folder. */
  lemma {:induction false} MatchFinds(folders: seq<GraphFolder>, f: GraphFolder, name: string)
    requires f in folders && Key(name) == Key(f.Name())
    requires forall i, j :: 0 <= i < j < |folders| ==> Key(folders[i].Name()) != Key(folders[j].Name())
    ensures Match(folders, name) == Some(f)
  {
    if folders[0] != f {
      MatchFinds(folders[1..], f, name);
    }
  }

  lemma {:induction false} WalkOnConcat(g: Graph, at: Walked, xs: seq<string>, ys: seq<string>)
    ensures WalkOn(g, at, xs + ys) ==
            match WalkOn(g, at, xs)
            case Ok(v) => WalkOn(g, v, ys)
            case Err(e) => Err(e)
    decreases |xs|
  {
    if xs == [] {
      assert xs + ys == ys;
    } else {
      assert (xs + ys)[0] == xs[0] && (xs + ys)[1..] == xs[1..] + ys;
      match Step(g.children(at.id, FOLDER_LOOKUP_PAGE_SIZE), at.canonical, xs[0])
      case Err(_) =>
      case Ok(f) => WalkOnConcat(g, Walked(f.Id(), at.canonical + [f.Name()]), xs[1..], ys);
    }
  }

  lemma WalkConcat(g: Graph, xs: seq<string>, ys: seq<string>)
    requires xs != [] && Walk(g, xs).Ok?
    ensures Walk(g, xs + ys) == WalkOn(g, Walk(g, xs).value, ys)
  {
    assert (xs + ys)[0] == xs[0] && (xs + ys)[1..] == xs[1..] + ys;
    WalkOnConcat(g, WalkStart(g, xs[0]).value, xs[1..], ys);
  }

  /** From a folder reached under any of its names, down a chain below it. */
  lemma {:induction false} WalkChain(m: Mailbox, id: string, chain: seq<GraphFolder>, at: Walked)
    requires WellNamed(m) && Chain(m, Below(id), chain) && m.Denotes(at.id) == m.Denotes(id)
    ensures var r := WalkOn(m.Serve(), at, Names(chain));
            r.Ok? && m.Denotes(r.value.id) == (if chain == [] then m.Denotes(id) else chain[|chain| - 1].Id())
    decreases |chain|
  {
    if chain != [] {
      var f := chain[0];
      SiblingFacts(m, Below(id), f);
      assert m.ChildrenOf(at.id) == m.ChildrenOf(id);
      MatchFinds(m.ChildrenOf(at.id), f, f.Name());
      assert Names(chain)[0] == f.Name() && Names(chain)[1..] == Names(chain[1..]);
      WalkChain(m, f.Id(), chain[1..], Walked(f.Id(), at.canonical + [f.Name()]));
    }
  }

  /** A top-level name leads to its folder. */
  lemma TopLeads(m: Mailbox, f: GraphFolder)
    requires WellNamed(m) && f in m.top
    ensures Leads(m, [f.Name()], Below(f.Id()))
  {
    SiblingFacts(m, Top, f);
    MatchFinds(m.top, f, f.Name());
  }

  lemma WalkBelow(m: Mailbox, id: string, base: seq<string>, chain: seq<GraphFolder>)
    requires WellNamed(m) && Leads(m, base, Below(id)) && Chain(m, Below(id), chain)
    ensures var r := Walk(m.Serve(), base + Names(chain));
            r.Ok? && m.Denotes(r.value.id) == (if chain == [] then m.Denotes(id) else chain[|chain| - 1].Id())
  {
    WalkConcat(m.Serve(), base, Names(chain));
    WalkChain(m, id, chain, Walk(m.Serve(), base).value);
  }

  lemma WalkFromTop(m: Mailbox, f: GraphFolder, chain: seq<GraphFolder>)
    requires WellNamed(m) && f in m.top && Chain(m, Below(f.Id()), chain)
    ensures var r := Walk(m.Serve(), [f.Name()] + Names(chain));
            r.Ok? && m.Denotes(r.value.id) == (if chain == [] then f.Id() else chain[|chain| - 1].Id())
  {
    SiblingFacts(m, Top, f);
    TopLeads(m, f);
    WalkBelow(m, f.Id(), [f.Name()], chain);
  }

  lemma NamesSplit(chain: seq<GraphFolder>)
    requires chain != []
    ensures Names(chain) == [chain[0].Name()] + Names(chain[1..])
  {
  }

  lemma WalkTopChain(m: Mailbox, chain: seq<GraphFolder>)
    requires WellNamed(m) && Chain(m, Top, chain) && chain != []
    ensures var r := Walk(m.Serve(), Names(chain));
            r.Ok? && m.Denotes(r.value.id) == chain[|chain| - 1].Id()
  {
    WalkFromTop(m, chain[0], chain[1..]);
    NamesSplit(chain);
  }

  /** Walking the names of a chain after what leads to its start. */
  lemma WalkPath(m: Mailbox, from: Place, base: seq<string>, chain: seq<GraphFolder>)
    requires WellNamed(m) && Leads(m, base, from) && Chain(m, from, chain) && chain != []
    ensures var r := Walk(m.Serve(), base + Names(chain));
            r.Ok? && m.Denotes(r.value.id) == chain[|chain| - 1].Id()
  {
    match from
    case Below(id) => WalkBelow(m, id, base, chain);
    case Top =>
      WalkTopChain(m, chain);
      assert base + Names(chain) == Names(chain);
  }

  // ---------------------------------------------------------------------------
  // Resolving what is printed
  // ---------------------------------------------------------------------------

  /** The reference denotes the folder with this id. */
  predicate ResolvesTo(m: Mailbox, ref: string, id: string) {
    var r := ResolveFolderRef(m.Serve(), ref, false);
    r.Ok? && m.Denotes(r.value.id) == id
  }

  lemma LowerKeepsSlash(s: string)
    requires '/' in s
    ensures '/' in Lower(s)
  {
    var i :| 0 <= i < |s| && s[i] == '/';
    assert Lower(s)[i] == '/';
  }

  lemma LongJoinHasSlash(names: seq<string>)
    requires |names| > 1
    ensures '/' in Join(names, '/')
  {
    assert Join(names, '/')[|names[0]|] == '/';
  }

  /** A path of two or more usable names is walked by those names. */
  lemma LongPathWalks(m: Mailbox, names: seq<string>)
    requires |names| > 1 && AllUsable(names) && forall k :: k in m.labels ==> '/' !in k
    ensures '/' in Join(names, '/')
    ensures var r, walked := ResolveFolderRef(m.Serve(), Join(names, '/'), false), Walk(m.Serve(), names);
            && (walked.Ok? ==> r.Ok? && r.value.id == walked.value.id)
            && (walked.Err? ==> if LooksLikeGraphFolderId(Trim(Join(names, '/'))) then r == Ok(Resolved(Trim(Join(names, '/')), "")) else r.Err?)
  {
    var path := Join(names, '/');
    LongJoinHasSlash(names);
    TrimFacts(path);
    LowerKeepsSlash(Trim(path));
    TrimFacts(Trim(path));
    SegmentsTrim(path);
    SegmentsOfJoin(names);
    if Walk(m.Serve(), names).Ok? {
      WalkSameKeys(m.Serve(), names, Segments(path));
    } else if Walk(m.Serve(), Segments(path)).Ok? {
      WalkSameKeys(m.Serve(), Segments(path), names);
    }
  }

  /** Every path of two or more names, printed below a place that its first names lead to. */
  lemma LongPathResolves(m: Mailbox, from: Place, base: seq<string>, chain: seq<GraphFolder>)
    requires WellNamed(m) && Leads(m, base, from) && Chain(m, from, chain) && chain != [] && |base| + |chain| > 1
    ensures '/' in Join(base + Names(chain), '/')
    ensures ResolvesTo(m, Join(base + Names(chain), '/'), chain[|chain| - 1].Id())
  {
    ChainUsable(m, from, chain);
    WalkPath(m, from, base, chain);
    var names := base + Names(chain);
    assert AllUsable(names) && |names| > 1;
    LongPathWalks(m, names);
  }

  /** A path of one name: the test for the shape of a Graph id comes before the lookup by name. */
  lemma ShortTrailResolvesIff(m: Mailbox, f: GraphFolder)
    requires WellNamed(m) && f in m.top
    ensures ResolvesTo(m, f.Name(), f.Id()) <==>
              || Key(f.Name()) in m.labels
              || !LooksLikeGraphFolderId(Trim(f.Name()))
              || m.Denotes(Trim(f.Name())) == f.Id()
  {
    TrimFacts(f.Name());
    MatchFinds(m.top, f, Trim(f.Name()));
  }

  lemma TopNodeResolvesIff(m: Mailbox, n: FolderNode, f: GraphFolder)
    requires WellNamed(m) && f in m.top && n.id == f.Id() && n.path == f.Name()
    ensures ResolvesTo(m, n.path, n.id) <==> '/' in n.path || NotAnId(m, n)
  {
    SiblingFacts(m, Top, f);
    ShortTrailResolvesIff(m, f);
  }

  lemma ChainFromTopResolvesIff(m: Mailbox, n: FolderNode, chain: seq<GraphFolder>)
    requires WellNamed(m) && NodeAt(m, Top, [], n, chain)
    ensures ResolvesTo(m, n.path, n.id) <==> '/' in n.path || NotAnId(m, n)
  {
    assert [] + Names(chain) == Names(chain);
    if |chain| == 1 {
      TopNodeResolvesIff(m, n, chain[0]);
    } else {
      LongPathResolves(m, Top, [], chain);
    }
  }

  /** A one-name path that the resolver does not take for the id of another folder. */
  predicate NotAnId(m: Mailbox, n: FolderNode) {
    Key(n.path) in m.labels || !LooksLikeGraphFolderId(Trim(n.path)) || m.Denotes(Trim(n.path)) == n.id
  }

  /** The path a listing from the mailbox root prints for a folder is a reference to that folder, with one
      exception: a top-level name, not a well-known one, that has the shape of a Graph id. */
  lemma ListedPathResolvesIff(m: Mailbox, lister: Graph, depth: nat, maxResults: int, n: FolderNode)
    requires WellNamed(m) && Honest(lister, m) && lister.top(maxResults).Page?
    requires n in Flatten(Build(lister, lister.top(maxResults).folders, "", depth, maxResults))
    ensures ResolvesTo(m, n.path, n.id) <==> '/' in n.path || NotAnId(m, n)
  {
    ListingChains(m, lister, Top, [], lister.top(maxResults).folders, depth, maxResults, n);
    var chain: seq<GraphFolder> :| NodeAt(m, Top, [], n, chain);
    ChainFromTopResolvesIff(m, n, chain);
  }

  /** A listing below a folder, printed under names that lead to it, has no exception: every path resolves. */
  lemma ListedBelowResolves(m: Mailbox, lister: Graph, base: seq<string>, id: string, depth: nat, maxResults: int, n: FolderNode)
    requires WellNamed(m) && Honest(lister, m) && Leads(m, base, Below(id)) && lister.children(id, maxResults).Page?
    requires n in Flatten(Build(lister, lister.children(id, maxResults).folders, Join(base, '/'), depth, maxResults))
    ensures ResolvesTo(m, n.path, n.id)
  {
    ListingChains(m, lister, Below(id), base, lister.children(id, maxResults).folders, depth, maxResults, n);
    var chain: seq<GraphFolder> :| NodeAt(m, Below(id), base, n, chain);
    LongPathResolves(m, Below(id), base, chain);
  }

  lemma TrailLeads(m: Mailbox, trail: seq<GraphFolder>)
    requires WellNamed(m) && Chain(m, Top, trail) && trail != []
    ensures Leads(m, Names(trail), Below(trail[|trail| - 1].Id()))
  {
    ChainUsable(m, Top, trail);
    ChainEndDenotes(m, Top, trail);
    WalkPath(m, Top, [], trail);
    assert [] + Names(trail) == Names(trail);
  }

  /** In particular below any folder reached from the top, under its own path. */
  lemma ListedBelowTrailResolves(m: Mailbox, lister: Graph, trail: seq<GraphFolder>, depth: nat, maxResults: int, n: FolderNode)
    requires WellNamed(m) && Honest(lister, m) && Chain(m, Top, trail) && trail != []
    requires lister.children(trail[|trail| - 1].Id(), maxResults).Page?
    requires n in Flatten(Build(lister, lister.children(trail[|trail| - 1].Id(), maxResults).folders, Join(Names(trail), '/'), depth, maxResults))
    ensures ResolvesTo(m, n.path, n.id)
  {
    var last := trail[|trail| - 1];
    TrailLeads(m, trail);
    ListedBelowResolves(m, lister, Names(trail), last.Id(), depth, maxResults, n);
  }

  /** The exception is real: with a single folder named by forty letters, everything promised of names holds, and
      the listed path is taken for a Graph id instead. */
  lemma IdShapedNameFails(name: string)
    requires |name| == MIN_GRAPH_FOLDER_ID_LEN && forall i :: 0 <= i < |name| ==> name[i] == 'A'
    ensures var f := GraphFolder(Some("X"), Some(name), None, None, None);
            var m := Mailbox(map[], map[], [f], map[]);
            && WellNamed(m) && Honest(m.Serve(), m)
            && Build(m.Serve(), [f], "", 0, 100) == [NewFolderNode(f, "")]
            && NewFolderNode(f, "").path == name && NewFolderNode(f, "").id == "X"
            && !ResolvesTo(m, name, "X")
  {
    var f := GraphFolder(Some("X"), Some(name), None, None, None);
    assert Trim(name) == name;
    assert name != "X";
  }
}
