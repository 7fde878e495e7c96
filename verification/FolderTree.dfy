/** The folder tree: building it level by level under a depth budget, counting it, and what its
    counts add up to. */
module FolderTree {
  import opened Wrappers
  import opened Text
  import opened FolderRef

  datatype FolderNode = FolderNode(
    id: string, name: string, path: string,
    unread: int, total: int, subfolderCount: int,
    children: seq<FolderNode>,
    expanded: bool,      // the children were asked for and came back
    err: string,         // why they did not
    truncated: bool)     // more children than one page
  {
    /** Counted children that the expansion did not return. */
    function UnreturnedChildren(): nat {
      if !expanded || truncated then 0
      else if subfolderCount - |children| < 0 then 0 else subfolderCount - |children|
    }

    /** Counted children nobody asked for. */
    function UnexploredChildren(): nat {
      if expanded || subfolderCount <= 0 then 0 else subfolderCount
    }
  }

  /** The node of a folder, before its children are considered. */
  function NewFolderNode(f: GraphFolder, parentPath: string): FolderNode {
    var path := if parentPath != "" then parentPath + "/" + f.Name() else f.Name();
    FolderNode(f.Id(), f.Name(), path, f.unread.GetOr(0), f.total.GetOr(0), f.childFolderCount.GetOr(0),
               [], false, "", false)
  }

  /** A level of folders turned into nodes, with `depth` further levels below it. */
  function Build(g: Graph, folders: seq<GraphFolder>, parentPath: string, depth: nat, maxResults: int): (nodes: seq<FolderNode>)
    ensures |nodes| == |folders|
    decreases depth, |folders|
  {
    if folders == [] then []
    else [BuildNode(g, folders[0], parentPath, depth, maxResults)] + Build(g, folders[1..], parentPath, depth, maxResults)
  }

  function BuildNode(g: Graph, f: GraphFolder, parentPath: string, depth: nat, maxResults: int): FolderNode
    decreases depth, 0
  {
    var node := NewFolderNode(f, parentPath);
    if depth > 0 && node.subfolderCount > 0 then
      match g.children(node.id, maxResults)
      case Failed(message) => node.(err := "could not load subfolders: " + message)
      case Page(children, truncated) =>
        node.(expanded := true, truncated := truncated,
              children := Build(g, children, node.path, depth - 1, maxResults))
    else node
  }

  // ---------------------------------------------------------------------------
  // What a listing shows
  // ---------------------------------------------------------------------------

  /** A node carries its folder's own fields, and "" or 0 for those that are missing. */
  predicate Shows(n: FolderNode, f: GraphFolder) {
    && (match f.id case Some(id) => n.id == id case None => n.id == "")
    && (match f.displayName case Some(name) => n.name == name case None => n.name == "")
    && (match f.unread case Some(unread) => n.unread == unread case None => n.unread == 0)
    && (match f.total case Some(total) => n.total == total case None => n.total == 0)
    && (match f.childFolderCount case Some(count) => n.subfolderCount == count case None => n.subfolderCount == 0)
  }

  predicate Below(n: FolderNode, parentPath: string) {
    n.path == if parentPath == "" then n.name else parentPath + "/" + n.name
  }

  /** The subtree of a node when `depth` further levels may be explored: nothing at the bottom or where Graph counts
      no children, the reason where the children do not come, and otherwise the page that came. */
  ghost predicate Explored(g: Graph, n: FolderNode, depth: nat, maxResults: int)
    decreases depth, 0
  {
    if depth == 0 || n.subfolderCount <= 0 then !n.expanded && n.children == [] && !n.truncated && n.err == ""
    else
      match g.children(n.id, maxResults)
      case Failed(message) => !n.expanded && n.children == [] && !n.truncated && n.err == "could not load subfolders: " + message
      case Page(folders, truncated) =>
        n.expanded && n.truncated == truncated && n.err == "" && Lists(g, n.children, folders, n.path, depth - 1, maxResults)
  }

  /** The nodes show the folders in their order, with their subtrees. */
  ghost predicate Lists(g: Graph, nodes: seq<FolderNode>, folders: seq<GraphFolder>, parentPath: string, depth: nat, maxResults: int)
    decreases depth, 1
  {
    && |nodes| == |folders|
    && forall i :: 0 <= i < |nodes| ==>
         Shows(nodes[i], folders[i]) && Below(nodes[i], parentPath) && Explored(g, nodes[i], depth, maxResults)
  }

  /** The same folder at the same place. */
  predicate SameHead(n: FolderNode, m: FolderNode) {
    && n.id == m.id && n.name == m.name && n.path == m.path
    && n.unread == m.unread && n.total == m.total && n.subfolderCount == m.subfolderCount
  }

  lemma HeadIs(n: FolderNode, f: GraphFolder, parentPath: string)
    ensures SameHead(n, NewFolderNode(f, parentPath)) <==> Shows(n, f) && Below(n, parentPath)
  {
  }

  lemma BuiltIs(g: Graph, n: FolderNode, f: GraphFolder, parentPath: string, depth: nat, maxResults: int)
    requires SameHead(n, NewFolderNode(f, parentPath)) && depth > 0 && n.subfolderCount > 0 && g.children(n.id, maxResults).Page?
    ensures n == BuildNode(g, f, parentPath, depth, maxResults) <==>
              && n.expanded && n.truncated == g.children(n.id, maxResults).truncated && n.err == ""
              && n.children == Build(g, g.children(n.id, maxResults).folders, n.path, depth - 1, maxResults)
  {
  }

  lemma BuiltBare(g: Graph, n: FolderNode, f: GraphFolder, parentPath: string, depth: nat, maxResults: int)
    requires SameHead(n, NewFolderNode(f, parentPath)) && (depth == 0 || n.subfolderCount <= 0 || g.children(n.id, maxResults).Failed?)
    ensures n == BuildNode(g, f, parentPath, depth, maxResults) <==> Explored(g, n, depth, maxResults)
  {
  }

  lemma BuiltHead(g: Graph, f: GraphFolder, parentPath: string, depth: nat, maxResults: int)
    ensures SameHead(BuildNode(g, f, parentPath, depth, maxResults), NewFolderNode(f, parentPath))
  {
  }

  lemma ExploredWithPage(g: Graph, n: FolderNode, depth: nat, maxResults: int, folders: seq<GraphFolder>, truncated: bool)
    requires depth > 0 && n.subfolderCount > 0 && g.children(n.id, maxResults) == Page(folders, truncated)
    ensures Explored(g, n, depth, maxResults) <==>
              n.expanded && n.truncated == truncated && n.err == "" && Lists(g, n.children, folders, n.path, depth - 1, maxResults)
  {
  }

  lemma {:induction false} ExploredIs(g: Graph, n: FolderNode, f: GraphFolder, parentPath: string, depth: nat, maxResults: int)
    requires SameHead(n, NewFolderNode(f, parentPath))
    ensures n == BuildNode(g, f, parentPath, depth, maxResults) <==> Explored(g, n, depth, maxResults)
    decreases depth, 0
  {
    if depth == 0 || n.subfolderCount <= 0 || g.children(n.id, maxResults).Failed? {
      BuiltBare(g, n, f, parentPath, depth, maxResults);
    } else {
      var page := g.children(n.id, maxResults);
      ExploredWithPage(g, n, depth, maxResults, page.folders, page.truncated);
      BuiltIs(g, n, f, parentPath, depth, maxResults);
      ListingIs(g, n.children, page.folders, n.path, depth - 1, maxResults);
    }
  }

  lemma {:induction false} NodeIs(g: Graph, n: FolderNode, f: GraphFolder, parentPath: string, depth: nat, maxResults: int,
                                  built: FolderNode)
    requires built == BuildNode(g, f, parentPath, depth, maxResults)
    ensures n == built <==> Shows(n, f) && Below(n, parentPath) && Explored(g, n, depth, maxResults)
    decreases depth, 1
  {
    HeadIs(n, f, parentPath);
    BuiltHead(g, f, parentPath, depth, maxResults);
    if SameHead(n, NewFolderNode(f, parentPath)) {
      ExploredIs(g, n, f, parentPath, depth, maxResults);
    }
  }

  /** The tree built is the one listing with these properties. */
  lemma {:induction false} ListingIs(g: Graph, nodes: seq<FolderNode>, folders: seq<GraphFolder>, parentPath: string, depth: nat, maxResults: int)
    ensures nodes == Build(g, folders, parentPath, depth, maxResults) <==> Lists(g, nodes, folders, parentPath, depth, maxResults)
    decreases depth, |folders| + 2
  {
    if folders != [] && nodes != [] {
      var built := Build(g, folders, parentPath, depth, maxResults);
      NodeIs(g, nodes[0], folders[0], parentPath, depth, maxResults, built[0]);
      ListingIs(g, nodes[1..], folders[1..], parentPath, depth, maxResults);
      assert built[1..] == Build(g, folders[1..], parentPath, depth, maxResults);
      assert nodes == [nodes[0]] + nodes[1..] && folders == [folders[0]] + folders[1..];
    }
  }

  // ---------------------------------------------------------------------------
  // The builder as the program runs it
  // ---------------------------------------------------------------------------

  /** Graph behind a client that remembers which child listings were requested. */
  class GraphClient {
    const graph: Graph
    var fetched: seq<string>

    constructor (graph: Graph)
      ensures this.graph == graph && fetched == []
    {
      this.graph := graph;
      fetched := [];
    }

    method FetchChildFolders(id: string, maxResults: int) returns (r: Fetch)
      modifies this
      ensures r == graph.children(id, maxResults) && fetched == old(fetched) + [id]
    {
      fetched := fetched + [id];
      return graph.children(id, maxResults);
    }
  }

  /** The folders whose children a listing with `depth` levels below must ask for, in preorder: those with
      a positive count above the bottom level. */
  function Requested(nodes: seq<FolderNode>, depth: nat): seq<string>
    decreases depth, |nodes|
  {
    if nodes == [] then [] else RequestedBy(nodes[0], depth) + Requested(nodes[1..], depth)
  }

  function RequestedBy(n: FolderNode, depth: nat): seq<string>
    decreases depth, 0
  {
    if depth > 0 && n.subfolderCount > 0 then [n.id] + Requested(n.children, depth - 1) else []
  }

  lemma {:induction false} BuildAppend(g: Graph, xs: seq<GraphFolder>, f: GraphFolder, parentPath: string, depth: nat, maxResults: int)
    ensures Build(g, xs + [f], parentPath, depth, maxResults) ==
            Build(g, xs, parentPath, depth, maxResults) + [BuildNode(g, f, parentPath, depth, maxResults)]
    decreases |xs|
  {
    if xs == [] {
      assert (xs + [f])[1..] == [];
    } else {
      assert (xs + [f])[1..] == xs[1..] + [f];
      BuildAppend(g, xs[1..], f, parentPath, depth, maxResults);
    }
  }

  lemma BuildNext(g: Graph, folders: seq<GraphFolder>, i: nat, parentPath: string, depth: nat, maxResults: int)
    requires i < |folders|
    ensures Build(g, folders[..i + 1], parentPath, depth, maxResults) ==
            Build(g, folders[..i], parentPath, depth, maxResults) + [BuildNode(g, folders[i], parentPath, depth, maxResults)]
  {
    BuildAppend(g, folders[..i], folders[i], parentPath, depth, maxResults);
    assert folders[..i + 1] == folders[..i] + [folders[i]];
  }

  lemma {:induction false} RequestedAppend(xs: seq<FolderNode>, n: FolderNode, depth: nat)
    ensures Requested(xs + [n], depth) == Requested(xs, depth) + RequestedBy(n, depth)
    decreases |xs|
  {
    if xs == [] {
      assert (xs + [n])[1..] == [];
    } else {
      assert (xs + [n])[1..] == xs[1..] + [n];
      RequestedAppend(xs[1..], n, depth);
    }
  }

  /** One more folder done. */
  lemma FolderDone(g: Graph, folders: seq<GraphFolder>, i: nat, parentPath: string, depth: nat, maxResults: int,
                   nodes: seq<FolderNode>, node: FolderNode, start: seq<string>)
    requires i < |folders|
    requires nodes == Build(g, folders[..i], parentPath, depth, maxResults)
    requires node == BuildNode(g, folders[i], parentPath, depth, maxResults)
    ensures nodes + [node] == Build(g, folders[..i + 1], parentPath, depth, maxResults)
    ensures start + Requested(nodes, depth) + RequestedBy(node, depth) == start + Requested(nodes + [node], depth)
  {
    BuildNext(g, folders, i, parentPath, depth, maxResults);
    RequestedAppend(nodes, node, depth);
    assert start + (Requested(nodes, depth) + RequestedBy(node, depth)) == start + Requested(nodes, depth) + RequestedBy(node, depth);
  }

  lemma BuiltWithPage(g: Graph, f: GraphFolder, parentPath: string, depth: nat, maxResults: int, node: FolderNode)
    requires node == NewFolderNode(f, parentPath) && depth > 0 && node.subfolderCount > 0
    ensures BuildNode(g, f, parentPath, depth, maxResults) ==
            match g.children(node.id, maxResults)
            case Failed(message) => node.(err := "could not load subfolders: " + message)
            case Page(children, truncated) =>
              node.(expanded := true, truncated := truncated, children := Build(g, children, node.path, depth - 1, maxResults))
  {
  }

  /** One folder: its node, and its subtree while depth remains. */
  method ExpandFolder(client: GraphClient, folder: GraphFolder, parentPath: string, remainingDepth: nat, maxResults: int)
    returns (node: FolderNode)
    modifies client
    ensures node == BuildNode(client.graph, folder, parentPath, remainingDepth, maxResults)
    ensures client.fetched == old(client.fetched) + RequestedBy(node, remainingDepth)
    decreases remainingDepth, 0
  {
    node := NewFolderNode(folder, parentPath);
    if remainingDepth > 0 && node.subfolderCount > 0 {
      BuiltWithPage(client.graph, folder, parentPath, remainingDepth, maxResults, node);
      node := LoadChildren(client, node, remainingDepth, maxResults);
    }
  }

  method LoadChildren(client: GraphClient, bare: FolderNode, remainingDepth: nat, maxResults: int) returns (node: FolderNode)
    requires remainingDepth > 0 && bare.subfolderCount > 0 && bare.children == []
    modifies client
    ensures node == match client.graph.children(bare.id, maxResults)
                    case Failed(message) => bare.(err := "could not load subfolders: " + message)
                    case Page(children, truncated) =>
                      bare.(expanded := true, truncated := truncated,
                            children := Build(client.graph, children, bare.path, remainingDepth - 1, maxResults))
    ensures client.fetched == old(client.fetched) + RequestedBy(node, remainingDepth)
    decreases remainingDepth - 1, 2
  {
    ghost var start := client.fetched;
    var page := client.FetchChildFolders(bare.id, maxResults);
    if page.Failed? {
      return bare.(err := "could not load subfolders: " + page.message);
    }
    var children := BuildFolderTree(client, page.folders, bare.path, remainingDepth - 1, maxResults);
    node := bare.(expanded := true, truncated := page.truncated, children := children);
    RequestedWithChildren(start, node, remainingDepth);
  }

  lemma RequestedWithChildren(start: seq<string>, node: FolderNode, depth: nat)
    requires depth > 0 && node.subfolderCount > 0
    ensures start + [node.id] + Requested(node.children, depth - 1) == start + RequestedBy(node, depth)
  {
  }

  /** Builds the tree of the specification, with exactly one child request for each counted-nonempty
      node above the bottom level, in preorder. */
  method BuildFolderTree(client: GraphClient, folders: seq<GraphFolder>, parentPath: string, remainingDepth: nat, maxResults: int)
    returns (nodes: seq<FolderNode>)
    modifies client
    ensures nodes == Build(client.graph, folders, parentPath, remainingDepth, maxResults)
    ensures client.fetched == old(client.fetched) + Requested(nodes, remainingDepth)
    decreases remainingDepth, 1
  {
    nodes := [];
    for i := 0 to |folders|
      invariant nodes == Build(client.graph, folders[..i], parentPath, remainingDepth, maxResults)
      invariant client.fetched == old(client.fetched) + Requested(nodes, remainingDepth)
    {
      var node := ExpandFolder(client, folders[i], parentPath, remainingDepth, maxResults);
      FolderDone(client.graph, folders, i, parentPath, remainingDepth, maxResults, nodes, node, old(client.fetched));
      nodes := nodes + [node];
    }
    assert folders[..|folders|] == folders;
  }

  // ---------------------------------------------------------------------------
  // Depth
  // ---------------------------------------------------------------------------

  function Max(a: nat, b: nat): nat { if a < b then b else a }

  function Levels(nodes: seq<FolderNode>): nat {
    if nodes == [] then 0 else Max(1 + Levels(nodes[0].children), Levels(nodes[1..]))
  }

  /** The listing with everything below `depth` further levels forgotten. */
  function Prune(nodes: seq<FolderNode>, depth: nat): seq<FolderNode>
    decreases depth, |nodes|
  {
    if nodes == [] then [] else [PruneNode(nodes[0], depth)] + Prune(nodes[1..], depth)
  }

  function PruneNode(n: FolderNode, depth: nat): FolderNode
    decreases depth, 0
  {
    if depth == 0 then n.(children := [], expanded := false, err := "", truncated := false)
    else n.(children := Prune(n.children, depth - 1))
  }

  /** One more level of budget changes nothing above it. */
  lemma {:induction false} DeeperTreePruned(g: Graph, folders: seq<GraphFolder>, parentPath: string, depth: nat, maxResults: int)
    ensures Prune(Build(g, folders, parentPath, depth + 1, maxResults), depth) == Build(g, folders, parentPath, depth, maxResults)
    decreases depth, |folders|
  {
    if folders != [] {
      var f := folders[0];
      var node := NewFolderNode(f, parentPath);
      var page := g.children(node.id, maxResults);
      if depth > 0 && node.subfolderCount > 0 && page.Page? {
        DeeperTreePruned(g, page.folders, node.path, depth - 1, maxResults);
      }
      assert PruneNode(BuildNode(g, f, parentPath, depth + 1, maxResults), depth) == BuildNode(g, f, parentPath, depth, maxResults);
      DeeperTreePruned(g, folders[1..], parentPath, depth, maxResults);
      var deep := Build(g, folders, parentPath, depth + 1, maxResults);
      assert deep[1..] == Build(g, folders[1..], parentPath, depth + 1, maxResults);
    }
  }

  /** The budget is the number of levels below the first. */
  lemma {:induction false} LevelsBounded(g: Graph, folders: seq<GraphFolder>, parentPath: string, depth: nat, maxResults: int)
    ensures Levels(Build(g, folders, parentPath, depth, maxResults)) <= depth + 1
    decreases depth, |folders|
  {
    if folders != [] {
      var node := NewFolderNode(folders[0], parentPath);
      var page := g.children(node.id, maxResults);
      if depth > 0 && node.subfolderCount > 0 && page.Page? {
        LevelsBounded(g, page.folders, node.path, depth - 1, maxResults);
      }
      LevelsBounded(g, folders[1..], parentPath, depth, maxResults);
      var nodes := Build(g, folders, parentPath, depth, maxResults);
      assert nodes[1..] == Build(g, folders[1..], parentPath, depth, maxResults);
    }
  }

  // ---------------------------------------------------------------------------
  // Conservation
  // ---------------------------------------------------------------------------

  /** All nodes of a listing, in preorder. */
  function Flatten(nodes: seq<FolderNode>): seq<FolderNode> {
    if nodes == [] then [] else [nodes[0]] + Flatten(nodes[0].children) + Flatten(nodes[1..])
  }

  function Count(nodes: seq<FolderNode>): (n: nat)
    ensures n == |Flatten(nodes)|
  {
    if nodes == [] then 0 else 1 + Count(nodes[0].children) + Count(nodes[1..])
  }

  lemma {:induction false} CountAppend(xs: seq<FolderNode>, n: FolderNode)
    ensures Count(xs + [n]) == Count(xs) + 1 + Count(n.children)
  {
    if xs == [] {
      assert (xs + [n])[1..] == [];
    } else {
      assert (xs + [n])[1..] == xs[1..] + [n];
      CountAppend(xs[1..], n);
    }
  }

  /** The count as the program runs it: the length, then the children of each node. */
  method CountFolders(nodes: seq<FolderNode>) returns (count: nat)
    ensures count == |Flatten(nodes)|
    decreases nodes
  {
    count := |nodes|;
    for i := 0 to |nodes|
      invariant count == Count(nodes[..i]) + |nodes| - i
    {
      var below := CountFolders(nodes[i].children);
      CountAppend(nodes[..i], nodes[i]);
      assert nodes[..i + 1] == nodes[..i] + [nodes[i]];
      count := count + below;
    }
    assert nodes[..|nodes|] == nodes;
  }

  /** On the first page or on a page of children. */
  ghost predicate Served(g: Graph, folders: seq<GraphFolder>, maxResults: int, f: GraphFolder) {
    f in folders || exists id :: g.children(id, maxResults).Page? && f in g.children(id, maxResults).folders
  }

  lemma ListsRest(g: Graph, nodes: seq<FolderNode>, folders: seq<GraphFolder>, parentPath: string, depth: nat, maxResults: int)
    requires Lists(g, nodes, folders, parentPath, depth, maxResults) && nodes != []
    ensures Shows(nodes[0], folders[0]) && Explored(g, nodes[0], depth, maxResults)
    ensures Lists(g, nodes[1..], folders[1..], parentPath, depth, maxResults)
  {
  }

  lemma ExploredChildren(g: Graph, n: FolderNode, depth: nat, maxResults: int)
    requires Explored(g, n, depth, maxResults) && n.children != []
    ensures depth > 0 && g.children(n.id, maxResults).Page?
    ensures Lists(g, n.children, g.children(n.id, maxResults).folders, n.path, depth - 1, maxResults)
  {
  }

  /** What is served for a page of children, or for a part of the folders, is served. */
  lemma ServedBelow(g: Graph, part: seq<GraphFolder>, folders: seq<GraphFolder>, id: string, maxResults: int, f: GraphFolder)
    requires Served(g, part, maxResults, f)
    requires (forall x :: x in part ==> x in folders) || (g.children(id, maxResults).Page? && g.children(id, maxResults).folders == part)
    ensures Served(g, folders, maxResults, f)
  {
  }

  lemma {:induction false} ListedShows(g: Graph, nodes: seq<FolderNode>, folders: seq<GraphFolder>, parentPath: string, depth: nat,
                                       maxResults: int, n: FolderNode) returns (f: GraphFolder)
    requires Lists(g, nodes, folders, parentPath, depth, maxResults) && n in Flatten(nodes)
    ensures Served(g, folders, maxResults, f) && Shows(n, f)
    decreases nodes
  {
    ListsRest(g, nodes, folders, parentPath, depth, maxResults);
    if n == nodes[0] {
      f := folders[0];
    } else if n in Flatten(nodes[0].children) {
      ExploredChildren(g, nodes[0], depth, maxResults);
      var page := g.children(nodes[0].id, maxResults).folders;
      f := ListedShows(g, nodes[0].children, page, nodes[0].path, depth - 1, maxResults, n);
      ServedBelow(g, page, folders, nodes[0].id, maxResults, f);
    } else {
      f := ListedShows(g, nodes[1..], folders[1..], parentPath, depth, maxResults, n);
      ServedBelow(g, folders[1..], folders, "", maxResults, f);
    }
  }

  /** Every node of a listing, however deep, shows a folder that Graph served. */
  lemma EveryNodeShowsAFolder(g: Graph, folders: seq<GraphFolder>, parentPath: string, depth: nat, maxResults: int, n: FolderNode)
    requires n in Flatten(Build(g, folders, parentPath, depth, maxResults))
    ensures exists f :: Served(g, folders, maxResults, f) && Shows(n, f)
  {
    ListingIs(g, Build(g, folders, parentPath, depth, maxResults), folders, parentPath, depth, maxResults);
    var f := ListedShows(g, Build(g, folders, parentPath, depth, maxResults), folders, parentPath, depth, maxResults, n);
  }

  function SumCounts(nodes: seq<FolderNode>): int {
    if nodes == [] then 0 else nodes[0].subfolderCount + SumCounts(nodes[0].children) + SumCounts(nodes[1..])
  }

  function SumUnexplored(nodes: seq<FolderNode>): nat {
    if nodes == [] then 0
    else nodes[0].UnexploredChildren() + SumUnexplored(nodes[0].children) + SumUnexplored(nodes[1..])
  }

  function SumUnreturned(nodes: seq<FolderNode>): nat {
    if nodes == [] then 0
    else nodes[0].UnreturnedChildren() + SumUnreturned(nodes[0].children) + SumUnreturned(nodes[1..])
  }

  /** Children counted but neither listed, unexplored nor unreturned; negative when more came than counted. */
  function Unexplained(n: FolderNode): int {
    n.subfolderCount - |n.children| - n.UnexploredChildren() - n.UnreturnedChildren()
  }

  function SumUnexplained(nodes: seq<FolderNode>): int {
    if nodes == [] then 0 else Unexplained(nodes[0]) + SumUnexplained(nodes[0].children) + SumUnexplained(nodes[1..])
  }

  /** For any listing at all, counts and nodes differ by what is unexplored, unreturned or unexplained. */
  lemma {:induction false} ConservationOfAny(nodes: seq<FolderNode>)
    ensures |nodes| + SumCounts(nodes) ==
            Count(nodes) + SumUnexplored(nodes) + SumUnreturned(nodes) + SumUnexplained(nodes)
  {
    if nodes != [] {
      ConservationOfAny(nodes[0].children);
      ConservationOfAny(nodes[1..]);
    }
  }

  /** Only expanded nodes have children or a truncation mark. */
  ghost predicate WellFormed(nodes: seq<FolderNode>) {
    forall n :: n in Flatten(nodes) ==> n.expanded || (n.children == [] && !n.truncated)
  }

  lemma {:induction false} BuildWellFormed(g: Graph, folders: seq<GraphFolder>, parentPath: string, depth: nat, maxResults: int)
    ensures WellFormed(Build(g, folders, parentPath, depth, maxResults))
    decreases depth, |folders|
  {
    if folders != [] {
      var node := NewFolderNode(folders[0], parentPath);
      var page := g.children(node.id, maxResults);
      if depth > 0 && node.subfolderCount > 0 && page.Page? {
        BuildWellFormed(g, page.folders, node.path, depth - 1, maxResults);
      }
      BuildWellFormed(g, folders[1..], parentPath, depth, maxResults);
      var nodes := Build(g, folders, parentPath, depth, maxResults);
      assert nodes[1..] == Build(g, folders[1..], parentPath, depth, maxResults);
    }
  }

  /** Where a gap can be: only in a truncated page, or where Graph returned more than it counted. */
  lemma UnexplainedIff(n: FolderNode)
    requires n.expanded || (n.children == [] && !n.truncated)
    ensures Unexplained(n) == 0 <==>
            if n.truncated then |n.children| == n.subfolderCount else |n.children| <= n.subfolderCount
    ensures n.UnexploredChildren() == 0 || n.UnreturnedChildren() == 0
  {
  }

  lemma {:induction false} NothingUnexplained(nodes: seq<FolderNode>)
    requires forall n :: n in Flatten(nodes) ==> Unexplained(n) == 0
    ensures SumUnexplained(nodes) == 0
  {
    if nodes != [] {
      assert nodes[0] in Flatten(nodes);
      assert forall n :: n in Flatten(nodes[0].children) ==> n in Flatten(nodes);
      assert forall n :: n in Flatten(nodes[1..]) ==> n in Flatten(nodes);
      NothingUnexplained(nodes[0].children);
      NothingUnexplained(nodes[1..]);
    }
  }

  /** Folders counted are folders listed, unexplored or unreturned, when no page was cut and nothing came
      back uncounted. */
  lemma Conservation(g: Graph, folders: seq<GraphFolder>, parentPath: string, depth: nat, maxResults: int)
    requires var nodes := Build(g, folders, parentPath, depth, maxResults);
             forall n :: n in Flatten(nodes) ==> !n.truncated && |n.children| <= n.subfolderCount
    ensures var nodes := Build(g, folders, parentPath, depth, maxResults);
            |folders| + SumCounts(nodes) == |Flatten(nodes)| + SumUnexplored(nodes) + SumUnreturned(nodes)
  {
    var nodes := Build(g, folders, parentPath, depth, maxResults);
    BuildWellFormed(g, folders, parentPath, depth, maxResults);
    forall n | n in Flatten(nodes) ensures Unexplained(n) == 0 {
      UnexplainedIff(n);
    }
    NothingUnexplained(nodes);
    ConservationOfAny(nodes);
  }
}
