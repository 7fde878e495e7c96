/** The two JSON projections of a folder listing. An object is a map from its fields to values, so a
    field can be absent. */
module FolderProjection {
  import opened FolderTree
  import opened FolderListing

  datatype SummaryField =
    | Name | Path | Unread | Total | SubfolderCount | Id
    | Children | Truncated | Error | UnexploredSubfolders | HiddenSubfolders
    | Folders | FolderCount | Parent

  datatype RawField =
    | RawId | DisplayName | UnreadItemCount | TotalItemCount | ChildFolderCount
    | ChildFolders | RawTruncated | RawError | UnexploredChildFolders | HiddenChildFolders
    | Collection

  datatype Value<!F(==)> = Text(s: string) | Number(n: int) | Flag(b: bool) | Objects(items: seq<map<F, Value<F>>>)

  type Summary = map<SummaryField, Value<SummaryField>>
  type Raw = map<RawField, Value<RawField>>

  function SummaryNode(n: FolderNode): Summary
    decreases n, 0
  {
    var m := map[Name := Text(n.name), Path := Text(n.path), Unread := Number(n.unread), Total := Number(n.total),
                 SubfolderCount := Number(n.subfolderCount), Id := Text(n.id)];
    var m := if |n.children| > 0 then m[Children := Objects(SummaryNodes(n.children))] else m;
    var m := if n.truncated then m[Truncated := Flag(true)] else m;
    var m := if n.err != "" then m[Error := Text(n.err)] else m;
    var m := if n.UnexploredChildren() > 0 then m[UnexploredSubfolders := Number(n.UnexploredChildren())] else m;
    if n.UnreturnedChildren() > 0 then m[HiddenSubfolders := Number(n.UnreturnedChildren())] else m
  }

  function SummaryNodes(nodes: seq<FolderNode>): (out: seq<Summary>)
    ensures |out| == |nodes|
    decreases nodes, 1
  {
    if nodes == [] then [] else [SummaryNode(nodes[0])] + SummaryNodes(nodes[1..])
  }

  function RawNode(n: FolderNode): Raw
    decreases n, 0
  {
    var m := map[RawId := Text(n.id), DisplayName := Text(n.name), UnreadItemCount := Number(n.unread),
                 TotalItemCount := Number(n.total), ChildFolderCount := Number(n.subfolderCount)];
    var m := if |n.children| > 0 then m[ChildFolders := Objects(RawNodes(n.children))] else m;
    var m := if n.truncated then m[RawTruncated := Flag(true)] else m;
    var m := if n.err != "" then m[RawError := Text(n.err)] else m;
    var m := if n.UnexploredChildren() > 0 then m[UnexploredChildFolders := Number(n.UnexploredChildren())] else m;
    if n.UnreturnedChildren() > 0 then m[HiddenChildFolders := Number(n.UnreturnedChildren())] else m
  }

  function RawNodes(nodes: seq<FolderNode>): (out: seq<Raw>)
    ensures |out| == |nodes|
    decreases nodes, 1
  {
    if nodes == [] then [] else [RawNode(nodes[0])] + RawNodes(nodes[1..])
  }

  // ---------------------------------------------------------------------------
  // Nothing a reader needs is lost
  // ---------------------------------------------------------------------------

  /** Agreement of two nodes on everything but their paths and children. */
  predicate SameFields(x: FolderNode, y: FolderNode) {
    && x.id == y.id && x.name == y.name
    && x.unread == y.unread && x.total == y.total && x.subfolderCount == y.subfolderCount
    && x.err == y.err && x.truncated == y.truncated
    && x.UnexploredChildren() == y.UnexploredChildren() && x.UnreturnedChildren() == y.UnreturnedChildren()
  }

  /** Agreement of two listings: the same nodes in the same preorder and nesting, with the same ids, counts
      and flags, and with the same paths if `paths`. */
  predicate SameListing(xs: seq<FolderNode>, ys: seq<FolderNode>, paths: bool)
    decreases xs
  {
    && |xs| == |ys|
    && (xs != [] ==>
          && SameFields(xs[0], ys[0]) && (paths ==> xs[0].path == ys[0].path)
          && SameListing(xs[0].children, ys[0].children, paths)
          && SameListing(xs[1..], ys[1..], paths))
  }

  lemma SummaryRequired(n: FolderNode)
    ensures var m := SummaryNode(n);
            && {Id, Name, Path, Unread, Total, SubfolderCount} <= m.Keys
            && m[Id] == Text(n.id) && m[Name] == Text(n.name) && m[Path] == Text(n.path)
            && m[Unread] == Number(n.unread) && m[Total] == Number(n.total) && m[SubfolderCount] == Number(n.subfolderCount)
  {
  }

  lemma SummaryMarks(n: FolderNode)
    ensures var m := SummaryNode(n);
            && (Children in m <==> n.children != []) && (Children in m ==> m[Children] == Objects(SummaryNodes(n.children)))
            && (Truncated in m <==> n.truncated) && (Truncated in m ==> m[Truncated] == Flag(true))
            && (Error in m <==> n.err != "") && (Error in m ==> m[Error] == Text(n.err))
  {
  }

  lemma SummaryGaps(n: FolderNode)
    ensures var m := SummaryNode(n);
            && (UnexploredSubfolders in m <==> n.UnexploredChildren() > 0)
            && (UnexploredSubfolders in m ==> m[UnexploredSubfolders] == Number(n.UnexploredChildren()))
            && (HiddenSubfolders in m <==> n.UnreturnedChildren() > 0)
            && (HiddenSubfolders in m ==> m[HiddenSubfolders] == Number(n.UnreturnedChildren()))
  {
  }

  lemma SameSummaryNode(x: FolderNode, y: FolderNode)
    ensures SummaryNode(x) == SummaryNode(y) <==>
            SameFields(x, y) && x.path == y.path && SummaryNodes(x.children) == SummaryNodes(y.children)
  {
    if SummaryNode(x) == SummaryNode(y) {
      SummaryRequired(x);
      SummaryRequired(y);
      SummaryMarks(x);
      SummaryMarks(y);
      SummaryGaps(x);
      SummaryGaps(y);
    }
  }

  lemma RawRequired(n: FolderNode)
    ensures var m := RawNode(n);
            && {RawId, DisplayName, UnreadItemCount, TotalItemCount, ChildFolderCount} <= m.Keys
            && m[RawId] == Text(n.id) && m[DisplayName] == Text(n.name) && m[UnreadItemCount] == Number(n.unread)
            && m[TotalItemCount] == Number(n.total) && m[ChildFolderCount] == Number(n.subfolderCount)
  {
  }

  lemma RawMarks(n: FolderNode)
    ensures var m := RawNode(n);
            && (ChildFolders in m <==> n.children != []) && (ChildFolders in m ==> m[ChildFolders] == Objects(RawNodes(n.children)))
            && (RawTruncated in m <==> n.truncated) && (RawTruncated in m ==> m[RawTruncated] == Flag(true))
            && (RawError in m <==> n.err != "") && (RawError in m ==> m[RawError] == Text(n.err))
  {
  }

  lemma RawGaps(n: FolderNode)
    ensures var m := RawNode(n);
            && (UnexploredChildFolders in m <==> n.UnexploredChildren() > 0)
            && (UnexploredChildFolders in m ==> m[UnexploredChildFolders] == Number(n.UnexploredChildren()))
            && (HiddenChildFolders in m <==> n.UnreturnedChildren() > 0)
            && (HiddenChildFolders in m ==> m[HiddenChildFolders] == Number(n.UnreturnedChildren()))
  {
  }

  lemma SameRawNode(x: FolderNode, y: FolderNode)
    ensures RawNode(x) == RawNode(y) <==> SameFields(x, y) && RawNodes(x.children) == RawNodes(y.children)
  {
    if RawNode(x) == RawNode(y) {
      RawRequired(x);
      RawRequired(y);
      RawMarks(x);
      RawMarks(y);
      RawGaps(x);
      RawGaps(y);
    }
  }

  lemma SameCons<T>(a: T, xs: seq<T>, b: T, ys: seq<T>)
    ensures [a] + xs == [b] + ys <==> a == b && xs == ys
  {
    if [a] + xs == [b] + ys {
      assert ([a] + xs)[0] == ([b] + ys)[0] && ([a] + xs)[1..] == ([b] + ys)[1..];
    }
  }

  /** Listings with the same summary agree on everything, paths included, and only those have it. */
  lemma {:induction false} SummaryLosesNothing(xs: seq<FolderNode>, ys: seq<FolderNode>)
    ensures SummaryNodes(xs) == SummaryNodes(ys) <==> SameListing(xs, ys, true)
    decreases xs
  {
    if |xs| == |ys| && xs != [] {
      SameSummaryNode(xs[0], ys[0]);
      SummaryLosesNothing(xs[0].children, ys[0].children);
      SummaryLosesNothing(xs[1..], ys[1..]);
      SameCons(SummaryNode(xs[0]), SummaryNodes(xs[1..]), SummaryNode(ys[0]), SummaryNodes(ys[1..]));
    }
  }

  /** Listings with the same raw projection agree on everything but their paths, and only those have it. */
  lemma {:induction false} RawLosesOnlyPaths(xs: seq<FolderNode>, ys: seq<FolderNode>)
    ensures RawNodes(xs) == RawNodes(ys) <==> SameListing(xs, ys, false)
    decreases xs
  {
    if |xs| == |ys| && xs != [] {
      SameRawNode(xs[0], ys[0]);
      RawLosesOnlyPaths(xs[0].children, ys[0].children);
      RawLosesOnlyPaths(xs[1..], ys[1..]);
      SameCons(RawNode(xs[0]), RawNodes(xs[1..]), RawNode(ys[0]), RawNodes(ys[1..]));
    }
  }

  ghost predicate SameNodes(xs: seq<FolderNode>, ys: seq<FolderNode>) {
    |xs| == |ys| && forall i :: 0 <= i < |xs| ==> SameFields(xs[i], ys[i])
  }

  lemma SameNodesConcat(xs: seq<FolderNode>, ys: seq<FolderNode>, us: seq<FolderNode>, vs: seq<FolderNode>)
    requires SameNodes(xs, ys) && SameNodes(us, vs)
    ensures SameNodes(xs + us, ys + vs)
  {
  }

  /** Such listings have the same ids, counts and flags in the same preorder. */
  lemma {:induction false} SameListingSamePreorder(xs: seq<FolderNode>, ys: seq<FolderNode>, paths: bool)
    requires SameListing(xs, ys, paths)
    ensures SameNodes(Flatten(xs), Flatten(ys))
    decreases xs
  {
    if xs != [] {
      SameListingSamePreorder(xs[0].children, ys[0].children, paths);
      SameListingSamePreorder(xs[1..], ys[1..], paths);
      SameNodesConcat([xs[0]], [ys[0]], Flatten(xs[0].children), Flatten(ys[0].children));
      SameNodesConcat([xs[0]] + Flatten(xs[0].children), [ys[0]] + Flatten(ys[0].children),
                      Flatten(xs[1..]), Flatten(ys[1..]));
    }
  }

  // ---------------------------------------------------------------------------
  // Whole listings
  // ---------------------------------------------------------------------------

  /** The summary of a listing counts all of its folders, not only the topmost. */
  function SummaryOf(listing: Listing): Summary {
    var m := map[Folders := Objects(SummaryNodes(listing.nodes)), FolderCount := Number(|Flatten(listing.nodes)|)];
    var m := if listing.truncated then m[Truncated := Flag(true)] else m;
    if listing.root != "" then m[Parent := Text(listing.root)] else m
  }

  function RawOf(listing: Listing): Raw {
    var m := map[Collection := Objects(RawNodes(listing.nodes))];
    if listing.truncated then m[RawTruncated := Flag(true)] else m
  }

  lemma SummaryOfHolds(listing: Listing)
    ensures var m := SummaryOf(listing);
            && Folders in m && m[Folders] == Objects(SummaryNodes(listing.nodes))
            && (Truncated in m <==> listing.truncated) && (Truncated in m ==> m[Truncated] == Flag(true))
            && (Parent in m <==> listing.root != "") && (Parent in m ==> m[Parent] == Text(listing.root))
  {
  }

  lemma RawOfHolds(listing: Listing)
    ensures var m := RawOf(listing);
            && Collection in m && m[Collection] == Objects(RawNodes(listing.nodes))
            && (RawTruncated in m <==> listing.truncated) && (RawTruncated in m ==> m[RawTruncated] == Flag(true))
  {
  }

  /** Of a whole listing the summary keeps the folders with their paths, where it starts, and that it was cut. */
  lemma SummaryOfLosesNothing(x: Listing, y: Listing)
    ensures SummaryOf(x) == SummaryOf(y) <==>
            SameListing(x.nodes, y.nodes, true) && x.truncated == y.truncated && x.root == y.root
  {
    SummaryLosesNothing(x.nodes, y.nodes);
    SummaryOfHolds(x);
    SummaryOfHolds(y);
    if SameListing(x.nodes, y.nodes, true) {
      SameListingSamePreorder(x.nodes, y.nodes, true);
    }
  }

  /** The raw form keeps the folders and that it was cut, but neither paths nor where the listing starts. */
  lemma RawOfLosesPathsAndRoot(x: Listing, y: Listing)
    ensures RawOf(x) == RawOf(y) <==> SameListing(x.nodes, y.nodes, false) && x.truncated == y.truncated
  {
    RawLosesOnlyPaths(x.nodes, y.nodes);
    RawOfHolds(x);
    RawOfHolds(y);
  }

  // ---------------------------------------------------------------------------
  // The projections as the program runs them
  // ---------------------------------------------------------------------------

  lemma {:induction false} SummaryAppend(nodes: seq<FolderNode>, n: FolderNode)
    ensures SummaryNodes(nodes + [n]) == SummaryNodes(nodes) + [SummaryNode(n)]
    decreases |nodes|
  {
    if nodes == [] {
      assert (nodes + [n])[1..] == [];
    } else {
      assert (nodes + [n])[1..] == nodes[1..] + [n];
      SummaryAppend(nodes[1..], n);
    }
  }

  method ProjectSummary(nodes: seq<FolderNode>) returns (out: seq<Summary>)
    ensures out == SummaryNodes(nodes)
    decreases nodes
  {
    out := [];
    for i := 0 to |nodes|
      invariant out == SummaryNodes(nodes[..i])
    {
      var n := nodes[i];
      var m: Summary := map[Name := Text(n.name), Path := Text(n.path), Unread := Number(n.unread), Total := Number(n.total),
                            SubfolderCount := Number(n.subfolderCount), Id := Text(n.id)];
      if |n.children| > 0 {
        var children := ProjectSummary(n.children);
        m := m[Children := Objects(children)];
      }
      if n.truncated {
        m := m[Truncated := Flag(true)];
      }
      if n.err != "" {
        m := m[Error := Text(n.err)];
      }
      if n.UnexploredChildren() > 0 {
        m := m[UnexploredSubfolders := Number(n.UnexploredChildren())];
      }
      if n.UnreturnedChildren() > 0 {
        m := m[HiddenSubfolders := Number(n.UnreturnedChildren())];
      }
      SummaryAppend(nodes[..i], n);
      assert nodes[..i + 1] == nodes[..i] + [n];
      out := out + [m];
    }
    assert nodes[..|nodes|] == nodes;
  }

  lemma {:induction false} RawAppend(nodes: seq<FolderNode>, n: FolderNode)
    ensures RawNodes(nodes + [n]) == RawNodes(nodes) + [RawNode(n)]
    decreases |nodes|
  {
    if nodes == [] {
      assert (nodes + [n])[1..] == [];
    } else {
      assert (nodes + [n])[1..] == nodes[1..] + [n];
      RawAppend(nodes[1..], n);
    }
  }

  method ProjectRaw(nodes: seq<FolderNode>) returns (out: seq<Raw>)
    ensures out == RawNodes(nodes)
    decreases nodes
  {
    out := [];
    for i := 0 to |nodes|
      invariant out == RawNodes(nodes[..i])
    {
      var n := nodes[i];
      var m: Raw := map[RawId := Text(n.id), DisplayName := Text(n.name), UnreadItemCount := Number(n.unread),
                        TotalItemCount := Number(n.total), ChildFolderCount := Number(n.subfolderCount)];
      if |n.children| > 0 {
        var children := ProjectRaw(n.children);
        m := m[ChildFolders := Objects(children)];
      }
      if n.truncated {
        m := m[RawTruncated := Flag(true)];
      }
      if n.err != "" {
        m := m[RawError := Text(n.err)];
      }
      if n.UnexploredChildren() > 0 {
        m := m[UnexploredChildFolders := Number(n.UnexploredChildren())];
      }
      if n.UnreturnedChildren() > 0 {
        m := m[HiddenChildFolders := Number(n.UnreturnedChildren())];
      }
      RawAppend(nodes[..i], n);
      assert nodes[..i + 1] == nodes[..i] + [n];
      out := out + [m];
    }
    assert nodes[..|nodes|] == nodes;
  }

  method SerializeSummaryFolders(listing: Listing) returns (out: Summary)
    ensures out == SummaryOf(listing)
    ensures FolderCount in out && out[FolderCount] == Number(|Flatten(listing.nodes)|)
  {
    var folders := ProjectSummary(listing.nodes);
    var count := CountFolders(listing.nodes);
    out := map[Folders := Objects(folders), FolderCount := Number(count)];
    if listing.truncated {
      out := out[Truncated := Flag(true)];
    }
    if listing.root != "" {
      out := out[Parent := Text(listing.root)];
    }
  }

  method SerializeRawFolders(listing: Listing) returns (out: Raw)
    ensures out == RawOf(listing)
  {
    var value := ProjectRaw(listing.nodes);
    out := map[Collection := Objects(value)];
    if listing.truncated {
      out := out[RawTruncated := Flag(true)];
    }
  }
}
