/** Folder references: how a path the user reads back is turned into a Graph folder id. */
module FolderRef {
  import opened Wrappers
  import opened Text

  /** A mail folder as Graph returns it; any field may be missing. */
  datatype GraphFolder = GraphFolder(
    id: Option<string>, displayName: Option<string>,
    unread: Option<int>, total: Option<int>, childFolderCount: Option<int>)
  {
    function Id(): string { id.GetOr("") }
    function Name(): string { displayName.GetOr("") }
  }

  datatype Fetch = Page(folders: seq<GraphFolder>, truncated: bool) | Failed(message: string)

  /** Graph, as a deterministic oracle: a page of the top level, a page of the children of a folder
      (given by id or well-known name), and the display name of a folder; with the table of well-known
      names and their labels. Results below hold for every table; WELL_KNOWN_FOLDER_LABELS is the real one. */
  datatype Graph = Graph(
    labels: map<string, string>,
    top: int -> Fetch, children: (string, int) -> Fetch, nameOf: string -> Result<string, string>)

  datatype RefError =
    | EmptyReference
    | NoSegments
    | LookupFailed(parent: seq<string>, message: string)
    | NoMatch(segment: string, parent: seq<string>, candidates: seq<string>, truncated: bool)
    | Unreadable(id: string, message: string)

  datatype Resolved = Resolved(id: string, path: string)

  const MIN_GRAPH_FOLDER_ID_LEN := 40
  const FOLDER_LOOKUP_PAGE_SIZE := 200

  const WELL_KNOWN_FOLDER_LABELS: map<string, string> := map[
    "archive" := "Archive",
    "clutter" := "Clutter",
    "conflicts" := "Conflicts",
    "conversationhistory" := "Conversation History",
    "deleteditems" := "Deleted Items",
    "drafts" := "Drafts",
    "inbox" := "Inbox",
    "junkemail" := "Junk Email",
    "localfailures" := "Local Failures",
    "msgfolderroot" := "Mailbox Root",
    "outbox" := "Outbox",
    "recoverableitemsdeletions" := "Recoverable Items",
    "scheduled" := "Scheduled",
    "searchfolders" := "Search Folders",
    "sentitems" := "Sent Items",
    "serverfailures" := "Server Failures",
    "syncissues" := "Sync Issues"
  ]

  /** The canonical lower-case name and the display label. */
  function WellKnownFolder(labels: map<string, string>, ref: string): Option<(string, string)> {
    var key := Key(ref);
    if key in labels then Some((key, labels[key])) else None
  }

  predicate IsIdChar(c: char) {
    'A' <= c <= 'Z' || 'a' <= c <= 'z' || '0' <= c <= '9' || c in {'+', '/', '=', '_', '-'}
  }

  predicate LooksLikeGraphFolderId(ref: string) {
    |ref| >= MIN_GRAPH_FOLDER_ID_LEN && forall i :: 0 <= i < |ref| ==> IsIdChar(ref[i])
  }

  /** The first folder whose display name has the key of `name`. */
  function Match(folders: seq<GraphFolder>, name: string): (r: Option<GraphFolder>)
    ensures r.Some? ==> r.value in folders && Key(r.value.Name()) == Key(name)
  {
    if folders == [] then None
    else if Key(folders[0].Name()) == Key(name) then Some(folders[0])
    else Match(folders[1..], name)
  }

  /** The scan over the folders of one level. */
  method MatchFolderByName(folders: seq<GraphFolder>, name: string) returns (r: Option<GraphFolder>)
    ensures r == Match(folders, name)
    ensures r.None? ==> forall i :: 0 <= i < |folders| ==> Key(folders[i].Name()) != Key(name)
    ensures r.Some? ==> exists i :: 0 <= i < |folders| && r.value == folders[i] && Key(folders[i].Name()) == Key(name)
                                    && forall j :: 0 <= j < i ==> Key(folders[j].Name()) != Key(name)
  {
    var want := Key(name);
    for i := 0 to |folders|
      invariant Match(folders, name) == Match(folders[i..], name)
      invariant forall j :: 0 <= j < i ==> Key(folders[j].Name()) != want
    {
      if Key(folders[i].Name()) == want {
        return Some(folders[i]);
      }
    }
    return None;
  }

  /** Trimmed, non-blank pieces. */
  function Clean(parts: seq<string>): (segments: seq<string>)
    ensures forall i :: 0 <= i < |segments| ==> segments[i] != ""
  {
    if parts == [] then []
    else (if Trim(parts[0]) != "" then [Trim(parts[0])] else []) + Clean(parts[1..])
  }

  lemma {:induction false} CleanOrigin(parts: seq<string>, i: nat) returns (p: string)
    requires i < |Clean(parts)|
    ensures p in parts && Clean(parts)[i] == Trim(p)
  {
    p := parts[0];
    if Trim(p) == "" {
      p := CleanOrigin(parts[1..], i);
    } else if i > 0 {
      p := CleanOrigin(parts[1..], i - 1);
    }
  }

  function Segments(path: string): seq<string> {
    Clean(Split(path, '/'))
  }

  lemma {:induction false} CleanAppend(parts: seq<string>, part: string)
    ensures Clean(parts + [part]) == Clean(parts) + if Trim(part) != "" then [Trim(part)] else []
  {
    var all := parts + [part];
    if parts == [] {
      assert all[0] == part && all[1..] == [];
    } else {
      assert all[0] == parts[0] && all[1..] == parts[1..] + [part];
      CleanAppend(parts[1..], part);
    }
  }

  method SplitFolderPath(path: string) returns (segments: seq<string>)
    ensures segments == Segments(path)
  {
    var parts := Split(path, '/');
    segments := [];
    for i := 0 to |parts|
      invariant segments == Clean(parts[..i])
    {
      CleanAppend(parts[..i], parts[i]);
      assert parts[..i + 1] == parts[..i] + [parts[i]];
      if Trim(parts[i]) != "" {
        segments := segments + [Trim(parts[i])];
      }
    }
    assert parts[..|parts|] == parts;
  }

  function Names(folders: seq<GraphFolder>): seq<string> {
    seq(|folders|, i requires 0 <= i < |folders| => folders[i].Name())
  }

  /** One segment against one page. */
  function Step(page: Fetch, canonical: seq<string>, segment: string): Result<GraphFolder, RefError> {
    match page
    case Failed(message) => Err(LookupFailed(canonical, message))
    case Page(folders, truncated) =>
      match Match(folders, segment)
      case Some(f) => Ok(f)
      case None => Err(NoMatch(segment, canonical, Names(folders), truncated))
  }

  datatype Walked = Walked(id: string, canonical: seq<string>)

  /** The remaining segments, from a folder already reached. */
  function WalkOn(g: Graph, at: Walked, segments: seq<string>): Result<Walked, RefError>
    decreases |segments|
  {
    if segments == [] then Ok(at)
    else
      match Step(g.children(at.id, FOLDER_LOOKUP_PAGE_SIZE), at.canonical, segments[0])
      case Err(e) => Err(e)
      case Ok(f) => WalkOn(g, Walked(f.Id(), at.canonical + [f.Name()]), segments[1..])
  }

  /** The first segment: a well-known name, else a top-level folder. */
  function WalkStart(g: Graph, segment: string): Result<Walked, RefError> {
    match WellKnownFolder(g.labels, segment)
    case Some(wk) => Ok(Walked(wk.0, [wk.1]))
    case None =>
      match Step(g.top(FOLDER_LOOKUP_PAGE_SIZE), [], segment)
      case Err(e) => Err(e)
      case Ok(f) => Ok(Walked(f.Id(), [f.Name()]))
  }

  function Walk(g: Graph, segments: seq<string>): Result<Walked, RefError> {
    if segments == [] then Err(NoSegments)
    else
      match WalkStart(g, segments[0])
      case Err(e) => Err(e)
      case Ok(at) => WalkOn(g, at, segments[1..])
  }

  /** One round of the walk: the first segment from the mailbox root, a later one from the folder reached. */
  function Advance(g: Graph, at: Walked, first: bool, segment: string): Result<Walked, RefError> {
    if first then WalkStart(g, segment)
    else
      match Step(g.children(at.id, FOLDER_LOOKUP_PAGE_SIZE), at.canonical, segment)
      case Err(e) => Err(e)
      case Ok(f) => Ok(Walked(f.Id(), at.canonical + [f.Name()]))
  }

  method AdvanceWalk(g: Graph, at: Walked, first: bool, segment: string) returns (r: Result<Walked, RefError>)
    requires first ==> at.canonical == []
    ensures r == Advance(g, at, first, segment)
  {
    var page;
    if first {
      var wk := WellKnownFolder(g.labels, segment);
      if wk.Some? {
        assert at.canonical + [wk.value.1] == [wk.value.1];
        return Ok(Walked(wk.value.0, at.canonical + [wk.value.1]));
      }
      page := g.top(FOLDER_LOOKUP_PAGE_SIZE);
    } else {
      page := g.children(at.id, FOLDER_LOOKUP_PAGE_SIZE);
    }
    if page.Failed? {
      return Err(LookupFailed(at.canonical, page.message));
    }
    var found := MatchFolderByName(page.folders, segment);
    if found.None? {
      return Err(NoMatch(segment, at.canonical, Names(page.folders), page.truncated));
    }
    assert first ==> at.canonical + [found.value.Name()] == [found.value.Name()];
    return Ok(Walked(found.value.Id(), at.canonical + [found.value.Name()]));
  }

  /** The walk, round by round. */
  function Rounds(g: Graph, at: Walked, first: bool, segments: seq<string>): Result<Walked, RefError>
    decreases |segments|
  {
    if segments == [] then if first then Err(NoSegments) else Ok(at)
    else
      match Advance(g, at, first, segments[0])
      case Err(e) => Err(e)
      case Ok(next) => Rounds(g, next, false, segments[1..])
  }

  lemma {:induction false} RoundsAreTheWalk(g: Graph, at: Walked, first: bool, segments: seq<string>)
    ensures Rounds(g, at, first, segments) == if first then Walk(g, segments) else WalkOn(g, at, segments)
    decreases |segments|
  {
    if segments != [] {
      var next := Advance(g, at, first, segments[0]);
      if next.Ok? {
        RoundsAreTheWalk(g, next.value, false, segments[1..]);
      }
    }
  }

  /** The walk as the program runs it: one loop over the segments. */
  method WalkSegments(g: Graph, segments: seq<string>) returns (r: Result<Walked, RefError>)
    ensures r == Walk(g, segments)
  {
    if |segments| == 0 {
      return Err(NoSegments);
    }
    var at := Walked("", []);
    RoundsAreTheWalk(g, at, true, segments);
    assert segments[0..] == segments;
    for i := 0 to |segments|
      invariant i == 0 ==> at.canonical == []
      invariant Rounds(g, at, i == 0, segments[i..]) == Walk(g, segments)
    {
      assert segments[i..][1..] == segments[i + 1..];
      var next := AdvanceWalk(g, at, i == 0, segments[i]);
      if next.Err? {
        return next;
      }
      at := next.value;
    }
    return Ok(at);
  }

  method WalkFolderPath(g: Graph, path: string) returns (r: Result<Walked, RefError>)
    ensures r == Walk(g, Segments(path))
  {
    var segments := SplitFolderPath(path);
    r := WalkSegments(g, segments);
  }

  /** A raw id, with its display name when the caller wants a path. */
  function PassThrough(g: Graph, id: string, wantPath: bool): Result<Resolved, RefError> {
    if !wantPath then Ok(Resolved(id, ""))
    else
      match g.nameOf(id)
      case Ok(name) => Ok(Resolved(id, name))
      case Err(message) => Err(Unreadable(id, message))
  }

  /** A reference: well-known name, path, raw id, or top-level name, tried in this order. */
  function ResolveFolderRef(g: Graph, ref: string, wantPath: bool): Result<Resolved, RefError> {
    var trimmed := Trim(ref);
    if trimmed == "" then Err(EmptyReference)
    else
      match WellKnownFolder(g.labels, trimmed)
      case Some(wk) => Ok(Resolved(wk.0, wk.1))
      case None =>
        if '/' in trimmed then
          match Walk(g, Segments(trimmed))
          case Ok(at) => Ok(Resolved(at.id, Join(at.canonical, '/')))
          case Err(e) => if LooksLikeGraphFolderId(trimmed) then PassThrough(g, trimmed, wantPath) else Err(e)
        else if LooksLikeGraphFolderId(trimmed) then PassThrough(g, trimmed, wantPath)
        else
          match Step(g.top(FOLDER_LOOKUP_PAGE_SIZE), [], trimmed)
          case Ok(f) => Ok(Resolved(f.Id(), f.Name()))
          case Err(e) => Err(e)
  }

  // ---------------------------------------------------------------------------
  // Canonical paths are fixpoints
  // ---------------------------------------------------------------------------

  ghost predicate SameKeys(xs: seq<string>, ys: seq<string>) {
    |xs| == |ys| && forall i :: 0 <= i < |xs| ==> Key(xs[i]) == Key(ys[i])
  }

  /** First match depends on the key of a name only. */
  lemma {:induction false} MatchByKey(folders: seq<GraphFolder>, x: string, y: string)
    requires Key(x) == Key(y)
    ensures Match(folders, x) == Match(folders, y)
  {
    if folders != [] {
      MatchByKey(folders[1..], x, y);
    }
  }

  /** The names a walk collects have the keys of its segments, and walking any names with the same keys
      takes the same way. */
  lemma {:induction false} WalkOnSameKeys(g: Graph, at: Walked, xs: seq<string>, ys: seq<string>)
    requires SameKeys(xs, ys) && WalkOn(g, at, xs).Ok?
    ensures WalkOn(g, at, ys) == WalkOn(g, at, xs)
    ensures var c := WalkOn(g, at, xs).value.canonical;
            at.canonical <= c && SameKeys(c[|at.canonical|..], xs)
    decreases |xs|
  {
    if xs != [] {
      var page := g.children(at.id, FOLDER_LOOKUP_PAGE_SIZE);
      MatchByKey(page.folders, xs[0], ys[0]);
      var f := Match(page.folders, xs[0]).value;
      var next := Walked(f.Id(), at.canonical + [f.Name()]);
      WalkOnSameKeys(g, next, xs[1..], ys[1..]);
      var c := WalkOn(g, at, xs).value.canonical;
      assert c[|at.canonical|] == next.canonical[|at.canonical|] == f.Name();
      assert c[|at.canonical|..][1..] == c[|next.canonical|..];
    }
  }

  /** A first segment that leads back to itself: not a well-known name, or one whose label has its key. */
  predicate StableStart(labels: map<string, string>, segment: string) {
    var wk := WellKnownFolder(labels, segment);
    wk.Some? ==> Key(wk.value.1) == wk.value.0
  }

  lemma WalkSameKeys(g: Graph, xs: seq<string>, ys: seq<string>)
    requires SameKeys(xs, ys) && Walk(g, xs).Ok?
    ensures Walk(g, ys) == Walk(g, xs)
    ensures StableStart(g.labels, xs[0]) ==> SameKeys(Walk(g, xs).value.canonical, xs)
  {
    var start := WalkStart(g, xs[0]).value;
    if WellKnownFolder(g.labels, xs[0]).None? {
      MatchByKey(g.top(FOLDER_LOOKUP_PAGE_SIZE).folders, xs[0], ys[0]);
    }
    WalkOnSameKeys(g, start, xs[1..], ys[1..]);
    var c := Walk(g, xs).value.canonical;
    assert c[0] == start.canonical[0];
    assert StableStart(g.labels, xs[0]) ==> Key(c[0]) == Key(xs[0]);
    assert forall i :: 1 <= i < |c| ==> c[i] == c[1..][i - 1];
  }

  lemma {:induction false} CleanTrimmed(parts: seq<string>)
    requires forall i :: 0 <= i < |parts| ==> Trim(parts[i]) != ""
    ensures |Clean(parts)| == |parts|
    ensures forall i :: 0 <= i < |parts| ==> Clean(parts)[i] == Trim(parts[i])
  {
    if parts != [] {
      CleanTrimmed(parts[1..]);
    }
  }

  /** The segments of a joined path are its pieces, trimmed. */
  lemma SegmentsOfJoin(names: seq<string>)
    requires names != [] && forall i :: 0 <= i < |names| ==> Trim(names[i]) != "" && '/' !in names[i]
    ensures |Segments(Join(names, '/'))| == |names|
    ensures forall i :: 0 <= i < |names| ==> Segments(Join(names, '/'))[i] == Trim(names[i])
    ensures SameKeys(Segments(Join(names, '/')), names)
  {
    SplitJoin(names, '/');
    CleanTrimmed(names);
    forall i | 0 <= i < |names| ensures Key(Trim(names[i])) == Key(names[i]) {
      TrimFacts(names[i]);
    }
  }

  /** White space around a path does not change its segments. */
  lemma {:induction false} SegmentsTrimLeft(path: string)
    ensures Segments(TrimLeft(path)) == Segments(path)
  {
    if path != [] && IsSpace(path[0]) {
      var rest := Split(path[1..], '/');
      assert Trim([path[0]] + rest[0]) == Trim(rest[0]) by {
        assert ([path[0]] + rest[0])[1..] == rest[0];
      }
      assert Split(path, '/')[1..] == rest[1..];
      SegmentsTrimLeft(path[1..]);
    }
  }

  lemma {:induction false} SegmentsTrimRight(path: string)
    ensures Segments(TrimRight(path)) == Segments(path)
  {
    if path != [] && IsSpace(path[|path| - 1]) {
      var s, c := path[..|path| - 1], path[|path| - 1];
      assert path == s + [c];
      SplitExtend(s, c, '/');
      var parts := Split(s, '/');
      var init, last := parts[..|parts| - 1], parts[|parts| - 1];
      assert parts == init + [last];
      CleanAppend(init, last);
      CleanAppend(init, last + [c]);
      TrimDropsTrailing(last, c);
      SegmentsTrimRight(s);
    }
  }

  lemma SegmentsTrim(path: string)
    ensures Segments(Trim(path)) == Segments(path)
  {
    SegmentsTrimLeft(path);
    SegmentsTrimRight(TrimLeft(path));
  }

  /** Walking the canonical path of a walk gives the same folder and the same canonical path, whatever
      Graph holds and even if siblings share a name, as long as the first segment is stable. */
  lemma CanonicalPathIsFixpoint(g: Graph, path: string)
    requires Walk(g, Segments(path)).Ok? && StableStart(g.labels, Segments(path)[0])
    ensures Walk(g, Segments(Join(Walk(g, Segments(path)).value.canonical, '/'))) == Walk(g, Segments(path))
  {
    var xs := Segments(path);
    var names := Walk(g, xs).value.canonical;
    WalkSameKeys(g, xs, xs);
    forall i | 0 <= i < |names| ensures Trim(names[i]) != "" && '/' !in names[i] {
      SegmentIsClean(path, i);
      TrimFacts(xs[i]);
      KeyFacts(names[i], xs[i]);
    }
    SegmentsOfJoin(names);
    WalkSameKeys(g, xs, Segments(Join(names, '/')));
  }

  lemma SegmentIsClean(path: string, i: nat)
    requires i < |Segments(path)|
    ensures Trim(Segments(path)[i]) != "" && '/' !in Segments(path)[i]
  {
    JoinSplit(path, '/');
    var p := CleanOrigin(Split(path, '/'), i);
    TrimFacts(p);
  }

  /** The real table has unstable names: "sentitems/a" is printed as "Sent Items/a", whose first
      segment is no well-known name. */
  lemma UnstableStart()
    ensures WellKnownFolder(WELL_KNOWN_FOLDER_LABELS, "sentitems") == Some(("sentitems", "Sent Items"))
    ensures !StableStart(WELL_KNOWN_FOLDER_LABELS, "sentitems")
    ensures WellKnownFolder(WELL_KNOWN_FOLDER_LABELS, "Sent Items").None?
  {
    assert Key("sentitems") == "sentitems";
    assert Key("Sent Items") == "sent items";
  }

  // ---------------------------------------------------------------------------
  // Raw ids and failures
  // ---------------------------------------------------------------------------

  lemma SolidText(s: string)
    requires forall i :: 0 <= i < |s| ==> !IsSpace(s[i])
    ensures Trim(s) == s
  {
    if s != "" {
      assert !IsSpace(s[0]) && !IsSpace(s[|s| - 1]);
    }
  }

  /** A well-known name, in any case and with any white space around it, is itself, shown by its label. */
  lemma KnownReference(g: Graph, ref: string, wantPath: bool)
    requires Key(ref) in g.labels && Trim(ref) != ""
    ensures ResolveFolderRef(g, ref, wantPath) == Ok(Resolved(Key(ref), g.labels[Key(ref)]))
  {
    TrimFacts(ref);
  }

  /** Any other reference with a slash is walked, and shown by the canonical path of the walk. */
  lemma WalkedReference(g: Graph, ref: string, wantPath: bool)
    requires '/' in ref && WellKnownFolder(g.labels, ref).None? && Walk(g, Segments(ref)).Ok?
    ensures var walked := Walk(g, Segments(ref)).value;
            ResolveFolderRef(g, ref, wantPath) == Ok(Resolved(walked.id, Join(walked.canonical, '/')))
  {
    TrimFacts(ref);
    SegmentsTrim(ref);
  }

  /** A blank reference, and one of nothing but slashes and white space, are told apart. */
  lemma EmptyReferences(g: Graph, ref: string, wantPath: bool)
    ensures Trim(ref) == "" ==> ResolveFolderRef(g, ref, wantPath) == Err(EmptyReference)
    ensures '/' in ref && Segments(ref) == [] && |Trim(ref)| < 40 && WellKnownFolder(g.labels, ref).None? ==>
              ResolveFolderRef(g, ref, wantPath) == Err(NoSegments)
  {
    TrimFacts(ref);
    SegmentsTrim(ref);
  }

  /** Forty or more letters, digits and the signs of base64 are taken for a Graph id, unless they are a well-known name
      or a path that can be walked: the id itself without asking Graph, or together with the name Graph gives it. */
  lemma RawIdReference(g: Graph, id: string, wantPath: bool)
    requires |id| >= 40
    requires forall i :: 0 <= i < |id| ==>
               || 'A' <= id[i] <= 'Z' || 'a' <= id[i] <= 'z' || '0' <= id[i] <= '9' || id[i] in {'+', '/', '=', '_', '-'}
    requires WellKnownFolder(g.labels, id).None? && ('/' in id ==> Walk(g, Segments(id)).Err?)
    ensures ResolveFolderRef(g, id, wantPath) ==
            if !wantPath then Ok(Resolved(id, ""))
            else match g.nameOf(id)
                 case Ok(name) => Ok(Resolved(id, name))
                 case Err(message) => Err(Unreadable(id, message))
  {
    SolidText(id);
  }

  /** Anything shorter, or with another character in it, is not. */
  lemma NoRawId(g: Graph, ref: string, wantPath: bool)
    requires ref == Trim(ref) && ref != "" && WellKnownFolder(g.labels, ref).None? && '/' !in ref
    requires |ref| < 40 || exists i ::
               0 <= i < |ref| && !('A' <= ref[i] <= 'Z' || 'a' <= ref[i] <= 'z' || '0' <= ref[i] <= '9' || ref[i] in {'+', '/', '=', '_', '-'})
    ensures match g.top(200)
            case Failed(message) => ResolveFolderRef(g, ref, wantPath) == Err(LookupFailed([], message))
            case Page(folders, truncated) =>
              var r := ResolveFolderRef(g, ref, wantPath);
              && (r.Ok? ==> exists f :: f in folders && Key(f.Name()) == Key(ref) && r.value == Resolved(f.Id(), f.Name()))
              && (r.Err? ==> r == Err(NoMatch(ref, [], Names(folders), truncated)) && forall f :: f in folders ==> Key(f.Name()) != Key(ref))
  {
    if g.top(200).Page? {
      NoMatchIsNone(g.top(200).folders, ref);
    }
  }

  lemma {:induction false} NoMatchIsNone(folders: seq<GraphFolder>, name: string)
    ensures Match(folders, name).None? <==> forall f :: f in folders ==> Key(f.Name()) != Key(name)
  {
    if folders != [] {
      NoMatchIsNone(folders[1..], name);
      assert forall f :: f in folders <==> f == folders[0] || f in folders[1..];
    }
  }

  /** What is looked up for the segment after a walked prefix. */
  function PageFor(g: Graph, reached: Walked): Fetch {
    if reached.canonical == [] then g.top(200) else g.children(reached.id, 200)
  }

  /** The error that segment `segment` gives behind what has been reached: the page could not be had, or no folder on
      it has that name. */
  ghost predicate FailsAt(g: Graph, reached: Walked, segment: string, e: RefError) {
    match PageFor(g, reached)
    case Failed(message) => e == LookupFailed(reached.canonical, message)
    case Page(folders, truncated) =>
      && (forall f :: f in folders ==> Key(f.Name()) != Key(segment))
      && e == NoMatch(segment, reached.canonical, Names(folders), truncated)
  }

  lemma {:induction false} WalkOnFails(g: Graph, at: Walked, segments: seq<string>) returns (i: nat, reached: Walked)
    requires at.canonical != [] && WalkOn(g, at, segments).Err?
    ensures i < |segments| && WalkOn(g, at, segments[..i]) == Ok(reached) && |reached.canonical| == |at.canonical| + i
    ensures FailsAt(g, reached, segments[i], WalkOn(g, at, segments).error)
    decreases |segments|
  {
    var page := g.children(at.id, 200);
    if page.Page? {
      NoMatchIsNone(page.folders, segments[0]);
    }
    match Step(page, at.canonical, segments[0])
    case Err(_) => i, reached := 0, at;
    case Ok(f) =>
      var next := Walked(f.Id(), at.canonical + [f.Name()]);
      i, reached := WalkOnFails(g, next, segments[1..]);
      i := i + 1;
      assert segments[..i][0] == segments[0] && segments[..i][1..] == segments[1..][..i - 1];
  }

  /** A walk that fails has walked some of its segments and failed at the next one, and its error says where and why:
      the canonical path reached, the segment, and the names there were to choose from. */
  lemma WalkFailsSomewhere(g: Graph, segments: seq<string>) returns (i: nat, reached: Walked)
    requires segments != [] && Walk(g, segments).Err?
    ensures i < |segments| && |reached.canonical| == i
    ensures i > 0 ==> Walk(g, segments[..i]) == Ok(reached)
    ensures i == 0 ==> WellKnownFolder(g.labels, segments[0]).None?
    ensures FailsAt(g, reached, segments[i], Walk(g, segments).error)
  {
    match WalkStart(g, segments[0])
    case Err(_) =>
      i, reached := 0, Walked("", []);
      if g.top(200).Page? {
        NoMatchIsNone(g.top(200).folders, segments[0]);
      }
    case Ok(at) =>
      i, reached := WalkOnFails(g, at, segments[1..]);
      i := i + 1;
      assert segments[..i][0] == segments[0] && segments[..i][1..] == segments[1..][..i - 1];
  }
}
