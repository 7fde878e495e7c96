/** The list_folders verb. */
module FolderListing {
  import opened Wrappers
  import opened Text
  import opened FolderRef
  import opened FolderTree

  const DEFAULT_FOLDER_MAX_RESULTS := 100
  const MAX_FOLDER_MAX_RESULTS := 1000
  const DEFAULT_FOLDER_MAX_DEPTH := 3
  const MAX_FOLDER_MAX_DEPTH := 10

  const INT32_LIMIT := 0x8000_0000

  /** Rounding toward zero. A number that no 32-bit integer holds converts to some value of the platform's choice. */
  function ToInt32(value: real, outOfRange: int): int {
    if !(-(INT32_LIMIT as real) - 1.0 < value < INT32_LIMIT as real) then outOfRange
    else if value >= 0.0 then value.Floor
    else -((-value).Floor)
  }

  /** A count parameter: within its bounds it is taken as it is, rounded down; too large a number becomes the
      maximum, and too small a one the fallback. */
  function ClampInt32(value: real, minValue: int, maxValue: int, fallback: int, outOfRange: int): (r: int)
    requires 1 <= minValue <= fallback <= maxValue < INT32_LIMIT
    ensures minValue <= r <= maxValue
    ensures minValue as real <= value < (maxValue + 1) as real ==> r as real <= value < r as real + 1.0
    ensures (maxValue + 1) as real <= value < INT32_LIMIT as real ==> r == maxValue
    ensures -(INT32_LIMIT as real) <= value < minValue as real ==> r == fallback
  {
    var v := ToInt32(value, outOfRange);
    if v < minValue then fallback else if v > maxValue then maxValue else v
  }

  datatype Listing = Listing(nodes: seq<FolderNode>, root: string, truncated: bool, recursive: bool)

  datatype ListError = Reference(e: RefError) | ListingFailed(message: string)

  /** The listing below a folder already resolved; "" is the mailbox root. It comes exactly when its first page does;
      pages further down that fail leave marks on their nodes. */
  method ListFrom(client: GraphClient, rootId: string, rootPath: string, levels: nat, maxResults: int, recursive: bool)
    returns (r: Result<Listing, ListError>)
    requires levels >= 1
    modifies client
    ensures var fetch := if rootId == "" then [] else [rootId];
            match if rootId == "" then client.graph.top(maxResults) else client.graph.children(rootId, maxResults)
            case Failed(message) => r == Err(ListingFailed(message)) && client.fetched == old(client.fetched) + fetch
            case Page(folders, truncated) =>
              && r.Ok? && r.value.root == rootPath && r.value.truncated == truncated && r.value.recursive == recursive
              && r.value.nodes == Build(client.graph, folders, rootPath, levels - 1, maxResults)
              && Levels(r.value.nodes) <= levels
              && client.fetched == old(client.fetched) + fetch + Requested(r.value.nodes, levels - 1)
  {
    var page;
    if rootId == "" {
      page := client.graph.top(maxResults);
    } else {
      page := client.FetchChildFolders(rootId, maxResults);
    }
    if page.Failed? {
      return Err(ListingFailed(page.message));
    }
    var nodes := BuildFolderTree(client, page.folders, rootPath, levels - 1, maxResults);
    LevelsBounded(client.graph, page.folders, rootPath, levels - 1, maxResults);
    return Ok(Listing(nodes, rootPath, page.truncated, recursive));
  }

  /** Lists one level, or with `recursive` up to ten: a reference that does not resolve and a first page that does
      not come are the errors there are. */
  method ListFolders(client: GraphClient, ref: string, recursive: bool, maxDepth: real, maxResultsArg: real, outOfRange: int)
    returns (r: Result<Listing, ListError>, ghost depth: nat, ghost maxResults: nat)
    modifies client
    ensures depth == if recursive then ClampInt32(maxDepth, 1, 10, 3, outOfRange) else 1
    ensures maxResults == ClampInt32(maxResultsArg, 1, 1000, 100, outOfRange)
    ensures match if ref == "" then Ok(Resolved("", "")) else ResolveFolderRef(client.graph, ref, true)
            case Err(e) => r == Err(Reference(e)) && client.fetched == old(client.fetched)
            case Ok(root) =>
              var fetch := if root.id == "" then [] else [root.id];
              match if root.id == "" then client.graph.top(maxResults) else client.graph.children(root.id, maxResults)
              case Failed(message) => r == Err(ListingFailed(message)) && client.fetched == old(client.fetched) + fetch
              case Page(folders, truncated) =>
                && r.Ok? && r.value.root == root.path && r.value.truncated == truncated && r.value.recursive == recursive
                && r.value.nodes == Build(client.graph, folders, root.path, depth - 1, maxResults)
                && Levels(r.value.nodes) <= depth
                && client.fetched == old(client.fetched) + fetch + Requested(r.value.nodes, depth - 1)
  {
    var perLevel := ClampInt32(maxResultsArg, 1, MAX_FOLDER_MAX_RESULTS, DEFAULT_FOLDER_MAX_RESULTS, outOfRange);
    var levels := 1;
    if recursive {
      levels := ClampInt32(maxDepth, 1, MAX_FOLDER_MAX_DEPTH, DEFAULT_FOLDER_MAX_DEPTH, outOfRange);
    }
    depth, maxResults := levels, perLevel;
    var rootId, rootPath := "", "";
    if ref != "" {
      var resolved := ResolveFolderRef(client.graph, ref, true);
      if resolved.Err? {
        return Err(Reference(resolved.error)), depth, maxResults;
      }
      rootId, rootPath := resolved.value.id, resolved.value.path;
    }
    r := ListFrom(client, rootId, rootPath, levels, perLevel, recursive);
  }
}
