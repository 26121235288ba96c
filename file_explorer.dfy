/** The browsing state of the `FileExplorer` component in
    src/components/file-explorer.tsx: a breadcrumb trail, the file shown in
    the preview, and the search box that filters the items on display. */
module FileExplorer {
  import opened Options
  import opened Text
  import opened FileTypes
  import Seqs

  /** An item on display; `kind` is its `type` field. */
  datatype ExplorerFile = ExplorerFile(id: string, name: string, kind: FileKind)

  /** Whether the lowercased name contains the lowercased query. */
  predicate NameMatches(file: ExplorerFile, query: string)
  {
    Contains(Lower(file.name), Lower(query))
  }

  /** The filter's test for an already lowercased query. */
  function MatchesLowered(needle: string): ExplorerFile -> bool
  {
    (file: ExplorerFile) => Contains(Lower(file.name), needle)
  }

  /** `filteredFiles`: every item for an empty query, otherwise the items
      whose lowercased name contains the lowercased query, in order. */
  function FilteredFiles(files: seq<ExplorerFile>, query: string): (shown: seq<ExplorerFile>)
    ensures query == "" ==> shown == files
    ensures |shown| <= |files|
    ensures forall i :: 0 <= i < |shown| ==> shown[i] in files && NameMatches(shown[i], query)
    ensures forall i :: 0 <= i < |files| && NameMatches(files[i], query) ==> files[i] in shown
  {
    if query == "" then
      EmptyQueryMatchesAll(files);
      files
    else Seqs.Filter(files, MatchesLowered(Lower(query)))
  }

  /** Every name contains the empty query, so the short cut for an empty
      query shows what the filter would. */
  lemma EmptyQueryMatchesAll(files: seq<ExplorerFile>)
    ensures Seqs.Filter(files, MatchesLowered("")) == files
  {
    forall i | 0 <= i < |files| ensures MatchesLowered("")(files[i]) {
      ContainsEmpty(Lower(files[i].name));
    }
    Seqs.FilterKeepAll(files, MatchesLowered(""));
  }

  /** Filtering keeps the relative order of the items: filtering two runs of
      items one after the other gives the two filtered runs one after the
      other. */
  lemma FilteredFilesKeepsOrder(a: seq<ExplorerFile>, b: seq<ExplorerFile>, query: string)
    ensures FilteredFiles(a + b, query) == FilteredFiles(a, query) + FilteredFiles(b, query)
  {
    if query != "" {
      Seqs.FilterConcat(a, b, MatchesLowered(Lower(query)));
    }
  }

  /** The search ignores ASCII case in both the names and the query. */
  lemma FilteredFilesIgnoresQueryCase(files: seq<ExplorerFile>, query: string)
    ensures FilteredFiles(files, Lower(query)) == FilteredFiles(files, query)
  {
    LowerIdempotent(query);
  }

  /** `currentPath.slice(0, index + 1)`: the first `index + 1` segments, or
      all of them when there are fewer. */
  function Truncated(path: seq<string>, index: nat): (kept: seq<string>)
    ensures |kept| == if index + 1 <= |path| then index + 1 else |path|
    ensures kept == path[..|kept|]
  {
    if index + 1 <= |path| then path[..index + 1] else path
  }

  /** Going back to the crumb just before a folder that was entered returns
      to the trail as it was before entering it. */
  lemma EnterThenBack(path: seq<string>, name: string)
    requires |path| >= 1
    ensures Truncated(path + [name], |path| - 1) == path
  {
  }

  /** Navigating to the last crumb leaves the trail as it is. */
  lemma NavigateToLastIsNoOp(path: seq<string>)
    requires |path| >= 1
    ensures Truncated(path, |path| - 1) == path
  {
  }

  class Explorer {
    var currentPath: seq<string>
    var selectedFile: Option<ExplorerFile>
    var searchQuery: string

    /** The trail always starts at the "Home" crumb. */
    predicate Valid()
      reads this
    {
      |currentPath| >= 1 && currentPath[0] == "Home"
    }

    constructor ()
      ensures Valid()
      ensures currentPath == ["Home"] && selectedFile == None && searchQuery == ""
    {
      currentPath := ["Home"];
      selectedFile := None;
      searchQuery := "";
    }

    /** The items on display for the current query. */
    function Shown(files: seq<ExplorerFile>): (shown: seq<ExplorerFile>)
      reads this
      ensures |shown| <= |files|
      ensures searchQuery == "" ==> shown == files
      ensures forall i :: 0 <= i < |shown| ==> shown[i] in files && NameMatches(shown[i], searchQuery)
      ensures forall i :: 0 <= i < |files| && NameMatches(files[i], searchQuery) ==> files[i] in shown
    {
      FilteredFiles(files, searchQuery)
    }

    /** The search box's `onChange`. */
    method SetSearchQuery(query: string)
      modifies this
      ensures searchQuery == query
      ensures currentPath == old(currentPath) && selectedFile == old(selectedFile)
    {
      searchQuery := query;
    }

    /** `handleFileClick(file)`: a folder is entered, adding its name to the
        trail; any other item is opened in the preview. */
    method HandleFileClick(file: ExplorerFile)
      requires Valid()
      modifies this
      ensures Valid()
      ensures file.kind == Folder ==> currentPath == old(currentPath) + [file.name] && selectedFile == old(selectedFile)
      ensures file.kind != Folder ==> currentPath == old(currentPath) && selectedFile == Some(file)
      ensures searchQuery == old(searchQuery)
    {
      if file.kind == Folder {
        currentPath := currentPath + [file.name];
      } else {
        selectedFile := Some(file);
      }
    }

    /** `navigateToPath(index)`: keep the crumbs up to and including `index`. */
    method NavigateToPath(index: nat)
      requires Valid()
      modifies this
      ensures Valid()
      ensures currentPath == Truncated(old(currentPath), index)
      ensures selectedFile == old(selectedFile) && searchQuery == old(searchQuery)
    {
      currentPath := Truncated(currentPath, index);
    }

    /** `closePreview()`. */
    method ClosePreview()
      modifies this
      ensures selectedFile == None
      ensures currentPath == old(currentPath) && searchQuery == old(searchQuery)
    {
      selectedFile := None;
    }
  }
}
