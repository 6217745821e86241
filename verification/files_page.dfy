/**
 * The files page: the search over file name and candidate name, which the
 * handler computes directly (there is no effect), and the choice of unit
 * when a file size is displayed.
 */
module FilesPage {
  import opened Seqs
  import opened Text

  /** A document attached to a candidate, as the page lists it. */
  datatype FileItem = FileItem(
    id: string,
    name: string,
    kind: string,
    size: int,
    candidateName: string,
    uploadDate: string,
    path: string)

  /** `` `${file.name} ${file.candidateName}`.toLowerCase() ``. */
  function FileData(file: FileItem): string
  {
    Lower(file.name + " " + file.candidateName)
  }

  predicate MatchesQuery(file: FileItem, query: string)
  {
    Contains(FileData(file), Lower(query))
  }

  function QueryMatcher(query: string): FileItem -> bool
  {
    (file: FileItem) => MatchesQuery(file, query)
  }

  /**
   * The list `handleSearch` shows: every file for an empty query, otherwise
   * the files the query matches, in their order.
   */
  function Search(files: seq<FileItem>, query: string): (r: seq<FileItem>)
    ensures query == "" ==> r == files
    ensures query != "" ==> forall f :: f in r <==> f in files && MatchesQuery(f, query)
    ensures query != "" ==> forall f ::
      multiset(r)[f] == if MatchesQuery(f, query) then multiset(files)[f] else 0
    ensures IsSubsequence(r, files)
  {
    if query == "" then
      SubsequenceRefl(files);
      files
    else
      FilterMembers(files, QueryMatcher(query));
      FilterMultiset(files, QueryMatcher(query));
      FilterIsSubsequence(files, QueryMatcher(query));
      Filter(files, QueryMatcher(query))
  }

  /** A file found by a query is also found by any part of it. */
  lemma {:induction false} NarrowerQueryFindsMore(file: FileItem, query: string, part: string)
    requires MatchesQuery(file, query)
    requires Contains(query, part)
    ensures MatchesQuery(file, part)
  {
    var text, lowered := FileData(file), Lower(query);
    ContainsAt(text, lowered);
    var i :| OccursAt(text, lowered, i);
    ContainsAt(query, part);
    var j :| OccursAt(query, part, j);
    LowerSlice(query, j, j + |part|);
    assert OccursAt(lowered, Lower(part), j);
    OccursWithin(text, lowered, Lower(part), i, j);
    ContainsAt(text, Lower(part));
  }

  // ---------------------------------------------------------------------
  // File sizes
  // ---------------------------------------------------------------------

  const KiB: int := 1024
  const MiB: int := 1048576

  /**
   * `formatFileSize(bytes)` before the number is rendered: the amount to
   * show and the unit suffix. Bytes are shown as they are, kilobytes and
   * megabytes as the quotient (which the page renders with one decimal).
   */
  datatype SizeText = SizeText(amount: real, suffix: string)

  function FormatFileSize(bytes: int): (r: SizeText)
    ensures r.suffix == " B" <==> bytes < KiB
    ensures r.suffix == " KB" <==> KiB <= bytes < MiB
    ensures r.suffix == " MB" <==> MiB <= bytes
    ensures r.suffix == " B" ==> r.amount == bytes as real
    ensures r.suffix == " KB" ==> r.amount * (KiB as real) == bytes as real && 1.0 <= r.amount < 1024.0
    ensures r.suffix == " MB" ==> r.amount * (MiB as real) == bytes as real && 1.0 <= r.amount
  {
    if bytes < KiB then SizeText(bytes as real, " B")
    else if bytes < MiB then SizeText(bytes as real / KiB as real, " KB")
    else SizeText(bytes as real / MiB as real, " MB")
  }

  /** The unit never shrinks as the size grows. */
  lemma UnitMonotone(a: int, b: int)
    requires a <= b
    ensures FormatFileSize(a).suffix == " MB" ==> FormatFileSize(b).suffix == " MB"
    ensures FormatFileSize(b).suffix == " B" ==> FormatFileSize(a).suffix == " B"
  {
  }

  // ---------------------------------------------------------------------
  // The page's state
  // ---------------------------------------------------------------------

  class Page {
    var files: seq<FileItem>
    var filteredFiles: seq<FileItem>
    var searchQuery: string

    constructor (list: seq<FileItem>)
      ensures files == list && filteredFiles == list && searchQuery == ""
    {
      files := list;
      filteredFiles := list;
      searchQuery := "";
    }

    /** `handleSearch`: store the query and recompute the shown list at once. */
    method HandleSearch(query: string)
      modifies this
      ensures searchQuery == query && files == old(files)
      ensures filteredFiles == Search(files, query)
    {
      searchQuery := query;
      if query != "" {
        filteredFiles := Filter(files, QueryMatcher(query));
      } else {
        filteredFiles := files;
      }
    }
  }
}
