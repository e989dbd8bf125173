/**
 * Requests sent to the GitHub Git Data REST API (blobs, trees, commits, references), the
 * lookup of the bookmark file in a fetched tree and the clean-up of a fetched blob's content.
 * Serialisation to JSON and the HTTP exchange are not modelled: a request is the record its
 * JSON body encodes.
 */
module GitData {
  import opened Wrappers
  import opened Bookmarks

  /** The file that holds the encrypted bookmark list in the repository. */
  const BookmarkFileName: string := "bookmark.enc"
  const CommitMessage: string := "bookmarks updated"

  /** One entry of the `tree` array of a create-tree request. */
  datatype TreeEntry = TreeEntry(path: string, mode: string, kind: string, sha: string)

  /** Body of POST .../git/trees. */
  datatype TreeRequest = TreeRequest(baseTree: string, tree: seq<TreeEntry>)

  /** Body of POST .../git/commits. */
  datatype CommitRequest = CommitRequest(message: string, parents: seq<string>, tree: string)

  /** Body of PATCH .../git/refs/heads/master. */
  datatype RefUpdateRequest = RefUpdateRequest(sha: string, force: bool)

  /** Body of POST /user/repos. */
  datatype RepoRequest = RepoRequest(name: string, autoInit: bool)

  /** One entry of the `tree` array returned by GET .../git/trees/{sha}. */
  datatype ListedEntry = ListedEntry(path: string, sha: string, url: string)

  /**
   * The remote calls a sync run makes, in the order it makes them. `UploadBlob` carries the
   * node list before it is serialised and encrypted into the blob's content.
   */
  datatype Request =
    | GetUser
    | CheckRepo(repo: string)
    | CreateRepo(repoBody: RepoRequest)
    | GetRef
    | GetCommit(commitOf: string)
    | MergeRemote(headSha: string)
    | UploadBlob(payload: seq<Node>)
    | CreateTree(treeBody: TreeRequest)
    | Commit(commitBody: CommitRequest)
    | UpdateRef(refBody: RefUpdateRequest)

  /**
   * The tree that links the uploaded blob as the bookmark file on top of `baseSha`: one
   * regular-file entry, and nothing else.
   */
  function CreateTreeForBlob(baseSha: string, blobSha: string): (r: TreeRequest)
    ensures r.baseTree == baseSha
    ensures |r.tree| == 1
    ensures r.tree[0] == TreeEntry(BookmarkFileName, "100644", "blob", blobSha)
  {
    TreeRequest(baseSha, [TreeEntry(BookmarkFileName, "100644", "blob", blobSha)])
  }

  /** A commit of `treeSha` with exactly one parent, `parentSha`, and the fixed message. */
  function CommitFor(treeSha: string, parentSha: string): (r: CommitRequest)
    ensures r.parents == [parentSha] && r.tree == treeSha && r.message == CommitMessage
  {
    CommitRequest(CommitMessage, [parentSha], treeSha)
  }

  /** Moves master to `commitSha`, refusing a non-fast-forward update. */
  function UpdateReferenceFor(commitSha: string): (r: RefUpdateRequest)
    ensures r.sha == commitSha && !r.force
  {
    RefUpdateRequest(commitSha, false)
  }

  // ---------------------------------------------------------------- Blob lookup

  /** The index of the first entry whose path is `path`, if any. */
  function FirstWithPath(entries: seq<ListedEntry>, path: string): (r: Option<nat>)
    ensures r.None? <==> forall j :: 0 <= j < |entries| ==> entries[j].path != path
    ensures r.Some? ==> r.value < |entries| && entries[r.value].path == path
    ensures r.Some? ==> forall j :: 0 <= j < r.value ==> entries[j].path != path
  {
    if entries == [] then None
    else if entries[0].path == path then Some(0)
    else match FirstWithPath(entries[1..], path)
      case None => None
      case Some(k) => Some(k + 1)
  }

  /** The blob URLs fetched for a tree listing: that of the first bookmark file, or none. */
  function BlobsToFetch(entries: seq<ListedEntry>): (urls: seq<string>)
    ensures |urls| <= 1
  {
    match FirstWithPath(entries, BookmarkFileName)
    case None => []
    case Some(k) => [entries[k].url]
  }

  /**
   * The `for .. of` loop over the listing: the first entry named `bookmark.enc` has its blob
   * fetched and ends the loop. Returns the URLs fetched.
   */
  method FindBookmarkBlob(entries: seq<ListedEntry>) returns (fetched: seq<string>)
    ensures fetched == BlobsToFetch(entries)
    ensures fetched == [] <==> forall j :: 0 <= j < |entries| ==> entries[j].path != BookmarkFileName
  {
    fetched := [];
    var i := 0;
    while i < |entries|
      invariant 0 <= i <= |entries|
      invariant forall j :: 0 <= j < i ==> entries[j].path != BookmarkFileName
      invariant fetched == []
    {
      if BookmarkFileName == entries[i].path {
        fetched := fetched + [entries[i].url];
        FirstWithPathFound(entries, BookmarkFileName, i);
        return;
      }
      i := i + 1;
    }
  }

  /** When entry `i` is the first with the path, the lookup returns `i`. */
  lemma FirstWithPathFound(entries: seq<ListedEntry>, path: string, i: nat)
    requires i < |entries| && entries[i].path == path
    requires forall j :: 0 <= j < i ==> entries[j].path != path
    ensures FirstWithPath(entries, path) == Some(i)
  {
    var r := FirstWithPath(entries, path);
    assert r.Some?;
    assert !(r.value < i);
    assert !(r.value > i);
  }

  // ---------------------------------------------------------------- Newline stripping

  /** `content.replace(/\n/g, '')`: the blob's base64 text without its line breaks. */
  function StripNewlines(s: string): (r: string)
    ensures '\n' !in r
    ensures |r| <= |s|
  {
    if s == [] then []
    else if s[0] == '\n' then StripNewlines(s[1..])
    else [s[0]] + StripNewlines(s[1..])
  }

  /** Stripping works piecewise, so the remaining characters keep their order. */
  lemma {:induction false} StripNewlinesAppend(a: string, b: string)
    ensures StripNewlines(a + b) == StripNewlines(a) + StripNewlines(b)
  {
    if a != [] {
      assert (a + b)[0] == a[0];
      assert (a + b)[1..] == a[1..] + b;
      StripNewlinesAppend(a[1..], b);
    } else {
      assert a + b == b;
    }
  }

  /** Text without a newline is left as it is. */
  lemma {:induction false} StripNewlinesKeepsPlainText(s: string)
    requires '\n' !in s
    ensures StripNewlines(s) == s
  {
    if s != [] {
      assert s == [s[0]] + s[1..];
      StripNewlinesKeepsPlainText(s[1..]);
    }
  }

  /** Every character other than a newline is kept as many times as it occurs. */
  lemma {:induction false} StripNewlinesCounts(s: string)
    ensures multiset(StripNewlines(s)) == multiset(s)['\n' := 0]
  {
    if s != [] {
      StripNewlinesCounts(s[1..]);
      assert s == [s[0]] + s[1..];
      assert multiset(s) == multiset([s[0]]) + multiset(s[1..]);
    }
  }

  /** Stripping twice gives the same as stripping once. */
  lemma StripNewlinesIdempotent(s: string)
    ensures StripNewlines(StripNewlines(s)) == StripNewlines(s)
  {
    StripNewlinesKeepsPlainText(StripNewlines(s));
  }
}
