/**
 * popup/options.js: `fillBookmarkList`, which pushes every node of the bookmark tree into a
 * caller's list, and the `#btnCallGithubSync` handler of this version, which uploads that
 * flattened list without merging and keeps the last commit in `github.rev`.
 */
module PopupSync {
  import opened Wrappers
  import opened Bookmarks
  import opened GitData

  /** The JavaScript array that `fillBookmarkList` pushes into. */
  class BookmarkList {
    var items: seq<Node>

    constructor ()
      ensures items == []
    {
      items := [];
    }

    method Push(n: Node)
      modifies this
      ensures items == old(items) + [n]
    {
      items := items + [n];
    }
  }

  /**
   * `fillBookmarkList(bookmarkItem, bookmarks)`: appends the node, then, when it has a
   * `children` property, each child's nodes in array order. Nothing already in the list moves.
   */
  method FillBookmarkList(item: Node, list: BookmarkList)
    modifies list
    ensures list.items == old(list.items) + Preorder(item)
    decreases item
  {
    list.Push(item);
    if item.Branch? {
      var cs := item.children;
      ghost var parts := ChildPreorders(item);
      ghost var start := list.items;
      var i := 0;
      while i < |cs|
        invariant 0 <= i <= |cs|
        invariant list.items == start + Concat(parts[..i])
      {
        ghost var done := list.items;
        FillBookmarkList(cs[i], list);
        assert list.items == start + Concat(parts[..i + 1]) by {
          assert list.items == done + parts[i];
          ConcatPrefixStep(parts, i);
          AppendAssoc(start, Concat(parts[..i]), parts[i]);
        }
        i := i + 1;
      }
      assert list.items == old(list.items) + Preorder(item) by {
        assert parts[..|cs|] == parts;
        PreorderUnfold(item);
        AppendAssoc(old(list.items), [item], Concat(parts));
      }
    }
  }

  /** The list the sync uploads: a fresh list filled from the tree's root. */
  method FlattenTree(root: Node) returns (list: BookmarkList)
    ensures fresh(list)
    ensures list.items == Preorder(root)
  {
    list := new BookmarkList();
    FillBookmarkList(root, list);
  }

  /** The uploaded list starts with the root and holds one item per node of the tree. */
  lemma FlattenedListShape(root: Node)
    ensures Preorder(root)[0] == root
    ensures |Preorder(root)| == Count(root)
    ensures forall m :: m in Preorder(root) <==> Contains(root, m)
  {
    PreorderLength(root);
    forall m
      ensures m in Preorder(root) <==> Contains(root, m)
    {
      PreorderMembers(root, m);
    }
  }

  // ---------------------------------------------------------------- The sync handler

  /** The stored `github` record of this version; an empty string is an unset value. */
  datatype Settings = Settings(token: string, key: string, repo: string, user: string, rev: Option<string>)

  /** The outcome of each remote step; `None`/`false` is the error callback. */
  datatype Remote = Remote(
    login: Option<string>,        // GET /user -> login
    repoExists: bool,             // GET /repos/{user}/{repo} succeeded
    repoCreated: bool,            // POST /user/repos succeeded
    tree: Node,                   // browser.bookmarks.getTree()[0]
    refSha: Option<string>,       // GET .../git/refs/heads/master -> object.sha
    commitSha: Option<string>,    // GET .../git/commits/{refSha} -> sha
    blobSha: Option<string>,      // POST .../git/blobs -> sha
    newTreeSha: Option<string>,   // POST .../git/trees -> sha
    newCommitSha: Option<string>, // POST .../git/commits -> sha
    refUpdated: bool)             // PATCH .../git/refs/heads/master succeeded

  datatype Stop =
    | NotConfigured | NoUser | NoRepo | RefFailed | CommitLookupFailed | NoBlob | TreeFailed
    | CommitFailed | RefUpdateFailed | Done

  datatype SyncRun = SyncRun(settings: Settings, requests: seq<Request>, stop: Stop)

  predicate Configured(s: Settings)
  {
    s.token != "" && s.key != "" && s.repo != ""
  }

  /** This version's repository creation always asks for the name "bookmarks". */
  function NewRepoRequest(repoName: string): (r: RepoRequest)
    ensures r.name == "bookmarks" && r.autoInit
  {
    RepoRequest("bookmarks", true)
  }

  predicate ChainSucceeds(s: Settings, env: Remote)
  {
    && Configured(s)
    && (s.user != "" || (env.login.Some? && env.login.value != ""))
    && (env.repoExists || env.repoCreated)
    && env.refSha.Some? && env.commitSha.Some? && env.blobSha.Some? && env.newTreeSha.Some?
    && env.newCommitSha.Some? && env.refUpdated
  }

  /** The run from the upload on, once the ref and its commit are known. */
  function RunFromUpload(s: Settings, env: Remote, refSha: string, commitSha: string, reqs: seq<Request>)
    : (r: SyncRun)
  {
    var reqs := reqs + [UploadBlob(Preorder(env.tree))];
    match env.blobSha
    case None => SyncRun(s, reqs, NoBlob)
    case Some(blob) =>
      var reqs := reqs + [CreateTree(CreateTreeForBlob(refSha, blob))];
      match env.newTreeSha
      case None => SyncRun(s, reqs, TreeFailed)
      case Some(tree) =>
        var reqs := reqs + [Commit(CommitFor(tree, commitSha))];
        match env.newCommitSha
        case None => SyncRun(s, reqs, CommitFailed)
        case Some(c) =>
          var reqs := reqs + [UpdateRef(UpdateReferenceFor(c))];
          if env.refUpdated then SyncRun(s.(rev := Some(c)), reqs, Done) else SyncRun(s, reqs, RefUpdateFailed)
  }

  /** The run from the repository check on, once the user name `s.user` is known. */
  function RunFromRepoCheck(s: Settings, env: Remote, reqs: seq<Request>): (r: SyncRun)
  {
    var reqs := reqs + [CheckRepo(s.repo)] + (if env.repoExists then [] else [CreateRepo(NewRepoRequest(s.repo))]);
    if !(env.repoExists || env.repoCreated) then SyncRun(s, reqs, NoRepo)
    else
      var reqs := reqs + [GetRef];
      match env.refSha
      case None => SyncRun(s, reqs, RefFailed)
      case Some(refSha) =>
        var reqs := reqs + [GetCommit(refSha)];
        match env.commitSha
        case None => SyncRun(s, reqs, CommitLookupFailed)
        case Some(commitSha) => RunFromUpload(s, env, refSha, commitSha, reqs)
  }

  function WithUser(s: Settings, env: Remote): (t: Settings)
  {
    if s.user == "" && env.login.Some? then s.(user := env.login.value) else s
  }

  /** The whole handler on values: the new record, the remote calls made, where it stopped. */
  function RunSync(s: Settings, env: Remote): (r: SyncRun)
  {
    if !Configured(s) then SyncRun(s, [], NotConfigured)
    else
      var lookup := if s.user == "" then [GetUser] else [];
      var s1 := WithUser(s, env);
      if s1.user == "" then SyncRun(s1, lookup, NoUser)
      else RunFromRepoCheck(s1, env, lookup)
  }

  /** The record kept in `browser.storage.local` under the key `github`. */
  class Github {
    var token: string
    var key: string
    var repo: string
    var user: string
    var rev: Option<string>

    function Snapshot(): Settings
      reads this
    {
      Settings(token, key, repo, user, rev)
    }

    constructor (s: Settings)
      ensures Snapshot() == s
    {
      token, key, repo, user, rev := s.token, s.key, s.repo, s.user, s.rev;
    }

    /** One click on the sync button; returns the remote calls made, in order. */
    method Sync(env: Remote) returns (requests: seq<Request>)
      modifies this
      ensures Snapshot() == RunSync(old(Snapshot()), env).settings
      ensures requests == RunSync(old(Snapshot()), env).requests
    {
      requests := [];
      if !(token != "" && key != "" && repo != "") {
        return;
      }
      var username := user;
      if username == "" {
        requests := requests + [GetUser];
        if env.login.Some? {
          username := env.login.value;
          user := username;
        }
      }
      if username == "" {
        return;
      }
      ghost var s0, s1, lookup := old(Snapshot()), Snapshot(), requests;
      assert Configured(s0);
      assert lookup == if s0.user == "" then [GetUser] else [];
      assert s1 == WithUser(s0, env) && s1.user != "";
      assert RunSync(s0, env) == RunFromRepoCheck(s1, env, lookup);
      requests := CheckRepoAndUpload(env, requests);
    }

    /** The steps from the repository check on, once the user name is known. */
    method CheckRepoAndUpload(env: Remote, before: seq<Request>) returns (requests: seq<Request>)
      modifies this
      ensures Snapshot() == RunFromRepoCheck(old(Snapshot()), env, before).settings
      ensures requests == RunFromRepoCheck(old(Snapshot()), env, before).requests
    {
      requests := before;
      var isRepoPresent := false;
      requests := requests + [CheckRepo(repo)];
      if !env.repoExists {
        requests := requests + [CreateRepo(NewRepoRequest(repo))];
        if env.repoCreated {
          isRepoPresent := true;
        }
      } else {
        isRepoPresent := true;
      }
      if !isRepoPresent {
        return;
      }
      var bookmarksAsList := FlattenTree(env.tree);
      var bookmarks := bookmarksAsList.items;
      requests := requests + [GetRef];
      if env.refSha.None? {
        return;
      }
      var treeSha := env.refSha.value;
      requests := requests + [GetCommit(treeSha)];
      if env.commitSha.None? {
        return;
      }
      assert Snapshot() == old(Snapshot());
      assert requests == before + [CheckRepo(repo)]
        + (if env.repoExists then [] else [CreateRepo(NewRepoRequest(repo))]) + [GetRef] + [GetCommit(treeSha)];
      assert RunFromRepoCheck(Snapshot(), env, before)
        == RunFromUpload(Snapshot(), env, treeSha, env.commitSha.value, requests);
      requests := UploadAndCommit(env, treeSha, env.commitSha.value, bookmarks, requests);
    }

    /** The steps from the upload on: `treeSha` is the ref's sha, `commitSha` its commit's. */
    method UploadAndCommit(env: Remote, treeSha: string, commitSha: string, bookmarks: seq<Node>,
                           before: seq<Request>) returns (requests: seq<Request>)
      requires bookmarks == Preorder(env.tree)
      modifies this
      ensures Snapshot() == RunFromUpload(old(Snapshot()), env, treeSha, commitSha, before).settings
      ensures requests == RunFromUpload(old(Snapshot()), env, treeSha, commitSha, before).requests
    {
      requests := before + [UploadBlob(bookmarks)];
      var bookmarkAsBlob := env.blobSha;
      if bookmarkAsBlob.None? {
        return;
      }
      requests := requests + [CreateTree(CreateTreeForBlob(treeSha, bookmarkAsBlob.value))];
      if env.newTreeSha.None? {
        return;
      }
      var newTreeSha := env.newTreeSha.value;
      requests := requests + [Commit(CommitFor(newTreeSha, commitSha))];
      if env.newCommitSha.None? {
        return;
      }
      var newCommitSha := env.newCommitSha.value;
      requests := requests + [UpdateRef(UpdateReferenceFor(newCommitSha))];
      if env.refUpdated {
        rev := Some(newCommitSha);
      }
    }
  }

  // ---------------------------------------------------------------- Properties of a run

  /** Without token, key and repo nothing is requested and nothing changes. */
  lemma SyncNeedsSettings(s: Settings, env: Remote)
    requires !Configured(s)
    ensures RunSync(s, env) == SyncRun(s, [], NotConfigured)
  {
  }

  /**
   * `rev` is replaced exactly when the whole chain succeeds, and then by the new commit's
   * sha; otherwise it keeps its old value. Token, key and repo never change.
   */
  lemma RevOnlyOnFullSuccess(s: Settings, env: Remote)
    ensures RunSync(s, env).stop == Done <==> ChainSucceeds(s, env)
    ensures ChainSucceeds(s, env) ==> RunSync(s, env).settings.rev == env.newCommitSha
    ensures !ChainSucceeds(s, env) ==> RunSync(s, env).settings.rev == s.rev
    ensures var t := RunSync(s, env).settings; t.token == s.token && t.key == s.key && t.repo == s.repo
  {
  }

  /** Without a blob, the upload stage adds only the upload, and keeps the record. */
  lemma UploadWithoutBlob(s: Settings, env: Remote, refSha: string, commitSha: string, reqs: seq<Request>)
    requires env.blobSha.None?
    ensures forall q :: q in RunFromUpload(s, env, refSha, commitSha, reqs).requests ==> q in reqs || q.UploadBlob?
    ensures RunFromUpload(s, env, refSha, commitSha, reqs).settings == s
  {
  }

  lemma RepoCheckWithoutBlob(s: Settings, env: Remote, reqs: seq<Request>)
    requires env.blobSha.None?
    ensures forall q :: q in RunFromRepoCheck(s, env, reqs).requests ==>
      q in reqs || !(q.CreateTree? || q.Commit? || q.UpdateRef?)
    ensures RunFromRepoCheck(s, env, reqs).settings == s
  {
    var reqs1 := reqs + [CheckRepo(s.repo)] + (if env.repoExists then [] else [CreateRepo(NewRepoRequest(s.repo))]);
    if (env.repoExists || env.repoCreated) && env.refSha.Some? && env.commitSha.Some? {
      var refSha := env.refSha.value;
      UploadWithoutBlob(s, env, refSha, env.commitSha.value, reqs1 + [GetRef] + [GetCommit(refSha)]);
    }
  }

  /** A missing blob ends the run before any tree, commit or reference request. */
  lemma NullBlobStopsBeforeTree(s: Settings, env: Remote)
    requires env.blobSha.None?
    ensures forall q :: q in RunSync(s, env).requests ==> !q.CreateTree? && !q.Commit? && !q.UpdateRef?
    ensures RunSync(s, env).settings.rev == s.rev
  {
    if Configured(s) && WithUser(s, env).user != "" {
      RepoCheckWithoutBlob(WithUser(s, env), env, if s.user == "" then [GetUser] else []);
    }
  }

  /** The saved `rev` is never consulted: the calls made do not depend on it. */
  lemma SyncIgnoresSavedRev(s: Settings, env: Remote, other: Option<string>)
    ensures RunSync(s.(rev := other), env).requests == RunSync(s, env).requests
    ensures RunSync(s.(rev := other), env).stop == RunSync(s, env).stop
  {
  }

  /** What each request of a run carries, in terms of the tree and the remote answers. */
  predicate Linked(env: Remote, q: Request)
  {
    && (q.UploadBlob? ==> q.payload == Preorder(env.tree))
    && (q.CreateRepo? ==> q.repoBody.name == "bookmarks")
    && (q.CreateTree? ==> env.refSha.Some? && env.blobSha.Some?
                          && q.treeBody == CreateTreeForBlob(env.refSha.value, env.blobSha.value))
    && (q.Commit? ==> env.newTreeSha.Some? && env.commitSha.Some?
                      && q.commitBody == CommitFor(env.newTreeSha.value, env.commitSha.value))
    && (q.UpdateRef? ==> env.newCommitSha.Some? && q.refBody == UpdateReferenceFor(env.newCommitSha.value))
  }

  lemma UploadLinks(s: Settings, env: Remote, refSha: string, commitSha: string, reqs: seq<Request>)
    requires env.refSha == Some(refSha) && env.commitSha == Some(commitSha)
    requires forall q :: q in reqs ==> Linked(env, q)
    ensures forall q :: q in RunFromUpload(s, env, refSha, commitSha, reqs).requests ==> Linked(env, q)
  {
  }

  lemma RepoCheckLinks(s: Settings, env: Remote, reqs: seq<Request>)
    requires forall q :: q in reqs ==> Linked(env, q)
    ensures forall q :: q in RunFromRepoCheck(s, env, reqs).requests ==> Linked(env, q)
  {
    var reqs1 := reqs + [CheckRepo(s.repo)] + (if env.repoExists then [] else [CreateRepo(NewRepoRequest(s.repo))]);
    if (env.repoExists || env.repoCreated) && env.refSha.Some? && env.commitSha.Some? {
      var refSha := env.refSha.value;
      UploadLinks(s, env, refSha, env.commitSha.value, reqs1 + [GetRef] + [GetCommit(refSha)]);
    }
  }

  /**
   * The requests carry what the chain fetched: the upload is the pre-order of the whole tree
   * (root first, one item per node), the repository is always named "bookmarks", the tree has
   * the single bookmark file on top of the ref's sha, the commit's only parent is the fetched
   * commit, and the reference moves to the new commit.
   */
  lemma RequestsLinkTheChain(s: Settings, env: Remote, q: Request)
    requires q in RunSync(s, env).requests
    ensures q.UploadBlob? ==>
      q.payload == Preorder(env.tree) && q.payload[0] == env.tree && |q.payload| == Count(env.tree)
    ensures q.CreateRepo? ==> q.repoBody.name == "bookmarks"
    ensures q.CreateTree? ==> (env.refSha.Some? && env.blobSha.Some?
      && q.treeBody == CreateTreeForBlob(env.refSha.value, env.blobSha.value))
    ensures q.Commit? ==> (env.newTreeSha.Some? && env.commitSha.Some?
      && q.commitBody == CommitFor(env.newTreeSha.value, env.commitSha.value))
    ensures q.UpdateRef? ==> env.newCommitSha.Some? && q.refBody == UpdateReferenceFor(env.newCommitSha.value)
  {
    if Configured(s) && WithUser(s, env).user != "" {
      RepoCheckLinks(WithUser(s, env), env, if s.user == "" then [GetUser] else []);
    }
    assert Linked(env, q);
    PreorderLength(env.tree);
  }
}
