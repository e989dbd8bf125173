/**
 * The `#btnCallGithubSync` handler of popup/scripts/options.js: a chain of remote steps over
 * the stored `github` record. Each remote call is a given outcome (`Remote`); the handler
 * records the calls it makes and updates `github.user` and `github.ref` in place.
 */
module ScriptSync {
  import opened Wrappers
  import opened Bookmarks
  import opened GitData

  /** The stored `github` record; an empty string is an unset (falsy) value. */
  datatype Settings = Settings(token: string, key: string, repo: string, user: string, ref: Option<string>)

  /** The outcome of each remote step; `None`/`false` is the error callback. */
  datatype Remote = Remote(
    login: Option<string>,     // GET /user -> login
    repoExists: bool,          // GET /repos/{user}/{repo} succeeded
    repoCreated: bool,         // POST /user/repos succeeded
    tree: Node,                // browser.bookmarks.getTree()[0]
    headSha: Option<string>,   // GET .../git/refs/heads/master -> object.sha
    blobSha: Option<string>,   // POST .../git/blobs -> sha
    treeSha: Option<string>,   // POST .../git/trees -> sha
    commitSha: Option<string>, // POST .../git/commits -> sha
    refUpdated: bool)          // PATCH .../git/refs/heads/master succeeded

  /** Where a run stops. */
  datatype Stop =
    | NotConfigured | NoUser | NoRepo | NoRoots | RefFailed | NoBlob | TreeFailed | CommitFailed
    | RefUpdateFailed | Done

  datatype SyncRun = SyncRun(settings: Settings, requests: seq<Request>, stop: Stop)

  /** `token && key && repoName`. */
  predicate Configured(s: Settings)
  {
    s.token != "" && s.key != "" && s.repo != ""
  }

  /** The repository creation request of this version: named after the configured repo. */
  function NewRepoRequest(repoName: string): (r: RepoRequest)
    ensures r.name == repoName && r.autoInit
  {
    RepoRequest(repoName, true)
  }

  /** Every remote step of the chain succeeds. */
  predicate ChainSucceeds(s: Settings, env: Remote)
  {
    && Configured(s)
    && (s.user != "" || (env.login.Some? && env.login.value != ""))
    && (env.repoExists || env.repoCreated)
    && env.tree.Branch?
    && env.headSha.Some? && env.blobSha.Some? && env.treeSha.Some? && env.commitSha.Some?
    && env.refUpdated
  }

  /** The run from the upload of the blob on, once the head commit is known. */
  function RunFromUpload(s: Settings, env: Remote, head: string, reqs: seq<Request>): (r: SyncRun)
    requires env.tree.Branch?
  {
    var reqs := reqs + (if s.ref != Some(head) then [MergeRemote(head)] else []) + [UploadBlob(env.tree.children)];
    match env.blobSha
    case None => SyncRun(s, reqs, NoBlob)
    case Some(blob) =>
      var reqs := reqs + [CreateTree(CreateTreeForBlob(head, blob))];
      match env.treeSha
      case None => SyncRun(s, reqs, TreeFailed)
      case Some(tree) =>
        var reqs := reqs + [Commit(CommitFor(tree, head))];
        match env.commitSha
        case None => SyncRun(s, reqs, CommitFailed)
        case Some(c) =>
          var reqs := reqs + [UpdateRef(UpdateReferenceFor(c))];
          if env.refUpdated then SyncRun(s.(ref := Some(c)), reqs, Done) else SyncRun(s, reqs, RefUpdateFailed)
  }

  /** The run from the repository check on, once the user name `s.user` is known. */
  function RunFromRepoCheck(s: Settings, env: Remote, reqs: seq<Request>): (r: SyncRun)
  {
    var reqs := reqs + [CheckRepo(s.repo)] + (if env.repoExists then [] else [CreateRepo(NewRepoRequest(s.repo))]);
    if !(env.repoExists || env.repoCreated) then SyncRun(s, reqs, NoRepo)
    else if env.tree.Leaf? then SyncRun(s, reqs, NoRoots)
    else
      var reqs := reqs + [GetRef];
      match env.headSha
      case None => SyncRun(s, reqs, RefFailed)
      case Some(head) => RunFromUpload(s, env, head, reqs)
  }

  /** The record after the user name step: the looked-up login is saved when none was. */
  function WithUser(s: Settings, env: Remote): (t: Settings)
  {
    if s.user == "" && env.login.Some? then s.(user := env.login.value) else s
  }

  /** The whole handler on values: the new record, the remote calls made, where it stopped. */
  function RunSync(s: Settings, env: Remote): (r: SyncRun)
  {
    if !Configured(s) then SyncRun(s, [], NotConfigured)
    else
      var lookup := if s.user == "" then [GetUser] else [];
      var s1 := WithUser(s, env);
      if s1.user == "" then SyncRun(s1, lookup, NoUser)
      else RunFromRepoCheck(s1, env, lookup)
  }

  /** The record kept in `browser.storage.local` under the key `github`. */
  class Github {
    var token: string
    var key: string
    var repo: string
    var user: string
    var ref: Option<string>

    function Snapshot(): Settings
      reads this
    {
      Settings(token, key, repo, user, ref)
    }

    constructor (s: Settings)
      ensures Snapshot() == s
    {
      token, key, repo, user, ref := s.token, s.key, s.repo, s.user, s.ref;
    }

    /** One click on the sync button; returns the remote calls made, in order. */
    method Sync(env: Remote) returns (requests: seq<Request>)
      modifies this
      ensures Snapshot() == RunSync(old(Snapshot()), env).settings
      ensures requests == RunSync(old(Snapshot()), env).requests
    {
      requests := [];
      if !(token != "" && key != "" && repo != "") {
        return;
      }
      var username := user;
      if username == "" {
        requests := requests + [GetUser];
        if env.login.Some? {
          username := env.login.value;
          user := username;
        }
      }
      if username == "" {
        return;
      }
      ghost var s0, s1, lookup := old(Snapshot()), Snapshot(), requests;
      assert Configured(s0);
      assert lookup == if s0.user == "" then [GetUser] else [];
      assert s1 == WithUser(s0, env) && s1.user != "";
      assert RunSync(s0, env) == RunFromRepoCheck(s1, env, lookup);
      requests := CheckRepoAndUpload(env, requests);
    }

    /** The steps from the repository check on, once the user name is known. */
    method CheckRepoAndUpload(env: Remote, before: seq<Request>) returns (requests: seq<Request>)
      modifies this
      ensures Snapshot() == RunFromRepoCheck(old(Snapshot()), env, before).settings
      ensures requests == RunFromRepoCheck(old(Snapshot()), env, before).requests
    {
      requests := before;
      var isRepoPresent := false;
      requests := requests + [CheckRepo(repo)];
      if !env.repoExists {
        requests := requests + [CreateRepo(NewRepoRequest(repo))];
        if env.repoCreated {
          isRepoPresent := true;
        }
      } else {
        isRepoPresent := true;
      }
      if !isRepoPresent {
        return;
      }
      var roots := RootsAsList(env.tree);
      if roots.None? {
        return;
      }
      requests := requests + [GetRef];
      if env.headSha.None? {
        return;
      }
      assert Snapshot() == old(Snapshot());
      assert requests == before + [CheckRepo(repo)]
        + (if env.repoExists then [] else [CreateRepo(NewRepoRequest(repo))]) + [GetRef];
      assert RunFromRepoCheck(Snapshot(), env, before)
        == RunFromUpload(Snapshot(), env, env.headSha.value, requests);
      requests := UploadAndCommit(env, env.headSha.value, roots.value, requests);
    }

    /** The steps from the upload on, once the head commit `headCommitSha` is known. */
    method UploadAndCommit(env: Remote, headCommitSha: string, roots: seq<Node>, before: seq<Request>)
      returns (requests: seq<Request>)
      requires env.tree.Branch? && roots == env.tree.children
      modifies this
      ensures Snapshot() == RunFromUpload(old(Snapshot()), env, headCommitSha, before).settings
      ensures requests == RunFromUpload(old(Snapshot()), env, headCommitSha, before).requests
    {
      requests := before;
      if ref != Some(headCommitSha) {
        requests := requests + [MergeRemote(headCommitSha)];
      }
      requests := requests + [UploadBlob(roots)];
      var bookmarkAsBlob := env.blobSha;
      if bookmarkAsBlob.None? {
        return;
      }
      requests := requests + [CreateTree(CreateTreeForBlob(headCommitSha, bookmarkAsBlob.value))];
      if env.treeSha.None? {
        return;
      }
      var newTreeSha := env.treeSha.value;
      requests := requests + [Commit(CommitFor(newTreeSha, headCommitSha))];
      if env.commitSha.None? {
        return;
      }
      var commitSha := env.commitSha.value;
      requests := requests + [UpdateRef(UpdateReferenceFor(commitSha))];
      if env.refUpdated {
        ref := Some(commitSha);
      }
    }
  }

  /**
   * The loop that keeps the roots (menu, toolbar, other, mobile): every child of the tree's
   * root, in order. A root without `children` makes the loop throw (`None`).
   */
  method RootsAsList(root: Node) returns (roots: Option<seq<Node>>)
    ensures roots.None? <==> root.Leaf?
    ensures roots.Some? ==> roots.value == root.children
  {
    if root.Leaf? {
      return None;
    }
    var list: seq<Node> := [];
    var i := 0;
    while i < |root.children|
      invariant 0 <= i <= |root.children|
      invariant list == root.children[..i]
    {
      list := list + [root.children[i]];
      i := i + 1;
    }
    assert root.children[..i] == root.children;
    return Some(list);
  }

  // ---------------------------------------------------------------- Properties of a run

  /** Without token, key and repo nothing is requested and nothing changes. */
  lemma SyncNeedsSettings(s: Settings, env: Remote)
    requires !Configured(s)
    ensures RunSync(s, env) == SyncRun(s, [], NotConfigured)
  {
  }

  /** A run changes at most `user` and `ref`. */
  lemma SyncChangesOnlyUserAndRef(s: Settings, env: Remote)
    ensures var t := RunSync(s, env).settings;
      t.token == s.token && t.key == s.key && t.repo == s.repo
  {
  }

  /**
   * `ref` is replaced exactly when the whole chain succeeds, and then by the new commit's sha;
   * otherwise it keeps its old value.
   */
  lemma RefOnlyOnFullSuccess(s: Settings, env: Remote)
    ensures RunSync(s, env).stop == Done <==> ChainSucceeds(s, env)
    ensures ChainSucceeds(s, env) ==> RunSync(s, env).settings.ref == env.commitSha
    ensures !ChainSucceeds(s, env) ==> RunSync(s, env).settings.ref == s.ref
  {
  }

  /** Without a blob, the upload stage adds only the merge and the upload, and keeps the record. */
  lemma UploadWithoutBlob(s: Settings, env: Remote, head: string, reqs: seq<Request>)
    requires env.tree.Branch? && env.blobSha.None?
    ensures forall q :: q in RunFromUpload(s, env, head, reqs).requests ==> q in reqs || q.MergeRemote? || q.UploadBlob?
    ensures RunFromUpload(s, env, head, reqs).settings == s
  {
  }

  lemma RepoCheckWithoutBlob(s: Settings, env: Remote, reqs: seq<Request>)
    requires env.blobSha.None?
    ensures forall q :: q in RunFromRepoCheck(s, env, reqs).requests ==>
      q in reqs || !(q.CreateTree? || q.Commit? || q.UpdateRef?)
    ensures RunFromRepoCheck(s, env, reqs).settings == s
  {
    var reqs1 := reqs + [CheckRepo(s.repo)] + (if env.repoExists then [] else [CreateRepo(NewRepoRequest(s.repo))]);
    if (env.repoExists || env.repoCreated) && env.tree.Branch? && env.headSha.Some? {
      UploadWithoutBlob(s, env, env.headSha.value, reqs1 + [GetRef]);
    }
  }

  /** A missing blob ends the run before any tree, commit or reference request. */
  lemma NullBlobStopsBeforeTree(s: Settings, env: Remote)
    requires env.blobSha.None?
    ensures forall q :: q in RunSync(s, env).requests ==> !q.CreateTree? && !q.Commit? && !q.UpdateRef?
    ensures RunSync(s, env).settings.ref == s.ref
  {
    if Configured(s) && WithUser(s, env).user != "" {
      RepoCheckWithoutBlob(WithUser(s, env), env, if s.user == "" then [GetUser] else []);
    }
  }

  /** The upload stage adds a merge of `h` iff `h` is the head and differs from the saved ref. */
  lemma UploadMerges(s: Settings, env: Remote, head: string, reqs: seq<Request>, h: string)
    requires env.tree.Branch?
    ensures MergeRemote(h) in RunFromUpload(s, env, head, reqs).requests <==>
      (MergeRemote(h) in reqs || (h == head && s.ref != Some(head)))
    ensures RunFromUpload(s, env, head, reqs).stop in {NoBlob, TreeFailed, CommitFailed, RefUpdateFailed, Done}
  {
  }

  /** The merge is started exactly when the head commit differs from the saved ref. */
  lemma MergeOnlyWhenStale(s: Settings, env: Remote, h: string)
    ensures MergeRemote(h) in RunSync(s, env).requests <==>
      (RunSync(s, env).stop !in {NotConfigured, NoUser, NoRepo, NoRoots, RefFailed}
       && env.headSha == Some(h) && s.ref != Some(h))
  {
    if Configured(s) && WithUser(s, env).user != "" {
      var s1 := WithUser(s, env);
      var lookup := if s.user == "" then [GetUser] else [];
      var reqs1 := lookup + [CheckRepo(s1.repo)] + (if env.repoExists then [] else [CreateRepo(NewRepoRequest(s1.repo))]);
      assert MergeRemote(h) !in reqs1 + [GetRef];
      if (env.repoExists || env.repoCreated) && env.tree.Branch? && env.headSha.Some? {
        UploadMerges(s1, env, env.headSha.value, reqs1 + [GetRef], h);
      }
    }
  }

  /** What each request of a run carries, in terms of the remote answers it follows. */
  predicate Linked(env: Remote, q: Request)
  {
    && (q.UploadBlob? ==> env.tree.Branch? && q.payload == env.tree.children)
    && (q.CreateTree? ==> env.headSha.Some? && env.blobSha.Some?
                          && q.treeBody == CreateTreeForBlob(env.headSha.value, env.blobSha.value))
    && (q.Commit? ==> env.treeSha.Some? && env.headSha.Some?
                      && q.commitBody == CommitFor(env.treeSha.value, env.headSha.value))
    && (q.UpdateRef? ==> env.commitSha.Some? && q.refBody == UpdateReferenceFor(env.commitSha.value))
  }

  lemma UploadLinks(s: Settings, env: Remote, head: string, reqs: seq<Request>)
    requires env.tree.Branch? && env.headSha == Some(head)
    requires forall q :: q in reqs ==> Linked(env, q)
    ensures forall q :: q in RunFromUpload(s, env, head, reqs).requests ==> Linked(env, q)
  {
  }

  lemma RepoCheckLinks(s: Settings, env: Remote, reqs: seq<Request>)
    requires forall q :: q in reqs ==> Linked(env, q)
    ensures forall q :: q in RunFromRepoCheck(s, env, reqs).requests ==> Linked(env, q)
  {
    var reqs1 := reqs + [CheckRepo(s.repo)] + (if env.repoExists then [] else [CreateRepo(NewRepoRequest(s.repo))]);
    if (env.repoExists || env.repoCreated) && env.tree.Branch? && env.headSha.Some? {
      UploadLinks(s, env, env.headSha.value, reqs1 + [GetRef]);
    }
  }

  /**
   * The requests after the upload carry the uploaded blob and the head commit: a tree with
   * the single bookmark file on top of the head, a commit of that tree whose only parent is
   * the head, and a reference update to that commit.
   */
  lemma RequestsLinkTheChain(s: Settings, env: Remote, q: Request)
    requires q in RunSync(s, env).requests
    ensures q.UploadBlob? ==> env.tree.Branch? && q.payload == env.tree.children
    ensures q.CreateTree? ==> (env.headSha.Some? && env.blobSha.Some?
      && q.treeBody == CreateTreeForBlob(env.headSha.value, env.blobSha.value))
    ensures q.Commit? ==> (env.treeSha.Some? && env.headSha.Some?
      && q.commitBody == CommitFor(env.treeSha.value, env.headSha.value))
    ensures q.UpdateRef? ==> env.commitSha.Some? && q.refBody == UpdateReferenceFor(env.commitSha.value)
  {
    if Configured(s) && WithUser(s, env).user != "" {
      RepoCheckLinks(WithUser(s, env), env, if s.user == "" then [GetUser] else []);
    }
    assert Linked(env, q);
  }
}
