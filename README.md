# gittyfox: a Dafny model of the bookmark sync core

gittyfox is a browser extension that keeps the browser's bookmark tree in a GitHub
repository. The tree is serialised, encrypted and stored as the blob `bookmark.enc` through
the Git Data REST API (blob, tree, commit, reference). The repository has two versions of the
options page. `popup/options.js` flattens the whole tree and uploads it. `popup/scripts/options.js`
uploads the roots and, when the remote head moved since the last sync, starts a merge of the
remote snapshot into the local tree beside the upload. The uploaded list is built before the
merge starts, so it never holds merged nodes. A background script, `popup/scripts/starter.js`, watches bookmark
changes and lets the extension's pages switch that watching off and on.

This project models the sequential logic under that glue:

- `bookmarks.dfy` (module `Bookmarks`): the bookmark tree and its pre-order, with node count,
  membership and child-order lemmas.
- `popup_sync.dfy` (module `PopupSync`): `fillBookmarkList` as a recursive method that pushes
  into a mutable list, and the sync handler of `popup/options.js` as a class over the stored
  `github` record.
- `git_data.dfy` (module `GitData`): the request bodies for trees, commits, references and
  blobs; the first-match lookup of `bookmark.enc` in a fetched tree; and the newline strip of
  the fetched content.
- `merge.dfy` (module `Merge`): `createBookmark`, the create-or-skip decision, `mergeBookmarks`
  with the browser's search and create as oracles, the loop over the decoded roots, and
  `mergeServerBookmarksWithCurrent`.
- `script_sync.dfy` (module `ScriptSync`): the sync handler of `popup/scripts/options.js` as a
  class over the stored `github` record.
- `starter.dfy` (module `Starter`): the `onMessage` routing rule and the listener
  registrations as a class.

Each remote step of a sync is an input: a `Remote` value holds the outcome of every call
(`None` or `false` stands for the error callback). A run returns the calls it made, in order,
as `GitData.Request` values, and each class method is proved equal to a value-level function
(`RunSync`). The properties are lemmas about that function.

Modelling choices:

- A node whose `children` property is present is a `Branch`. One without it is a `Leaf`.
- JavaScript truthiness is written out. A string setting is unset when it is `""`. A url counts
  only when it is present and not empty.
- `mergeBookmarks` treats a node without `children` as having no children. In the source, the
  `children.sort` call throws inside the create callback. That happens after the node is
  created, and it only ends that callback.
- For a decoded ROOT without `children`, the exception ends the loop over the remaining roots.
  The model stops there too: see `PlanRoots` and `MergeRemoteRoots`.
- A node is created when the search finds nothing, or when some local result's id EQUALS the
  remote id (lines 370-373 of `popup/scripts/options.js`). The model keeps that rule as written.
- The merge result is one sequence of creation requests in depth-first order. The source's
  callbacks are asynchronous, so sibling subtrees may interleave in the browser. The order
  lemmas `Merge.MergeAtChild` and `Merge.MergeWhenNothingFound` describe this depth-first
  sequence only. The membership, count and parent-before-child facts do not depend on that
  order: `Merge.MergeCopiesTreeNodes`, `Merge.MergeBounded`, `Merge.TopLevelKeepsOwnParent`
  and `Merge.ChildCreatedUnderNewId`.
- A rejected search creates nothing, because it goes to `bookmarkError`. A rejected create
  never runs its callback, so none of that node's children are merged. The oracles return
  `None` for a rejection.
- Listener registration is a set of events, so registering twice has no extra effect.
- In `popup/options.js`, `createNewRepo` ignores its `repo_name` argument and always asks for
  "bookmarks". `popup/scripts/options.js` uses the configured name. Each module models its own
  version.

## Model

| member | source | states |
|---|---|---|
| Bookmarks.Preorder | popup/options.js:450-458 | the flattening starts with the node itself; a node without `children` flattens to itself alone |
| Bookmarks.PreorderLength | popup/options.js:450-458 | the flattening holds exactly one item per node of the tree (`Count`) |
| Bookmarks.PreorderMembers | popup/options.js:450-458 | a node is in the flattening iff it is a node of the tree (`Contains`) |
| Bookmarks.PreorderAtChild | popup/options.js:451-456 | the flattening is the node, then the earlier children's flattenings, then child i's, then the later ones: each node comes before its descendants |
| Bookmarks.ChildrenInArrayOrder | popup/options.js:454-456 | for children i < j, all of child i's nodes come before all of child j's |
| Bookmarks.ConcatMember | popup/options.js:454-456 | an item of a concatenation lies in one of the parts, and conversely |
| Bookmarks.ConcatLength | popup/options.js:454-456 | a concatenation's length is the sum of the parts' lengths |
| PopupSync.BookmarkList.constructor | popup/options.js:349 | a new list is empty |
| PopupSync.BookmarkList.Push | popup/options.js:451 | push appends one item at the end and changes nothing else |
| PopupSync.FillBookmarkList | popup/options.js:450-458 | the list afterwards is its old contents followed by the tree's pre-order: the old items stay as they were |
| PopupSync.FlattenTree | popup/options.js:349-350 | a fresh list filled from the root holds exactly the root's pre-order |
| PopupSync.FlattenedListShape | popup/options.js:349-351 | the uploaded list starts with the root, has one item per node and lists exactly the tree's nodes |
| PopupSync.NewRepoRequest | popup/options.js:24-34 | the repository asked for is always named "bookmarks", whatever name is passed, with auto_init |
| PopupSync.Github.constructor | popup/options.js:298-304 | the record holds the given settings |
| PopupSync.Github.Sync | popup/options.js:297-403 | one click changes the record and makes the calls of `RunSync` on the old record |
| PopupSync.Github.CheckRepoAndUpload | popup/options.js:327-366 | the steps from the repository check on behave as `RunFromRepoCheck` |
| PopupSync.Github.UploadAndCommit | popup/options.js:363-393 | the steps from the upload on behave as `RunFromUpload`; `rev` is set only in the update-reference success |
| PopupSync.SyncNeedsSettings | popup/options.js:309-401 | without token, key and repo, no call is made and the record is unchanged |
| PopupSync.RevOnlyOnFullSuccess | popup/options.js:384-392 | the run completes iff every step succeeds; only then is `rev` replaced, by the new commit's sha; token, key and repo never change |
| PopupSync.NullBlobStopsBeforeTree | popup/options.js:363-371 | a failed blob upload stops the run before any tree, commit or reference call and leaves `rev` alone |
| PopupSync.UploadWithoutBlob | popup/options.js:363-371 | when the blob upload fails, the upload stage adds only the upload itself and leaves the record as it was |
| PopupSync.RepoCheckWithoutBlob | popup/options.js:327-371 | when the blob upload fails, no request from the repository check on is a tree, commit or reference call, and the record is unchanged |
| PopupSync.SyncIgnoresSavedRev | popup/options.js:304-307 | the saved `rev` has no effect on the calls made or on where the run stops |
| PopupSync.RequestsLinkTheChain | popup/options.js:349-389 | upload = the tree's pre-order (root first, one item per node); repo named "bookmarks"; tree = single `bookmark.enc` entry on the ref's sha; commit's only parent = the fetched commit; ref moves to the new commit |
| PopupSync.UploadLinks | popup/options.js:363-393 | every request the upload stage adds carries the tree's pre-order, the ref's sha, the fetched commit or the new commit, as `Linked` lists |
| PopupSync.RepoCheckLinks | popup/options.js:327-393 | every request from the repository check on is `Linked`: the repository is named "bookmarks" and the later requests carry the fetched shas |
| GitData.CreateTreeForBlob | popup/scripts/options.js:229-238 | the tree request (also popup/options.js:212-221) has base_tree = the given sha and exactly one entry: path "bookmark.enc", mode "100644", type "blob", the blob's sha |
| GitData.CommitFor | popup/scripts/options.js:194-208 | the commit request (also popup/options.js:177-190) has exactly one parent, the given sha, the new tree, and the message "bookmarks updated" |
| GitData.UpdateReferenceFor | popup/scripts/options.js:274-277 | the reference update names the new commit and is not forced |
| GitData.FirstWithPath | popup/scripts/options.js:296-298 | the result is None iff no entry has the path; otherwise it is the index of an entry with the path, and no earlier entry has it |
| GitData.BlobsToFetch | popup/scripts/options.js:296-329 | at most one blob URL is fetched |
| GitData.FindBookmarkBlob | popup/scripts/options.js:296-330 | the loop fetches the URL of the first `bookmark.enc` entry and nothing more; nothing is fetched iff no entry has that path |
| GitData.StripNewlines | popup/scripts/options.js:312 | the stripped text has no '\n' and is no longer than the original |
| GitData.StripNewlinesAppend | popup/scripts/options.js:312 | stripping a concatenation is the concatenation of the stripped parts, so kept characters stay in order |
| GitData.StripNewlinesKeepsPlainText | popup/scripts/options.js:312 | text with no '\n' is returned unchanged |
| GitData.StripNewlinesCounts | popup/scripts/options.js:312 | every character other than '\n' keeps its number of occurrences; '\n' has none |
| GitData.StripNewlinesIdempotent | popup/scripts/options.js:312 | stripping twice is the same as stripping once |
| Merge.SearchFor | popup/scripts/options.js:355-363 | an item with a truthy url is searched by url and title, any other by title only |
| Merge.CreateBookmark | popup/scripts/options.js:339-346 | the request copies index, title and url; its parent is the last created id when there is one, and the item's own parentId otherwise |
| Merge.DecideCreate | popup/scripts/options.js:366-378 | the loop decides to create iff the search found nothing or some result's id equals the remote id |
| Merge.MergeBookmarks | popup/scripts/options.js:353-395 | something is requested iff the search succeeded and its results call for a creation, and then the item's own request comes first; otherwise nothing in that subtree is requested |
| Merge.MergeStopsOnRejection | popup/scripts/options.js:348-394 | a rejected search requests nothing; a rejected create leaves the item's own request as the only one, since no child is merged |
| Merge.MergeAtChild | popup/scripts/options.js:380-392 | once the item is created as `newId`, child i's merge under `newId` is a contiguous part of the depth-first result, after the earlier children's |
| Merge.ChildCreatedUnderNewId | popup/scripts/options.js:381-391 | when the item is created as `newId`, a child that is to be created gets a request after its parent's, whose parentId is `newId` |
| Merge.MergeCopiesTreeNodes | popup/scripts/options.js:341-346 | every request copies the index, title and url of some node of the remote tree |
| Merge.MergeBounded | popup/scripts/options.js:353-395 | the merge asks for at most one creation per remote node |
| Merge.MergeWhenNothingFound | popup/scripts/options.js:369-378 | when every search succeeds with no results and every create succeeds, every remote node is requested once, in pre-order, each request copying its node |
| Merge.MergeRootChildren | popup/scripts/options.js:322-324 | the loop merges a root's children in array order, each with no created parent |
| Merge.MergeRemoteRoots | popup/scripts/options.js:314-325 | the roots' children are merged until the first root without `children`; it aborts iff such a root exists |
| Merge.TopLevelKeepsOwnParent | popup/scripts/options.js:322-324 | a created child of a root before the first childless root is requested with its own parentId |
| Merge.MergeServerBookmarksWithCurrent | popup/scripts/options.js:292-332 | at most one blob is fetched, that of the first `bookmark.enc` entry; the decoder sees the newline-free content; the plan is `ServerPlan` |
| ScriptSync.NewRepoRequest | popup/scripts/options.js:38-41 | the repository asked for has the configured name, with auto_init |
| ScriptSync.RootsAsList | popup/scripts/options.js:474-479 | the loop copies every child of the tree's root, in order; a root without `children` fails |
| ScriptSync.Github.constructor | popup/scripts/options.js:420-425 | the record holds the given settings |
| ScriptSync.Github.Sync | popup/scripts/options.js:418-531 | one click changes the record and makes the calls of `RunSync` on the old record |
| ScriptSync.Github.CheckRepoAndUpload | popup/scripts/options.js:451-484 | the steps from the repository check on behave as `RunFromRepoCheck` |
| ScriptSync.Github.UploadAndCommit | popup/scripts/options.js:486-522 | the steps from the merge decision on behave as `RunFromUpload`; `ref` is set only in the update-reference success |
| ScriptSync.SyncNeedsSettings | popup/scripts/options.js:431-529 | without token, key and repo, no call is made and the record is unchanged |
| ScriptSync.SyncChangesOnlyUserAndRef | popup/scripts/options.js:436-518 | a run never changes token, key or repo |
| ScriptSync.RefOnlyOnFullSuccess | popup/scripts/options.js:513-521 | the run completes iff every step succeeds; only then is `ref` replaced, by the new commit's sha |
| ScriptSync.NullBlobStopsBeforeTree | popup/scripts/options.js:497-500 | a failed blob upload stops the run before any tree, commit or reference call and leaves `ref` alone |
| ScriptSync.UploadWithoutBlob | popup/scripts/options.js:486-500 | when the blob upload fails, the upload stage adds only the merge and the upload and leaves the record as it was |
| ScriptSync.RepoCheckWithoutBlob | popup/scripts/options.js:451-500 | when the blob upload fails, no request from the repository check on is a tree, commit or reference call, and the record is unchanged |
| ScriptSync.MergeOnlyWhenStale | popup/scripts/options.js:486-488 | the merge of head h starts iff the ref lookup returned h and the saved ref is not h |
| ScriptSync.UploadMerges | popup/scripts/options.js:486-488 | the upload stage asks for a merge of h iff h is the head commit and the saved ref is not h; it always stops at the blob, tree, commit or reference step |
| ScriptSync.RequestsLinkTheChain | popup/scripts/options.js:492-513 | upload = the root's children; tree = single `bookmark.enc` entry on the head commit; commit's only parent = the head commit; ref moves to the new commit |
| ScriptSync.UploadLinks | popup/scripts/options.js:490-522 | every request the upload stage adds carries the root's children, the head commit, the blob, the new tree or the new commit, as `Linked` lists |
| ScriptSync.RepoCheckLinks | popup/scripts/options.js:451-522 | every request from the repository check on is `Linked` |
| Starter.Route | popup/scripts/starter.js:37-49 | other senders and other event types are ignored; disable iff the action id is "bookmark_evt_disable" with a truthy value; every other bookmark message with an action enables |
| Starter.ChangeNotification | popup/scripts/starter.js:27-35 | the change message has evtType "bookmark" and action id "bookmark_evt_changed" |
| Starter.ChangeNotificationEnables | popup/scripts/starter.js:29-45 | the extension's own change message, when routed, switches the listeners on |
| Starter.DisableNeedsTruthyValue | popup/scripts/starter.js:42-46 | a bookmark message with a falsy value never disables, and from the extension it enables |
| Starter.BookmarkListeners.constructor | popup/scripts/starter.js:67-68 | listeners are enabled at startup |
| Starter.BookmarkListeners.EnableBookmarkListeners | popup/scripts/starter.js:59-65 | adds exactly the four events onChanged, onMoved, onCreated and onRemoved |
| Starter.BookmarkListeners.DisableBookmarkListeners | popup/scripts/starter.js:51-57 | removes exactly the same four events |
| Starter.BookmarkListeners.OnMessage | popup/scripts/starter.js:37-49 | the registrations become none on Disable and all four on Enable; otherwise they are unchanged |

## Left out

- Merge.MergeBookmarks: the search oracle answers for the browser as it was before the merge, so a later search never finds a node the merge itself created. In the source, a child's search runs inside its parent's create callback and may find such a node. For example, a folder "A" inside a folder "A" would then not be created, and neither would a bookmark stored at two depths. The model requests those nodes.
- All HTTP details (URLs, headers, status codes). Each remote call is only a success or failure input, because it is network I/O.
- AES encryption and decryption, base64 (`btoa` in `popup/options.js`), and JSON serialisation and parsing. They are foreign libraries. The model has an opaque `decode` parameter, and the `UploadBlob` request carries the node list before it is serialised and encrypted.
- Random key and IV generation. It is library randomness.
- `browser.storage`, `browser.bookmarks.getTree`/`search`/`create`, `browser.windows`, `browser.tabs` and `runtime.sendMessage`. These are browser APIs. The tree is an input, search and create are oracles, and a write to storage is the in-place update of the class fields.
- The `sort` calls on `children` with comparators that return booleans. The resulting order depends on the engine, so child order is taken as given.
- The asynchronous interleaving of the merge callbacks, and the merge running beside the upload. The merge is one depth-first sequence of requests, and the sync trace only records that the merge was started.
- Merge.MergeBookmarks: the created node's id is the create oracle applied to the request, so two identical requests get the same id.
- ScriptSync.Github.Sync: a stored record without `security` makes the source throw before its guard. The model takes `key` as a plain setting that may be empty.
- DOM and jQuery code: spinner, button state, `alert`, `console.log`. It has no effect on the modelled state.
- The `#btnGithubSave` handler and the default-value set-up. They are UI wiring outside this core.
