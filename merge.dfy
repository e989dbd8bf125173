/**
 * The merge of the remote bookmark snapshot into the browser (`mergeBookmarks` and
 * `mergeServerBookmarksWithCurrent`). The browser's search is an oracle from query to the ids
 * of the local results, answering for the browser as it was before the merge; the browser's
 * create is an oracle from request to the new node's id. Either promise may be rejected.
 * The outcome is the sequence of creation requests in depth-first order, one of the orders in
 * which the asynchronous callbacks may run; every parent's request precedes its children's.
 */
module Merge {
  import opened Wrappers
  import opened Bookmarks
  import opened GitData

  /** The argument of `browser.bookmarks.search`. */
  datatype SearchQuery = UrlAndTitle(url: string, title: string) | TitleOnly(title: string)

  /** The argument of `browser.bookmarks.create`. */
  datatype CreateRequest = CreateRequest(index: Option<nat>, parentId: Option<Id>, title: string, url: Option<string>)

  /** `browser.bookmarks.search`: the ids of the local results, `None` when the promise is rejected. */
  type Search = SearchQuery -> Option<seq<Id>>

  /** `browser.bookmarks.create`: the new node's id, `None` when the promise is rejected. */
  type Create = CreateRequest -> Option<Id>

  /** JavaScript truthiness of an optional string: present and not empty. */
  predicate Truthy(s: Option<string>)
  {
    s.Some? && s.value != ""
  }

  /** The request carries the node's own index, title and url. */
  predicate Copies(r: CreateRequest, n: Node)
  {
    r.index == n.index && r.title == n.title && r.url == n.url
  }

  /** Pointwise `Copies` of a sequence of nodes. */
  predicate CopiesAll(rs: seq<CreateRequest>, ns: seq<Node>)
  {
    |rs| == |ns| && forall k :: 0 <= k < |rs| ==> Copies(rs[k], ns[k])
  }

  /** A bookmark (truthy url) is looked up by url and title, a folder by title alone. */
  function SearchFor(item: Node): (q: SearchQuery)
    ensures q.title == item.title
    ensures q.UrlAndTitle? <==> Truthy(item.url)
    ensures q.UrlAndTitle? ==> Some(q.url) == item.url
  {
    if Truthy(item.url) then UrlAndTitle(item.url.value, item.title) else TitleOnly(item.title)
  }

  /**
   * `createBookmark`: the new node copies index, title and url; it goes under the node
   * created last on this path when there is one, and under the item's own parent otherwise.
   */
  function CreateBookmark(item: Node, lastCreatedId: Option<Id>): (r: CreateRequest)
    ensures Copies(r, item)
    ensures lastCreatedId.Some? ==> r.parentId == lastCreatedId
    ensures lastCreatedId.None? ==> r.parentId == item.parentId
  {
    CreateRequest(item.index, if lastCreatedId.Some? then lastCreatedId else item.parentId, item.title, item.url)
  }

  /**
   * The decision on the local search results: create when nothing was found, or when one of
   * the results has the remote item's id.
   */
  predicate ShouldCreate(local: seq<Id>, remoteId: Id)
  {
    |local| == 0 || remoteId in local
  }

  /**
   * The search for the item succeeded and its results call for a creation. A rejected search
   * goes to `bookmarkError`, which creates nothing.
   */
  predicate WillCreate(item: Node, search: Search)
  {
    search(SearchFor(item)).Some? && ShouldCreate(search(SearchFor(item)).value, item.id)
  }

  /** The loop over the local results that sets `createNewBookmark`, with its `break`. */
  method DecideCreate(local: seq<Id>, remoteId: Id) returns (createNew: bool)
    ensures createNew <==> (|local| == 0 || exists k :: 0 <= k < |local| && local[k] == remoteId)
    ensures createNew == ShouldCreate(local, remoteId)
  {
    createNew := false;
    if |local| > 0 {
      var k := 0;
      while k < |local|
        invariant 0 <= k <= |local|
        invariant forall j :: 0 <= j < k ==> local[j] != remoteId
        invariant !createNew
      {
        if local[k] == remoteId {
          createNew := true;
          break;
        }
        k := k + 1;
      }
    } else {
      createNew := true;
    }
  }

  /**
   * `mergeBookmarks(item, lastCreatedId)`: the creation requests for the remote item and,
   * when it is created, for its children, each merged under the item's new id. A node without
   * a `children` property is created and ends there (the source's `children.sort` fails in the
   * create callback, after the create). When the create is rejected its callback never runs,
   * so none of the children are merged.
   */
  function MergeBookmarks(item: Node, lastCreatedId: Option<Id>, search: Search, create: Create)
    : (r: seq<CreateRequest>)
    ensures r != [] <==> WillCreate(item, search)
    ensures r != [] ==> r[0] == CreateBookmark(item, lastCreatedId)
    decreases item
  {
    if !WillCreate(item, search) then []
    else
      var req := CreateBookmark(item, lastCreatedId);
      match item
      case Leaf(_, _, _, _, _) => [req]
      case Branch(_, _, _, _, _, cs) =>
        match create(req)
        case None => [req]
        case Some(newId) =>
          [req] + Concat(seq(|cs|, i requires 0 <= i < |cs| => MergeBookmarks(cs[i], Some(newId), search, create)))
  }

  /** The merges of the item's children under `parentId`, one per child, in array order. */
  function ChildMerges(item: Node, parentId: Option<Id>, search: Search, create: Create)
    : (ms: seq<seq<CreateRequest>>)
    ensures |ms| == |Kids(item)|
  {
    seq(|Kids(item)|, i requires 0 <= i < |Kids(item)| => MergeBookmarks(Kids(item)[i], parentId, search, create))
  }

  /** A created item is followed by its children's merges under the new id `newId`. */
  lemma {:induction false} MergeUnfold(item: Node, lastCreatedId: Option<Id>, search: Search, create: Create, newId: Id)
    requires WillCreate(item, search) && create(CreateBookmark(item, lastCreatedId)) == Some(newId)
    ensures MergeBookmarks(item, lastCreatedId, search, create) ==
      [CreateBookmark(item, lastCreatedId)] + Concat(ChildMerges(item, Some(newId), search, create))
  {
    var ms := ChildMerges(item, Some(newId), search, create);
    if item.Leaf? {
      assert ms == [];
    } else {
      var cs := item.children;
      assert ms == seq(|cs|, i requires 0 <= i < |cs| => MergeBookmarks(cs[i], Some(newId), search, create));
    }
  }

  /**
   * A rejected search creates nothing; a rejected create leaves the item's own request as the
   * only one, since the callback that merges the children never runs.
   */
  lemma MergeStopsOnRejection(item: Node, lastCreatedId: Option<Id>, search: Search, create: Create)
    ensures search(SearchFor(item)).None? ==> MergeBookmarks(item, lastCreatedId, search, create) == []
    ensures create(CreateBookmark(item, lastCreatedId)).None? ==>
      MergeBookmarks(item, lastCreatedId, search, create)
        == (if WillCreate(item, search) then [CreateBookmark(item, lastCreatedId)] else [])
  {
  }

  /**
   * Once an item is created, the merge of child `i` under the item's new id is a contiguous
   * part of the result, after the item and after the merges of the earlier children.
   */
  lemma {:induction false} MergeAtChild(item: Node, lastCreatedId: Option<Id>, search: Search, create: Create,
                                        newId: Id, i: nat)
    requires item.Branch? && i < |item.children|
    requires WillCreate(item, search) && create(CreateBookmark(item, lastCreatedId)) == Some(newId)
    ensures var ms := ChildMerges(item, Some(newId), search, create);
      MergeBookmarks(item, lastCreatedId, search, create) ==
        [CreateBookmark(item, lastCreatedId)] + Concat(ms[..i])
        + MergeBookmarks(item.children[i], Some(newId), search, create)
        + Concat(ms[i + 1..])
  {
    var ms := ChildMerges(item, Some(newId), search, create);
    var h, a, x, b := [CreateBookmark(item, lastCreatedId)], Concat(ms[..i]), ms[i], Concat(ms[i + 1..]);
    assert MergeBookmarks(item, lastCreatedId, search, create) == h + (a + x + b) by {
      MergeUnfold(item, lastCreatedId, search, create, newId);
      ConcatAt(ms, i);
    }
    AppendAssoc(h, a + x, b);
    AppendAssoc(h, a, x);
  }

  /**
   * A child is created under its parent's new id: when the item is created as `newId` and
   * child `i` is to be created, the child's request follows the item's and names `newId` as
   * its parent.
   */
  lemma {:induction false} ChildCreatedUnderNewId(item: Node, lastCreatedId: Option<Id>, search: Search, create: Create,
                                                  newId: Id, i: nat)
    requires item.Branch? && i < |item.children|
    requires WillCreate(item, search) && create(CreateBookmark(item, lastCreatedId)) == Some(newId)
    requires WillCreate(item.children[i], search)
    ensures var r := MergeBookmarks(item, lastCreatedId, search, create);
      r[0] == CreateBookmark(item, lastCreatedId)
      && CreateBookmark(item.children[i], Some(newId)) in r[1..]
      && CreateBookmark(item.children[i], Some(newId)).parentId == Some(newId)
  {
    var ms := ChildMerges(item, Some(newId), search, create);
    var child := MergeBookmarks(item.children[i], Some(newId), search, create);
    MergeAtChild(item, lastCreatedId, search, create, newId, i);
    HeadOfMiddlePart([CreateBookmark(item, lastCreatedId)], Concat(ms[..i]), child, Concat(ms[i + 1..]));
  }

  lemma HeadOfMiddlePart<T>(h: seq<T>, a: seq<T>, x: seq<T>, b: seq<T>)
    requires |h| == 1 && |x| > 0
    ensures (h + a + x + b)[0] == h[0]
    ensures x[0] in (h + a + x + b)[1..]
  {
    assert (h + a + x + b)[1..] == a + x + b;
    assert (a + x + b)[|a|] == x[0];
  }

  /** Every creation request copies some node of the remote tree. */
  lemma {:induction false} MergeCopiesTreeNodes(item: Node, lastCreatedId: Option<Id>, search: Search, create: Create,
                                                q: CreateRequest)
    requires q in MergeBookmarks(item, lastCreatedId, search, create)
    ensures exists m :: Contains(item, m) && Copies(q, m)
    decreases item
  {
    if q != CreateBookmark(item, lastCreatedId) {
      assert item.Branch? && create(CreateBookmark(item, lastCreatedId)).Some?;
      var newId := create(CreateBookmark(item, lastCreatedId)).value;
      var ms := ChildMerges(item, Some(newId), search, create);
      MergeUnfold(item, lastCreatedId, search, create, newId);
      ConcatMember(ms, q);
      var i :| 0 <= i < |ms| && q in ms[i];
      MergeCopiesTreeNodes(item.children[i], Some(newId), search, create, q);
      var m :| Contains(item.children[i], m) && Copies(q, m);
      assert Contains(item, m);
    } else {
      assert Contains(item, item);
    }
  }

  lemma {:induction false} SumPointwiseLe(xs: seq<nat>, ys: seq<nat>)
    requires |xs| == |ys|
    requires forall i :: 0 <= i < |xs| ==> xs[i] <= ys[i]
    ensures Sum(xs) <= Sum(ys)
  {
    if xs != [] {
      SumPointwiseLe(xs[1..], ys[1..]);
    }
  }

  /** The merge never asks for more creations than the remote tree has nodes. */
  lemma {:induction false} MergeBounded(item: Node, lastCreatedId: Option<Id>, search: Search, create: Create)
    ensures |MergeBookmarks(item, lastCreatedId, search, create)| <= Count(item)
    decreases item
  {
    if WillCreate(item, search) && item.Branch? && create(CreateBookmark(item, lastCreatedId)).Some? {
      var cs := item.children;
      var newId := create(CreateBookmark(item, lastCreatedId)).value;
      var ms := ChildMerges(item, Some(newId), search, create);
      var lens := seq(|cs|, i requires 0 <= i < |cs| => |ms[i]|);
      var counts := seq(|cs|, i requires 0 <= i < |cs| => Count(cs[i]));
      MergeUnfold(item, lastCreatedId, search, create, newId);
      ConcatLength(ms, lens);
      forall i | 0 <= i < |cs|
        ensures lens[i] <= counts[i]
      {
        MergeBounded(cs[i], Some(newId), search, create);
      }
      SumPointwiseLe(lens, counts);
    }
  }

  lemma CopiesAllAppend(a: seq<CreateRequest>, b: seq<CreateRequest>, c: seq<Node>, d: seq<Node>)
    requires CopiesAll(a, c) && CopiesAll(b, d)
    ensures CopiesAll(a + b, c + d)
  {
    forall k | 0 <= k < |a + b|
      ensures Copies((a + b)[k], (c + d)[k])
    {
      if k < |a| {
        assert (a + b)[k] == a[k] && (c + d)[k] == c[k];
      } else {
        assert (a + b)[k] == b[k - |a|] && (c + d)[k] == d[k - |a|];
      }
    }
  }

  lemma {:induction false} ConcatCopiesAll(rss: seq<seq<CreateRequest>>, nss: seq<seq<Node>>)
    requires |rss| == |nss|
    requires forall i :: 0 <= i < |rss| ==> CopiesAll(rss[i], nss[i])
    ensures CopiesAll(Concat(rss), Concat(nss))
  {
    if rss != [] {
      ConcatCopiesAll(rss[1..], nss[1..]);
      CopiesAllAppend(rss[0], Concat(rss[1..]), nss[0], Concat(nss[1..]));
    }
  }

  /**
   * When every search succeeds with no results and every create succeeds, the whole remote
   * tree is requested: one request per node, in pre-order, each copying its node. Results
   * that the merge's own creations would add to later searches are outside the search oracle.
   */
  lemma {:induction false} MergeWhenNothingFound(item: Node, lastCreatedId: Option<Id>, search: Search, create: Create)
    requires forall q :: search(q) == Some([])
    requires forall c :: create(c).Some?
    ensures CopiesAll(MergeBookmarks(item, lastCreatedId, search, create), Preorder(item))
    decreases item
  {
    var r := MergeBookmarks(item, lastCreatedId, search, create);
    assert search(SearchFor(item)) == Some([]);
    var newId := create(CreateBookmark(item, lastCreatedId)).value;
    var ms := ChildMerges(item, Some(newId), search, create);
    var ps := ChildPreorders(item);
    forall i | 0 <= i < |ms|
      ensures CopiesAll(ms[i], ps[i])
    {
      MergeWhenNothingFound(Kids(item)[i], Some(newId), search, create);
    }
    ConcatCopiesAll(ms, ps);
    MergeUnfold(item, lastCreatedId, search, create, newId);
    PreorderUnfold(item);
    CopiesAllAppend([CreateBookmark(item, lastCreatedId)], Concat(ms), [item], Concat(ps));
  }

  // ---------------------------------------------------------------- The remote roots

  /** The merges of one root's children, each with no created parent (`null`). */
  function MergeTopLevel(cs: seq<Node>, search: Search, create: Create): (r: seq<CreateRequest>)
  {
    Concat(seq(|cs|, i requires 0 <= i < |cs| => MergeBookmarks(cs[i], None, search, create)))
  }

  /**
   * The loop over the decoded roots: the children of each root are merged in turn until a
   * root without a `children` property, whose `children.sort` throws and ends the loop.
   * `PlanRoots(roots, k, ...)` is what the loop still plans from root k on.
   */
  function PlanRoots(roots: seq<Node>, k: nat, search: Search, create: Create): (r: seq<CreateRequest>)
    decreases |roots| - k
  {
    if k >= |roots| || roots[k].Leaf? then []
    else MergeTopLevel(roots[k].children, search, create) + PlanRoots(roots, k + 1, search, create)
  }

  /** The inner loop: the children of one root merged in array order with no created parent. */
  method MergeRootChildren(cs: seq<Node>, search: Search, create: Create) returns (planned: seq<CreateRequest>)
    ensures planned == MergeTopLevel(cs, search, create)
  {
    ghost var ms := seq(|cs|, k requires 0 <= k < |cs| => MergeBookmarks(cs[k], None, search, create));
    planned := [];
    var k := 0;
    while k < |cs|
      invariant 0 <= k <= |cs|
      invariant planned == Concat(ms[..k])
    {
      var r := MergeBookmarks(cs[k], None, search, create);
      assert ms[..k + 1] == ms[..k] + [r];
      ConcatAppend(ms[..k], [r]);
      planned := planned + r;
      k := k + 1;
    }
    assert ms[..|cs|] == ms;
  }

  /** Root j exists and has no `children` property. */
  predicate ChildlessRoot(roots: seq<Node>, j: int)
  {
    0 <= j < |roots| && roots[j].Leaf?
  }

  method MergeRemoteRoots(roots: seq<Node>, search: Search, create: Create)
    returns (planned: seq<CreateRequest>, aborted: bool)
    ensures planned == PlanRoots(roots, 0, search, create)
    ensures aborted <==> exists j :: ChildlessRoot(roots, j)
  {
    planned, aborted := [], false;
    var i := 0;
    while i < |roots| && !aborted
      invariant 0 <= i <= |roots|
      invariant !aborted ==> forall j :: j < i ==> !ChildlessRoot(roots, j)
      invariant aborted ==> ChildlessRoot(roots, i)
      invariant planned + PlanRoots(roots, i, search, create) == PlanRoots(roots, 0, search, create)
      decreases |roots| - i, !aborted
    {
      if roots[i].Leaf? {
        aborted := true;
      } else {
        var merged := MergeRootChildren(roots[i].children, search, create);
        assert (planned + merged) + PlanRoots(roots, i + 1, search, create) == PlanRoots(roots, 0, search, create) by {
          ghost var rest := PlanRoots(roots, i + 1, search, create);
          assert planned + (merged + rest) == (planned + merged) + rest;
        }
        planned := planned + merged;
        i := i + 1;
      }
    }
    assert planned == PlanRoots(roots, 0, search, create) by {
      assert planned == planned + [];
    }
  }

  /**
   * The children of each root before the first childless root are merged with no created
   * parent, so each one that is created keeps its own `parentId`.
   */
  lemma {:induction false} TopLevelKeepsOwnParent(roots: seq<Node>, k: nat, search: Search, create: Create, r: nat, c: nat)
    requires k <= r < |roots| && forall j :: k <= j <= r ==> roots[j].Branch?
    requires c < |roots[r].children|
    requires WillCreate(roots[r].children[c], search)
    ensures CreateBookmark(roots[r].children[c], None) in PlanRoots(roots, k, search, create)
    ensures CreateBookmark(roots[r].children[c], None).parentId == roots[r].children[c].parentId
    decreases r - k
  {
    if r == k {
      var cs := roots[k].children;
      var ms := seq(|cs|, k requires 0 <= k < |cs| => MergeBookmarks(cs[k], None, search, create));
      ConcatMember(ms, CreateBookmark(cs[c], None));
      assert ms[c][0] == CreateBookmark(cs[c], None);
    } else {
      TopLevelKeepsOwnParent(roots, k + 1, search, create, r, c);
    }
  }

  // ---------------------------------------------------------------- mergeServerBookmarksWithCurrent

  /**
   * The creations planned after fetching the tree listing: none when the listing or the blob
   * fails, when no entry is the bookmark file or when the newline-free content does not
   * decrypt and parse; otherwise the merge of the decoded roots.
   */
  function ServerPlan(listing: Option<seq<ListedEntry>>, blobContent: string -> Option<string>,
                      decode: string -> Option<seq<Node>>, search: Search, create: Create): seq<CreateRequest>
  {
    match listing
    case None => []
    case Some(es) =>
      match FirstWithPath(es, BookmarkFileName)
      case None => []
      case Some(k) =>
        match blobContent(es[k].url)
        case None => []
        case Some(text) =>
          match decode(StripNewlines(text))
          case None => []
          case Some(roots) => PlanRoots(roots, 0, search, create)
  }

  /**
   * `mergeServerBookmarksWithCurrent`: `listing` is the outcome of GET .../git/trees/{head},
   * `blobContent` the outcome of fetching a blob URL, `decode` the decryption and parse of
   * the newline-free content. Returns the blob URLs fetched and the creations planned.
   */
  method MergeServerBookmarksWithCurrent(listing: Option<seq<ListedEntry>>, blobContent: string -> Option<string>,
                                         decode: string -> Option<seq<Node>>, search: Search, create: Create)
    returns (fetched: seq<string>, planned: seq<CreateRequest>)
    ensures fetched == (if listing.None? then [] else BlobsToFetch(listing.value))
    ensures |fetched| <= 1
    ensures planned == ServerPlan(listing, blobContent, decode, search, create)
  {
    fetched, planned := [], [];
    if listing.None? {
      return;
    }
    fetched := FindBookmarkBlob(listing.value);
    if fetched == [] {
      return;
    }
    var content := blobContent(fetched[0]);
    if content.None? {
      return;
    }
    var roots := decode(StripNewlines(content.value));
    if roots.None? {
      return;
    }
    var aborted;
    planned, aborted := MergeRemoteRoots(roots.value, search, create);
  }
}
