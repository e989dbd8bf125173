/**
 * The browser's bookmark tree (a `bookmarks.BookmarkTreeNode` and its children) and its
 * pre-order flattening, the order in which `fillBookmarkList` pushes the nodes.
 */
module Bookmarks {
  import opened Wrappers

  type Id = string

  /**
   * A node of the bookmark tree. `Branch` is a node whose `children` property is present
   * (the root and the folders, possibly with no children); `Leaf` is a node without it
   * (URL bookmarks and separators). The root has neither `parentId` nor `index`.
   */
  datatype Node =
    | Branch(id: Id, parentId: Option<Id>, index: Option<nat>, title: string, url: Option<string>,
             children: seq<Node>)
    | Leaf(id: Id, parentId: Option<Id>, index: Option<nat>, title: string, url: Option<string>)

  /** The children a loop over `node.children` visits: none when the property is absent. */
  function Kids(n: Node): seq<Node>
  {
    if n.Branch? then n.children else []
  }

  /** The concatenation of a sequence of sequences. */
  function Concat<T>(ss: seq<seq<T>>): seq<T>
  {
    if ss == [] then [] else ss[0] + Concat(ss[1..])
  }

  function Sum(xs: seq<nat>): nat
  {
    if xs == [] then 0 else xs[0] + Sum(xs[1..])
  }

  /** Every node of the tree, each node before its children and the children in array order. */
  function Preorder(n: Node): (r: seq<Node>)
    ensures |r| >= 1 && r[0] == n
    ensures n.Leaf? ==> r == [n]
  {
    match n
    case Leaf(_, _, _, _, _) => [n]
    case Branch(_, _, _, _, _, cs) => [n] + Concat(seq(|cs|, i requires 0 <= i < |cs| => Preorder(cs[i])))
  }

  /** The pre-orders of the children, one per child, in array order. */
  function ChildPreorders(n: Node): (ps: seq<seq<Node>>)
    ensures |ps| == |Kids(n)|
  {
    seq(|Kids(n)|, i requires 0 <= i < |Kids(n)| => Preorder(Kids(n)[i]))
  }

  /** The number of nodes of the tree. */
  function Count(n: Node): nat
  {
    match n
    case Leaf(_, _, _, _, _) => 1
    case Branch(_, _, _, _, _, cs) => 1 + Sum(seq(|cs|, i requires 0 <= i < |cs| => Count(cs[i])))
  }

  /** `m` is a node of the tree rooted at `n` (`n` itself or a node of a child's tree). */
  predicate Contains(n: Node, m: Node)
  {
    m == n || (n.Branch? && exists i :: 0 <= i < |n.children| && Contains(n.children[i], m))
  }

  // ---------------------------------------------------------------- Concat and Sum

  lemma {:induction false} ConcatAppend<T>(a: seq<seq<T>>, b: seq<seq<T>>)
    ensures Concat(a + b) == Concat(a) + Concat(b)
  {
    if a == [] {
      assert a + b == b;
    } else {
      assert (a + b)[1..] == a[1..] + b;
      ConcatAppend(a[1..], b);
    }
  }

  /** Growing a prefix of the parts by one part appends that part. */
  lemma ConcatPrefixStep<T>(ss: seq<seq<T>>, i: nat)
    requires i < |ss|
    ensures Concat(ss[..i + 1]) == Concat(ss[..i]) + ss[i]
  {
    assert ss[..i + 1] == ss[..i] + [ss[i]];
    ConcatAppend(ss[..i], [ss[i]]);
    assert [ss[i]][1..] == [];
  }

  /** Splitting a concatenation around one of its parts. */
  lemma {:induction false} ConcatAt<T>(ss: seq<seq<T>>, i: nat)
    requires i < |ss|
    ensures Concat(ss) == Concat(ss[..i]) + ss[i] + Concat(ss[i + 1..])
  {
    assert ss == ss[..i] + ([ss[i]] + ss[i + 1..]);
    ConcatAppend(ss[..i], [ss[i]] + ss[i + 1..]);
    assert ([ss[i]] + ss[i + 1..])[1..] == ss[i + 1..];
  }

  /** An element of a concatenation lies in one of its parts, and conversely. */
  lemma {:induction false} ConcatMember<T>(ss: seq<seq<T>>, x: T)
    ensures x in Concat(ss) <==> exists i :: 0 <= i < |ss| && x in ss[i]
  {
    if ss != [] {
      ConcatMember(ss[1..], x);
      if x in Concat(ss[1..]) {
        var j :| 0 <= j < |ss[1..]| && x in ss[1..][j];
        assert x in ss[j + 1];
      }
      if exists i :: 0 <= i < |ss| && x in ss[i] {
        var i :| 0 <= i < |ss| && x in ss[i];
        if i > 0 {
          assert x in ss[1..][i - 1];
        }
      }
    }
  }

  /** The length of a concatenation is the sum of the parts' lengths. */
  lemma {:induction false} ConcatLength<T>(ss: seq<seq<T>>, lens: seq<nat>)
    requires |lens| == |ss|
    requires forall i :: 0 <= i < |ss| ==> |ss[i]| == lens[i]
    ensures |Concat(ss)| == Sum(lens)
  {
    if ss != [] {
      ConcatLength(ss[1..], lens[1..]);
    }
  }

  // ---------------------------------------------------------------- Pre-order

  lemma {:induction false} PreorderUnfold(n: Node)
    ensures Preorder(n) == [n] + Concat(ChildPreorders(n))
  {
    if n.Leaf? {
      assert ChildPreorders(n) == [];
    } else {
      assert ChildPreorders(n) == seq(|n.children|, i requires 0 <= i < |n.children| => Preorder(n.children[i]));
    }
  }

  /** The flattening holds exactly one item per node of the tree. */
  lemma {:induction false} PreorderLength(n: Node)
    ensures |Preorder(n)| == Count(n)
    decreases n
  {
    match n
    case Leaf(_, _, _, _, _) =>
    case Branch(_, _, _, _, _, cs) =>
      var ps := seq(|cs|, i requires 0 <= i < |cs| => Preorder(cs[i]));
      var counts := seq(|cs|, i requires 0 <= i < |cs| => Count(cs[i]));
      forall i | 0 <= i < |cs|
        ensures |ps[i]| == counts[i]
      {
        PreorderLength(cs[i]);
      }
      ConcatLength(ps, counts);
  }

  /** The flattening lists exactly the nodes of the tree. */
  lemma {:induction false} PreorderMembers(n: Node, m: Node)
    ensures m in Preorder(n) <==> Contains(n, m)
    decreases n
  {
    match n
    case Leaf(_, _, _, _, _) =>
    case Branch(_, _, _, _, _, cs) =>
      var ps := seq(|cs|, i requires 0 <= i < |cs| => Preorder(cs[i]));
      ConcatMember(ps, m);
      forall i | 0 <= i < |cs|
        ensures m in ps[i] <==> Contains(cs[i], m)
      {
        PreorderMembers(cs[i], m);
      }
      if Contains(n, m) && m != n {
        var i :| 0 <= i < |cs| && Contains(cs[i], m);
        assert m in ps[i];
      }
  }

  /**
   * The flattening of a tree is its root, then the flattenings of the children before
   * child `i`, then the flattening of child `i`, then those of the children after it.
   */
  lemma {:induction false} PreorderAtChild(n: Node, i: nat)
    requires n.Branch? && i < |n.children|
    ensures Preorder(n) ==
      [n] + Concat(ChildPreorders(n)[..i]) + Preorder(n.children[i]) + Concat(ChildPreorders(n)[i + 1..])
  {
    var ps := ChildPreorders(n);
    PreorderUnfold(n);
    ConcatAt(ps, i);
    assert ps[i] == Preorder(n.children[i]);
    var a, b := Concat(ps[..i]), Concat(ps[i + 1..]);
    assert Concat(ps) == a + ps[i] + b;
    assert [n] + (a + ps[i] + b) == [n] + a + ps[i] + b;
  }

  lemma AppendAssoc<T>(a: seq<T>, b: seq<T>, c: seq<T>)
    ensures a + b + c == a + (b + c)
  {
  }

  lemma RegroupTail<T>(a: seq<T>, x: seq<T>, m: seq<T>, y: seq<T>, b: seq<T>)
    ensures a + x + (m + y + b) == a + x + m + y + b
  {
    assert m + y + b == m + (y + b);
  }

  lemma RegroupHead<T>(h: seq<T>, a: seq<T>, x: seq<T>, m: seq<T>, y: seq<T>, b: seq<T>)
    ensures h + (a + x + m + y + b) == h + a + x + m + y + b
  {
  }

  /** Splitting a concatenation around two of its parts. */
  lemma {:induction false} ConcatAtTwo<T>(ss: seq<seq<T>>, i: nat, j: nat)
    requires i < j < |ss|
    ensures Concat(ss) == Concat(ss[..i]) + ss[i] + Concat(ss[i + 1..j]) + ss[j] + Concat(ss[j + 1..])
  {
    var tail := ss[i + 1..];
    var k := j - i - 1;
    ConcatAt(ss, i);
    ConcatAt(tail, k);
    assert tail[..k] == ss[i + 1..j];
    assert tail[k] == ss[j];
    assert tail[k + 1..] == ss[j + 1..];
    var a, m, b := Concat(ss[..i]), Concat(ss[i + 1..j]), Concat(ss[j + 1..]);
    assert Concat(tail) == m + ss[j] + b;
    RegroupTail(a, ss[i], m, ss[j], b);
  }

  /** Children are flattened in array order: the nodes of an earlier child come first. */
  lemma {:induction false} ChildrenInArrayOrder(n: Node, i: nat, j: nat)
    requires n.Branch? && i < j < |n.children|
    ensures Preorder(n) ==
      [n] + Concat(ChildPreorders(n)[..i]) + Preorder(n.children[i]) + Concat(ChildPreorders(n)[i + 1..j])
      + Preorder(n.children[j]) + Concat(ChildPreorders(n)[j + 1..])
  {
    var ps := ChildPreorders(n);
    var a, x, m, y, b := Concat(ps[..i]), ps[i], Concat(ps[i + 1..j]), ps[j], Concat(ps[j + 1..]);
    assert Preorder(n) == [n] + (a + x + m + y + b) by {
      PreorderUnfold(n);
      ConcatAtTwo(ps, i, j);
    }
    assert x == Preorder(n.children[i]) && y == Preorder(n.children[j]);
    RegroupHead([n], a, x, m, y, b);
  }
}
