/**
  How much of the comment forest a walk visits: comments below different replies are different comments, so the walk of
  a post visits each of its comments at most once.
*/
module RelayForest {
  import opened Core
  import opened Paging
  import opened RelaySettles
  import B = Board

  /** The comment itself, or something that answers it. */
  ghost predicate Under(b: B.Store, x: int, c: int) {
    c == x || HangsFrom(b, Some(x), 0, c)
  }

  /** What the walk of the replies of `parent` beyond the cursor may visit. */
  ghost function Reach(b: B.Store, post: int, parent: Option<int>, after: int): (r: set<int>) {
    set c | c in b.comments && b.comments[c].postId == post && HangsFrom(b, parent, after, c)
  }

  /** What the walk of these replies may visit. */
  ghost function Trees(b: B.Store, ids: seq<int>): (r: set<int>) {
    set c | c in b.comments && exists i :: 0 <= i < |ids| && Under(b, ids[i], c)
  }

  lemma {:induction false} UnderIsYounger(b: B.Store, x: int, c: int)
    requires x in b.comments && HangsFrom(b, Some(x), 0, c)
    ensures x < c
    decreases c
  {
    if b.comments[c].parent != Some(x) { UnderIsYounger(b, x, b.comments[c].parent.value); }
  }

  lemma {:induction false} UnderSamePost(b: B.Store, x: int, c: int)
    requires x in b.comments && Under(b, x, c)
    ensures c in b.comments && b.comments[c].postId == b.comments[x].postId
    decreases c
  {
    if c != x && b.comments[c].parent != Some(x) { UnderSamePost(b, x, b.comments[c].parent.value); }
  }

  /** Replies of one parent have nothing below them in common. */
  lemma {:induction false} SiblingsApart(b: B.Store, x: int, y: int, c: int)
    requires B.Valid(b) && x in b.comments && y in b.comments && x != y
    requires b.comments[x].parent == b.comments[y].parent
    ensures !(Under(b, x, c) && Under(b, y, c))
    decreases c
  {
    assert B.CommentValid(b, x) && B.CommentValid(b, y);
    if Under(b, x, c) && Under(b, y, c) {
      if c == x {
        NotBelowSibling(b, y, x);
      } else if c == y {
        NotBelowSibling(b, x, y);
      } else {
        SiblingsApart(b, x, y, b.comments[c].parent.value);
      }
    }
  }

  lemma NotBelowSibling(b: B.Store, x: int, y: int)
    requires B.Valid(b) && x in b.comments && y in b.comments && b.comments[x].parent == b.comments[y].parent
    ensures !HangsFrom(b, Some(x), 0, y)
  {
    assert B.CommentValid(b, x);
    if HangsFrom(b, Some(x), 0, y) && b.comments[y].parent != Some(x) {
      UnderIsYounger(b, x, b.comments[y].parent.value);
    }
  }

  /** The reply through which c hangs. */
  lemma {:induction false} BranchOf(b: B.Store, parent: Option<int>, after: int, c: int) returns (d: int)
    requires HangsFrom(b, parent, after, c)
    ensures d in b.comments && b.comments[d].parent == parent && d > after && Under(b, d, c)
    decreases c
  {
    if b.comments[c].parent == parent && c > after {
      d := c;
    } else {
      var up := b.comments[c].parent.value;
      d := BranchOf(b, parent, after, up);
      assert 1 <= c;
    }
  }

  /** A tree is its root and what hangs from the root. */
  lemma TreeSize(b: B.Store, post: int, x: int)
    requires B.Valid(b) && x in b.comments && b.comments[x].postId == post
    ensures Trees(b, [x]) == {x} + Reach(b, post, Some(x), 0)
    ensures |Trees(b, [x])| == 1 + |Reach(b, post, Some(x), 0)|
  {
    forall c ensures c in Trees(b, [x]) <==> c in {x} + Reach(b, post, Some(x), 0) {
      if c in b.comments && Under(b, x, c) { UnderSamePost(b, x, c); assert Under(b, [x][0], c); }
    }
    assert Trees(b, [x]) == {x} + Reach(b, post, Some(x), 0);
    if x in Reach(b, post, Some(x), 0) { UnderIsYounger(b, x, x); }
    assert {x} !! Reach(b, post, Some(x), 0);
  }

  ghost predicate Siblings(b: B.Store, parent: Option<int>, ids: seq<int>) {
    && Ascending(ids)
    && (forall i :: 0 <= i < |ids| ==> ids[i] in b.comments && b.comments[ids[i]].parent == parent)
  }

  lemma InTrees(b: B.Store, ids: seq<int>, i: nat, c: int)
    requires i < |ids| && c in b.comments && Under(b, ids[i], c)
    ensures c in Trees(b, ids)
  {
  }

  lemma TreeIndex(b: B.Store, ids: seq<int>, c: int) returns (i: nat)
    requires c in Trees(b, ids)
    ensures i < |ids| && Under(b, ids[i], c)
  {
    i :| i < |ids| && Under(b, ids[i], c);
  }

  lemma TreesUnion(b: B.Store, ids: seq<int>, c: int)
    requires ids != []
    ensures c in Trees(b, ids) <==> c in Trees(b, [ids[0]]) || c in Trees(b, ids[1..])
  {
    if c in Trees(b, ids) {
      var i := TreeIndex(b, ids, c);
      if i == 0 { InTrees(b, [ids[0]], 0, c); } else { InTrees(b, ids[1..], i - 1, c); }
    }
    if c in Trees(b, ids[1..]) {
      var i := TreeIndex(b, ids[1..], c);
      InTrees(b, ids, i + 1, c);
    }
    if c in Trees(b, [ids[0]]) { InTrees(b, ids, 0, c); }
    hide Trees, Under;
  }

  lemma TreesApart(b: B.Store, parent: Option<int>, ids: seq<int>, c: int)
    requires B.Valid(b) && Siblings(b, parent, ids) && ids != []
    ensures !(c in Trees(b, [ids[0]]) && c in Trees(b, ids[1..]))
  {
    if c in Trees(b, [ids[0]]) && c in Trees(b, ids[1..]) {
      var i := TreeIndex(b, ids[1..], c);
      SiblingsApart(b, ids[0], ids[i + 1], c);
    }
    hide B.Valid, HangsFrom;
  }

  lemma TreesSplit(b: B.Store, parent: Option<int>, ids: seq<int>)
    requires B.Valid(b) && Siblings(b, parent, ids) && ids != []
    ensures |Trees(b, ids)| == |Trees(b, [ids[0]])| + |Trees(b, ids[1..])|
  {
    hide B.Valid, Trees, Siblings;
    var a, rest := Trees(b, [ids[0]]), Trees(b, ids[1..]);
    forall c ensures c in Trees(b, ids) <==> c in a + rest { TreesUnion(b, ids, c); }
    assert Trees(b, ids) == a + rest;
    forall c ensures !(c in a && c in rest) { TreesApart(b, parent, ids, c); }
    assert a !! rest;
  }

  lemma {:induction false} TreesHoldRoots(b: B.Store, post: int, parent: Option<int>, ids: seq<int>)
    requires B.Valid(b) && Siblings(b, parent, ids) && forall i :: 0 <= i < |ids| ==> b.comments[ids[i]].postId == post
    ensures |ids| <= |Trees(b, ids)|
    decreases |ids|
  {
    hide B.Valid, Trees;
    if ids != [] {
      TreesSplit(b, parent, ids);
      TreeSize(b, post, ids[0]);
      TreesHoldRoots(b, post, parent, ids[1..]);
    }
  }

  /** A page of replies and the rest of the list share nothing. */
  lemma PageSplit(b: B.Store, post: int, parent: Option<int>, after: int, next: int, ids: seq<int>)
    requires B.Valid(b) && Siblings(b, parent, ids)
    requires forall i :: 0 <= i < |ids| ==> after < ids[i] <= next && b.comments[ids[i]].postId == post
    requires after <= next
    ensures |Trees(b, ids)| + |Reach(b, post, parent, next)| <= |Reach(b, post, parent, after)|
  {
    var a, rest := Trees(b, ids), Reach(b, post, parent, next);
    TreesReached(b, post, parent, after, ids);
    forall c | c in rest ensures c in Reach(b, post, parent, after) {
      var d := BranchOf(b, parent, next, c);
      Regraft(b, parent, after, d, c);
    }
    forall c | c in a && c in rest ensures false {
      var i :| 0 <= i < |ids| && Under(b, ids[i], c);
      var d := BranchOf(b, parent, next, c);
      SiblingsApart(b, ids[i], d, c);
    }
    assert a !! rest;
    Fits(a, rest, Reach(b, post, parent, after));
  }

  lemma Fits(a: set<int>, b: set<int>, c: set<int>)
    requires a !! b && a <= c && b <= c
    ensures |a| + |b| <= |c|
  {
    assert |a + b| == |a| + |b|;
    SubsetSize(a + b, c);
  }

  lemma {:induction false} SubsetSize(a: set<int>, c: set<int>)
    requires a <= c
    ensures |a| <= |c|
    decreases |a|
  {
    if a != {} {
      var x := Witness(a);
      SubsetSize(a - {x}, c - {x});
    }
  }

  lemma TreesReached(b: B.Store, post: int, parent: Option<int>, after: int, ids: seq<int>)
    requires B.Valid(b) && Siblings(b, parent, ids)
    requires forall i :: 0 <= i < |ids| ==> after < ids[i] && b.comments[ids[i]].postId == post
    ensures Trees(b, ids) <= Reach(b, post, parent, after)
  {
    forall c | c in Trees(b, ids) ensures c in Reach(b, post, parent, after) {
      var i :| 0 <= i < |ids| && Under(b, ids[i], c);
      assert B.CommentValid(b, ids[i]);
      UnderSamePost(b, ids[i], c);
      Regraft(b, parent, after, ids[i], c);
    }
  }

  // ---- Posts ------------------------------------------------------------------------------------------------------

  ghost function CommentsIn(b: B.Store, ids: set<int>): (r: set<int>) {
    set c | c in b.comments && b.comments[c].postId in ids
  }

  lemma CommentsApart(b: B.Store, x: set<int>, y: set<int>)
    requires x !! y
    ensures |CommentsIn(b, x + y)| == |CommentsIn(b, x)| + |CommentsIn(b, y)|
  {
    assert CommentsIn(b, x + y) == CommentsIn(b, x) + CommentsIn(b, y);
    assert CommentsIn(b, x) !! CommentsIn(b, y);
  }

  lemma ReachedInPost(b: B.Store, post: int)
    ensures |Reach(b, post, None, 0)| <= |CommentsIn(b, {post})|
  {
    SubsetSize(Reach(b, post, None, 0), CommentsIn(b, {post}));
  }

  lemma CommentsWithin(b: B.Store, ids: set<int>)
    ensures |CommentsIn(b, ids)| <= |b.comments|
  {
    SubsetSize(CommentsIn(b, ids), b.comments.Keys);
  }
}
