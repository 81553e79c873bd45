/** The memory store as an object: board/internal/memory_store.go, each method proved against the value model. */
module BoardStore {
  import opened Core
  import opened Paging
  import opened Board

  /** `sort.Slice` on distinct keys. */
  method SortKeys(xs: seq<int>) returns (ys: seq<int>)
    requires forall i, j :: 0 <= i < j < |xs| ==> xs[i] != xs[j]
    ensures Ascending(ys)
    ensures forall x :: x in ys <==> x in xs
  {
    ys := [];
    for i := 0 to |xs|
      invariant Ascending(ys)
      invariant forall x :: x in ys <==> x in xs[..i]
    {
      var x := xs[i];
      assert x !in xs[..i];
      var k := 0;
      while k < |ys| && ys[k] < x
        invariant 0 <= k <= |ys|
        invariant forall j :: 0 <= j < k ==> ys[j] < x
      {
        k := k + 1;
      }
      Inserted(ys, k, x);
      ys := ys[..k] + [x] + ys[k..];
      assert xs[..i + 1] == xs[..i] + [x];
    }
    assert xs[..|xs|] == xs;
  }

  lemma Inserted(ys: seq<int>, k: nat, x: int)
    requires Ascending(ys) && x !in ys && k <= |ys|
    requires forall j :: 0 <= j < k ==> ys[j] < x
    requires k < |ys| ==> x <= ys[k]
    ensures var zs := ys[..k] + [x] + ys[k..];
            Ascending(zs) && forall z :: z in zs <==> z in ys || z == x
  {
    var zs := ys[..k] + [x] + ys[k..];
    InsertedMembers(ys, k, x);
    assert k < |ys| ==> ys[k] in ys;
    forall i, j | 0 <= i < j < |zs| ensures zs[i] < zs[j] {
      InsertedAt(ys, k, x, i);
      InsertedAt(ys, k, x, j);
    }
  }

  lemma InsertedAt(ys: seq<int>, k: nat, x: int, i: nat)
    requires k <= |ys| && i <= |ys|
    ensures (ys[..k] + [x] + ys[k..])[i] == if i < k then ys[i] else if i == k then x else ys[i - 1]
  {
  }

  lemma InsertedMembers(ys: seq<int>, k: nat, x: int)
    requires k <= |ys|
    ensures forall z :: z in ys[..k] + [x] + ys[k..] <==> z in ys || z == x
  {
    assert ys == ys[..k] + ys[k..];
  }

  lemma SortedAre(ys: seq<int>, xs: seq<int>, m: set<int>, after: int)
    requires Ascending(ys) && forall x :: x in ys <==> x in xs
    requires forall x :: x in xs <==> x in m && after < x
    ensures ys == Sorted(After(m, after))
  {
    AscendingUnique(ys, Sorted(After(m, after)));
  }

  lemma CutKept(ys: seq<int>, limit: int)
    requires 1 <= limit
    ensures var kept := if |ys| > limit + 1 then ys[..limit + 1] else ys;
            Cut(kept, limit, x => x) == Cut(ys, limit, x => x)
  {
    if |ys| > limit + 1 {
      assert ys[..limit + 1][..limit] == ys[..limit];
      assert ys[..limit + 1][limit - 1] == ys[limit - 1];
    }
  }

  /** Sort, keep one more than the limit, and cut the page. */
  method SortedPage(xs: seq<int>, ghost m: set<int>, after: int, limit: int) returns (p: Page<int>)
    requires 1 <= limit
    requires forall i, j :: 0 <= i < j < |xs| ==> xs[i] != xs[j]
    requires forall x :: x in xs <==> x in m && after < x
    ensures p == PageOf(m, after, limit)
  {
    var ys := SortKeys(xs);
    SortedAre(ys, xs, m, after);
    CutKept(ys, limit);
    hide Ascending, Sorted, After, Cut;
    var kept := if |ys| > limit + 1 then ys[..limit + 1] else ys;
    p := Cut(kept, limit, x => x);
  }

  /** The post a search key belongs to, when the key names a row at all. */
  ghost function HitPost(s: Store, k: int): (id: int) {
    if k % 2 == 1 && k / 2 in s.comments then s.comments[k / 2].postId else k / 2
  }

  /** Every key names a row of an active post of the project. */
  lemma KeysNameRows(s: Store, project: string, matches: string -> bool)
    ensures forall k :: k in SearchKeys(s, project, matches) ==>
              && HitPost(s, k) in s.posts
              && s.posts[HitPost(s, k)].project == project && s.posts[HitPost(s, k)].status.Active?
              && (k % 2 == 1 ==> k / 2 in s.comments)
              && (k % 2 == 0 ==> k == SearchCursor(PostHit(HitPost(s, k))))
  {
    forall k | k in SearchKeys(s, project, matches)
      ensures && HitPost(s, k) in s.posts
              && s.posts[HitPost(s, k)].project == project && s.posts[HitPost(s, k)].status.Active?
              && (k % 2 == 1 ==> k / 2 in s.comments)
              && (k % 2 == 0 ==> k == SearchCursor(PostHit(HitPost(s, k))))
    {
      SearchKeyMeaning(s, project, matches, k);
      hide SearchKeys;
    }
  }

  lemma PostKey(s: Store, project: string, matches: string -> bool, id: int)
    requires id in s.posts && s.posts[id].project == project && s.posts[id].status.Active?
    ensures var k := SearchCursor(PostHit(id));
            && HitPost(s, k) == id
            && (k in SearchKeys(s, project, matches) <==> matches(s.posts[id].title + " " + s.posts[id].body))
  {
    SearchKeyMeaning(s, project, matches, SearchCursor(PostHit(id)));
    hide SearchKeys;
  }

  lemma CommentKey(s: Store, project: string, matches: string -> bool, c: int)
    requires c in s.comments
    ensures var k, id := SearchCursor(CommentHit(c)), s.comments[c].postId;
            && HitPost(s, k) == id
            && (id in s.posts && s.posts[id].project == project && s.posts[id].status.Active? ==>
                  (k in SearchKeys(s, project, matches) <==>
                     s.comments[c].status.Active? && matches(s.comments[c].body)))
            && forall j :: j % 2 == 1 && j / 2 == c ==> j == k
  {
    SearchKeyMeaning(s, project, matches, SearchCursor(CommentHit(c)));
    hide SearchKeys;
  }

  lemma NextIsFree(s: Store)
    requires Valid(s)
    ensures s.nextId !in s.posts && s.nextId !in s.comments
  {
    assert s.nextId in s.comments ==> CommentValid(s, s.nextId);
  }

  lemma TryCommentValid(s: Store, c: Comment)
    requires Valid(s)
    ensures var (t, r) := TryComment(s, c);
            && Valid(t) && Extends(s, t)
            && (r.Ok? ==>
                  && r.value !in s.posts && r.value !in s.comments
                  && (c.parent.Some? ==> c.parent.value in s.comments && c.parent.value < r.value))
  {
    NextIsFree(s);
    if Refusal(s, c).None? {
      AddCommentValid(s, c);
      assert c.parent.Some? ==> CommentValid(s, c.parent.value);
    }
  }

  lemma LetThrough(s: Store, c: Comment)
    requires Valid(s) && c.status.Active?
    ensures Refusal(s, c).None? <==>
              Valid(AddComment(s, c)) && (c.parent.Some? ==> ActiveComment(s, c.parent.value))
  {
    if Refusal(s, c).None? {
      AddCommentValid(s, c);
    } else if Valid(AddComment(s, c)) {
      assert CommentValid(AddComment(s, c), s.nextId);
      NextIsFree(s);
    }
  }

  class MemoryStore {
    var nextId: int
    var posts: map<int, Post>
    var comments: map<int, Comment>
    var postKeys: map<string, int>
    var commentKeys: map<string, int>

    ghost function View(): (s: Store)
      reads this
    {
      Store(nextId, posts, comments, postKeys, commentKeys)
    }

    constructor ()
      ensures View() == Empty
    {
      nextId, posts, comments, postKeys, commentKeys := 1, map[], map[], map[], map[];
    }

    /** A store that holds these rows. */
    constructor Holding(s: Store)
      ensures View() == s
    {
      nextId, posts, comments, postKeys, commentKeys := s.nextId, s.posts, s.comments, s.postKeys, s.commentKeys;
    }

    method AllocateId() returns (id: int)
      modifies this`nextId
      ensures id == old(nextId) && nextId == id + 1
    {
      id := nextId;
      nextId := nextId + 1;
    }

    method CreatePost(p: Post) returns (id: int)
      modifies this
      ensures View() == AddPost(old(View()), p) && id == old(nextId)
    {
      id := AllocateId();
      posts := posts[id := p];
    }

    /** The first use of a key adds one post under an id nothing had; later uses change nothing and answer with it. */
    method CreatePostIdempotent(p: Post, key: string) returns (id: int)
      modifies this
      ensures (View(), id) == AddPostKeyed(old(View()), p, key)
      ensures Valid(old(View())) ==> Valid(View()) && Extends(old(View()), View())
      ensures key in postKeys && postKeys[key] == id
      ensures key in old(postKeys) ==> View() == old(View())
      ensures key !in old(postKeys) ==>
                && posts == old(posts)[id := p] && comments == old(comments) && postKeys == old(postKeys)[key := id]
                && (Valid(old(View())) ==> id !in old(posts) && id !in old(comments))
    {
      if Valid(View()) {
        AddPostKeyedValid(View(), p, key);
        NextIsFree(View());
      }
      hide Valid, Extends;
      if key in postKeys { return postKeys[key]; }
      id := AllocateId();
      posts := posts[id := p];
      postKeys := postKeys[key := id];
    }

    /** An active reply is let through exactly when adding it keeps the forest sound and its parent is active. */
    method CheckReply(c: Comment) returns (e: Option<Error>)
      ensures e == Refusal(View(), c)
      ensures Valid(View()) && c.status.Active? ==>
                (e.None? <==>
                   Valid(AddComment(View(), c)) && (c.parent.Some? ==> ActiveComment(View(), c.parent.value)))
      ensures e == Some(PostNotFound) <==> !ActivePost(View(), c.postId)
      ensures e != Some(CommentCycle)
    {
      if Valid(View()) && c.status.Active? { LetThrough(View(), c); }
      hide Valid;
      if c.postId !in posts || !posts[c.postId].status.Active? { return Some(PostNotFound); }
      if c.parent.Some? {
        var id := c.parent.value;
        if id !in comments || !comments[id].status.Active? { return Some(CommentNotFound); }
        if comments[id].postId != c.postId { return Some(ParentPostMismatch); }
      }
      return None;
    }

    /** A refused reply changes nothing; an accepted one is the only new row, younger than what it answers. */
    method CreateComment(c: Comment) returns (r: Result<int, Error>)
      modifies this
      ensures (View(), r) == TryComment(old(View()), c)
      ensures Valid(old(View())) ==> Valid(View()) && Extends(old(View()), View())
      ensures r.Err? ==> View() == old(View())
      ensures r.Ok? ==> comments == old(comments)[r.value := c] && posts == old(posts)
      ensures r.Ok? && Valid(old(View())) ==>
                && r.value !in old(posts) && r.value !in old(comments)
                && (c.parent.Some? ==> c.parent.value in old(comments) && c.parent.value < r.value)
    {
      if Valid(View()) { TryCommentValid(View(), c); }
      hide Valid, Extends;
      var refusal := CheckReply(c);
      if refusal.Some? { return Err(refusal.value); }
      var id := AllocateId();
      comments := comments[id := c];
      return Ok(id);
    }

    /** As for a plain reply, except that a key already used answers with its row before anything is checked. */
    method CreateCommentIdempotent(c: Comment, key: string) returns (r: Result<int, Error>)
      modifies this
      ensures (View(), r) == TryCommentKeyed(old(View()), c, key)
      ensures Valid(old(View())) ==> Valid(View()) && Extends(old(View()), View())
      ensures r.Ok? ==> key in commentKeys && commentKeys[key] == r.value
      ensures key in old(commentKeys) || r.Err? ==> View() == old(View())
      ensures key !in old(commentKeys) && r.Ok? ==>
                && comments == old(comments)[r.value := c] && posts == old(posts)
                && (Valid(old(View())) ==> r.value !in old(posts) && r.value !in old(comments))
    {
      if Valid(View()) {
        TryCommentKeyedValid(View(), c, key);
        NextIsFree(View());
      }
      hide Valid, Extends;
      if key in commentKeys { return Ok(commentKeys[key]); }
      var refusal := CheckReply(c);
      if refusal.Some? { return Err(refusal.value); }
      var id := AllocateId();
      comments := comments[id := c];
      commentKeys := commentKeys[key := id];
      return Ok(id);
    }

    method PurgePostRow(id: int, now: int) returns (e: Option<Error>)
      modifies this
      ensures (View(), e) == PurgePost(old(View()), id, now)
    {
      if id !in posts || !posts[id].status.Active? { return Some(PostNotFound); }
      posts := posts[id := ScrubPost(posts[id], now)];
      var todo := comments.Keys;
      while todo != {}
        invariant todo <= comments.Keys == old(comments).Keys
        invariant posts == old(posts)[id := ScrubPost(old(posts)[id], now)]
        invariant nextId == old(nextId) && postKeys == old(postKeys) && commentKeys == old(commentKeys)
        invariant forall c :: c in todo ==> comments[c] == old(comments)[c]
        invariant forall c :: c in comments && c !in todo ==>
                    comments[c] == ScrubThread(old(comments), id, now)[c]
        decreases todo
      {
        var c := Pick(todo);
        if comments[c].postId == id && comments[c].status.Active? {
          comments := comments[c := ScrubComment(comments[c], now)];
        }
        todo := todo - {c};
      }
      ghost var scrubbed := ScrubThread(old(comments), id, now);
      assert comments.Keys == scrubbed.Keys;
      assert forall c :: c in comments ==> comments[c] == scrubbed[c];
      assert comments == scrubbed;
      return None;
    }

    /** The row stays in its place in the forest as a tombstone; every other row is untouched. */
    method PurgeCommentRow(id: int, now: int) returns (e: Option<Error>)
      modifies this
      ensures (View(), e) == PurgeComment(old(View()), id, now)
      ensures Valid(old(View())) ==> Valid(View()) && Extends(old(View()), View())
      ensures e.None? <==> ActiveComment(old(View()), id)
      ensures !ActiveComment(View(), id) && comments.Keys == old(comments).Keys && posts == old(posts)
      ensures forall c :: c in comments && c != id ==> comments[c] == old(comments)[c]
      ensures e.None? ==>
                && comments[id].parent == old(comments)[id].parent && comments[id].postId == old(comments)[id].postId
                && comments[id].body == "" && comments[id].author == ""
    {
      if Valid(View()) { PurgeCommentValid(View(), id, now); }
      hide Valid, Extends;
      if id !in comments || !comments[id].status.Active? { return Some(CommentNotFound); }
      comments := comments[id := ScrubComment(comments[id], now)];
      return None;
    }

    method HasActiveReply(parentId: int) returns (found: bool)
      requires Valid(View())
      ensures found == HasActiveDescendant(View(), parentId)
      decreases if parentId < nextId then nextId - parentId else 0
    {
      var todo := comments.Keys;
      while todo != {}
        invariant todo <= comments.Keys
        invariant forall c :: c in comments && c !in todo && comments[c].parent == Some(parentId) ==>
                    !comments[c].status.Active? && !HasActiveDescendant(View(), c)
        decreases todo
      {
        var c := Pick(todo);
        todo := todo - {c};
        assert CommentValid(View(), c);
        if comments[c].parent != Some(parentId) { continue; }
        if comments[c].status.Active? { return true; }
        var deeper := HasActiveReply(c);
        if deeper { return true; }
      }
      return false;
    }

    method ListPosts(project: string, after: int, limit: int) returns (p: Page<int>)
      requires 1 <= limit
      ensures p == PageOf(PostIds(View(), project), after, limit)
    {
      var found: seq<int> := [];
      var todo := posts.Keys;
      while todo != {}
        invariant todo <= posts.Keys
        invariant forall x :: x in found <==> x in PostIds(View(), project) && x !in todo && after < x
        invariant forall i, j :: 0 <= i < j < |found| ==> found[i] != found[j]
        decreases todo
      {
        var id := Pick(todo);
        assert id !in found;
        if posts[id].project == project && posts[id].status.Active? && id > after { found := found + [id]; }
        todo := todo - {id};
      }
      p := SortedPage(found, PostIds(View(), project), after, limit);
    }

    /** The posts of a project whose text matches, and under each such post its active comments that match. */
    method Search(project: string, matches: string -> bool, after: int, limit: int) returns (p: Page<int>)
      requires 1 <= limit
      ensures p == PageOf(SearchKeys(View(), project, matches), after, limit)
    {
      hide SearchKeys, HitPost, SearchCursor, PageOf;
      ghost var keys := SearchKeys(View(), project, matches);
      KeysNameRows(View(), project, matches);
      var found: seq<int> := [];
      var todo := posts.Keys;
      while todo != {}
        invariant todo <= posts.Keys
        invariant forall k :: k in found <==> k in keys && HitPost(View(), k) !in todo && after < k
        invariant forall i, j :: 0 <= i < j < |found| ==> found[i] != found[j]
        decreases todo
      {
        var id := Pick(todo);
        todo := todo - {id};
        var post := posts[id];
        if post.project != project || !post.status.Active? { continue; }
        var key := SearchCursor(PostHit(id));
        PostKey(View(), project, matches, id);
        if matches(post.title + " " + post.body) && key > after { found := found + [key]; }
        var left := comments.Keys;
        while left != {}
          invariant left <= comments.Keys
          invariant forall k :: k in found <==>
                      && k in keys && after < k && HitPost(View(), k) !in todo
                      && (HitPost(View(), k) == id && k % 2 == 1 ==> k / 2 !in left)
          invariant forall i, j :: 0 <= i < j < |found| ==> found[i] != found[j]
          decreases left
        {
          var c := Pick(left);
          var commentKey := SearchCursor(CommentHit(c));
          CommentKey(View(), project, matches, c);
          if comments[c].postId == id && comments[c].status.Active? && matches(comments[c].body) && commentKey > after {
            found := found + [commentKey];
          }
          left := left - {c};
        }
      }
      p := SortedPage(found, keys, after, limit);
    }

    method ListComments(post: int, parent: Option<int>, after: int, limit: int) returns (p: Page<int>)
      requires Valid(View()) && 1 <= limit
      ensures p == PageOf(CommentIds(View(), post, parent), after, limit)
    {
      var found: seq<int> := [];
      var todo := comments.Keys;
      while todo != {}
        invariant todo <= comments.Keys
        invariant forall x :: x in found <==> x in CommentIds(View(), post, parent) && x !in todo && after < x
        invariant forall i, j :: 0 <= i < j < |found| ==> found[i] != found[j]
        decreases todo
      {
        var id := Pick(todo);
        assert id !in found;
        if comments[id].postId == post && id > after && comments[id].parent == parent {
          var shown := comments[id].status.Active?;
          if !shown { shown := HasActiveReply(id); }
          if shown { found := found + [id]; }
        }
        todo := todo - {id};
      }
      p := SortedPage(found, CommentIds(View(), post, parent), after, limit);
    }

    /** Walk up from the target, collecting at most `limit` rows, then reverse in place. */
    method GetCommentPath(id: int, limit: nat) returns (path: Result<(seq<int>, bool), Error>)
      requires Valid(View())
      ensures id !in comments ==> path == Ok(([], false))
      ensures id in comments ==>
                path == Ok((Tail(Chain(View(), id), limit), limit < |Chain(View(), id)|))
    {
      if id !in comments { return Ok(([], false)); }
      ghost var chain := Chain(View(), id);
      var found: seq<int> := [];
      var seen: set<int> := {};
      var current := Some(id);
      var cycle := false;
      while current.Some? && |found| < limit && !cycle
        invariant |found| <= |chain|
        invariant forall i :: 0 <= i < |found| ==> found[i] == chain[|chain| - 1 - i]
        invariant current == if |found| < |chain| then Some(chain[|chain| - 1 - |found|]) else None
        invariant forall x :: x in seen ==> x in comments && (current.Some? ==> current.value < x)
        invariant |found| <= limit && !cycle
        decreases limit - |found|
      {
        var at := current.value;
        assert CommentValid(View(), at);
        if at in seen {
          cycle := true;
        } else {
          seen := seen + {at};
          found := found + [at];
          current := comments[at].parent;
        }
      }
      if cycle { return Err(CommentCycle); }
      var truncated := current.Some?;
      var rows := new int[|found|](i requires 0 <= i < |found| => found[i]);
      ReverseInPlace(rows);
      assert rows[..] == Tail(chain, limit);
      return Ok((rows[..], truncated));
    }
  }

  method ReverseInPlace(a: array<int>)
    modifies a
    ensures forall k :: 0 <= k < a.Length ==> a[k] == old(a[a.Length - 1 - k])
  {
    var left, right := 0, a.Length - 1;
    while left < right
      invariant 0 <= left && right == a.Length - 1 - left && left <= right + 1
      invariant forall k :: 0 <= k < left ==> a[k] == old(a[a.Length - 1 - k]) && a[a.Length - 1 - k] == old(a[k])
      invariant forall k :: left <= k <= right ==> a[k] == old(a[k])
      decreases right - left
    {
      a[left], a[right] := a[right], a[left];
      left, right := left + 1, right - 1;
    }
  }
}
