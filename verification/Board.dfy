/**
  The board store as a value: board/internal/memory_store.go, with the recursive SQL of board/internal/store.go as the
  second form of comment visibility and of comment paths.

  One id sequence serves posts and comments.  Rows are never removed: a purge scrubs a row and leaves a tombstone.
*/
module Board {
  import opened Core
  import opened Paging

  datatype Status = Active | Deleted

  datatype Post = Post(project: string, title: string, body: string, author: string, status: Status,
                       updatedAt: int, deletedAt: Option<int>)

  datatype Comment = Comment(postId: int, parent: Option<int>, body: string, author: string, status: Status,
                             updatedAt: int, deletedAt: Option<int>)

  datatype Store = Store(nextId: int, posts: map<int, Post>, comments: map<int, Comment>,
                         postKeys: map<string, int>, commentKeys: map<string, int>)

  datatype Error = PostNotFound | CommentNotFound | ParentPostMismatch | CommentCycle

  const Empty := Store(1, map[], map[], map[], map[])

  // ---- Writes -------------------------------------------------------------------------------------------------

  function AddPost(s: Store, p: Post): (r: Store) {
    s.(nextId := s.nextId + 1, posts := s.posts[s.nextId := p])
  }

  function AddComment(s: Store, c: Comment): (r: Store) {
    s.(nextId := s.nextId + 1, comments := s.comments[s.nextId := c])
  }

  /** A replayed key returns the row it created, whatever became of that row. */
  function AddPostKeyed(s: Store, p: Post, key: string): (r: (Store, int)) {
    if key in s.postKeys then (s, s.postKeys[key])
    else (AddPost(s, p).(postKeys := s.postKeys[key := s.nextId]), s.nextId)
  }

  function ActivePost(s: Store, id: int): (b: bool) {
    id in s.posts && s.posts[id].status.Active?
  }

  function ActiveComment(s: Store, id: int): (b: bool) {
    id in s.comments && s.comments[id].status.Active?
  }

  /** Why a reply is refused, in the order the store tests. */
  function Refusal(s: Store, c: Comment): (r: Option<Error>) {
    if !ActivePost(s, c.postId) then Some(PostNotFound)
    else if c.parent.None? then None
    else if !ActiveComment(s, c.parent.value) then Some(CommentNotFound)
    else if s.comments[c.parent.value].postId != c.postId then Some(ParentPostMismatch)
    else None
  }

  function TryComment(s: Store, c: Comment): (r: (Store, Result<int, Error>)) {
    match Refusal(s, c)
    case Some(e) => (s, Err(e))
    case None => (AddComment(s, c), Ok(s.nextId))
  }

  function TryCommentKeyed(s: Store, c: Comment, key: string): (r: (Store, Result<int, Error>)) {
    if key in s.commentKeys then (s, Ok(s.commentKeys[key]))
    else match Refusal(s, c)
         case Some(e) => (s, Err(e))
         case None => (AddComment(s, c).(commentKeys := s.commentKeys[key := s.nextId]), Ok(s.nextId))
  }

  function ScrubPost(p: Post, now: int): (r: Post) {
    p.(title := "", body := "", author := "", status := Deleted, updatedAt := now, deletedAt := Some(now))
  }

  function ScrubComment(c: Comment, now: int): (r: Comment) {
    c.(body := "", author := "", status := Deleted, updatedAt := now, deletedAt := Some(now))
  }

  /** Scrub every active comment of a post. */
  function ScrubThread(comments: map<int, Comment>, post: int, now: int): (r: map<int, Comment>) {
    map id | id in comments ::
      if comments[id].postId == post && comments[id].status.Active? then ScrubComment(comments[id], now)
      else comments[id]
  }

  function PurgePost(s: Store, id: int, now: int): (r: (Store, Option<Error>)) {
    if !ActivePost(s, id) then (s, Some(PostNotFound))
    else (s.(posts := s.posts[id := ScrubPost(s.posts[id], now)],
             comments := ScrubThread(s.comments, id, now)), None)
  }

  function PurgeComment(s: Store, id: int, now: int): (r: (Store, Option<Error>)) {
    if !ActiveComment(s, id) then (s, Some(CommentNotFound))
    else (s.(comments := s.comments[id := ScrubComment(s.comments[id], now)]), None)
  }

  // ---- Runs ---------------------------------------------------------------------------------------------------

  datatype Op =
    | OpPost(project: string, title: string, body: string, author: string, at: int)
    | OpPostKeyed(project: string, title: string, body: string, author: string, at: int, key: string)
    | OpComment(post: int, parent: Option<int>, body: string, author: string, at: int)
    | OpCommentKeyed(post: int, parent: Option<int>, body: string, author: string, at: int, key: string)
    | OpPurgePost(id: int, at: int)
    | OpPurgeComment(id: int, at: int)

  function Apply(s: Store, op: Op): (r: Store) {
    match op
    case OpPost(project, title, body, author, at) => AddPost(s, Post(project, title, body, author, Active, at, None))
    case OpPostKeyed(project, title, body, author, at, key) =>
      AddPostKeyed(s, Post(project, title, body, author, Active, at, None), key).0
    case OpComment(post, parent, body, author, at) =>
      TryComment(s, Comment(post, parent, body, author, Active, at, None)).0
    case OpCommentKeyed(post, parent, body, author, at, key) =>
      TryCommentKeyed(s, Comment(post, parent, body, author, Active, at, None), key).0
    case OpPurgePost(id, at) => PurgePost(s, id, at).0
    case OpPurgeComment(id, at) => PurgeComment(s, id, at).0
  }

  function Run(s: Store, ops: seq<Op>): (r: Store)
    decreases |ops|
  {
    if ops == [] then s else Run(Apply(s, ops[0]), ops[1..])
  }

  /** What holds of the comment with this id: it sits in a forest ordered by id, inside one post. */
  ghost predicate CommentValid(s: Store, id: int)
    requires id in s.comments
  {
    var c := s.comments[id];
    && 1 <= id < s.nextId
    && id !in s.posts
    && c.postId in s.posts
    && (c.status.Active? ==> s.posts[c.postId].status.Active?)
    && (c.parent.Some? ==>
          && c.parent.value in s.comments
          && c.parent.value < id
          && s.comments[c.parent.value].postId == c.postId)
  }

  ghost predicate Valid(s: Store) {
    && 1 <= s.nextId
    && (forall id :: id in s.posts ==> 1 <= id < s.nextId)
    && (forall id :: id in s.comments ==> CommentValid(s, id))
    && (forall k :: k in s.postKeys ==> s.postKeys[k] in s.posts)
    && (forall k :: k in s.commentKeys ==> s.commentKeys[k] in s.comments)
  }

  /** What no write ever undoes. */
  ghost predicate Extends(s: Store, t: Store) {
    && s.nextId <= t.nextId
    && (forall id :: id in s.posts ==>
          && id in t.posts
          && t.posts[id].project == s.posts[id].project
          && (t.posts[id] == s.posts[id] || t.posts[id].status.Deleted?))
    && (forall id :: id in t.posts && id !in s.posts ==> s.nextId <= id)
    && (forall id :: id in s.comments ==>
          && id in t.comments
          && t.comments[id].postId == s.comments[id].postId
          && t.comments[id].parent == s.comments[id].parent
          && (t.comments[id] == s.comments[id] || t.comments[id].status.Deleted?))
    && (forall id :: id in t.comments && id !in s.comments ==> s.nextId <= id)
    && (forall k :: k in s.postKeys ==> k in t.postKeys && t.postKeys[k] == s.postKeys[k])
    && (forall k :: k in s.commentKeys ==> k in t.commentKeys && t.commentKeys[k] == s.commentKeys[k])
  }

  lemma AddPostValid(s: Store, p: Post)
    requires Valid(s)
    ensures Valid(AddPost(s, p)) && Extends(s, AddPost(s, p))
  {
    var t := AddPost(s, p);
    forall id | id in t.comments ensures CommentValid(t, id) {
      assert CommentValid(s, id);
    }
  }

  lemma AddCommentValid(s: Store, c: Comment)
    requires Valid(s) && Refusal(s, c).None?
    ensures Valid(AddComment(s, c)) && Extends(s, AddComment(s, c))
  {
    var t := AddComment(s, c);
    assert c.parent.Some? ==> CommentValid(s, c.parent.value);
    forall id | id in t.comments ensures CommentValid(t, id) {
      if id != s.nextId { assert CommentValid(s, id); }
    }
  }

  lemma PurgePostValid(s: Store, id: int, now: int)
    requires Valid(s)
    ensures Valid(PurgePost(s, id, now).0) && Extends(s, PurgePost(s, id, now).0)
  {
    var t := PurgePost(s, id, now).0;
    forall c | c in t.comments ensures CommentValid(t, c) {
      assert CommentValid(s, c);
    }
  }

  lemma PurgeCommentValid(s: Store, id: int, now: int)
    requires Valid(s)
    ensures Valid(PurgeComment(s, id, now).0) && Extends(s, PurgeComment(s, id, now).0)
  {
    var t := PurgeComment(s, id, now).0;
    forall c | c in t.comments ensures CommentValid(t, c) {
      assert CommentValid(s, c);
    }
  }

  /** The key tables play no part in the forest. */
  lemma KeysOnly(s: Store, t: Store, u: Store)
    requires Valid(s) && Valid(t) && Extends(s, t)
    requires u.nextId == t.nextId && u.posts == t.posts && u.comments == t.comments
    requires forall k :: k in u.postKeys ==> u.postKeys[k] in u.posts
    requires forall k :: k in u.commentKeys ==> u.commentKeys[k] in u.comments
    requires forall k :: k in s.postKeys ==> k in u.postKeys && u.postKeys[k] == s.postKeys[k]
    requires forall k :: k in s.commentKeys ==> k in u.commentKeys && u.commentKeys[k] == s.commentKeys[k]
    ensures Valid(u) && Extends(s, u)
  {
    forall id | id in u.comments ensures CommentValid(u, id) { assert CommentValid(t, id); }
  }

  lemma AddPostKeyedValid(s: Store, p: Post, key: string)
    requires Valid(s)
    ensures var (t, id) := AddPostKeyed(s, p, key);
            Valid(t) && Extends(s, t) && key in t.postKeys && t.postKeys[key] == id
  {
    if key !in s.postKeys {
      AddPostValid(s, p);
      KeysOnly(s, AddPost(s, p), AddPostKeyed(s, p, key).0);
    }
  }

  lemma TryCommentKeyedValid(s: Store, c: Comment, key: string)
    requires Valid(s)
    ensures var (t, r) := TryCommentKeyed(s, c, key);
            Valid(t) && Extends(s, t) && (r.Ok? ==> key in t.commentKeys && t.commentKeys[key] == r.value)
  {
    if key !in s.commentKeys && Refusal(s, c).None? {
      AddCommentValid(s, c);
      KeysOnly(s, AddComment(s, c), TryCommentKeyed(s, c, key).0);
    }
  }

  /** Every write keeps the forest and only adds rows or scrubs them. */
  lemma ApplyValid(s: Store, op: Op)
    requires Valid(s)
    ensures Valid(Apply(s, op)) && Extends(s, Apply(s, op))
  {
    match op
    case OpPost(project, title, body, author, at) =>
      AddPostValid(s, Post(project, title, body, author, Active, at, None));
    case OpPostKeyed(project, title, body, author, at, key) =>
      AddPostKeyedValid(s, Post(project, title, body, author, Active, at, None), key);
    case OpComment(post, parent, body, author, at) =>
      var c := Comment(post, parent, body, author, Active, at, None);
      if Refusal(s, c).None? { AddCommentValid(s, c); }
    case OpCommentKeyed(post, parent, body, author, at, key) =>
      TryCommentKeyedValid(s, Comment(post, parent, body, author, Active, at, None), key);
    case OpPurgePost(id, at) => PurgePostValid(s, id, at);
    case OpPurgeComment(id, at) => PurgeCommentValid(s, id, at);
  }

  lemma ExtendsTransitive(s: Store, t: Store, u: Store)
    requires Extends(s, t) && Extends(t, u)
    ensures Extends(s, u)
  {
  }

  /**
    Every store reached by writes: parents are older than their replies and share the post, an active comment has an
    active post, and nothing a caller saw is undone except by scrubbing.
  */
  lemma {:induction false} RunValid(s: Store, ops: seq<Op>)
    requires Valid(s)
    ensures Valid(Run(s, ops)) && Extends(s, Run(s, ops))
    decreases |ops|
  {
    if ops != [] {
      ApplyValid(s, ops[0]);
      RunValid(Apply(s, ops[0]), ops[1..]);
      ExtendsTransitive(s, Apply(s, ops[0]), Run(s, ops));
    }
  }

  /** A replayed key always answers with the row of its first use. */
  lemma ReplayReturnsFirstRow(s: Store, p: Post, q: Post, key: string, ops: seq<Op>)
    requires Valid(s)
    ensures var (s1, id) := AddPostKeyed(s, p, key);
            var s2 := Run(s1, ops);
            AddPostKeyed(s2, q, key) == (s2, id)
  {
    var (s1, id) := AddPostKeyed(s, p, key);
    AddPostKeyedValid(s, p, key);
    RunValid(s1, ops);
  }

  // ---- Comment visibility ---------------------------------------------------------------------------------------

  /** Some reply below this comment is active: the recursive search of the memory store. */
  ghost predicate HasActiveDescendant(s: Store, id: int)
    requires Valid(s)
    decreases if id < s.nextId then s.nextId - id else 0
  {
    exists c :: c in s.comments && s.comments[c].parent == Some(id) && CommentValid(s, c)
                && (s.comments[c].status.Active? || HasActiveDescendant(s, c))
  }

  ghost predicate Visible(s: Store, id: int)
    requires Valid(s) && id in s.comments
  {
    s.comments[id].status.Active? || HasActiveDescendant(s, id)
  }

  /** Round k of the recursive query `descendants`: replies of the previous round, all inside one post. */
  ghost function Round(s: Store, root: int, post: int, k: nat): (r: set<int>) {
    set d | d in s.comments && s.comments[d].postId == post && s.comments[d].parent.Some? &&
            (if k == 0 then s.comments[d].parent.value == root
             else s.comments[d].parent.value in Round(s, root, post, k - 1))
  }

  /** The query's answer: some round yields an active row. */
  ghost predicate QueryFindsActive(s: Store, root: int, post: int) {
    exists k: nat, d: int :: d in Round(s, root, post, k) && ActiveComment(s, d)
  }

  /** The recursion of the query runs dry: round k only holds ids beyond root + k. */
  lemma {:induction false} RoundsAreFinite(s: Store, root: int, post: int, k: nat)
    requires Valid(s)
    ensures forall d :: d in Round(s, root, post, k) ==> root + k < d < s.nextId
    ensures s.nextId <= root + k + 1 ==> Round(s, root, post, k) == {}
    decreases k
  {
    forall d | d in Round(s, root, post, k) ensures root + k < d < s.nextId {
      assert CommentValid(s, d);
      if k > 0 {
        RoundsAreFinite(s, root, post, k - 1);
        assert s.comments[d].parent.value in Round(s, root, post, k - 1);
      }
    }
  }

  lemma {:induction false} RoundReachesRoot(s: Store, root: int, post: int, k: nat, d: int)
    requires Valid(s) && d in Round(s, root, post, k)
    requires s.comments[d].status.Active? || HasActiveDescendant(s, d)
    ensures HasActiveDescendant(s, root)
    decreases k
  {
    var p := s.comments[d].parent.value;
    assert s.comments[d].parent == Some(p) && CommentValid(s, d);
    assert HasActiveDescendant(s, p);
    if k > 0 { RoundReachesRoot(s, root, post, k - 1, p); }
  }

  lemma {:induction false} RoundOfReply(s: Store, root: int, post: int, c: int, k: nat)
    requires c in s.comments && s.comments[c].parent == Some(root) && s.comments[c].postId == post
    ensures Round(s, c, post, k) <= Round(s, root, post, k + 1)
    decreases k
  {
    if k == 0 {
      assert c in Round(s, root, post, 0);
    } else {
      RoundOfReply(s, root, post, c, k - 1);
    }
  }

  lemma {:induction false} DescendantHasRound(s: Store, root: int)
    requires Valid(s) && root in s.comments && HasActiveDescendant(s, root)
    ensures QueryFindsActive(s, root, s.comments[root].postId)
    decreases s.nextId - root
  {
    var post := s.comments[root].postId;
    var c :| c in s.comments && s.comments[c].parent == Some(root) && CommentValid(s, c)
             && (s.comments[c].status.Active? || HasActiveDescendant(s, c));
    if s.comments[c].status.Active? {
      assert c in Round(s, root, post, 0) && ActiveComment(s, c);
    } else {
      DescendantHasRound(s, c);
      var k: nat, d: int :| d in Round(s, c, post, k) && ActiveComment(s, d);
      RoundOfReply(s, root, post, c, k);
      assert d in Round(s, root, post, k + 1);
    }
  }

  /** The two stores show the same comments: the recursive search agrees with the recursive query. */
  lemma VisibilityAgreesWithQuery(s: Store, id: int)
    requires Valid(s) && id in s.comments
    ensures HasActiveDescendant(s, id) <==> QueryFindsActive(s, id, s.comments[id].postId)
  {
    var post := s.comments[id].postId;
    if HasActiveDescendant(s, id) { DescendantHasRound(s, id); }
    if QueryFindsActive(s, id, post) {
      var k: nat, d: int :| d in Round(s, id, post, k) && ActiveComment(s, d);
      RoundReachesRoot(s, id, post, k, d);
    }
  }

  /** A later store that only scrubs old rows, and hangs new ones below active rows, reveals nothing hidden. */
  lemma {:induction false} DescendantWasVisible(s: Store, t: Store, id: int)
    requires Valid(s) && Valid(t) && Extends(s, t)
    requires id in s.comments && HasActiveDescendant(t, id)
    requires forall n :: n in t.comments && n !in s.comments && t.comments[n].parent.Some? ==>
               ActiveComment(s, t.comments[n].parent.value)
    ensures Visible(s, id)
    decreases t.nextId - id
  {
    assert CommentValid(t, id);
    var c :| c in t.comments && t.comments[c].parent == Some(id) && CommentValid(t, c)
             && (t.comments[c].status.Active? || HasActiveDescendant(t, c));
    if c in s.comments {
      assert CommentValid(s, c) && s.comments[c].parent == Some(id);
      if !t.comments[c].status.Active? { DescendantWasVisible(s, t, c); }
    }
  }

  lemma HiddenStaysHiddenOnce(s: Store, op: Op, id: int)
    requires Valid(s) && id in s.comments && !Visible(s, id)
    ensures Valid(Apply(s, op)) && id in Apply(s, op).comments && !Visible(Apply(s, op), id)
  {
    ApplyValid(s, op);
    var t := Apply(s, op);
    if HasActiveDescendant(t, id) { DescendantWasVisible(s, t, id); }
  }

  /** A comment that left the listing never reappears. */
  lemma {:induction false} HiddenStaysHidden(s: Store, ops: seq<Op>, id: int)
    requires Valid(s) && id in s.comments && !Visible(s, id)
    ensures Valid(Run(s, ops)) && id in Run(s, ops).comments && !Visible(Run(s, ops), id)
    decreases |ops|
  {
    if ops != [] {
      HiddenStaysHiddenOnce(s, ops[0], id);
      HiddenStaysHidden(Apply(s, ops[0]), ops[1..], id);
    }
  }

  // ---- Comment paths --------------------------------------------------------------------------------------------

  /** The ids from the root of a thread down to a comment. */
  ghost function Chain(s: Store, id: int): (r: seq<int>)
    requires Valid(s) && id in s.comments
    ensures r != [] && r[|r| - 1] == id
    ensures forall i :: 0 <= i < |r| ==> r[i] in s.comments
    ensures forall i :: 0 <= i < |r| - 1 ==> s.comments[r[i + 1]].parent == Some(r[i])
    ensures s.comments[r[0]].parent.None?
    decreases id
  {
    assert CommentValid(s, id);
    if s.comments[id].parent.None? then [id] else Chain(s, s.comments[id].parent.value) + [id]
  }

  /** The last `limit` links of a chain, oldest first. */
  ghost function Tail(chain: seq<int>, limit: nat): (r: seq<int>) {
    if |chain| <= limit then chain else chain[|chain| - limit..]
  }

  /** The recursive query `path`: the row at depth 1, then parents while the depth is below the limit. */
  ghost function QueryPath(s: Store, id: int, post: int, depth: nat, limit: nat): (r: seq<int>)
    requires Valid(s)
    decreases if id > 0 then id else 0
  {
    if id !in s.comments || s.comments[id].postId != post then []
    else
      assert CommentValid(s, id);
      if s.comments[id].parent.Some? && depth < limit
      then QueryPath(s, s.comments[id].parent.value, post, depth + 1, limit) + [id]
      else [id]
  }

  lemma TailOfLonger(chain: seq<int>, id: int, n: nat)
    requires 1 <= n
    ensures Tail(chain + [id], n + 1) == Tail(chain, n) + [id]
    ensures Tail(chain + [id], 1) == [id]
  {
  }

  /** One step up the chain, on both sides. */
  lemma PathStep(s: Store, id: int, depth: nat, limit: nat)
    requires Valid(s) && id in s.comments && s.comments[id].parent.Some? && 1 <= depth <= limit
    ensures var p := s.comments[id].parent.value;
            && p in s.comments && p < id && 1 <= id && s.comments[p].postId == s.comments[id].postId
            && Chain(s, id) == Chain(s, p) + [id]
            && QueryPath(s, id, s.comments[id].postId, depth, limit)
               == (if depth < limit then QueryPath(s, p, s.comments[p].postId, depth + 1, limit) else []) + [id]
  {
    assert CommentValid(s, id);
  }

  lemma PathEnd(s: Store, id: int, depth: nat, limit: nat)
    requires Valid(s) && id in s.comments && s.comments[id].parent.None? && 1 <= depth <= limit
    ensures QueryPath(s, id, s.comments[id].postId, depth, limit) == [id]
    ensures Tail(Chain(s, id), limit - depth + 1) == [id]
  {
    assert Chain(s, id) == [id];
    hide Chain, Valid;
  }

  lemma {:induction false} QueryPathIsTail(s: Store, id: int, depth: nat, limit: nat)
    requires Valid(s) && id in s.comments && 1 <= depth <= limit
    ensures QueryPath(s, id, s.comments[id].postId, depth, limit) == Tail(Chain(s, id), limit - depth + 1)
    decreases if id > 0 then id else 0
  {
    hide Valid, Chain, QueryPath, Tail;
    if s.comments[id].parent.None? {
      PathEnd(s, id, depth, limit);
    } else {
      PathStep(s, id, depth, limit);
      var p := s.comments[id].parent.value;
      if depth < limit {
        QueryPathIsTail(s, p, depth + 1, limit);
        TailOfLonger(Chain(s, p), id, limit - depth);
      } else {
        TailOfLonger(Chain(s, p), id, 1);
      }
    }
  }

  /** Both stores cut a path at the same place, and both may read the cut off the first row's parent. */
  lemma PathsAgree(s: Store, id: int, limit: nat)
    requires Valid(s) && id in s.comments && 1 <= limit
    ensures QueryPath(s, id, s.comments[id].postId, 1, limit) == Tail(Chain(s, id), limit)
    ensures s.comments[Tail(Chain(s, id), limit)[0]].parent.Some? <==> limit < |Chain(s, id)|
  {
    QueryPathIsTail(s, id, 1, limit);
    var chain := Chain(s, id);
    if limit < |chain| {
      var k := |chain| - limit - 1;
      assert s.comments[chain[k + 1]].parent == Some(chain[k]);
      assert Tail(chain, limit)[0] == chain[k + 1];
    }
  }

  // ---- Listings ---------------------------------------------------------------------------------------------------

  ghost function PostIds(s: Store, project: string): (r: set<int>) {
    set id | id in s.posts && s.posts[id].project == project && s.posts[id].status.Active?
  }

  ghost function CommentIds(s: Store, post: int, parent: Option<int>): (r: set<int>) {
    set id | id in s.comments && s.comments[id].postId == post && s.comments[id].parent == parent
             && Valid(s) && Visible(s, id)
  }

  datatype Hit = PostHit(id: int) | CommentHit(id: int)

  /** The cursor of a search result: posts even, comments odd, so one key names one result. */
  function SearchCursor(h: Hit): (k: int)
    ensures h.PostHit? <==> k % 2 == 0
    ensures k / 2 == h.id
  {
    match h
    case PostHit(id) => id * 2
    case CommentHit(id) => id * 2 + 1
  }

  /** The keys a search matches; `matches` stands for the text match on title and body. */
  ghost function SearchKeys(s: Store, project: string, matches: string -> bool): (r: set<int>) {
    (set id | id in s.posts && s.posts[id].project == project && s.posts[id].status.Active?
              && matches(s.posts[id].title + " " + s.posts[id].body) :: SearchCursor(PostHit(id)))
    +
    (set id | id in s.comments && s.comments[id].postId in s.posts
              && s.posts[s.comments[id].postId].project == project && s.posts[s.comments[id].postId].status.Active?
              && s.comments[id].status.Active? && matches(s.comments[id].body) :: SearchCursor(CommentHit(id)))
  }

  /** The stores seen by successive fetches, with arbitrary writes in between. */
  ghost function States(s: Store, between: seq<seq<Op>>): (r: seq<Store>)
    ensures |r| == |between| + 1 && r[0] == s
    decreases |between|
  {
    if between == [] then [s] else [s] + States(Run(s, between[0]), between[1..])
  }

  lemma LaterIsReflexive(s: Store)
    ensures Extends(s, s)
  {
  }

  lemma {:induction false} StatesValid(s: Store, between: seq<seq<Op>>, i: nat)
    requires Valid(s) && i <= |between|
    ensures var ts := States(s, between);
            Valid(ts[i]) && Extends(s, ts[i]) && Valid(ts[|between|]) && Extends(ts[i], ts[|between|])
    decreases |between|
  {
    hide Valid, Extends;
    LaterIsReflexive(s);
    if between != [] {
      RunValid(s, between[0]);
      var t := Run(s, between[0]);
      StatesValid(t, between[1..], if i == 0 then 0 else i - 1);
      var ts := States(s, between);
      assert ts[|between|] == States(t, between[1..])[|between| - 1];
      if i == 0 {
        ExtendsTransitive(s, t, ts[|between|]);
      } else {
        assert ts[i] == States(t, between[1..])[i - 1];
        ExtendsTransitive(s, t, ts[i]);
      }
    }
  }

  /** The states from the i-th on are the states of the writes from the i-th on. */
  lemma {:induction false} StatesFrom(s: Store, between: seq<seq<Op>>, i: nat)
    requires Valid(s) && i < |between|
    ensures States(s, between)[i + 1] == Run(States(s, between)[i], between[i])
    decreases |between|
  {
    if i > 0 { RunValid(s, between[0]); StatesFrom(Run(s, between[0]), between[1..], i - 1); }
  }

  lemma {:induction false} HiddenInLaterStates(s: Store, between: seq<seq<Op>>, i: nat, j: nat, id: int)
    requires Valid(s) && i <= j <= |between|
    requires Valid(States(s, between)[i]) && id in States(s, between)[i].comments && !Visible(States(s, between)[i], id)
    ensures Valid(States(s, between)[j]) && id in States(s, between)[j].comments && !Visible(States(s, between)[j], id)
    decreases j - i
  {
    if i < j {
      StatesFrom(s, between, i);
      HiddenStaysHidden(States(s, between)[i], between[i], id);
      HiddenInLaterStates(s, between, i + 1, j, id);
    }
  }

  ghost function PostSets(ts: seq<Store>, project: string): (r: seq<set<int>>) {
    seq(|ts|, i requires 0 <= i < |ts| => PostIds(ts[i], project))
  }

  ghost function CommentSets(ts: seq<Store>, post: int, parent: Option<int>): (r: seq<set<int>>) {
    seq(|ts|, i requires 0 <= i < |ts| => CommentIds(ts[i], post, parent))
  }

  ghost function SearchSets(ts: seq<Store>, project: string, matches: string -> bool): (r: seq<set<int>>) {
    seq(|ts|, i requires 0 <= i < |ts| => SearchKeys(ts[i], project, matches))
  }

  lemma PostThroughout(s: Store, between: seq<seq<Op>>, project: string, x: int)
    requires Valid(s)
    requires var ts := States(s, between); x in PostIds(ts[0], project) * PostIds(ts[|between|], project)
    ensures 0 < x && MatchedThroughout(x, PostSets(States(s, between), project))
  {
    var ms := PostSets(States(s, between), project);
    StatesValid(s, between, 0);
    forall i | 0 <= i < |ms| ensures x in ms[i] { StatesValid(s, between, i); }
  }

  /**
    A finished walk over a project's posts, with any writes between fetches, returns each post that was listed at the
    first and at the last fetch exactly once, in increasing id order, and nothing twice.
  */
  lemma PostWalk(s: Store, between: seq<seq<Op>>, project: string, limit: int)
    requires Valid(s) && 1 <= limit
    requires Finished(PostSets(States(s, between), project), 0, limit)
    ensures var ts := States(s, between);
            var keys := Walk(PostSets(ts, project), 0, limit);
            && Ascending(keys)
            && (forall x :: x in PostIds(ts[0], project) * PostIds(ts[|between|], project) ==> x in keys)
            && (forall x :: x in keys ==> exists i :: 0 <= i < |ts| && x in PostIds(ts[i], project))
  {
    hide Valid, Ascending, Walk, Finished, PostIds, MatchedThroughout;
    var ts := States(s, between);
    var ms := PostSets(ts, project);
    WalkUnderChange(ms, 0, limit);
    forall x | x in PostIds(ts[0], project) * PostIds(ts[|between|], project) ensures x in Walk(ms, 0, limit) {
      PostThroughout(s, between, project, x);
    }
    forall x | x in Walk(ms, 0, limit) ensures exists i :: 0 <= i < |ts| && x in PostIds(ts[i], project) {
      assert MatchedOnce(x, ms);
      var i :| 0 <= i < |ms| && x in ms[i];
      assert x in PostIds(ts[i], project);
    }
  }

  /** A reply listed first and last was listed all the time. */
  lemma ReplyThroughout(s: Store, between: seq<seq<Op>>, post: int, parent: Option<int>, x: int)
    requires Valid(s)
    requires var ts := States(s, between);
             x in CommentIds(ts[0], post, parent) * CommentIds(ts[|between|], post, parent)
    ensures 0 < x && MatchedThroughout(x, CommentSets(States(s, between), post, parent))
  {
    var ts := States(s, between);
    var ms := CommentSets(ts, post, parent);
    assert CommentValid(ts[0], x);
    forall i | 0 <= i < |ms| ensures x in ms[i] {
      StatesValid(s, between, i);
      if !Visible(ts[i], x) { HiddenInLaterStates(s, between, i, |between|, x); }
    }
  }

  /** The same for the replies of one comment, where tombstones with active replies are listed too. */
  lemma CommentWalk(s: Store, between: seq<seq<Op>>, post: int, parent: Option<int>, limit: int)
    requires Valid(s) && 1 <= limit
    requires Finished(CommentSets(States(s, between), post, parent), 0, limit)
    ensures var ts := States(s, between);
            var keys := Walk(CommentSets(ts, post, parent), 0, limit);
            && Ascending(keys)
            && (forall x :: x in CommentIds(ts[0], post, parent) * CommentIds(ts[|between|], post, parent) ==>
                  x in keys)
            && (forall x :: x in keys ==> exists i :: 0 <= i < |ts| && x in CommentIds(ts[i], post, parent))
  {
    hide Valid, Ascending, Walk, Finished, CommentIds, MatchedThroughout;
    var ts := States(s, between);
    var ms := CommentSets(ts, post, parent);
    WalkUnderChange(ms, 0, limit);
    forall x | x in CommentIds(ts[0], post, parent) * CommentIds(ts[|between|], post, parent)
      ensures x in Walk(ms, 0, limit) {
      ReplyThroughout(s, between, post, parent, x);
    }
    forall x | x in Walk(ms, 0, limit) ensures exists i :: 0 <= i < |ts| && x in CommentIds(ts[i], post, parent) {
      assert MatchedOnce(x, ms);
      var i :| 0 <= i < |ms| && x in ms[i];
      assert x in CommentIds(ts[i], post, parent);
    }
  }

  /** The row a search key names, read off the key. */
  ghost predicate IsHit(s: Store, project: string, matches: string -> bool, k: int) {
    if k % 2 == 0
    then k / 2 in s.posts && s.posts[k / 2].project == project && s.posts[k / 2].status.Active?
         && matches(s.posts[k / 2].title + " " + s.posts[k / 2].body)
    else k / 2 in s.comments && s.comments[k / 2].postId in s.posts
         && s.posts[s.comments[k / 2].postId].project == project
         && s.posts[s.comments[k / 2].postId].status.Active?
         && s.comments[k / 2].status.Active? && matches(s.comments[k / 2].body)
  }

  lemma SearchKeyMeaning(s: Store, project: string, matches: string -> bool, k: int)
    ensures k in SearchKeys(s, project, matches) <==> IsHit(s, project, matches, k)
  {
    if k % 2 == 0 { assert SearchCursor(PostHit(k / 2)) == k; }
    else { assert SearchCursor(CommentHit(k / 2)) == k; }
  }

  /** A row that matched first and last matched all the time: text never changes while a row is active. */
  lemma HitThroughout(s: Store, between: seq<seq<Op>>, project: string, matches: string -> bool, k: int)
    requires Valid(s)
    requires var ts := States(s, between);
             k in SearchKeys(ts[0], project, matches) * SearchKeys(ts[|between|], project, matches)
    ensures 0 < k && MatchedThroughout(k, SearchSets(States(s, between), project, matches))
  {
    var ts := States(s, between);
    var ms := SearchSets(ts, project, matches);
    SearchKeyMeaning(ts[0], project, matches, k);
    SearchKeyMeaning(ts[|between|], project, matches, k);
    assert k % 2 != 0 ==> CommentValid(ts[0], k / 2);
    forall i | 0 <= i < |ms| ensures k in ms[i] {
      StatesValid(s, between, i);
      SearchKeyMeaning(ts[i], project, matches, k);
      hide SearchKeys, States;
      assert k % 2 != 0 ==> k / 2 in ts[i].comments && CommentValid(ts[i], k / 2);
    }
  }

  /** The same for a search, where posts and comments share one cursor. */
  lemma SearchWalk(s: Store, between: seq<seq<Op>>, project: string, matches: string -> bool, limit: int)
    requires Valid(s) && 1 <= limit
    requires Finished(SearchSets(States(s, between), project, matches), 0, limit)
    ensures var ts := States(s, between);
            var keys := Walk(SearchSets(ts, project, matches), 0, limit);
            && Ascending(keys)
            && (forall k :: k in SearchKeys(ts[0], project, matches) * SearchKeys(ts[|between|], project, matches) ==>
                  k in keys)
            && (forall k :: k in keys ==> exists i :: 0 <= i < |ts| && k in SearchKeys(ts[i], project, matches))
  {
    hide Valid, Ascending, Walk, Finished, SearchKeys, MatchedThroughout;
    var ts := States(s, between);
    var ms := SearchSets(ts, project, matches);
    WalkUnderChange(ms, 0, limit);
    forall k | k in SearchKeys(ts[0], project, matches) * SearchKeys(ts[|between|], project, matches)
      ensures k in Walk(ms, 0, limit)
    {
      HitThroughout(s, between, project, matches, k);
    }
    forall k | k in Walk(ms, 0, limit) ensures exists i :: 0 <= i < |ts| && k in SearchKeys(ts[i], project, matches) {
      assert MatchedOnce(k, ms);
      var i :| 0 <= i < |ms| && k in ms[i];
      assert k in SearchKeys(ts[i], project, matches);
    }
  }
}
