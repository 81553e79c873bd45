/**
  When an attempt completes.  Nobody acts and every call goes through; then the attempt stops early exactly when a
  GitHub comment without a row is refused on its turn, when the board refuses the post of an issue, or for want of ids.
*/
module RelayCompletes {
  import opened Core
  import opened Paging
  import opened Text
  import opened Marker
  import opened Relay
  import opened RelaySafety
  import opened RelayExport
  import opened RelayRuns
  import opened RelayQuiet
  import opened RelaySettles
  import opened RelayQuiescence
  import opened RelayHistory
  import opened RelayTracks
  import opened RelayEnds
  import B = Board

  // ---- Import of issues -------------------------------------------------------------------------------------------

  /** The import of this issue needs a new post: it is asked for, has no row, and its key was never used. */
  ghost predicate NeedsPost(w: World, project: string, issue: Issue) {
    && ImportMarked(issue, project)
    && RowKey(project, IssueRow, issue.id) !in w.rows
    && ReplayKey(project, IssueKind, issue.id) !in w.board.postKeys
  }

  ghost function PostsNeeded(w: World, project: string, issues: seq<Issue>): (n: nat) {
    if issues == [] then 0
    else (if NeedsPost(w, project, issues[0]) then 1 else 0) + PostsNeeded(w, project, issues[1..])
  }

  /** The board refuses the post of this issue for its fields. */
  predicate IssueRefused(w: World, project: string, issue: Issue) {
    ImportMarked(issue, project) && RowKey(project, IssueRow, issue.id) !in w.rows && UnfitIssue(project, issue)
  }

  /** The import of issues stops at one whose fields are refused, or when the board has no id left for a post. */
  ghost predicate ImportStops(w: World, project: string, issues: seq<Issue>) {
    || w.board.nextId + PostsNeeded(w, project, issues) > TwoTo63
    || exists issue :: issue in issues && IssueRefused(w, project, issue)
  }

  /** An undisturbed stretch of the import of issues. */
  ghost predicate Importing(s: State, project: string, listing: seq<Issue>) {
    Clear(s.script) && !s.halted && Inv(s.w) && Sane(s.w) && Session(s.w, project, listing)
  }

  /** A row of a post is the row of an issue; the post exists, and an imported post belongs to that very issue. */
  lemma RowOfPost(w: World, key: RowKey)
    requires Inv(w) && key in w.rows && w.rows[key].kind.PostItem?
    ensures key.kind.IssueRow? && w.rows[key].boardId in w.board.posts
    ensures w.rows[key].boardId in w.imported ==> w.imported[w.rows[key].boardId] == (key.project, key.id)
  {
    assert RowOk(w, key);
    var k :| RowAgrees(w, key, w.rows[key], k);
  }

  /** The post recorded for an issue has no row but that issue's. */
  lemma NoImportConflict(w: World, project: string, id: int, p: int, row: Row)
    requires Inv(w) && p in w.imported && w.imported[p] == (project, id) && row.kind.PostItem? && row.boardId == p
    ensures !Conflict(w.rows, RowKey(project, IssueRow, id), row)
  {
    forall other | other in w.rows && w.rows[other].kind.PostItem? && w.rows[other].boardId == p
      ensures other == RowKey(other.project, IssueRow, id)
    {
      RowOfPost(w, other);
    }
    hide Inv;
  }

  lemma KeyedRange(b: B.Store, p: B.Post, key: string)
    requires InRange(b)
    ensures InRange(B.AddPostKeyed(b, p, key).0) <==> key in b.postKeys || b.nextId != TwoTo63
  {
  }

  /** The state after the board was asked for the issue's post. */
  lemma CreatePostClear(s: State, project: string, issue: Issue)
    requires Clear(s.script) && !s.halted && s.script != [] && InRange(s.w.board)
    ensures var (r, p) := CreatePost(s, project, issue);
            var post, key := BoardPost(project, issue), ReplayKey(project, IssueKind, issue.id);
            && Clear(r.script) && r.script == s.script[1..]
            && (r.halted <==>
                  UnfitIssue(project, issue) || (key !in s.w.board.postKeys && s.w.board.nextId == TwoTo63))
            && (!r.halted ==> (r.w, p) == WithImport(s.w, project, issue.id, post) && InRange(r.w.board))
  {
    var t := s.(script := s.script[1..]);
    var post, key := BoardPost(project, issue), ReplayKey(project, IssueKind, issue.id);
    NextClear(s);
    KeyedRange(s.w.board, post, key);
    hide ReplayKey, BoardPost, Clear, B.AddPostKeyed, Next, InRange, UnfitIssue;
    var (board, id) := B.AddPostKeyed(t.w.board, post, key);
    assert CreatePost(s, project, issue) ==
           if UnfitIssue(project, issue) || !InRange(board) then (Halt(t), 0)
           else (t.(w := t.w.(board := board, imported := t.w.imported[id := (project, issue.id)])), id);
  }

  lemma SaveImportedClear(s: State, project: string, issue: Issue, p: int, limit: nat)
    requires Clear(s.script) && !s.halted && s.script != [] && Inv(s.w)
    requires p in s.w.imported && s.w.imported[p] == (project, issue.id)
    ensures var r := SaveImported(s, project, issue, p, limit);
            && Clear(r.script) && !r.halted && r.script == s.script[1..]
            && r.w == s.w.(rows := r.w.rows) && r.w.rows.Keys == s.w.rows.Keys + {RowKey(project, IssueRow, issue.id)}
  {
    var counted := AddUrl(s.receipt.(importedPosts := s.receipt.importedPosts + 1), limit);
    NextClear(s.(receipt := counted));
    NoImportConflict(s.w, project, issue.id, p, Row(PostItem, p, issue.number, FromGitHub, issue.updatedAt));
    hide Inv, Conflict, AddUrl, Clear;
  }

  /** Posts were added; all else on the board is as it was. */
  ghost predicate Grown(b: B.Store, d: B.Store) {
    && d.comments == b.comments && d.commentKeys == b.commentKeys
    && (forall p :: p in b.posts ==> p in d.posts && d.posts[p] == b.posts[p])
  }

  /** What one import leaves for the others. */
  ghost predicate Others(v: World, w: World, project: string, id: int) {
    && w.issues == v.issues && w.nextRemote == v.nextRemote
    && Grown(v.board, w.board) && |w.board.posts| <= |v.board.posts| + 1
    && (forall x :: x != id ==> (RowKey(project, IssueRow, x) in w.rows <==> RowKey(project, IssueRow, x) in v.rows))
    && (forall x :: x != id ==> (ReplayKey(project, IssueKind, x) in w.board.postKeys <==>
                                 ReplayKey(project, IssueKind, x) in v.board.postKeys))
  }

  lemma KeysOfOthers(project: string, id: int, keys: map<string, int>, p: int)
    ensures forall x :: x != id ==>
              (ReplayKey(project, IssueKind, x) in keys[ReplayKey(project, IssueKind, id) := p] <==>
                 ReplayKey(project, IssueKind, x) in keys)
  {
    hide ReplayKey;
    forall x | x != id ensures ReplayKey(project, IssueKind, x) != ReplayKey(project, IssueKind, id) {
      if ReplayKey(project, IssueKind, x) == ReplayKey(project, IssueKind, id) {
        ReplayKeyInjective(project, IssueKind, x, project, IssueKind, id);
      }
    }
  }

  lemma RowsOfOthers(project: string, id: int, rows: map<RowKey, Row>, next: map<RowKey, Row>)
    requires next.Keys == rows.Keys + {RowKey(project, IssueRow, id)}
    ensures forall x :: x != id ==> (RowKey(project, IssueRow, x) in next <==> RowKey(project, IssueRow, x) in rows)
  {
    forall x | x != id ensures RowKey(project, IssueRow, x) in next <==> RowKey(project, IssueRow, x) in rows {
      assert RowKey(project, IssueRow, x) in next.Keys <==> RowKey(project, IssueRow, x) in rows.Keys;
    }
  }

  lemma BoardAfterImport(b: B.Store, post: B.Post, key: string)
    requires B.Valid(b)
    ensures var d := B.AddPostKeyed(b, post, key).0;
            && Grown(b, d) && |d.posts| <= |b.posts| + 1
            && d.nextId == b.nextId + (if key in b.postKeys then 0 else 1)
            && d.postKeys == (if key in b.postKeys then b.postKeys else b.postKeys[key := b.nextId])
  {
  }

  lemma OthersAfterImport(v: World, w: World, project: string, id: int, post: B.Post)
    requires B.Valid(v.board) && w.board == B.AddPostKeyed(v.board, post, ReplayKey(project, IssueKind, id)).0
    requires w.issues == v.issues && w.nextRemote == v.nextRemote
    requires w.rows.Keys == v.rows.Keys + {RowKey(project, IssueRow, id)}
    ensures Others(v, w, project, id)
    ensures w.board.nextId == v.board.nextId + if ReplayKey(project, IssueKind, id) in v.board.postKeys then 0 else 1
  {
    var key := ReplayKey(project, IssueKind, id);
    BoardAfterImport(v.board, post, key);
    hide ReplayKey, B.Valid, B.AddPostKeyed, Grown;
    KeysOfOthers(project, id, v.board.postKeys, v.board.nextId);
    RowsOfOthers(project, id, v.rows, w.rows);
  }

  lemma ImportIssueClear(s: State, project: string, listing: seq<Issue>, k: int, limit: nat)
    requires Importing(s, project, listing) && 0 <= k < |listing| && 3 <= |s.script|
    ensures var r := ImportIssue(s, project, listing[k], limit);
            var need := if NeedsPost(s.w, project, listing[k]) then 1 else 0;
            && Clear(r.script) && |s.script| <= |r.script| + 3
            && (r.halted <==> s.w.board.nextId + need > TwoTo63 || IssueRefused(s.w, project, listing[k]))
            && (!r.halted ==> Others(s.w, r.w, project, listing[k].id) && r.w.board.nextId == s.w.board.nextId + need)
  {
    hide Session, CreatePost, SaveImported, ReplayKey, BoardPost, Clear, ImportMarked, Sane, UnfitIssue;
    var issue := listing[k];
    assert InRange(s.w.board);
    if ImportMarked(issue, project) {
      var key := RowKey(project, IssueRow, issue.id);
      NextClear(s);
      var (s1, row) := FindByGitHub(s, key);
      if row.None? {
        CreatePostClear(s1, project, issue);
        var (s2, p) := CreatePost(s1, project, issue);
        if !s2.halted {
          ImportSourceOf(s.w, project, listing, k);
          ImportedPost(s.w, project, issue.id, k, BoardPost(project, issue), s2.w, p);
          hide Inv, Later;
          SaveImportedClear(s2, project, issue, p, limit);
          var r := SaveImported(s2, project, issue, p, limit);
          OthersAfterImport(s.w, r.w, project, issue.id, BoardPost(project, issue));
        }
      }
    }
    hide Inv, Later, Others;
    SameOthers(s.w, project, issue.id);
  }

  lemma SameOthers(w: World, project: string, id: int)
    ensures Others(w, w, project, id)
  {
  }

  lemma ImportSourceOf(w: World, project: string, listing: seq<Issue>, k: int)
    requires Session(w, project, listing) && 0 <= k < |listing| && ImportMarked(listing[k], project)
    ensures ImportSource(w, k, project, listing[k].id)
    ensures BoardPost(project, listing[k]).project == project
  {
    assert SameIssue(listing[k], w.issues[k]);
  }

  ghost predicate DistinctIds(issues: seq<Issue>) {
    forall i, j :: 0 <= i < j < |issues| ==> issues[i].id != issues[j].id
  }

  /** What is left to import is not touched by the import of another issue. */
  lemma {:induction false} NeededStays(v: World, w: World, project: string, id: int, issues: seq<Issue>)
    requires Others(v, w, project, id) && forall i :: 0 <= i < |issues| ==> issues[i].id != id
    ensures PostsNeeded(w, project, issues) == PostsNeeded(v, project, issues)
    decreases |issues|
  {
    hide ReplayKey, ImportMarked;
    if issues != [] { NeededStays(v, w, project, id, issues[1..]); }
  }

  lemma RefusedStays(v: World, w: World, project: string, id: int, issues: seq<Issue>)
    requires Others(v, w, project, id) && forall i :: 0 <= i < |issues| ==> issues[i].id != id
    ensures forall issue :: issue in issues ==> (IssueRefused(w, project, issue) <==> IssueRefused(v, project, issue))
  {
    hide ImportMarked, UnfitIssue;
  }

  /** What stops the import of a list, from its first issue and the rest. */
  lemma StopsFirst(v: World, w: World, project: string, issues: seq<Issue>)
    requires issues != []
    ensures var need := if NeedsPost(v, project, issues[0]) then 1 else 0;
            var rest := issues[1..];
            (w.board.nextId == v.board.nextId + need && PostsNeeded(w, project, rest) == PostsNeeded(v, project, rest)
             && forall issue :: issue in rest ==>
                  (IssueRefused(w, project, issue) <==> IssueRefused(v, project, issue)))
            ==> (ImportStops(v, project, issues)
                 <==> IssueRefused(v, project, issues[0]) || ImportStops(w, project, rest))
    ensures var need := if NeedsPost(v, project, issues[0]) then 1 else 0;
            v.board.nextId + need > TwoTo63 || IssueRefused(v, project, issues[0]) ==> ImportStops(v, project, issues)
  {
    NeededFirst(v, project, issues);
    assert issues == [issues[0]] + issues[1..];
    hide IssueRefused, NeedsPost, PostsNeeded;
  }

  lemma ImportingStays(s: State, project: string, listing: seq<Issue>, k: int, limit: nat)
    requires Importing(s, project, listing) && 0 <= k < |listing|
    ensures var r := ImportIssue(s, project, listing[k], limit);
            !r.halted && Clear(r.script) ==> Importing(r, project, listing)
  {
    hide ImportIssue, Session, Later, Inv, Sane, Clear, AllowedScript;
    ClearQuiet(s.script);
    ImportIssueKept(s, project, listing, k, limit);
    ImportIssueAside(s, project, listing[k], limit);
    AsideSane(s.w, ImportIssue(s, project, listing[k], limit).w);
  }

  lemma NeededFirst(w: World, project: string, issues: seq<Issue>)
    requires issues != []
    ensures PostsNeeded(w, project, issues)
            == (if NeedsPost(w, project, issues[0]) then 1 else 0) + PostsNeeded(w, project, issues[1..])
  {
  }

  /** The import of one issue, and what it leaves to be needed by the others. */
  lemma ImportFirstClear(s: State, project: string, listing: seq<Issue>, k: int, limit: nat)
    requires Importing(s, project, listing) && DistinctIds(listing) && 0 <= k < |listing| && 3 <= |s.script|
    ensures var t := ImportIssue(s, project, listing[k], limit);
            var need := if NeedsPost(s.w, project, listing[k]) then 1 else 0;
            && Clear(t.script) && |s.script| <= |t.script| + 3
            && (t.halted <==> s.w.board.nextId + need > TwoTo63 || IssueRefused(s.w, project, listing[k]))
            && (!t.halted ==>
                  && Importing(t, project, listing) && t.w.issues == s.w.issues && Grown(s.w.board, t.w.board)
                  && t.w.board.nextId == s.w.board.nextId + need
                  && |t.w.board.posts| <= |s.w.board.posts| + 1
                  && PostsNeeded(t.w, project, listing[k + 1..]) == PostsNeeded(s.w, project, listing[k + 1..])
                  && forall issue :: issue in listing[k + 1..] ==>
                       (IssueRefused(t.w, project, issue) <==> IssueRefused(s.w, project, issue)))
  {
    ImportIssueClear(s, project, listing, k, limit);
    ImportingStays(s, project, listing, k, limit);
    hide ImportIssue, Importing, Clear, NeedsPost, ReplayKey, PostsNeeded, Grown, IssueRefused;
    var t := ImportIssue(s, project, listing[k], limit);
    if !t.halted {
      NeededStays(s.w, t.w, project, listing[k].id, listing[k + 1..]);
      RefusedStays(s.w, t.w, project, listing[k].id, listing[k + 1..]);
    }
    hide Others;
  }

  lemma NothingStops(w: World, project: string)
    ensures ImportStops(w, project, []) <==> w.board.nextId > TwoTo63
  {
  }

  lemma GrownTransitive(a: B.Store, b: B.Store, c: B.Store)
    requires Grown(a, b) && Grown(b, c)
    ensures Grown(a, c)
  {
  }

  lemma ImportingNow(s: State, project: string, listing: seq<Issue>)
    requires Importing(s, project, listing)
    ensures InRange(s.w.board) && !s.halted && Clear(s.script) && Grown(s.w.board, s.w.board)
  {
  }

  lemma {:induction false} ImportIssuesClear(s: State, project: string, listing: seq<Issue>, k: int, limit: nat)
    requires Importing(s, project, listing) && DistinctIds(listing) && 0 <= k <= |listing|
    requires 3 * (|listing| - k) <= |s.script|
    ensures var r := ImportIssues(s, project, listing[k..], limit);
            && Clear(r.script) && |s.script| <= |r.script| + 3 * (|listing| - k)
            && (r.halted <==> ImportStops(s.w, project, listing[k..]))
            && (!r.halted ==>
                  && r.w.issues == s.w.issues && Grown(s.w.board, r.w.board) && InRange(r.w.board)
                  && |r.w.board.posts| <= |s.w.board.posts| + |listing| - k)
    decreases |listing| - k
  {
    hide ImportIssue, Importing, Clear, NeedsPost, PostsNeeded, Grown, DistinctIds, IssueRefused, ImportStops;
    ImportingNow(s, project, listing);
    NothingStops(s.w, project);
    var rest := listing[k..];
    if k < |listing| {
      assert rest[1..] == listing[k + 1..] && rest[0] == listing[k];
      var t := ImportIssue(s, project, listing[k], limit);
      StopsFirst(s.w, t.w, project, rest);
      ImportFirstClear(s, project, listing, k, limit);
      if t.halted {
        assert ImportIssues(t, project, rest[1..], limit) == t;
      } else {
        ImportIssuesClear(t, project, listing, k + 1, limit);
        var r := ImportIssues(t, project, rest[1..], limit);
        if !r.halted { GrownTransitive(s.w.board, t.w.board, r.w.board); }
      }
    }
  }

  // ---- Import of comments -----------------------------------------------------------------------------------------

  function ReplyFor(project: string, post: int, x: Remote): (c: B.Comment) {
    B.Comment(post, ParentFromMarker(project, x.tag), TrimSpace(x.body), "github", B.Active, x.updatedAt, None)
  }

  function KeyFor(project: string, x: Remote): (key: string) {
    ReplayKey(project, CommentKind, x.id)
  }

  /** The board comment a row of x would name: the one its marker names, the one imported before, or a new one. */
  function BoardComment(w: World, project: string, x: Remote): (c: int) {
    if NamesComment(x, project) then x.tag.0.comment
    else if KeyFor(project, x) in w.board.commentKeys then w.board.commentKeys[KeyFor(project, x)]
    else w.board.nextId
  }

  /**
    A GitHub comment without a row is refused when the board comment it stands for has another row; when its marker
    names a comment and the post, or that comment of the post, is not there or was purged; and when the board refuses
    the reply, because of its fields, because the post or the parent is purged or foreign, or for want of an id.
  */
  ghost predicate Refused(w: World, project: string, post: int, x: Remote) {
    && RowKey(project, CommentRow, x.id) !in w.rows
    && (|| Mapped(w.rows, project, CommentItem, BoardComment(w, project, x))
        || (if NamesComment(x, project)
            then !B.ActivePost(w.board, post) || !B.ActiveComment(w.board, x.tag.0.comment)
                 || w.board.comments[x.tag.0.comment].postId != post
            else UnfitRemote(project, x) || B.Refusal(w.board, ReplyFor(project, post, x)).Some?
                 || (KeyFor(project, x) !in w.board.commentKeys && w.board.nextId >= TwoTo63)))
  }

  /** The world after a GitHub comment that was not refused. */
  function Accept(w: World, project: string, post: int, number: int, x: Remote): (r: World) {
    var key, c := RowKey(project, CommentRow, x.id), BoardComment(w, project, x);
    if key in w.rows then w
    else if NamesComment(x, project)
    then w.(rows := w.rows[key := Row(CommentItem, c, number, FromBoard, x.updatedAt)])
    else w.(board := B.TryCommentKeyed(w.board, ReplyFor(project, post, x), KeyFor(project, x)).0,
            rows := w.rows[key := Row(CommentItem, c, number, FromGitHub, x.updatedAt)])
  }

  /** An undisturbed stretch of the import of comments. */
  ghost predicate Taking(s: State, post: int) {
    Clear(s.script) && !s.halted && InRange(s.w.board) && post in s.w.board.posts
  }

  lemma RecoverCommentClear(s: State, project: string, post: int, number: int, x: Remote)
    requires Taking(s, post) && 4 <= |s.script| && NamesComment(x, project)
    ensures var r := RecoverComment(s, project, post, number, x, x.tag.0.comment);
            && Clear(r.script) && |s.script| <= |r.script| + 4
            && (r.halted <==> Refused(s.w, project, post, x))
            && (!r.halted ==> r.w == Accept(s.w, project, post, number, x))
  {
    var key, c := RowKey(project, CommentRow, x.id), x.tag.0.comment;
    NextClear(s);
    var s1 := FindByGitHub(s, key).0;
    if key !in s.w.rows {
      NextClear(s1);
      var s2 := GetPost(s1, post).0;
      if !s2.halted {
        NextClear(s2);
        var s3 := GetComment(s2, c).0;
        if !s3.halted && s.w.board.comments[c].postId == post {
          NextClear(s3);
          ConflictIsMapped(s.w.rows, key, Row(CommentItem, c, number, FromBoard, x.updatedAt));
        }
      }
    }
    hide Clear, Mapped, Conflict;
  }

  lemma ConflictIsMapped(rows: map<RowKey, Row>, key: RowKey, row: Row)
    requires key !in rows
    ensures Conflict(rows, key, row) <==> Mapped(rows, key.project, row.kind, row.boardId)
  {
  }

  lemma CreateCommentClear(s: State, project: string, post: int, x: Remote)
    requires Taking(s, post) && s.script != [] && !NamesComment(x, project)
    ensures var (r, id) := CreateComment(s, project, post, ParentFromMarker(project, x.tag), x);
            && Clear(r.script) && r.script == s.script[1..] && r.w.rows == s.w.rows
            && (r.halted <==> || UnfitRemote(project, x) || B.Refusal(s.w.board, ReplyFor(project, post, x)).Some?
                              || (KeyFor(project, x) !in s.w.board.commentKeys && s.w.board.nextId >= TwoTo63))
            && (!r.halted ==>
                  && id == BoardComment(s.w, project, x)
                  && r.w == s.w.(board := B.TryCommentKeyed(s.w.board, ReplyFor(project, post, x),
                    KeyFor(project, x)).0))
  {
    hide ReplayKey, TrimSpace, B.Refusal, ParentFromMarker, UnfitRemote, Clear, Next;
    NextClear(s);
    if B.Refusal(s.w.board, ReplyFor(project, post, x)).None? {
      KeyedReplyRange(s.w.board, ReplyFor(project, post, x), KeyFor(project, x));
    }
    hide B.TryCommentKeyed, InRange;
  }

  lemma KeyedReplyRange(b: B.Store, c: B.Comment, key: string)
    requires InRange(b) && B.Refusal(b, c).None?
    ensures var (d, made) := B.TryCommentKeyed(b, c, key);
            && (InRange(d) <==> key in b.commentKeys || b.nextId < TwoTo63)
            && made == Ok(if key in b.commentKeys then b.commentKeys[key] else b.nextId)
  {
    hide B.Refusal;
  }

  lemma ImportCommentClear(s: State, project: string, post: int, number: int, x: Remote, limit: nat)
    requires Taking(s, post) && 4 <= |s.script|
    ensures var r := ImportComment(s, project, post, number, x, limit);
            && Clear(r.script) && |s.script| <= |r.script| + 4
            && (r.halted <==> Refused(s.w, project, post, x))
            && (!r.halted ==> r.w == Accept(s.w, project, post, number, x))
  {
    hide RecoverComment, CreateComment, KeyFor, ReplyFor, Mapped, Conflict, AddUrl, B.Refusal, B.TryCommentKeyed;
    if NamesComment(x, project) {
      RecoverCommentClear(s, project, post, number, x);
      assert ImportComment(s, project, post, number, x, limit)
        == RecoverComment(s, project, post, number, x, x.tag.0.comment);
    } else {
      var key := RowKey(project, CommentRow, x.id);
      NextClear(s);
      var s1 := FindByGitHub(s, key).0;
      if key !in s.w.rows {
        CreateCommentClear(s1, project, post, x);
        var (s2, id) := CreateComment(s1, project, post, ParentFromMarker(project, x.tag), x);
        if !s2.halted {
          var counted := AddUrl(s2.receipt.(importedComments := s2.receipt.importedComments + 1), limit);
          NextClear(s2.(receipt := counted));
          ConflictIsMapped(s.w.rows, key, Row(CommentItem, id, number, FromGitHub, x.updatedAt));
        }
      }
    }
    hide Clear;
  }

  // ---- All listed comments ----------------------------------------------------------------------------------------

  /** A listed GitHub comment, with the board post its issue stands for. */
  datatype Entry = Entry(post: int, number: int, x: Remote)

  function AcceptAll(w: World, project: string, es: seq<Entry>): (r: World)
    decreases |es|
  {
    if es == [] then w else AcceptAll(Accept(w, project, es[0].post, es[0].number, es[0].x), project, es[1..])
  }

  /** No listed comment is refused when its turn comes. */
  ghost predicate Accepted(w: World, project: string, es: seq<Entry>) {
    forall j :: 0 <= j < |es| ==> !RefusedAt(w, project, es, j)
  }

  ghost predicate RefusedAt(w: World, project: string, es: seq<Entry>, j: int)
    requires 0 <= j < |es|
  {
    Refused(AcceptAll(w, project, es[..j]), project, es[j].post, es[j].x)
  }

  lemma RefusedLater(w: World, project: string, es: seq<Entry>, j: int)
    requires 1 <= j < |es|
    ensures RefusedAt(w, project, es, j)
            <==> RefusedAt(Accept(w, project, es[0].post, es[0].number, es[0].x), project, es[1..], j - 1)
  {
    assert es[..j][1..] == es[1..][..j - 1];
    hide Refused, Accept;
  }

  lemma AcceptedFirst(w: World, project: string, es: seq<Entry>)
    requires es != []
    ensures Accepted(w, project, es)
            <==> !Refused(w, project, es[0].post, es[0].x)
                 && Accepted(Accept(w, project, es[0].post, es[0].number, es[0].x), project, es[1..])
  {
    var v := Accept(w, project, es[0].post, es[0].number, es[0].x);
    assert es[..0] == [];
    assert RefusedAt(w, project, es, 0) <==> Refused(w, project, es[0].post, es[0].x);
    hide Refused, Accept, RefusedAt;
    forall j | 1 <= j < |es| ensures RefusedAt(w, project, es, j) <==> RefusedAt(v, project, es[1..], j - 1) {
      RefusedLater(w, project, es, j);
    }
    if Accepted(w, project, es) {
      forall j | 0 <= j < |es[1..]| ensures !RefusedAt(v, project, es[1..], j) {
        assert !RefusedAt(w, project, es, j + 1);
      }
    }
  }

  lemma {:induction false} AcceptedJoin(w: World, project: string, a: seq<Entry>, b: seq<Entry>)
    ensures AcceptAll(w, project, a + b) == AcceptAll(AcceptAll(w, project, a), project, b)
    ensures Accepted(w, project, a + b) <==> Accepted(w, project, a) && Accepted(AcceptAll(w, project, a), project, b)
    decreases |a|
  {
    hide Refused, Accept, Accepted;
    if a == [] {
      assert a + b == b;
      NothingRefused(w, project);
    } else {
      assert (a + b)[1..] == a[1..] + b;
      var v := Accept(w, project, a[0].post, a[0].number, a[0].x);
      AcceptedFirst(w, project, a + b);
      AcceptedFirst(w, project, a);
      AcceptedJoin(v, project, a[1..], b);
    }
  }

  lemma NothingRefused(w: World, project: string)
    ensures Accepted(w, project, [])
  {
  }

  /** What the comment phase never touches. */
  ghost predicate Untouched(v: World, w: World) {
    && w.issues == v.issues && w.board.posts == v.board.posts
    && (forall key: RowKey :: key.kind.IssueRow? ==>
          (key in v.rows <==> key in w.rows) && (key in v.rows ==> w.rows[key] == v.rows[key]))
  }

  lemma AcceptTouches(w: World, project: string, post: int, number: int, x: Remote)
    requires InRange(w.board)
    ensures Untouched(w, Accept(w, project, post, number, x))
    ensures !Refused(w, project, post, x) ==> InRange(Accept(w, project, post, number, x).board)
  {
    hide ReplayKey, TrimSpace, B.Refusal, Mapped;
  }

  lemma {:induction false} AcceptAllTouches(w: World, project: string, es: seq<Entry>)
    requires InRange(w.board) && Accepted(w, project, es)
    ensures Untouched(w, AcceptAll(w, project, es)) && InRange(AcceptAll(w, project, es).board)
    decreases |es|
  {
    hide Refused, Accept, Accepted;
    if es != [] {
      AcceptedFirst(w, project, es);
      AcceptTouches(w, project, es[0].post, es[0].number, es[0].x);
      AcceptAllTouches(Accept(w, project, es[0].post, es[0].number, es[0].x), project, es[1..]);
    }
  }

  function Entries(post: int, number: int, xs: seq<Remote>): (es: seq<Entry>)
    ensures |es| == |xs|
  {
    if xs == [] then [] else [Entry(post, number, xs[0])] + Entries(post, number, xs[1..])
  }

  /** The comments of a listed issue that has a row. */
  function Thread(w: World, project: string, k: nat): (es: seq<Entry>)
    requires k < |w.issues|
  {
    var key := RowKey(project, IssueRow, w.issues[k].id);
    if key in w.rows then Entries(w.rows[key].boardId, w.issues[k].number, w.issues[k].comments) else []
  }

  /** The comments of the listed issues from position k to n, in order. */
  function Threads(w: World, project: string, k: nat, n: nat): (es: seq<Entry>)
    requires k <= n <= |w.issues|
    decreases n - k
  {
    if k == n then [] else Thread(w, project, k) + Threads(w, project, k + 1, n)
  }

  lemma {:induction false} ThreadsStay(v: World, w: World, project: string, k: nat, n: nat)
    requires k <= n <= |v.issues| && Untouched(v, w)
    ensures Threads(w, project, k, n) == Threads(v, project, k, n)
    decreases n - k
  {
    if k < n { ThreadsStay(v, w, project, k + 1, n); }
  }

  lemma {:induction false} ImportThreadClear(s: State, project: string, post: int, number: int, xs: seq<Remote>,
      limit: nat)
    requires Taking(s, post) && 4 * |xs| <= |s.script|
    ensures var r := ImportThread(s, project, post, number, xs, limit); var es := Entries(post, number, xs);
            && Clear(r.script) && |s.script| <= |r.script| + 4 * |xs|
            && (!r.halted <==> Accepted(s.w, project, es))
            && (!r.halted ==> r.w == AcceptAll(s.w, project, es))
    decreases |xs|
  {
    hide ImportComment, Refused, Accept, Accepted, Clear, ImportComment;
    if xs == [] {
      NothingRefused(s.w, project);
    } else {
      var t := ImportComment(s, project, post, number, xs[0], limit);
      ImportCommentClear(s, project, post, number, xs[0], limit);
      AcceptedFirst(s.w, project, Entries(post, number, xs));
      if t.halted {
        assert ImportThread(t, project, post, number, xs[1..], limit) == t;
      } else {
        AcceptTouches(s.w, project, post, number, xs[0]);
        ImportThreadClear(t, project, post, number, xs[1..], limit);
      }
    }
  }

  /** What the phase relies on: numbered issues, and rows of issues that name posts. */
  ghost predicate Linked(w: World) {
    && InRange(w.board)
    && (forall k :: 0 <= k < |w.issues| ==> w.issues[k].number == k + 1)
    && (forall key: RowKey :: key.kind.IssueRow? && key in w.rows ==> w.rows[key].boardId in w.board.posts)
  }

  lemma InvLinked(w: World)
    requires Inv(w)
    ensures Linked(w)
  {
    forall key: RowKey | key.kind.IssueRow? && key in w.rows ensures w.rows[key].boardId in w.board.posts {
      assert RowOk(w, key);
      var k :| RowAgrees(w, key, w.rows[key], k);
    }
  }

  lemma ListCommentsClear(s: State, k: nat)
    requires Clear(s.script) && !s.halted && s.script != [] && k < |s.w.issues| && s.w.issues[k].number == k + 1
    ensures ListIssueComments(s, k + 1) == (s.(script := s.script[1..]), s.w.issues[k].comments)
    ensures Clear(s.script[1..])
  {
    NextClear(s);
  }

  lemma ImportIssueThreadClear(s: State, project: string, issue: Issue, k: nat, limit: nat)
    requires Clear(s.script) && !s.halted && Linked(s.w) && k < |s.w.issues|
    requires s.w.issues[k].id == issue.id && s.w.issues[k].number == issue.number
    requires 2 + 4 * |Thread(s.w, project, k)| <= |s.script|
    ensures var r := ImportIssueThread(s, project, issue, limit); var es := Thread(s.w, project, k);
            && Clear(r.script) && |s.script| <= |r.script| + 2 + 4 * |es|
            && (!r.halted <==> Accepted(s.w, project, es))
            && (!r.halted ==> r.w == AcceptAll(s.w, project, es))
  {
    hide ImportThread, Accepted, Entries;
    NextClear(s);
    NothingRefused(s.w, project);
    var key := RowKey(project, IssueRow, issue.id);
    var s1 := s.(script := s.script[1..]);
    if key in s.w.rows {
      ListCommentsClear(s1, k);
      var s2 := s1.(script := s1.script[1..]);
      ImportThreadClear(s2, project, s.w.rows[key].boardId, issue.number, s.w.issues[k].comments, limit);
    }
    hide Clear, ListIssueComments;
  }

  lemma {:induction false} ImportCommentsClear(s: State, project: string, listing: seq<Issue>, k: nat, limit: nat)
    requires Clear(s.script) && !s.halted && Linked(s.w) && Lists(s.w, listing) && k <= |listing|
    requires 2 * (|listing| - k) + 4 * |Threads(s.w, project, k, |listing|)| <= |s.script|
    ensures var r := ImportComments(s, project, listing[k..], limit); var es := Threads(s.w, project, k, |listing|);
            && (!r.halted <==> Accepted(s.w, project, es))
            && (!r.halted ==> r.w == AcceptAll(s.w, project, es))
    decreases |listing| - k
  {
    hide ImportIssueThread, Accepted, Thread, Clear;
    NothingRefused(s.w, project);
    if k < |listing| {
      var n := |listing|;
      assert listing[k..][0] == listing[k] && listing[k..][1..] == listing[k + 1..];
      assert SameIssue(listing[k], s.w.issues[k]);
      var t := ImportIssueThread(s, project, listing[k], limit);
      ImportIssueThreadClear(s, project, listing[k], k, limit);
      AcceptedJoin(s.w, project, Thread(s.w, project, k), Threads(s.w, project, k + 1, n));
      if t.halted {
        assert ImportComments(t, project, listing[k + 1..], limit) == t;
      } else {
        AcceptAllTouches(s.w, project, Thread(s.w, project, k));
        ThreadsStay(s.w, t.w, project, k + 1, n);
        LinkedStays(s.w, t.w, listing);
        ImportCommentsClear(t, project, listing, k + 1, limit);
      }
    }
  }

  lemma LinkedStays(v: World, w: World, listing: seq<Issue>)
    requires Linked(v) && Lists(v, listing) && Untouched(v, w) && InRange(w.board)
    ensures Linked(w) && Lists(w, listing)
  {
  }

  // ---- The whole attempt ------------------------------------------------------------------------------------------

  lemma {:induction false} ThreadsBound(w: World, project: string, k: nat, n: nat)
    requires k <= n <= |w.issues|
    ensures |Threads(w, project, k, n)| <= Load(w.issues[k..])
    decreases n - k
  {
    if k < n {
      assert w.issues[k..][1..] == w.issues[k + 1..];
      ThreadsBound(w, project, k + 1, n);
    }
  }

  /** Seven calls for every post and every issue that may become one, and five for every comment. */
  ghost function CallsToExport(w: World): (n: nat) {
    1 + 7 * (|w.board.posts| + |w.issues|) + 5 * |w.board.comments|
  }

  /** Enough calls for an attempt, read off the board and the listing. */
  ghost function CallsNeeded(w: World): (n: nat) {
    1 + 5 * |w.issues| + CallsToExport(w) + 4 * (Load(w.issues) + CallsToExport(w))
  }

  /** The attempt up to the export of posts. */
  ghost function BeforeExport(w: World, script: seq<Turn>, project: string, limit: nat): (r: State) {
    var (s, issues) := ListIssues(State(w, script, NoReceipt, false));
    if s.halted then s else ImportIssues(s, project, issues, limit)
  }

  /** The attempt up to the import of comments. */
  ghost function BeforeComments(w: World, script: seq<Turn>, project: string, limit: nat): (r: State) {
    var s, issues := BeforeExport(w, script, project, limit), ListIssues(State(w, script, NoReceipt, false)).1;
    if s.halted then s else ExportPosts(s, project, IssueMarkers(project, issues), 0, limit)
  }

  lemma ListIssuesClear(w: World, script: seq<Turn>, project: string)
    requires Inv(w) && Sane(w) && Clear(script) && script != []
    ensures var s1 := State(w, script[1..], NoReceipt, false);
            && ListIssues(State(w, script, NoReceipt, false)) == (s1, w.issues)
            && Importing(s1, project, w.issues) && DistinctIds(w.issues)
  {
    NextClear(State(w, script, NoReceipt, false));
    SessionStarts(w, project);
  }

  lemma ImportedSends(s1: State, project: string, issues: seq<Issue>, limit: nat)
    requires Importing(s1, project, issues) && Plain(project)
    ensures var s2 := ImportIssues(s1, project, issues, limit);
            (!s2.halted && Clear(s2.script) ==> Sending(s2, project, issues)) && Later(s1.w, s2.w)
  {
    hide Inv, Session, Later, Sane, Clear, Plain, AllowedScript, ImportedUpTo, ImportIssues, Exporting;
    ClearQuiet(s1.script);
    assert issues[0..] == issues;
    NoneImported(s1.w, project, issues);
    ImportIssuesKept(s1, project, issues, 0, limit);
    ImportIssuesAside(s1, project, issues, limit);
    var s2 := ImportIssues(s1, project, issues, limit);
    AsideSane(s1.w, s2.w);
    if !s2.halted { ExportingStarts(s2.w, project, issues); }
  }

  lemma NoneImported(w: World, project: string, issues: seq<Issue>)
    ensures ImportedUpTo(w, project, issues, 0)
  {
  }

  lemma SendsLinked(s: State, project: string, listing: seq<Issue>)
    requires Sending(s, project, listing)
    ensures Linked(s.w) && Lists(s.w, listing) && Clear(s.script) && !s.halted
  {
    InvLinked(s.w);
  }

  lemma EndsLoad(s: State, r: State, project: string, n: int)
    requires Ends(s, r, project, n)
    ensures |s.script| <= |r.script| + n && Load(r.w.issues) <= Load(s.w.issues) + n
  {
  }

  /** The import of issues runs out of ids, or leaves posts and comments to export. */
  lemma BeforeExportClear(w: World, script: seq<Turn>, project: string, limit: nat)
    requires Inv(w) && Sane(w) && Plain(project) && Clear(script) && CallsNeeded(w) <= |script|
    ensures var s := BeforeExport(w, script, project, limit);
            && (s.halted <==> ImportStops(w, project, w.issues))
            && s.w.issues == w.issues && ListIssues(State(w, script, NoReceipt, false)).1 == w.issues
            && (!s.halted ==>
                  && Sending(s, project, w.issues) && Aside(w, s.w) && Grown(w.board, s.w.board) && Later(w, s.w)
                  && ExportCalls(s.w.board, project, 0) <= CallsToExport(w)
                  && |script| <= |s.script| + 1 + 3 * |w.issues|)
  {
    var issues := w.issues;
    ListIssuesClear(w, script, project);
    var s1 := State(w, script[1..], NoReceipt, false);
    ClearQuiet(s1.script);
    hide ListIssues, ImportIssues, Importing, Sending, Aside, Load, Clear, ImportStops, Inv, Sane, DistinctIds, Quiet,
      AllowedScript, ExportCalls, Later;
    ImportIssuesReach(s1, project, issues, limit);
    ImportIssuesQuiet(s1, project, issues, limit);
    ImportedSends(s1, project, issues, limit);
    ImportingSane(s1, project, issues);
    ImportIssuesAside(s1, project, issues, limit);
    ExportCallsBound(ImportIssues(s1, project, issues, limit).w.board, project, 0);
  }

  lemma ImportingSane(s: State, project: string, issues: seq<Issue>)
    requires Importing(s, project, issues)
    ensures Sane(s.w)
  {
  }

  /** The first phases run out of ids, or leave a world in which only comments are left to import. */
  lemma BeforeCommentsClear(w: World, script: seq<Turn>, project: string, limit: nat)
    requires Inv(w) && Sane(w) && Plain(project) && Clear(script) && CallsNeeded(w) <= |script|
    ensures var s := BeforeComments(w, script, project, limit);
            && (s.halted <==> ImportStops(w, project, w.issues))
            && (s.halted ==> s.w.issues == w.issues)
            && (!s.halted ==>
                  && Sending(s, project, w.issues)
                  && 2 * |w.issues| + 4 * Load(s.w.issues) <= |s.script|)
  {
    var issues := w.issues;
    hide ListIssues, BeforeExport, ExportPosts, Sending, Ends, Load, IssueMarkers, Clear, ImportStops, Inv, Sane, Aside,
      ExportCalls, Later;
    BeforeExportClear(w, script, project, limit);
    var s2 := BeforeExport(w, script, project, limit);
    if !s2.halted {
      ExportPostsEnd(s2, project, issues, 0, limit);
      var s3 := ExportPosts(s2, project, IssueMarkers(project, issues), 0, limit);
      EndsLoad(s2, s3, project, ExportCalls(s2.w.board, project, 0));
      SendsGoes(s3, project, issues);
    }
  }

  lemma SendsGoes(s: State, project: string, issues: seq<Issue>)
    requires Sending(s, project, issues)
    ensures !s.halted && |issues| <= |s.w.issues|
  {
  }

  lemma ImportIssuesReach(s1: State, project: string, issues: seq<Issue>, limit: nat)
    requires Importing(s1, project, issues) && DistinctIds(issues) && 3 * |issues| <= |s1.script|
    ensures var s2 := ImportIssues(s1, project, issues, limit);
            && Clear(s2.script) && |s1.script| <= |s2.script| + 3 * |issues|
            && (s2.halted <==> ImportStops(s1.w, project, issues))
            && (!s2.halted ==>
                  && s2.w.issues == s1.w.issues && Grown(s1.w.board, s2.w.board)
                  && |s2.w.board.posts| <= |s1.w.board.posts| + |issues|)
  {
    assert issues[0..] == issues;
    ImportIssuesClear(s1, project, issues, 0, limit);
    hide Importing, ImportIssues, ImportStops, DistinctIds, Clear;
  }

  lemma SyncSplits(w: World, script: seq<Turn>, project: string, limit: nat)
    requires Inv(w) && Sane(w) && Plain(project) && Clear(script) && CallsNeeded(w) <= |script|
    ensures var s := BeforeComments(w, script, project, limit);
            Sync(w, script, project, limit) == if s.halted then s else ImportComments(s, project, w.issues, limit)
  {
    ListIssuesClear(w, script, project);
    hide Inv, Sane, Plain, ImportComments, ImportIssues, ExportPosts, IssueMarkers, ListIssues, Clear, CallsNeeded;
  }

  /**
    When an attempt completes.  From any sound world, if nobody acts, every call goes through and the process lives for
    as many calls as the board and the listing ask for, the attempt returns no error exactly when the board accepts the
    posts to import, and has ids for them, and no listed comment is refused on its turn; the world it then leaves is
    known.
  */
  lemma CompletesExactly(w: World, script: seq<Turn>, project: string, limit: nat)
    requires Inv(w) && Sane(w) && Plain(project) && Clear(script) && CallsNeeded(w) <= |script|
    ensures var s, r := BeforeComments(w, script, project, limit), Sync(w, script, project, limit);
            && (s.halted <==> ImportStops(w, project, w.issues))
            && (s.halted || |w.issues| <= |s.w.issues|)
            && (!r.halted <==> !s.halted && Accepted(s.w, project, Threads(s.w, project, 0, |w.issues|)))
            && (!r.halted ==> r.w == AcceptAll(s.w, project, Threads(s.w, project, 0, |w.issues|)))
  {
    BeforeCommentsClear(w, script, project, limit);
    SyncSplits(w, script, project, limit);
    var issues := w.issues;
    var s := BeforeComments(w, script, project, limit);
    hide Sending, Accepted, Threads, Load, Clear, ImportStops, Inv, Sane, Plain, Sync, BeforeComments, ImportComments;
    if !s.halted {
      SendsLinked(s, project, issues);
      SendsGoes(s, project, issues);
      ThreadsBound(s.w, project, 0, |issues|);
      assert s.w.issues[0..] == s.w.issues && issues[0..] == issues;
      ImportCommentsClear(s, project, issues, 0, limit);
    }
  }

  /** Issues, posts and due comments all have their rows: what is left of the project is on GitHub. */
  ghost predicate BoardRelayed(w: World, project: string) {
    IssuesImported(w, project) && PostsExported(w, project) && CommentsExported(w, project)
  }

  lemma {:induction false} NonePostsNeeded(w: World, project: string, issues: seq<Issue>)
    requires forall k :: 0 <= k < |issues| && ImportMarked(issues[k], project) ==>
               RowKey(project, IssueRow, issues[k].id) in w.rows
    ensures PostsNeeded(w, project, issues) == 0
    decreases |issues|
  {
    hide ImportMarked, ReplayKey;
    if issues != [] { NonePostsNeeded(w, project, issues[1..]); }
  }

  lemma NoneStops(w: World, project: string)
    requires IssuesImported(w, project) && PostsNeeded(w, project, w.issues) == 0 && InRange(w.board)
    ensures !ImportStops(w, project, w.issues)
  {
    hide ImportMarked, UnfitIssue, PostsNeeded;
  }

  lemma RelayedWaits(w: World, script: seq<Turn>, project: string, limit: nat)
    requires Inv(w) && Sane(w) && Clear(script) && script != [] && BoardRelayed(w, project)
    ensures BeforeComments(w, script, project, limit).w == w && !ImportStops(w, project, w.issues)
  {
    ListIssuesClear(w, script, project);
    ImportedAlready(w, project);
    NonePostsNeeded(w, project, w.issues);
    NoneStops(w, project);
    hide PostsExported, CommentsExported, IssuesImported, Importing, ImportIssues, ExportPosts, ListIssues,
      IssueMarkers, ImportMarked, ImportStops, Sane;
    var s1 := State(w, script[1..], NoReceipt, false);
    ClearQuiet(s1.script);
    ImportIssuesStill(s1, project, w.issues, limit);
    var s2 := ImportIssues(s1, project, w.issues, limit);
    if !s2.halted { ExportPostsStill(s2, project, IssueMarkers(project, w.issues), 0, limit); }
    hide Inv;
  }

  /** On a world whose board is relayed the condition is read off that very world, before the attempt. */
  lemma RelayedCompletesExactly(w: World, script: seq<Turn>, project: string, limit: nat)
    requires Inv(w) && Sane(w) && Plain(project) && Clear(script) && CallsNeeded(w) <= |script|
    requires BoardRelayed(w, project)
    ensures !Sync(w, script, project, limit).halted <==> Accepted(w, project, Threads(w, project, 0, |w.issues|))
  {
    RelayedWaits(w, script, project, limit);
    CompletesExactly(w, script, project, limit);
    hide Inv, Sane, Plain, Clear, BoardRelayed, Sync, BeforeComments, Accepted, Threads, ImportStops;
  }
}
