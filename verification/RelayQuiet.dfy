/**
  Quiescence of the relay, first half: what a settled world is, and that an attempt on a settled world, with nobody
  acting meanwhile, changes nothing however it ends.
*/
module RelayQuiet {
  import opened Core
  import opened Paging
  import opened Marker
  import opened Relay
  import B = Board

  /** Nobody acts between the calls. */
  predicate Quiet(script: seq<Turn>) {
    forall i :: 0 <= i < |script| ==> script[i].before == []
  }

  // ---- Settled worlds ---------------------------------------------------------------------------------------------

  /** The comment is active and so is everything it answers: what the export walk reaches. */
  ghost predicate ActiveChain(b: B.Store, c: int)
    decreases c
  {
    && c in b.comments && B.CommentValid(b, c) && b.comments[c].status.Active?
    && (b.comments[c].parent.Some? ==> ActiveChain(b, b.comments[c].parent.value))
  }

  ghost predicate Due(b: B.Store, project: string, c: int) {
    && ActiveChain(b, c)
    && b.comments[c].postId in b.posts && b.posts[b.comments[c].postId].project == project
  }

  ghost predicate Threaded(rows: map<RowKey, Row>, project: string, remotes: seq<Remote>) {
    forall i :: 0 <= i < |remotes| ==> RowKey(project, CommentRow, remotes[i].id) in rows
  }

  ghost predicate IssuesImported(w: World, project: string) {
    forall k :: 0 <= k < |w.issues| && ImportMarked(w.issues[k], project) ==>
      RowKey(project, IssueRow, w.issues[k].id) in w.rows
  }

  ghost predicate PostsExported(w: World, project: string) {
    forall p :: p in B.PostIds(w.board, project) ==> Mapped(w.rows, project, PostItem, p)
  }

  ghost predicate CommentsExported(w: World, project: string) {
    forall c :: Due(w.board, project, c) ==> Mapped(w.rows, project, CommentItem, c)
  }

  ghost predicate ThreadDone(w: World, project: string, k: int)
    requires 0 <= k < |w.issues|
  {
    RowKey(project, IssueRow, w.issues[k].id) in w.rows ==> Threaded(w.rows, project, w.issues[k].comments)
  }

  ghost predicate ThreadsImported(w: World, project: string) {
    forall k :: 0 <= k < |w.issues| ==> ThreadDone(w, project, k)
  }

  /** Everything the project should have relayed has its row. */
  ghost predicate Settled(w: World, project: string) {
    && IssuesImported(w, project) && PostsExported(w, project)
    && CommentsExported(w, project) && ThreadsImported(w, project)
  }

  // ---- Steps that change nothing ----------------------------------------------------------------------------------

  predicate SameCounts(a: Receipt, b: Receipt) {
    && a.importedPosts == b.importedPosts && a.importedComments == b.importedComments
    && a.exportedPosts == b.exportedPosts && a.exportedComments == b.exportedComments
    && a.recovered == b.recovered && a.urls == b.urls && a.omittedUrls == b.omittedUrls
  }

  ghost predicate Still(s: State, r: State) {
    r.w == s.w && Quiet(r.script) && SameCounts(s.receipt, r.receipt)
  }

  lemma NextStill(s: State)
    requires Quiet(s.script)
    ensures Still(s, Next(s).0)
  {
  }

  lemma ImportIssueStill(s: State, project: string, issue: Issue, limit: nat)
    requires Quiet(s.script)
    requires ImportMarked(issue, project) ==> RowKey(project, IssueRow, issue.id) in s.w.rows
    ensures Still(s, ImportIssue(s, project, issue, limit))
  {
    NextStill(s);
    hide ImportNew, Quiet;
  }

  lemma {:induction false} ImportIssuesStill(s: State, project: string, issues: seq<Issue>, limit: nat)
    requires Quiet(s.script)
    requires forall k :: 0 <= k < |issues| && ImportMarked(issues[k], project) ==>
               RowKey(project, IssueRow, issues[k].id) in s.w.rows
    ensures Still(s, ImportIssues(s, project, issues, limit))
    decreases |issues|
  {
    if !s.halted && issues != [] {
      ImportIssueStill(s, project, issues[0], limit);
      hide ImportIssue, Quiet;
      ImportIssuesStill(ImportIssue(s, project, issues[0], limit), project, issues[1..], limit);
    }
  }

  lemma EnsureMappingStill(s: State, project: string, markers: map<int, Issue>, p: int, post: B.Post, limit: nat)
    requires Quiet(s.script) && Mapped(s.w.rows, project, PostItem, p)
    ensures Still(s, EnsureMapping(s, project, markers, p, post, limit).0)
  {
    NextStill(s);
    hide Recover, ExportNew, Quiet, Mapped;
  }

  lemma ExportCommentStill(s: State, project: string, number: int, id: int, c: B.Comment, limit: nat)
    requires Quiet(s.script) && Mapped(s.w.rows, project, CommentItem, id)
    ensures Still(s, ExportComment(s, project, number, id, c, limit))
  {
    NextStill(s);
    hide CreateIssueComment, Save, Quiet, Marked, CommentMarker, Mapped;
  }

  /** The walk is below a chain of active comments of an active post of the project. */
  ghost predicate Below(b: B.Store, project: string, post: int, parent: Option<int>) {
    && B.Valid(b) && B.ActivePost(b, post) && b.posts[post].project == project
    && (parent.Some? ==> ActiveChain(b, parent.value) && b.comments[parent.value].postId == post)
  }

  ghost predicate RepliesOf(b: B.Store, post: int, parent: Option<int>, ids: seq<int>) {
    forall i :: 0 <= i < |ids| ==> ids[i] in B.CommentIds(b, post, parent)
  }

  lemma ReplyDue(b: B.Store, project: string, post: int, parent: Option<int>, c: int)
    requires Below(b, project, post, parent) && c in B.CommentIds(b, post, parent) && b.comments[c].status.Active?
    ensures Due(b, project, c) && Below(b, project, post, Some(c))
  {
  }

  lemma PageOfReplies(b: B.Store, post: int, parent: Option<int>, after: int)
    ensures RepliesOf(b, post, parent, PageOf(B.CommentIds(b, post, parent), after, PageSize).items)
  {
    var ids := B.CommentIds(b, post, parent);
    PageMeaning(ids, after, PageSize);
    hide PageOf, B.CommentIds;
    var items := PageOf(ids, after, PageSize).items;
    assert forall i :: 0 <= i < |items| ==> items[i] in items;
  }

  lemma ListCommentsStill(s: State, post: int, parent: Option<int>, after: int)
    requires Quiet(s.script)
    ensures var (r, page, rows) := ListComments(s, post, parent, after);
            && Still(s, r)
            && (!r.halted ==> rows == s.w.board.comments && RepliesOf(s.w.board, post, parent, page.items))
  {
    NextStill(s);
    PageOfReplies(s.w.board, post, parent, after);
    hide PageOf, B.CommentIds, Quiet, RepliesOf;
  }

  lemma {:induction false} ExportCommentsStill(s: State, project: string, post: int, number: int, parent: Option<int>,
                                               after: int, limit: nat)
    requires Quiet(s.script) && CommentsExported(s.w, project) && Below(s.w.board, project, post, parent)
    ensures Still(s, ExportComments(s, project, post, number, parent, after, limit))
    decreases |s.script|, 0
  {
    hide Quiet, CommentsExported, Below, RepliesOf, ListComments, ExportReplies;
    if !s.halted {
      var (s1, page, rows) := ListComments(s, post, parent, after);
      ListCommentsStill(s, post, parent, after);
      if !s1.halted {
        var s2 := ExportReplies(s1, project, post, number, page.items, rows, limit);
        ExportRepliesStill(s1, project, post, number, parent, page.items, limit);
        if !s2.halted && page.next.Some? {
          ExportCommentsStill(s2, project, post, number, parent, page.next.value, limit);
        }
      }
    }
  }

  lemma {:induction false} ExportRepliesStill(s: State, project: string, post: int, number: int, parent: Option<int>,
                                              ids: seq<int>, limit: nat)
    requires Quiet(s.script) && CommentsExported(s.w, project) && Below(s.w.board, project, post, parent)
    requires RepliesOf(s.w.board, post, parent, ids)
    ensures Still(s, ExportReplies(s, project, post, number, ids, s.w.board.comments, limit))
    decreases |s.script|, 1 + |ids|
  {
    hide Quiet, Below, ExportComment, ExportComments, ActiveChain, B.CommentIds, Mapped;
    if !s.halted && ids != [] {
      var rows := s.w.board.comments;
      if !(ids[0] in rows && rows[ids[0]].status.Active?) {
        ExportRepliesStill(s, project, post, number, parent, ids[1..], limit);
      } else {
        ReplyDue(s.w.board, project, post, parent, ids[0]);
        var s1 := ExportComment(s, project, number, ids[0], rows[ids[0]], limit);
        ExportCommentStill(s, project, number, ids[0], rows[ids[0]], limit);
        if !s1.halted {
          ExportCommentsStill(s1, project, post, number, Some(ids[0]), 0, limit);
          var s2 := ExportComments(s1, project, post, number, Some(ids[0]), 0, limit);
          ExportRepliesStill(s2, project, post, number, parent, ids[1..], limit);
        }
      }
    }
  }

  lemma ExportPostStill(s: State, project: string, markers: map<int, Issue>, p: int, limit: nat)
    requires Quiet(s.script) && B.Valid(s.w.board) && PostsExported(s.w, project) && CommentsExported(s.w, project)
    requires p in B.PostIds(s.w.board, project)
    ensures Still(s, ExportPost(s, project, markers, p, limit))
  {
    NextStill(s);
    hide Quiet, CommentsExported, EnsureMapping, ExportComments, Mapped;
    var (s1, post) := GetPost(s, p);
    if !s1.halted && post.Some? && post.value.status.Active? {
      EnsureMappingStill(s1, project, markers, p, post.value, limit);
      var (s2, row) := EnsureMapping(s1, project, markers, p, post.value, limit);
      if !s2.halted && row.Some? {
        assert Below(s2.w.board, project, p, None);
        ExportCommentsStill(s2, project, p, row.value.number, None, 0, limit);
      }
    }
  }

  ghost predicate ActivePosts(b: B.Store, project: string, ids: seq<int>) {
    forall i :: 0 <= i < |ids| ==> ids[i] in B.PostIds(b, project)
  }

  lemma {:induction false} ExportEachStill(s: State, project: string, markers: map<int, Issue>, ids: seq<int>,
      limit: nat)
    requires Quiet(s.script) && B.Valid(s.w.board) && PostsExported(s.w, project) && CommentsExported(s.w, project)
    requires ActivePosts(s.w.board, project, ids)
    ensures Still(s, ExportEach(s, project, markers, ids, limit))
    decreases |ids|
  {
    hide Quiet, CommentsExported, PostsExported, ExportPost, B.Valid, B.PostIds;
    if !s.halted && ids != [] {
      ExportPostStill(s, project, markers, ids[0], limit);
      ExportEachStill(ExportPost(s, project, markers, ids[0], limit), project, markers, ids[1..], limit);
    }
  }

  lemma ListPostsStill(s: State, project: string, after: int)
    requires Quiet(s.script)
    ensures var (r, page) := ListPosts(s, project, after);
            Still(s, r) && ActivePosts(s.w.board, project, page.items)
  {
    NextStill(s);
    var ids := B.PostIds(s.w.board, project);
    PageMeaning(ids, after, PageSize);
    hide PageOf, B.PostIds, Quiet;
    var items := PageOf(ids, after, PageSize).items;
    assert forall i :: 0 <= i < |items| ==> items[i] in items;
  }

  lemma {:induction false} ExportPostsStill(s: State, project: string, markers: map<int, Issue>, after: int, limit: nat)
    requires Quiet(s.script) && B.Valid(s.w.board) && PostsExported(s.w, project) && CommentsExported(s.w, project)
    ensures Still(s, ExportPosts(s, project, markers, after, limit))
    decreases |s.script|
  {
    hide Quiet, CommentsExported, PostsExported, ExportEach, B.Valid, ListPosts, ActivePosts;
    if !s.halted {
      var (s1, page) := ListPosts(s, project, after);
      ListPostsStill(s, project, after);
      if !s1.halted {
        var s2 := ExportEach(s1, project, markers, page.items, limit);
        ExportEachStill(s1, project, markers, page.items, limit);
        if !s2.halted && page.next.Some? {
          ExportPostsStill(s2, project, markers, page.next.value, limit);
        }
      }
    }
  }

  lemma ImportCommentStill(s: State, project: string, post: int, number: int, remote: Remote, limit: nat)
    requires Quiet(s.script) && RowKey(project, CommentRow, remote.id) in s.w.rows
    ensures Still(s, ImportComment(s, project, post, number, remote, limit))
  {
    NextStill(s);
    hide Quiet, Save, CreateComment, AddUrl;
  }

  lemma {:induction false} ImportThreadStill(s: State, project: string, post: int, number: int, remotes: seq<Remote>,
                                             limit: nat)
    requires Quiet(s.script) && Threaded(s.w.rows, project, remotes)
    ensures Still(s, ImportThread(s, project, post, number, remotes, limit))
    decreases |remotes|
  {
    hide Quiet, ImportComment;
    if !s.halted && remotes != [] {
      ImportCommentStill(s, project, post, number, remotes[0], limit);
      ImportThreadStill(ImportComment(s, project, post, number, remotes[0], limit), project, post, number, remotes[1..],
                        limit);
    }
  }

  lemma ImportIssueThreadStill(s: State, project: string, k: int, limit: nat)
    requires Quiet(s.script) && 0 <= k < |s.w.issues| && s.w.issues[k].number == k + 1 && ThreadDone(s.w, project, k)
    ensures Still(s, ImportIssueThread(s, project, s.w.issues[k], limit))
  {
    NextStill(s);
    hide Threaded, ImportThread;
    var issue := s.w.issues[k];
    var (s1, row) := FindByGitHub(s, RowKey(project, IssueRow, issue.id));
    if !s1.halted && row.Some? {
      NextStill(s1);
      hide Quiet;
      var (s2, remotes) := ListIssueComments(s1, issue.number);
      if !s2.halted { ImportThreadStill(s2, project, row.value.boardId, issue.number, remotes, limit); }
    }
  }

  lemma {:induction false} ImportCommentsStill(s: State, project: string, k: int, limit: nat)
    requires Quiet(s.script) && 0 <= k <= |s.w.issues| && ThreadsImported(s.w, project)
    requires forall i :: 0 <= i < |s.w.issues| ==> s.w.issues[i].number == i + 1
    ensures Still(s, ImportComments(s, project, s.w.issues[k..], limit))
    decreases |s.w.issues| - k
  {
    hide Quiet, ThreadDone, ImportIssueThread;
    if !s.halted && k < |s.w.issues| {
      var t := ImportIssueThread(s, project, s.w.issues[k], limit);
      ImportIssueThreadStill(s, project, k, limit);
      assert s.w.issues[k..][1..] == s.w.issues[k + 1..];
      ImportCommentsStill(t, project, k + 1, limit);
    }
  }

  ghost predicate Numbered(w: World) {
    B.Valid(w.board) && forall i :: 0 <= i < |w.issues| ==> w.issues[i].number == i + 1
  }

  /** On a settled world an attempt that nobody disturbs changes nothing and counts nothing, however it ends. */
  lemma SettledIsStill(w: World, script: seq<Turn>, project: string, limit: nat)
    requires Numbered(w) && Settled(w, project) && Quiet(script)
    ensures var r := Sync(w, script, project, limit); r.w == w && SameCounts(NoReceipt, r.receipt)
  {
    hide Quiet, PostsExported, CommentsExported, ThreadsImported, ImportIssues, ExportPosts, ImportComments, B.Valid,
      IssueMarkers, IssuesImported;
    var s0 := State(w, script, NoReceipt, false);
    NextStill(s0);
    var (s1, issues) := ListIssues(s0);
    if !s1.halted {
      ImportedAlready(w, project);
      ImportIssuesStill(s1, project, issues, limit);
      var s2 := ImportIssues(s1, project, issues, limit);
      if !s2.halted {
        var s3 := ExportPosts(s2, project, IssueMarkers(project, issues), 0, limit);
        ExportPostsStill(s2, project, IssueMarkers(project, issues), 0, limit);
        if !s3.halted {
          assert s3.w.issues[0..] == issues;
          ImportCommentsStill(s3, project, 0, limit);
        }
      }
    }
  }

  lemma ImportedAlready(w: World, project: string)
    requires IssuesImported(w, project)
    ensures forall k :: 0 <= k < |w.issues| && ImportMarked(w.issues[k], project) ==>
              RowKey(project, IssueRow, w.issues[k].id) in w.rows
  {
  }
}
