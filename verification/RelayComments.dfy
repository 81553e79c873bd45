/** What the comment phases keep: they never touch what is recorded about posts. */
module RelayComments {
  import opened Core
  import opened Paging
  import opened Text
  import opened Marker
  import opened Relay
  import opened RelaySafety
  import B = Board

  // ---- Rows of comments -------------------------------------------------------------------------------------------

  /** A GitHub comment of this id exists and has no row. */
  ghost predicate Free(w: World, key: RowKey) {
    key.kind.CommentRow? && key !in w.rows && key.id < w.nextRemote
  }

  lemma FreeStays(v: World, w: World, key: RowKey)
    requires Free(v, key) && Later(v, w) && w.rows == v.rows
    ensures Free(w, key)
  {
  }

  lemma SaveCommentRow(s: State, key: RowKey, row: Row)
    requires Safe(s) && Free(s.w, key) && row.kind.CommentItem?
    ensures KeptPosts(s, Save(s, key, row))
  {
    var t := Next(s).0;
    NextKept(s);
    FreeStays(s.w, t.w, key);
    if Next(s).1 != Failed && !Conflict(t.w.rows, key, row) {
      hide Later, SamePosts;
      CommentRowWrite(t.w, key, row);
      LaterTransitive(s.w, t.w, t.w.(rows := t.w.rows[key := row]));
    }
    hide Inv, Later, SamePosts, Conflict;
  }

  lemma CountedCommentRow(s: State, receipt: Receipt, key: RowKey, row: Row)
    requires Safe(s) && Free(s.w, key) && row.kind.CommentItem?
    ensures KeptPosts(s, Save(s.(receipt := receipt), key, row))
  {
    SaveCommentRow(s.(receipt := receipt), key, row);
    hide Inv, Later, SamePosts, Save;
  }

  // ---- Export of comments -----------------------------------------------------------------------------------------

  lemma CreateRemoteKept(s: State, project: string, number: int, comment: (string, int), body: string)
    requires Safe(s)
    ensures var (r, remote) := CreateIssueComment(s, number, comment, body);
            KeptPosts(s, r) && (!r.halted ==> Free(r.w, RowKey(project, CommentRow, remote.id)))
  {
    hide Inv, Later, SamePosts, AllowedScript, Parse, AppendRemote, Free;
    NextKept(s);
    var t := Next(s).0;
    var remote := Remote(t.w.nextRemote, body, Parse(body), 0, Some(comment));
    if 1 <= number <= |t.w.issues| {
      NewRemote(t.w, project, number - 1, remote);
      WorldsChain(s.w, t.w, AppendRemote(t.w, number - 1, remote));
    }
  }

  lemma NewRemote(w: World, project: string, i: nat, remote: Remote)
    requires Inv(w) && i < |w.issues| && remote.id == w.nextRemote
    ensures var v := AppendRemote(w, i, remote);
            && Inv(v) && Later(w, v) && SamePosts(w, v)
            && Free(v, RowKey(project, CommentRow, remote.id))
  {
    RemoteAppended(w, i, remote);
    var key := RowKey(project, CommentRow, remote.id);
    assert key in w.rows ==> RowOk(w, key);
    hide Inv, Later, SamePosts;
  }

  lemma ExportCommentKept(s: State, project: string, number: int, id: int, c: B.Comment, limit: nat)
    requires Safe(s)
    ensures KeptPosts(s, ExportComment(s, project, number, id, c, limit))
  {
    hide Inv, Later, SamePosts, AllowedScript, Marked, CommentMarker, CreateIssueComment, Save, AddUrl;
    NextKept(s);
    var (s1, row) := FindByBoard(s, project, CommentItem, id);
    if !s1.halted && row.None? {
      var body := Marked(c.body, CommentMarker(project, id, c.parent));
      var (s2, remote) := CreateIssueComment(s1, number, (project, id), body);
      CreateRemoteKept(s1, project, number, (project, id), body);
      KeptTransitive(s, s1, s2);
      if !s2.halted {
        var counted := AddUrl(s2.receipt.(exportedComments := s2.receipt.exportedComments + 1), limit);
        var key, row := RowKey(project, CommentRow, remote.id),
          Row(CommentItem, id, number, FromBoard, remote.updatedAt);
        CountedCommentRow(s2, counted, key, row);
        KeptTransitive(s, s2, Save(s2.(receipt := counted), key, row));
      }
    }
  }

  lemma {:induction false} ExportCommentsKept(s: State, project: string, post: int, number: int, parent: Option<int>,
                                              after: int, limit: nat)
    requires Safe(s)
    ensures KeptPosts(s, ExportComments(s, project, post, number, parent, after, limit))
    decreases |s.script|, 0
  {
    hide Safe, KeptPosts, ListComments, ExportReplies;
    KeptReflexive(s);
    if !s.halted {
      var (s1, page, rows) := ListComments(s, post, parent, after);
      ListCommentsKept(s, post, parent, after);
      if !s1.halted {
        var s2 := ExportReplies(s1, project, post, number, page.items, rows, limit);
        KeptSafe(s, s1);
        ExportRepliesKept(s1, project, post, number, page.items, rows, limit);
        Chain(s, s1, s2);
        if !s2.halted && page.next.Some? {
          KeptSafe(s, s2);
          ExportCommentsKept(s2, project, post, number, parent, page.next.value, limit);
          Chain(s, s2, ExportComments(s2, project, post, number, parent, page.next.value, limit));
        }
      }
    }
  }

  lemma ListCommentsKept(s: State, post: int, parent: Option<int>, after: int)
    requires Safe(s)
    ensures KeptPosts(s, ListComments(s, post, parent, after).0)
  {
    NextKept(s);
    hide Inv, Later, SamePosts, AllowedScript, PageOf;
  }

  lemma Chain(s: State, t: State, r: State)
    requires Safe(s) && KeptPosts(s, t) && KeptPosts(t, r)
    ensures KeptPosts(s, r)
  {
    KeptTransitive(s, t, r);
  }

  lemma KeptSafe(s: State, r: State)
    requires KeptPosts(s, r)
    ensures Safe(r)
  {
  }

  lemma KeptReflexive(s: State)
    requires Safe(s)
    ensures KeptPosts(s, s)
  {
    LaterReflexive(s.w);
    hide Inv, Later, SamePosts;
  }

  lemma {:induction false} ExportRepliesKept(s: State, project: string, post: int, number: int, ids: seq<int>,
                                             rows: map<int, B.Comment>, limit: nat)
    requires Safe(s)
    ensures KeptPosts(s, ExportReplies(s, project, post, number, ids, rows, limit))
    decreases |s.script|, 1 + |ids|
  {
    hide Safe, KeptPosts, ExportComment;
    KeptReflexive(s);
    if !s.halted && ids != [] {
      if !(ids[0] in rows && rows[ids[0]].status.Active?) {
        ExportRepliesKept(s, project, post, number, ids[1..], rows, limit);
      } else {
        var s1 := ExportComment(s, project, number, ids[0], rows[ids[0]], limit);
        ExportCommentKept(s, project, number, ids[0], rows[ids[0]], limit);
        if !s1.halted {
          var s2 := ExportComments(s1, project, post, number, Some(ids[0]), 0, limit);
          KeptSafe(s, s1);
          ExportCommentsKept(s1, project, post, number, Some(ids[0]), 0, limit);
          Chain(s, s1, s2);
          KeptSafe(s, s2);
          ExportRepliesKept(s2, project, post, number, ids[1..], rows, limit);
          Chain(s, s2, ExportReplies(s2, project, post, number, ids[1..], rows, limit));
        }
      }
    }
  }

  // ---- Import of comments -----------------------------------------------------------------------------------------

  lemma CommentWrite(w: World, c: B.Comment, key: string)
    requires Inv(w) && InRange(B.TryCommentKeyed(w.board, c, key).0)
    ensures var v := w.(board := B.TryCommentKeyed(w.board, c, key).0);
            Inv(v) && Later(w, v) && SamePosts(w, v) && v.rows == w.rows
  {
    B.TryCommentKeyedValid(w.board, c, key);
    BoardWrite(w, B.TryCommentKeyed(w.board, c, key).0);
    hide Inv, Later, SamePosts;
  }

  lemma CreateCommentKept(s: State, project: string, post: int, parent: Option<int>, remote: Remote)
    requires Safe(s)
    ensures var r := CreateComment(s, project, post, parent, remote).0; KeptPosts(s, r) && r.w.rows == s.w.rows
  {
    hide Inv, Later, SamePosts, AllowedScript, ReplayKey, TrimSpace, B.TryCommentKeyed, B.Refusal;
    var t := Next(s).0;
    NextKept(s);
    var c := B.Comment(post, parent, TrimSpace(remote.body), "github", B.Active, remote.updatedAt, None);
    var board := B.TryCommentKeyed(t.w.board, c, ReplayKey(project, CommentKind, remote.id)).0;
    if InRange(board) {
      CommentWrite(t.w, c, ReplayKey(project, CommentKind, remote.id));
      WorldsChain(s.w, t.w, t.w.(board := board));
    }
  }

  lemma WorldsChain(u: World, v: World, w: World)
    requires Inv(u) && Inv(v) && Later(u, v) && Later(v, w) && SamePosts(u, v) && SamePosts(v, w)
    ensures Later(u, w) && SamePosts(u, w)
  {
    LaterTransitive(u, v, w);
  }

  lemma CallKept(s: State, key: RowKey)
    requires Safe(s)
    ensures KeptPosts(s, Next(s).0) && (Free(s.w, key) ==> Free(Next(s).0.w, key))
    ensures Next(s).0.w.rows == s.w.rows
  {
    NextKept(s);
  }

  lemma RecoverCommentKept(s: State, project: string, post: int, number: int, remote: Remote, comment: int)
    requires Safe(s) && remote.id < s.w.nextRemote
    ensures KeptPosts(s, RecoverComment(s, project, post, number, remote, comment))
  {
    hide Inv, Later, SamePosts, AllowedScript, Save, Next;
    var key := RowKey(project, CommentRow, remote.id);
    var (s1, row) := FindByGitHub(s, key);
    LookupFree(s, key);
    if !s1.halted && row.None? {
      var s2 := GetPost(s1, post).0;
      CallKept(s1, key);
      KeptTransitive(s, s1, s2);
      if !s2.halted {
        var s3 := GetComment(s2, comment).0;
        CallKept(s2, key);
        KeptTransitive(s, s2, s3);
        var row := Row(CommentItem, comment, number, FromBoard, remote.updatedAt);
        SaveCommentRow(s3, key, row);
        KeptTransitive(s, s3, Save(s3, key, row));
      }
    }
  }

  /** A lookup that finds nothing leaves the key free. */
  lemma LookupFree(s: State, key: RowKey)
    requires Safe(s) && key.kind.CommentRow? && key.id < s.w.nextRemote
    ensures var (r, row) := FindByGitHub(s, key);
            KeptPosts(s, r) && (!r.halted && row.None? ==> Free(r.w, key))
  {
    NextKept(s);
  }

  lemma ImportCommentKept(s: State, project: string, post: int, number: int, remote: Remote, limit: nat)
    requires Safe(s) && remote.id < s.w.nextRemote
    ensures KeptPosts(s, ImportComment(s, project, post, number, remote, limit))
  {
    hide Inv, Later, SamePosts, AllowedScript, Save, Next, RecoverComment, CreateComment, AddUrl, FindByGitHub;
    var parsed := remote.tag;
    if parsed.1 && parsed.0.project == project && parsed.0.comment > 0 {
      RecoverCommentKept(s, project, post, number, remote, parsed.0.comment);
    } else {
      var key := RowKey(project, CommentRow, remote.id);
      var (s1, row) := FindByGitHub(s, key);
      LookupFree(s, key);
      if !s1.halted && row.None? {
        NewCommentKept(s, s1, project, post, number, remote, limit);
      }
    }
  }

  lemma NewCommentKept(s: State, s1: State, project: string, post: int, number: int, remote: Remote, limit: nat)
    requires Safe(s) && KeptPosts(s, s1) && Free(s1.w, RowKey(project, CommentRow, remote.id))
    ensures var (s2, id) := CreateComment(s1, project, post, ParentFromMarker(project, remote.tag), remote);
            var counted := AddUrl(s2.receipt.(importedComments := s2.receipt.importedComments + 1), limit);
            && KeptPosts(s, s2)
            && KeptPosts(s, Save(s2.(receipt := counted), RowKey(project, CommentRow, remote.id),
                                 Row(CommentItem, id, number, FromGitHub, remote.updatedAt)))
  {
    hide Inv, SamePosts, AllowedScript, Save, CreateComment, AddUrl;
    var key := RowKey(project, CommentRow, remote.id);
    var parent := ParentFromMarker(project, remote.tag);
    var (s2, id) := CreateComment(s1, project, post, parent, remote);
    CreateCommentKept(s1, project, post, parent, remote);
    KeptTransitive(s, s1, s2);
    FreeStays(s1.w, s2.w, key);
    hide Later;
    var counted := AddUrl(s2.receipt.(importedComments := s2.receipt.importedComments + 1), limit);
    var row := Row(CommentItem, id, number, FromGitHub, remote.updatedAt);
    CountedCommentRow(s2, counted, key, row);
    KeptTransitive(s, s2, Save(s2.(receipt := counted), key, row));
  }

  lemma {:induction false} ImportThreadKept(s: State, project: string, post: int, number: int, remotes: seq<Remote>,
                                            limit: nat)
    requires Safe(s) && RemotesOk(remotes, s.w.nextRemote)
    ensures KeptPosts(s, ImportThread(s, project, post, number, remotes, limit))
    decreases |remotes|
  {
    KeptReflexive(s);
    hide Inv, SamePosts, AllowedScript, ImportComment;
    if !s.halted && remotes != [] {
      var t := ImportComment(s, project, post, number, remotes[0], limit);
      ImportCommentKept(s, project, post, number, remotes[0], limit);
      assert s.w.nextRemote <= t.w.nextRemote;
      hide Later;
      ImportThreadKept(t, project, post, number, remotes[1..], limit);
      KeptTransitive(s, t, ImportThread(t, project, post, number, remotes[1..], limit));
    }
  }

  lemma ListedRemotes(s: State, number: int)
    requires Safe(s)
    ensures var (r, remotes) := ListIssueComments(s, number); KeptPosts(s, r) && RemotesOk(remotes, r.w.nextRemote)
  {
    NextKept(s);
  }

  lemma ImportIssueThreadKept(s: State, project: string, issue: Issue, limit: nat)
    requires Safe(s)
    ensures KeptPosts(s, ImportIssueThread(s, project, issue, limit))
  {
    hide Inv, Later, SamePosts, AllowedScript, RemotesOk, ListIssueComments;
    NextKept(s);
    var (s1, row) := FindByGitHub(s, RowKey(project, IssueRow, issue.id));
    if !s1.halted && row.Some? {
      var (s2, remotes) := ListIssueComments(s1, issue.number);
      ListedRemotes(s1, issue.number);
      KeptTransitive(s, s1, s2);
      if !s2.halted {
        ImportThreadKept(s2, project, row.value.boardId, issue.number, remotes, limit);
        KeptTransitive(s, s2, ImportThread(s2, project, row.value.boardId, issue.number, remotes, limit));
      }
    }
  }

  lemma {:induction false} ImportCommentsKept(s: State, project: string, issues: seq<Issue>, limit: nat)
    requires Safe(s)
    ensures KeptPosts(s, ImportComments(s, project, issues, limit))
    decreases |issues|
  {
    KeptReflexive(s);
    hide Inv, Later, SamePosts, AllowedScript, ImportIssueThread;
    if !s.halted && issues != [] {
      var t := ImportIssueThread(s, project, issues[0], limit);
      ImportIssueThreadKept(s, project, issues[0], limit);
      ImportCommentsKept(t, project, issues[1..], limit);
      KeptTransitive(s, t, ImportComments(t, project, issues[1..], limit));
    }
  }
}
