/** Every attempt, stopped anywhere and with users acting before every call, tracks its comments. */
module RelayTracks {
  import opened Core
  import opened Paging
  import opened Text
  import opened Marker
  import opened Relay
  import opened RelayHistory
  import B = Board

  // ---- Calls that leave comments aside ----------------------------------------------------------------------------

  lemma PostRowAside(w: World, key: RowKey, row: Row)
    requires Sane(w) && key.kind.IssueRow? && row.kind.PostItem?
    ensures Aside(w, w.(rows := w.rows[key := row]))
  {
    var v := w.(rows := w.rows[key := row]);
    assert forall k, x :: HasAt(w, k, x) <==> HasAt(v, k, x);
    assert forall x :: Has(w, x) <==> Has(v, x);
    hide Has, HasAt;
  }

  lemma SavePostAside(s: State, key: RowKey, row: Row)
    requires Sane(s.w) && key.kind.IssueRow? && row.kind.PostItem?
    ensures Aside(s.w, Save(s, key, row).w)
  {
    hide Sane, Aside, Next, Conflict;
    NextAside(s);
    var t := Next(s).0;
    PostRowAside(t.w, key, row);
    AsideTransitive(s.w, t.w, t.w.(rows := t.w.rows[key := row]));
  }

  lemma CreatePostAside(s: State, project: string, issue: Issue)
    requires Sane(s.w)
    ensures Aside(s.w, CreatePost(s, project, issue).0.w)
  {
    hide Sane, Aside, Next, ReplayKey, BoardPost, InRange, B.AddPostKeyed, B.Valid, B.Extends, UnfitIssue;
    NextAside(s);
    var t := Next(s).0;
    var board := B.AddPostKeyed(t.w.board, BoardPost(project, issue), ReplayKey(project, IssueKind, issue.id)).0;
    SaneBoard(t.w);
    B.AddPostKeyedValid(t.w.board, BoardPost(project, issue), ReplayKey(project, IssueKind, issue.id));
    BoardAside(t.w, board);
    AsideSane(t.w, t.w.(board := board));
    ImportedAside(t.w.(board := board), CreatePost(s, project, issue).0.w.imported);
    AsideTransitive(t.w, t.w.(board := board),
      t.w.(board := board, imported := CreatePost(s, project, issue).0.w.imported));
    AsideTransitive(s.w, t.w, t.w.(board := board, imported := CreatePost(s, project, issue).0.w.imported));
  }

  lemma SaneBoard(w: World)
    requires Sane(w)
    ensures B.Valid(w.board)
  {
  }

  lemma ImportedAside(w: World, imported: map<int, (string, int)>)
    requires Sane(w)
    ensures Aside(w, w.(imported := imported))
  {
    var v := w.(imported := imported);
    assert forall k, x :: HasAt(w, k, x) <==> HasAt(v, k, x);
    assert forall x :: Has(w, x) <==> Has(v, x);
    hide Has, HasAt;
  }

  lemma ImportIssueAside(s: State, project: string, issue: Issue, limit: nat)
    requires Sane(s.w)
    ensures Aside(s.w, ImportIssue(s, project, issue, limit).w)
  {
    hide Sane, Aside, CreatePost, Save, Next, ImportMarked, AddUrl;
    AsideReflexive(s.w);
    NextAside(s);
    var s1 := Next(s).0;
    var (s2, id) := CreatePost(s1, project, issue);
    CreatePostAside(s1, project, issue);
    AsideTransitive(s.w, s1.w, s2.w);
    AsideSane(s1.w, s2.w);
    var s3 := SaveImported(s2, project, issue, id, limit);
    var counted := AddUrl(s2.receipt.(importedPosts := s2.receipt.importedPosts + 1), limit);
    SavePostAside(s2.(receipt := counted), RowKey(project, IssueRow, issue.id),
                  Row(PostItem, id, issue.number, FromGitHub, issue.updatedAt));
    AsideTransitive(s.w, s2.w, s3.w);
  }

  lemma {:induction false} ImportIssuesAside(s: State, project: string, issues: seq<Issue>, limit: nat)
    requires Sane(s.w)
    ensures Aside(s.w, ImportIssues(s, project, issues, limit).w)
    decreases |issues|
  {
    hide Sane, Aside, ImportIssue;
    AsideReflexive(s.w);
    if !s.halted && issues != [] {
      var t := ImportIssue(s, project, issues[0], limit);
      ImportIssueAside(s, project, issues[0], limit);
      AsideSane(s.w, t.w);
      ImportIssuesAside(t, project, issues[1..], limit);
      AsideTransitive(s.w, t.w, ImportIssues(t, project, issues[1..], limit).w);
    }
  }

  lemma SaveFindAside(s: State, key: RowKey, row: Row, receipt: Receipt, project: string, id: int)
    requires Sane(s.w) && key.kind.IssueRow? && row.kind.PostItem?
    ensures var s1 := Save(s, key, row);
            Aside(s.w, s1.w) && Aside(s.w, FindByBoard(s1.(receipt := receipt), project, PostItem, id).0.w)
  {
    hide Sane, Aside, Save, Next;
    var s1 := Save(s, key, row);
    SavePostAside(s, key, row);
    AsideSane(s.w, s1.w);
    NextAside(s1.(receipt := receipt));
    AsideTransitive(s.w, s1.w, Next(s1.(receipt := receipt)).0.w);
  }

  lemma RecoverAside(s: State, project: string, id: int, found: Issue)
    requires Sane(s.w)
    ensures Aside(s.w, Recover(s, project, id, found).0.w)
  {
    hide Sane, Aside, Save, FindByBoard;
    var key, row := RowKey(project, IssueRow, found.id), Row(PostItem, id, found.number, FromBoard, found.updatedAt);
    var s1 := Save(s, key, row);
    SaveFindAside(s, key, row, s1.receipt.(recovered := s1.receipt.recovered + 1), project, id);
  }

  lemma ExportNewAside(s: State, project: string, id: int, post: B.Post, limit: nat)
    requires Sane(s.w)
    ensures Aside(s.w, ExportNew(s, project, id, post, limit).0.w)
  {
    hide Sane, Aside, Save, FindByBoard, Next, Parse, Marked, PostMarker, AddUrl;
    var (s1, issue) := CreateIssue(s, id, post.title, Marked(post.body, PostMarker(project, id)));
    NextAside(s);
    IssuesAside(Next(s).0.w, s1.w);
    AsideTransitive(s.w, Next(s).0.w, s1.w);
    AsideSane(s.w, s1.w);
    var counted := AddUrl(s1.receipt.(exportedPosts := s1.receipt.exportedPosts + 1), limit);
    var key, row := RowKey(project, IssueRow, issue.id), Row(PostItem, id, issue.number, FromBoard, issue.updatedAt);
    var s2 := Save(s1.(receipt := counted), key, row);
    SaveFindAside(s1.(receipt := counted), key, row, s2.receipt, project, id);
    assert s2.(receipt := s2.receipt) == s2;
    AsideTransitive(s.w, s1.w, s2.w);
    AsideTransitive(s.w, s1.w, FindByBoard(s2, project, PostItem, id).0.w);
  }

  lemma EnsureMappingAside(s: State, project: string, markers: map<int, Issue>, id: int, post: B.Post, limit: nat)
    requires Sane(s.w)
    ensures Aside(s.w, EnsureMapping(s, project, markers, id, post, limit).0.w)
  {
    hide Sane, Aside, Recover, ExportNew, Next;
    NextAside(s);
    var (s1, row1) := FindByBoard(s, project, PostItem, id);
    AsideReflexive(s1.w);
    if row1.None? && id in markers { RecoverAside(s1, project, id, markers[id]); }
    var (s2, row2) := if row1.None? && id in markers then Recover(s1, project, id, markers[id]) else (s1, row1);
    AsideTransitive(s.w, s1.w, s2.w);
    AsideSane(s1.w, s2.w);
    ExportNewAside(s2, project, id, post, limit);
    AsideTransitive(s.w, s2.w, ExportNew(s2, project, id, post, limit).0.w);
  }

  // ---- Export of one comment --------------------------------------------------------------------------------------

  /** x was just created for a board comment and has no row yet. */
  ghost predicate Pending(v: World, w: World, x: Remote) {
    && Sane(w) && Remembers(v, w) && FreshIds(v, w) && New(v, w, x)
    && (forall y :: New(v, w, y) ==> y == x || y.exportOf.None?)
    && (forall key: RowKey :: key.kind.CommentRow? && key in w.rows ==> key in v.rows && key.id < x.id)
    && v.nextRemote <= x.id && Says(w, x)
  }

  lemma CreatedPending(v: World, w: World, i: nat, x: Remote)
    requires Sane(v) && Aside(v, w) && i < |w.issues| && x.id == w.nextRemote && Says(w, x)
    ensures Pending(v, AppendRemote(w, i, x), x)
  {
    var u := AppendRemote(w, i, x);
    AppendRemoteAppends(w, i, x);
    AppendedSane(w, u, x);
    RemembersTransitive(v, w, u);
    FreshTransitive(v, w, u);
    forall y | New(v, u, y) ensures y == x || y.exportOf.None? {
      NewSplits(v, w, u, y);
    }
    IsNew(v, w, u, x);
    hide Has, HasAt, Remembers, FreshIds, B.Valid;
  }

  lemma IsNew(v: World, w: World, u: World, x: Remote)
    requires Remembers(v, w) && Sane(w) && x.id == w.nextRemote && Has(u, x)
    ensures New(v, u, x)
  {
    if Has(v, x) { RemoteKept(v, w, x); }
    hide Remembers;
  }

  lemma PendingStays(u: World, v: World, w: World, x: Remote)
    requires Pending(u, v, x) && Aside(v, w)
    ensures Pending(u, w, x)
  {
    RemembersTransitive(u, v, w);
    FreshTransitive(u, v, w);
    forall y | New(u, w, y) ensures y == x || y.exportOf.None? {
      NewSplits(u, v, w, y);
      hide New, Sane, Remembers, FreshIds;
    }
    NewSplits(u, v, w, x);
    SaysStays(v, w, x);
    hide New, Sane, Remembers, FreshIds, Says;
  }

  lemma PendingSent(v: World, w: World, x: Remote)
    requires Says(w, x) && WasUnmapped(v, x) && forall y :: New(v, w, y) ==> y == x || y.exportOf.None?
    ensures SentOnce(v, w) && SaidNew(v, w)
  {
    hide New, Mapped, Parse, ExportText;
  }

  lemma PendingTracks(v: World, w: World, x: Remote)
    requires Pending(v, w, x) && WasUnmapped(v, x)
    ensures Sends(v, w, false)
  {
    hide New, Sane, Remembers, FreshIds, SentOnce, SaidNew, Says, WasUnmapped;
    PendingSent(v, w, x);
  }

  lemma PendingSaved(v: World, w: World, x: Remote, project: string, row: Row)
    requires Pending(v, w, x) && WasUnmapped(v, x) && x.exportOf == Some((project, row.boardId))
             && row.kind.CommentItem?
    ensures Sends(v, w.(rows := w.rows[RowKey(project, CommentRow, x.id) := row]), true)
  {
    hide Sane, Remembers, FreshIds, SentOnce, SaidNew, Says, WasUnmapped, Has, HasAt;
    var key := RowKey(project, CommentRow, x.id);
    var u := w.(rows := w.rows[key := row]);
    assert key !in w.rows;
    PendingTracks(v, w, x);
    RowPutKeeps(v, w, key, row, x);
    NewsKept(v, w, u);
    assert Justifies(v, u, key, x);
    assert Justified(v, u, key);
    hide New;
  }

  lemma NewsKept(v: World, w: World, u: World)
    requires u.board == w.board && SentOnce(v, w) && SaidNew(v, w) && forall y :: Has(u, y) <==> Has(w, y)
    ensures SentOnce(v, u) && SaidNew(v, u) && forall y :: New(v, u, y) <==> New(v, w, y)
  {
    hide Has, WasUnmapped, ExportText, Parse;
    assert forall y :: New(v, u, y) <==> New(v, w, y);
    hide New;
  }

  lemma RowPutKeeps(v: World, w: World, key: RowKey, row: Row, x: Remote)
    requires Sane(w) && Remembers(v, w) && FreshIds(v, w)
    requires key.kind.CommentRow? && row.kind.CommentItem? && key !in w.rows && Has(w, x) && key.id == x.id
    ensures var u := w.(rows := w.rows[key := row]);
            && Sane(u) && Remembers(v, u) && FreshIds(v, u)
            && (forall y :: Has(u, y) <==> Has(w, y))
            && (forall k, y :: HasAt(u, k, y) <==> HasAt(w, k, y))
  {
    var u := w.(rows := w.rows[key := row]);
    assert forall k, y :: HasAt(u, k, y) <==> HasAt(w, k, y);
    assert forall y :: Has(u, y) <==> Has(w, y);
    hide Has, HasAt, B.Valid, B.Extends;
    forall k: RowKey | k.kind.CommentRow? ensures SameCommentRow(v, u, k) { assert SameCommentRow(v, w, k); }
  }

  /** c is the comment as it was read, if it was not purged since. */
  ghost predicate ReadAs(b: B.Store, id: int, c: B.Comment) {
    id in b.comments && b.comments[id].parent == c.parent && (b.comments[id].status.Active? ==> b.comments[id] == c)
  }

  ghost predicate RowsRead(b: B.Store, rows: map<int, B.Comment>) {
    forall id :: id in rows ==> ReadAs(b, id, rows[id])
  }

  lemma ReadStays(v: World, w: World, rows: map<int, B.Comment>)
    requires Remembers(v, w) && RowsRead(v.board, rows)
    ensures RowsRead(w.board, rows)
  {
    forall id | id in rows ensures ReadAs(w.board, id, rows[id]) { assert ReadAs(v.board, id, rows[id]); }
    hide HasAt, SameCommentRow;
  }

  lemma WritesText(w: World, project: string, id: int, c: B.Comment, x: Remote)
    requires ReadAs(w.board, id, c) && x.exportOf == Some((project, id)) && x.tag == Parse(x.body)
    requires x.body == Marked(c.body, CommentMarker(project, id, c.parent))
    ensures Says(w, x)
  {
    hide Parse, Marked, CommentMarker;
  }

  lemma ReadOn(v: World, w: World, id: int, c: B.Comment)
    requires Aside(v, w) && ReadAs(v.board, id, c)
    ensures ReadAs(w.board, id, c)
  {
    hide HasAt, SameCommentRow, Sane, FreshIds;
  }

  lemma CreateRemotePending(s: State, number: int, comment: (string, int), body: string, c: B.Comment)
    requires Sane(s.w) && ReadAs(s.w.board, comment.1, c)
    requires body == Marked(c.body, CommentMarker(comment.0, comment.1, c.parent))
    ensures var (r, x) := CreateIssueComment(s, number, comment, body);
            && x.exportOf == Some(comment)
            && (Aside(s.w, r.w) || Pending(s.w, r.w, x))
            && (!r.halted ==> Pending(s.w, r.w, x))
  {
    hide Sane, Aside, Pending, Next, Parse, AppendRemote, ReadAs, Says;
    NextAside(s);
    NotHaltedDone(s);
    var t := Next(s).0;
    if 1 <= number <= |t.w.issues| {
      var x := Remote(t.w.nextRemote, body, Parse(body), 0, Some(comment));
      ReadOn(s.w, t.w, comment.1, c);
      WritesText(t.w, comment.0, comment.1, c, x);
      CreatedPending(s.w, t.w, number - 1, x);
    }
  }

  lemma PendingSane(v: World, w: World, x: Remote)
    requires Pending(v, w, x)
    ensures Sane(w)
  {
  }

  lemma SavePending(v: World, s: State, x: Remote, project: string, row: Row)
    requires Pending(v, s.w, x) && WasUnmapped(v, x) && x.exportOf == Some((project, row.boardId))
             && row.kind.CommentItem?
    ensures var r := Save(s, RowKey(project, CommentRow, x.id), row); Sends(v, r.w, !r.halted)
  {
    hide Pending, Sends, Aside, WasUnmapped, Next, Sane, Conflict;
    PendingSane(v, s.w, x);
    NextAside(s);
    var t := Next(s).0;
    PendingStays(v, s.w, t.w, x);
    PendingTracks(v, t.w, x);
    PendingSaved(v, t.w, x, project, row);
    SendsWeaken(v, t.w.(rows := t.w.rows[RowKey(project, CommentRow, x.id) := row]));
    NotHaltedDone(s);
  }

  /** A stretch in which no comment that was there before gets a row. */
  ghost predicate Sends(v: World, w: World, going: bool) {
    Tracks(v, w, going) && OldRows(v, w)
  }

  lemma SendsWeaken(v: World, w: World)
    requires Sends(v, w, true)
    ensures Sends(v, w, false)
  {
    TracksWeaken(v, w);
    hide Tracks, OldRows;
  }

  lemma AsideSends(v: World, w: World, going: bool)
    requires Aside(v, w)
    ensures Sends(v, w, going)
  {
    AsideTracks(v, w, going);
    AsideOldRows(v, w);
    hide Tracks, OldRows;
  }

  lemma SendsTransitive(u: World, v: World, w: World, going: bool)
    requires Sane(u) && Sends(u, v, true) && Sends(v, w, going)
    ensures Sends(u, w, going)
  {
    TracksTransitive(u, v, w, going);
    OldRowsTransitive(u, v, w);
    hide OldRows, Remembers, SentOnce, RowsJustified, FreshIds, SaidNew, AllSaved, Sane;
  }

  lemma SendsSane(v: World, w: World, going: bool)
    requires Sends(v, w, going)
    ensures Sane(w) && Tracks(v, w, going) && Remembers(v, w)
  {
  }

  lemma SendsReflexive(w: World, going: bool)
    requires Sane(w)
    ensures Sends(w, w, going)
  {
    AsideReflexive(w);
    AsideSends(w, w, going);
  }

  lemma TracksWeaken(v: World, w: World)
    requires Tracks(v, w, true)
    ensures Tracks(v, w, false)
  {
    hide Sane, Remembers, FreshIds, SentOnce, RowsJustified, AllSaved;
  }

  lemma NotHaltedDone(s: State)
    ensures !Next(s).0.halted <==> Next(s).1.Done?
  {
  }

  lemma ExportCommentTracks(s: State, project: string, number: int, id: int, c: B.Comment, limit: nat)
    requires Sane(s.w) && ReadAs(s.w.board, id, c)
    ensures var r := ExportComment(s, project, number, id, c, limit); Sends(s.w, r.w, !r.halted)
  {
    hide Sane, Aside, Pending, Sends, Next, Save, CreateIssueComment, Marked, CommentMarker, AddUrl, WasUnmapped,
      Mapped;
    NextAside(s);
    var (s1, row) := FindByBoard(s, project, CommentItem, id);
    AsideSends(s.w, s1.w, !s1.halted);
    if !s1.halted && row.None? {
      NotHaltedDone(s);
      assert !Mapped(s1.w.rows, project, CommentItem, id);
      var body := Marked(c.body, CommentMarker(project, id, c.parent));
      var (s2, x) := CreateIssueComment(s1, number, (project, id), body);
      ReadOn(s.w, s1.w, id, c);
      CreateRemotePending(s1, number, (project, id), body, c);
      Unmapped(s1.w, x, project, id);
      AsideSends(s.w, s1.w, true);
      if Aside(s1.w, s2.w) { AsideSends(s1.w, s2.w, false); }
      if Pending(s1.w, s2.w, x) { PendingTracks(s1.w, s2.w, x); }
      if s2.halted {
        SendsTransitive(s.w, s1.w, s2.w, false);
      } else {
        var counted := AddUrl(s2.receipt.(exportedComments := s2.receipt.exportedComments + 1), limit);
        var row := Row(CommentItem, id, number, FromBoard, x.updatedAt);
        SavePending(s1.w, s2.(receipt := counted), x, project, row);
        var r := Save(s2.(receipt := counted), RowKey(project, CommentRow, x.id), row);
        SendsTransitive(s.w, s1.w, r.w, !r.halted);
      }
    }
  }

  lemma Unmapped(w: World, x: Remote, project: string, id: int)
    requires x.exportOf == Some((project, id)) && !Mapped(w.rows, project, CommentItem, id)
    ensures WasUnmapped(w, x)
  {
  }

  // ---- Export -----------------------------------------------------------------------------------------------------

  lemma TracksSane(v: World, w: World, going: bool)
    requires Tracks(v, w, going)
    ensures Sane(w)
  {
  }

  lemma TracksReflexive(w: World, going: bool)
    requires Sane(w)
    ensures Tracks(w, w, going)
  {
    AsideReflexive(w);
    AsideTracks(w, w, going);
  }

  lemma {:induction false} ExportCommentsTrack(s: State, project: string, post: int, number: int, parent: Option<int>,
                                               after: int, limit: nat)
    requires Sane(s.w)
    ensures var r := ExportComments(s, project, post, number, parent, after, limit); Sends(s.w, r.w, !r.halted)
    decreases |s.script|, 0
  {
    hide Sane, Sends, Next, ExportReplies, PageOf, B.CommentIds, Aside, Remembers, Listable;
    SendsReflexive(s.w, !s.halted);
    if !s.halted {
      var (s1, page, rows) := ListComments(s, post, parent, after);
      NextAside(s);
      AsideSends(s.w, s1.w, !s1.halted);
      if !s1.halted {
        assert rows == s1.w.board.comments;
        var s2 := ExportReplies(s1, project, post, number, page.items, rows, limit);
        ExportRepliesTrack(s1, project, post, number, page.items, rows, limit);
        SendsTransitive(s.w, s1.w, s2.w, !s2.halted);
        if !s2.halted && page.next.Some? {
          SendsSane(s.w, s2.w, true);
          var r := ExportComments(s2, project, post, number, parent, page.next.value, limit);
          ExportCommentsTrack(s2, project, post, number, parent, page.next.value, limit);
          SendsTransitive(s.w, s2.w, r.w, !r.halted);
        }
      }
    }
  }

  lemma {:induction false} ExportRepliesTrack(s: State, project: string, post: int, number: int, ids: seq<int>,
                                              rows: map<int, B.Comment>, limit: nat)
    requires Sane(s.w) && RowsRead(s.w.board, rows)
    ensures var r := ExportReplies(s, project, post, number, ids, rows, limit); Sends(s.w, r.w, !r.halted)
    decreases |s.script|, 1 + |ids|
  {
    hide Sane, Sends, ExportComment, ExportComments, RowsRead, ReadAs, Remembers;
    SendsReflexive(s.w, !s.halted);
    if !s.halted && ids != [] {
      if !(ids[0] in rows && rows[ids[0]].status.Active?) {
        ExportRepliesTrack(s, project, post, number, ids[1..], rows, limit);
      } else {
        ReadRow(s.w.board, rows, ids[0]);
        var s1 := ExportComment(s, project, number, ids[0], rows[ids[0]], limit);
        ExportCommentTracks(s, project, number, ids[0], rows[ids[0]], limit);
        if !s1.halted {
          SendsSane(s.w, s1.w, true);
          ReadStays(s.w, s1.w, rows);
          var s2 := ExportComments(s1, project, post, number, Some(ids[0]), 0, limit);
          ExportCommentsTrack(s1, project, post, number, Some(ids[0]), 0, limit);
          SendsTransitive(s.w, s1.w, s2.w, !s2.halted);
          RepliesStop(s2, project, post, number, ids[1..], rows, limit);
          if !s2.halted {
            SendsSane(s.w, s2.w, true);
            ReadStays(s.w, s2.w, rows);
            var r := ExportReplies(s2, project, post, number, ids[1..], rows, limit);
            ExportRepliesTrack(s2, project, post, number, ids[1..], rows, limit);
            SendsTransitive(s.w, s2.w, r.w, !r.halted);
          }
        }
      }
    }
  }

  lemma ReadRow(b: B.Store, rows: map<int, B.Comment>, id: int)
    requires RowsRead(b, rows) && id in rows
    ensures ReadAs(b, id, rows[id])
  {
  }

  lemma RepliesStop(s: State, project: string, post: int, number: int, ids: seq<int>, rows: map<int, B.Comment>,
      limit: nat)
    ensures s.halted ==> ExportReplies(s, project, post, number, ids, rows, limit) == s
  {
  }

  lemma ExportPostTracks(s: State, project: string, markers: map<int, Issue>, id: int, limit: nat)
    requires Sane(s.w)
    ensures var r := ExportPost(s, project, markers, id, limit); Sends(s.w, r.w, !r.halted)
  {
    hide Sane, Sends, Aside, Next, EnsureMapping, ExportComments;
    var (s1, post) := GetPost(s, id);
    NextAside(s);
    AsideSends(s.w, s1.w, !s1.halted);
    if !s1.halted && post.Some? && post.value.status.Active? {
      var (s2, row) := EnsureMapping(s1, project, markers, id, post.value, limit);
      EnsureMappingAside(s1, project, markers, id, post.value, limit);
      AsideTransitive(s.w, s1.w, s2.w);
      AsideSends(s.w, s2.w, !s2.halted);
      if !s2.halted && row.Some? {
        AsideSane(s.w, s2.w);
        var r := ExportComments(s2, project, id, row.value.number, None, 0, limit);
        ExportCommentsTrack(s2, project, id, row.value.number, None, 0, limit);
        SendsTransitive(s.w, s2.w, r.w, !r.halted);
      }
    }
  }

  lemma {:induction false} ExportEachTracks(s: State, project: string, markers: map<int, Issue>, ids: seq<int>,
      limit: nat)
    requires Sane(s.w)
    ensures var r := ExportEach(s, project, markers, ids, limit); Sends(s.w, r.w, !r.halted)
    decreases |ids|
  {
    hide Sane, Sends, ExportPost;
    SendsReflexive(s.w, !s.halted);
    if !s.halted && ids != [] {
      var t := ExportPost(s, project, markers, ids[0], limit);
      ExportPostTracks(s, project, markers, ids[0], limit);
      if !t.halted {
        SendsSane(s.w, t.w, true);
        var r := ExportEach(t, project, markers, ids[1..], limit);
        ExportEachTracks(t, project, markers, ids[1..], limit);
        SendsTransitive(s.w, t.w, r.w, !r.halted);
      }
    }
  }

  lemma {:induction false} ExportPostsTrack(s: State, project: string, markers: map<int, Issue>, after: int, limit: nat)
    requires Sane(s.w)
    ensures var r := ExportPosts(s, project, markers, after, limit); Sends(s.w, r.w, !r.halted)
    decreases |s.script|
  {
    hide Sane, Sends, Aside, Next, ExportEach, PageOf, B.PostIds;
    SendsReflexive(s.w, !s.halted);
    if !s.halted {
      var (s1, page) := ListPosts(s, project, after);
      NextAside(s);
      AsideSends(s.w, s1.w, !s1.halted);
      if !s1.halted {
        var s2 := ExportEach(s1, project, markers, page.items, limit);
        ExportEachTracks(s1, project, markers, page.items, limit);
        SendsTransitive(s.w, s1.w, s2.w, !s2.halted);
        if !s2.halted && page.next.Some? {
          SendsSane(s.w, s2.w, true);
          var r := ExportPosts(s2, project, markers, page.next.value, limit);
          ExportPostsTrack(s2, project, markers, page.next.value, limit);
          SendsTransitive(s.w, s2.w, r.w, !r.halted);
        }
      }
    }
  }

  // ---- Import of comments -----------------------------------------------------------------------------------------

  lemma CreateCommentAside(s: State, project: string, post: int, parent: Option<int>, x: Remote)
    requires Sane(s.w)
    ensures var (r, id) := CreateComment(s, project, post, parent, x);
            Aside(s.w, r.w) && r.w.rows == s.w.rows
              && (!r.halted && !NamesComment(x, project) ==> Claims(r.w, project, x, id))
  {
    hide Sane, Aside, Next, ReplayKey, TrimSpace, B.Refusal, InRange, UnfitRemote, B.Valid, B.Extends;
    NextAside(s);
    NotHaltedDone(s);
    var t := Next(s).0;
    var c := B.Comment(post, parent, TrimSpace(x.body), "github", B.Active, x.updatedAt, None);
    var board := B.TryCommentKeyed(t.w.board, c, ReplayKey(project, CommentKind, x.id)).0;
    SaneBoard(t.w);
    B.TryCommentKeyedValid(t.w.board, c, ReplayKey(project, CommentKind, x.id));
    BoardAside(t.w, board);
    AsideTransitive(s.w, t.w, t.w.(board := board));
  }

  /** A row written for a GitHub comment that stands for the board comment. */
  lemma ClaimedRow(w: World, key: RowKey, row: Row, x: Remote)
    requires Sane(w) && key.kind.CommentRow? && row.kind.CommentItem? && key !in w.rows
    requires Has(w, x) && x.id == key.id && Claims(w, key.project, x, row.boardId)
    ensures Tracks(w, w.(rows := w.rows[key := row]), true)
  {
    var u := w.(rows := w.rows[key := row]);
    AsideReflexive(w);
    RowPutKeeps(w, w, key, row, x);
    hide Has, HasAt, Sane, Remembers, FreshIds, ReplayKey;
    assert Justifies(w, u, key, x);
  }

  lemma SaveClaimed(s: State, key: RowKey, row: Row, x: Remote)
    requires Sane(s.w) && key.kind.CommentRow? && row.kind.CommentItem? && key !in s.w.rows
    requires Has(s.w, x) && x.id == key.id && Claims(s.w, key.project, x, row.boardId)
    ensures var r := Save(s, key, row); Tracks(s.w, r.w, !r.halted)
  {
    hide Sane, Next, Conflict, Claims, Tracks, Has;
    NextAside(s);
    NotHaltedDone(s);
    var t := Next(s).0;
    AsideTracks(s.w, t.w, true);
    TracksWeaken(s.w, t.w);
    RemoteKept(s.w, t.w, x);
    ClaimsStay(s.w, t.w, key.project, x, row.boardId);
    ClaimedRow(t.w, key, row, x);
    var u := t.w.(rows := t.w.rows[key := row]);
    TracksTransitive(s.w, t.w, u, true);
    TracksWeaken(s.w, u);
    hide Aside;
  }

  lemma RecoverCommentTracks(s: State, project: string, post: int, number: int, x: Remote)
    requires Sane(s.w) && Has(s.w, x) && NamesComment(x, project)
    ensures var r := RecoverComment(s, project, post, number, x, x.tag.0.comment); Tracks(s.w, r.w, !r.halted)
  {
    hide Sane, Aside, Tracks, Next, Save, Has;
    var c := x.tag.0.comment;
    var key := RowKey(project, CommentRow, x.id);
    var (s1, row) := FindByGitHub(s, key);
    NextAside(s);
    NotHaltedDone(s);
    AsideTracks(s.w, s1.w, !s1.halted);
    if !s1.halted && row.None? {
      var (s2, p) := GetPost(s1, post);
      NextAside(s1);
      AsideTransitive(s.w, s1.w, s2.w);
      AsideTracks(s.w, s2.w, !s2.halted);
      AsideTracks(s.w, s2.w, false);
      if !s2.halted && p.Some? {
        var (s3, b) := GetComment(s2, c);
        NextAside(s2);
        AsideTransitive(s.w, s2.w, s3.w);
        AsideTracks(s.w, s3.w, !s3.halted);
        AsideTracks(s.w, s3.w, false);
        if !s3.halted && b.Some? && b.value.postId == post {
          AsideKeeps(s.w, s3.w, x);
          var row := Row(CommentItem, c, number, FromBoard, x.updatedAt);
          SaveClaimed(s3, key, row, x);
          AsideTracks(s.w, s3.w, true);
          TracksTransitive(s.w, s3.w, Save(s3, key, row).w, !Save(s3, key, row).halted);
        }
      }
    }
  }

  lemma AsideKeeps(v: World, w: World, x: Remote)
    requires Aside(v, w) && Has(v, x)
    ensures Has(w, x) && Sane(w)
  {
    RemoteKept(v, w, x);
  }

  lemma ImportCommentTracks(s: State, project: string, post: int, number: int, x: Remote, limit: nat)
    requires Sane(s.w) && Has(s.w, x)
    ensures var r := ImportComment(s, project, post, number, x, limit); Tracks(s.w, r.w, !r.halted)
  {
    hide Sane, Aside, Tracks, Next, Save, Has, CreateComment, RecoverComment, AddUrl, Claims;
    if NamesComment(x, project) {
      RecoverCommentTracks(s, project, post, number, x);
      assert ImportComment(s, project, post, number, x, limit)
        == RecoverComment(s, project, post, number, x, x.tag.0.comment);
    } else {
      var key := RowKey(project, CommentRow, x.id);
      var (s1, row) := FindByGitHub(s, key);
      NextAside(s);
      NotHaltedDone(s);
      AsideTracks(s.w, s1.w, !s1.halted);
      if !s1.halted && row.None? {
        var (s2, id) := CreateComment(s1, project, post, ParentFromMarker(project, x.tag), x);
        CreateCommentAside(s1, project, post, ParentFromMarker(project, x.tag), x);
        AsideTransitive(s.w, s1.w, s2.w);
        AsideTracks(s.w, s2.w, !s2.halted);
        if !s2.halted {
          AsideKeeps(s.w, s2.w, x);
          var counted := AddUrl(s2.receipt.(importedComments := s2.receipt.importedComments + 1), limit);
          var row := Row(CommentItem, id, number, FromGitHub, x.updatedAt);
          SaveClaimed(s2.(receipt := counted), key, row, x);
          var r := Save(s2.(receipt := counted), key, row);
          TracksTransitive(s.w, s2.w, r.w, !r.halted);
        }
      }
    }
  }

  ghost predicate HasAll(w: World, xs: seq<Remote>) {
    forall i :: 0 <= i < |xs| ==> Has(w, xs[i])
  }

  lemma HasAllStays(v: World, w: World, going: bool, xs: seq<Remote>)
    requires HasAll(v, xs) && Tracks(v, w, going)
    ensures HasAll(w, xs)
  {
    forall i | 0 <= i < |xs| ensures Has(w, xs[i]) { RemoteKept(v, w, xs[i]); }
  }

  lemma {:induction false} ImportThreadTracks(s: State, project: string, post: int, number: int, xs: seq<Remote>,
      limit: nat)
    requires Sane(s.w) && HasAll(s.w, xs)
    ensures var r := ImportThread(s, project, post, number, xs, limit); Tracks(s.w, r.w, !r.halted)
    decreases |xs|
  {
    hide Sane, Tracks, ImportComment, Has;
    TracksReflexive(s.w, !s.halted);
    if !s.halted && xs != [] {
      var t := ImportComment(s, project, post, number, xs[0], limit);
      ImportCommentTracks(s, project, post, number, xs[0], limit);
      if !t.halted {
        TracksSane(s.w, t.w, true);
        HasAllStays(s.w, t.w, true, xs);
        var r := ImportThread(t, project, post, number, xs[1..], limit);
        ImportThreadTracks(t, project, post, number, xs[1..], limit);
        TracksTransitive(s.w, t.w, r.w, !r.halted);
      }
    }
  }

  lemma ListedHas(w: World, k: nat)
    requires k < |w.issues|
    ensures HasAll(w, w.issues[k].comments)
  {
    var xs := w.issues[k].comments;
    forall i | 0 <= i < |xs| ensures Has(w, xs[i]) { assert HasAt(w, k, xs[i]); }
  }

  lemma ImportIssueThreadTracks(s: State, project: string, issue: Issue, limit: nat)
    requires Sane(s.w)
    ensures var r := ImportIssueThread(s, project, issue, limit); Tracks(s.w, r.w, !r.halted)
  {
    hide Sane, Tracks, Aside, Next, ImportThread, HasAll;
    var (s1, row) := FindByGitHub(s, RowKey(project, IssueRow, issue.id));
    NextAside(s);
    AsideTracks(s.w, s1.w, !s1.halted);
    if !s1.halted && row.Some? {
      var (s2, xs) := ListIssueComments(s1, issue.number);
      NextAside(s1);
      AsideTransitive(s.w, s1.w, s2.w);
      AsideTracks(s.w, s2.w, !s2.halted);
      NotHaltedDone(s1);
      if !s2.halted {
        ListedHas(s2.w, issue.number - 1);
        var r := ImportThread(s2, project, row.value.boardId, issue.number, xs, limit);
        ImportThreadTracks(s2, project, row.value.boardId, issue.number, xs, limit);
        TracksTransitive(s.w, s2.w, r.w, !r.halted);
      }
    }
  }

  lemma {:induction false} ImportCommentsTrack(s: State, project: string, issues: seq<Issue>, limit: nat)
    requires Sane(s.w)
    ensures var r := ImportComments(s, project, issues, limit); Tracks(s.w, r.w, !r.halted)
    decreases |issues|
  {
    hide Sane, Tracks, ImportIssueThread;
    TracksReflexive(s.w, !s.halted);
    if !s.halted && issues != [] {
      var t := ImportIssueThread(s, project, issues[0], limit);
      ImportIssueThreadTracks(s, project, issues[0], limit);
      if !t.halted {
        TracksSane(s.w, t.w, true);
        var r := ImportComments(t, project, issues[1..], limit);
        ImportCommentsTrack(t, project, issues[1..], limit);
        TracksTransitive(s.w, t.w, r.w, !r.halted);
      }
    }
  }

  // ---- One attempt ------------------------------------------------------------------------------------------------

  /**
    One attempt, whatever happens to its calls and whatever users do meanwhile: it creates a GitHub comment only for a
    board comment that had no row, at most one for each, and unless it was stopped every one of them has its row.
  */
  lemma SyncTracks(w: World, script: seq<Turn>, project: string, limit: nat)
    requires Sane(w)
    ensures var r := Sync(w, script, project, limit); Tracks(w, r.w, !r.halted)
  {
    hide Sane, Tracks, Sends, Aside, Next, ImportIssues, ExportPosts, ImportComments, IssueMarkers, Remembers;
    var s0 := State(w, script, NoReceipt, false);
    var (s1, issues) := ListIssues(s0);
    NextAside(s0);
    AsideTracks(w, s1.w, !s1.halted);
    if !s1.halted {
      var s2 := ImportIssues(s1, project, issues, limit);
      ImportIssuesAside(s1, project, issues, limit);
      AsideTransitive(w, s1.w, s2.w);
      AsideTracks(w, s2.w, !s2.halted);
      if !s2.halted {
        AsideSane(w, s2.w);
        var s3 := ExportPosts(s2, project, IssueMarkers(project, issues), 0, limit);
        ExportPostsTrack(s2, project, IssueMarkers(project, issues), 0, limit);
        SendsSane(s2.w, s3.w, !s3.halted);
        TracksTransitive(w, s2.w, s3.w, !s3.halted);
        if !s3.halted {
          TracksSane(w, s3.w, true);
          var r := ImportComments(s3, project, issues, limit);
          ImportCommentsTrack(s3, project, issues, limit);
          TracksTransitive(w, s3.w, r.w, !r.halted);
        }
      }
    }
  }
}
