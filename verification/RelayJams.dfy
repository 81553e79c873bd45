/**
  What becomes of a relay whose comment was exported twice: no attempt ever completes again.  With the two attempts
  from nothing that lead there.
*/
module RelayJams {
  import opened Core
  import opened Paging
  import opened Text
  import opened Marker
  import opened Relay
  import opened RelaySafety
  import opened RelayExport
  import opened RelayRuns
  import opened RelayQuiet
  import opened RelaySettles
  import opened RelayQuiescence
  import opened RelayHistory
  import opened RelayTracks
  import opened RelayEnds
  import opened RelayCompletes
  import opened RelayOnce
  import RC = RelayComments
  import B = Board

  // ---- A GitHub comment that can never get its row ----------------------------------------------------------------

  /** x has no row, and the board comment it stands for has the row of another GitHub comment. */
  ghost predicate Jam(w: World, project: string, x: Remote) {
    && RowKey(project, CommentRow, x.id) !in w.rows
    && exists c :: Claims(w, project, x, c) && Mapped(w.rows, project, CommentItem, c)
  }

  /** Such a comment on an issue that has its row. */
  ghost predicate Jammed(w: World, project: string, k: int, x: Remote) {
    && HasAt(w, k, x) && RowKey(project, IssueRow, w.issues[k].id) in w.rows && Jam(w, project, x)
  }

  lemma ClaimsOne(w: World, project: string, x: Remote, c: int, d: int)
    requires Claims(w, project, x, c) && Claims(w, project, x, d)
    ensures c == d
  {
    hide ReplayKey;
  }

  /** A row that x gets later names the board comment x stands for. */
  lemma LateRow(v: World, w: World, project: string, x: Remote, going: bool)
    requires Tracks(v, w, going) && Has(v, x) && RowKey(project, CommentRow, x.id) !in v.rows
    ensures var key := RowKey(project, CommentRow, x.id);
            key in w.rows ==> w.rows[key].kind.CommentItem? && Claims(w, project, x, w.rows[key].boardId)
  {
    var key := RowKey(project, CommentRow, x.id);
    RemoteKept(v, w, x);
    if key in w.rows {
      assert Justified(v, w, key);
      var y :| Justifies(v, w, key, y);
      assert y == x by { assert Sane(w); }
      hide Remembers, FreshIds, SentOnce, RowsJustified, AllSaved, Claims;
    }
  }

  lemma JamStays(v: World, w: World, project: string, x: Remote, going: bool)
    requires Sane(v) && Tracks(v, w, going) && TableOk(w.rows) && Has(v, x) && Jam(v, project, x)
    ensures Jam(w, project, x)
  {
    var key := RowKey(project, CommentRow, x.id);
    var c :| Claims(v, project, x, c) && Mapped(v.rows, project, CommentItem, c);
    ClaimsStay(v, w, project, x, c);
    CommentMappedStays(v, w, project, c);
    OtherRow(v, w, project, x, c);
    LateRow(v, w, project, x, going);
    if key in w.rows { ClaimsOne(w, project, x, c, w.rows[key].boardId); }
    hide Sane, Tracks, Claims, Has, Mapped;
  }

  lemma OtherRow(v: World, w: World, project: string, x: Remote, c: int)
    requires Sane(v) && Remembers(v, w) && TableOk(w.rows)
    requires RowKey(project, CommentRow, x.id) !in v.rows && Mapped(v.rows, project, CommentItem, c)
    ensures var key := RowKey(project, CommentRow, x.id);
            key in w.rows && w.rows[key].kind.CommentItem? ==> w.rows[key].boardId != c
  {
    var other :| IsRowOf(v.rows, other, project, CommentItem, c);
    assert SameCommentRow(v, w, other);
    hide HasAt;
  }

  lemma JammedStays(v: World, w: World, project: string, k: int, x: Remote, going: bool)
    requires Sane(v) && Tracks(v, w, going) && Inv(w) && Later(v, w) && Jammed(v, project, k, x)
    ensures Jammed(w, project, k, x) && Sane(w)
  {
    assert HasAt(w, k, x);
    assert SameIssue(v.issues[k], w.issues[k]);
    JamStays(v, w, project, x, going);
    hide Jam;
  }

  lemma JamWaits(s: State, project: string, x: Remote)
    requires Safe(s) && Sane(s.w) && Has(s.w, x) && Jam(s.w, project, x)
    ensures var t := Next(s).0;
            && Safe(t) && Sane(t.w) && Has(t.w, x) && Jam(t.w, project, x) && t.w.rows == s.w.rows
            && (t.halted <==> !Next(s).1.Done?)
  {
    var t := Next(s).0;
    NextKept(s);
    NextAside(s);
    NotHaltedDone(s);
    AsideTracks(s.w, t.w, false);
    JamStays(s.w, t.w, project, x, false);
    RemoteKept(s.w, t.w, x);
    hide Jam, Sane, Tracks, Next, AllowedScript, SamePosts, Later;
  }

  /** A write of the missing row is refused. */
  lemma JamConflicts(w: World, project: string, x: Remote, row: Row)
    requires Jam(w, project, x) && row.kind.CommentItem? && Claims(w, project, x, row.boardId)
    ensures Conflict(w.rows, RowKey(project, CommentRow, x.id), row)
  {
    var c :| Claims(w, project, x, c) && Mapped(w.rows, project, CommentItem, c);
    ClaimsOne(w, project, x, c, row.boardId);
    ConflictIsMapped(w.rows, RowKey(project, CommentRow, x.id), row);
    hide Claims, Mapped, Conflict;
  }

  lemma SaveJams(s: State, project: string, x: Remote, row: Row)
    requires Safe(s) && Sane(s.w) && Has(s.w, x) && Jam(s.w, project, x)
    requires row.kind.CommentItem? && Claims(s.w, project, x, row.boardId)
    ensures Save(s, RowKey(project, CommentRow, x.id), row).halted
  {
    JamConflicts(s.w, project, x, row);
    hide Safe, Sane, Has, Claims, Jam, Next;
    JamWaits(s, project, x);
    SameRowsConflict(s.w.rows, Next(s).0.w.rows, RowKey(project, CommentRow, x.id), row);
    hide Conflict;
  }

  lemma SameRowsConflict(a: map<RowKey, Row>, b: map<RowKey, Row>, key: RowKey, row: Row)
    requires a == b
    ensures Conflict(a, key, row) <==> Conflict(b, key, row)
  {
  }

  lemma RecoverJams(s: State, project: string, post: int, number: int, x: Remote)
    requires Safe(s) && Sane(s.w) && Has(s.w, x) && Jam(s.w, project, x) && NamesComment(x, project)
    ensures RecoverComment(s, project, post, number, x, x.tag.0.comment).halted
  {
    hide Safe, Sane, Has, Next, Save, Mapped;
    JamWaits(s, project, x);
    var s1 := Next(s).0;
    JamWaits(s1, project, x);
    var s2 := Next(s1).0;
    JamWaits(s2, project, x);
    var s3 := Next(s2).0;
    SaveJams(s3, project, x, Row(CommentItem, x.tag.0.comment, number, FromBoard, x.updatedAt));
  }

  lemma CreateJams(s: State, project: string, post: int, x: Remote)
    requires Safe(s) && Sane(s.w) && Has(s.w, x) && Jam(s.w, project, x) && !NamesComment(x, project)
    ensures var (r, id) := CreateComment(s, project, post, ParentFromMarker(project, x.tag), x);
            r.halted || (Safe(r) && Sane(r.w) && Has(r.w, x) && Jam(r.w, project, x) && Claims(r.w, project, x, id))
  {
    var parent := ParentFromMarker(project, x.tag);
    var r := CreateComment(s, project, post, parent, x).0;
    RC.CreateCommentKept(s, project, post, parent, x);
    CreateCommentAside(s, project, post, parent, x);
    AsideTracks(s.w, r.w, false);
    JamStays(s.w, r.w, project, x, false);
    RemoteKept(s.w, r.w, x);
    hide CreateComment, Jam, Sane, Tracks, Claims, AllowedScript, SamePosts, Later, Has;
  }

  /** The import of x stops the attempt, whatever happens to its calls. */
  lemma ImportJams(s: State, project: string, post: int, number: int, x: Remote, limit: nat)
    requires Safe(s) && Sane(s.w) && Has(s.w, x) && Jam(s.w, project, x)
    ensures ImportComment(s, project, post, number, x, limit).halted
  {
    hide Safe, Sane, Has, Next, Save, CreateComment, RecoverComment, Claims, AddUrl, Mapped;
    if NamesComment(x, project) {
      RecoverJams(s, project, post, number, x);
      assert ImportComment(s, project, post, number, x, limit)
        == RecoverComment(s, project, post, number, x, x.tag.0.comment);
    } else {
      JamWaits(s, project, x);
      var s1 := Next(s).0;
      CreateJams(s1, project, post, x);
      var (s2, id) := CreateComment(s1, project, post, ParentFromMarker(project, x.tag), x);
      if !s2.halted {
        var counted := AddUrl(s2.receipt.(importedComments := s2.receipt.importedComments + 1), limit);
        RecountSafe(s2, counted);
        SaveJams(s2.(receipt := counted), project, x, Row(CommentItem, id, number, FromGitHub, x.updatedAt));
      }
    }
  }

  lemma RecountSafe(s: State, receipt: Receipt)
    requires Safe(s)
    ensures Safe(s.(receipt := receipt))
  {
  }

  lemma {:induction false} ThreadJams(s: State, project: string, post: int, number: int, xs: seq<Remote>, x: Remote,
      limit: nat)
    requires Safe(s) && Sane(s.w) && RemotesOk(xs, s.w.nextRemote) && HasAll(s.w, xs) && x in xs && Jam(s.w, project, x)
    ensures ImportThread(s, project, post, number, xs, limit).halted
    decreases |xs|
  {
    hide Safe, Sane, Has, ImportComment, Jam, Tracks, RemotesOk;
    if !s.halted {
      var t := ImportComment(s, project, post, number, xs[0], limit);
      if xs[0] == x {
        ImportJams(s, project, post, number, x, limit);
      } else {
        var i :| 0 <= i < |xs| && xs[i] == x;
        assert xs[1..][i - 1] == x;
        ImportStep(s, project, post, number, xs, limit);
        JamStays(s.w, t.w, project, x, !t.halted);
        ThreadJams(t, project, post, number, xs[1..], x, limit);
      }
    }
  }

  lemma ImportStep(s: State, project: string, post: int, number: int, xs: seq<Remote>, limit: nat)
    requires Safe(s) && Sane(s.w) && RemotesOk(xs, s.w.nextRemote) && HasAll(s.w, xs) && xs != []
    ensures var t := ImportComment(s, project, post, number, xs[0], limit);
            && Safe(t) && Sane(t.w) && TableOk(t.w.rows) && Tracks(s.w, t.w, !t.halted)
            && RemotesOk(xs[1..], t.w.nextRemote) && HasAll(t.w, xs[1..])
  {
    var t := ImportComment(s, project, post, number, xs[0], limit);
    RC.ImportCommentKept(s, project, post, number, xs[0], limit);
    ImportCommentTracks(s, project, post, number, xs[0], limit);
    HasAllStays(s.w, t.w, !t.halted, xs);
    hide ImportComment, Has, SamePosts;
  }

  lemma IssueThreadJams(s: State, project: string, issue: Issue, k: int, x: Remote, limit: nat)
    requires Safe(s) && Sane(s.w) && Jammed(s.w, project, k, x)
    requires issue.id == s.w.issues[k].id && issue.number == s.w.issues[k].number
    ensures ImportIssueThread(s, project, issue, limit).halted
  {
    hide Next, ImportThread, Jam, Tracks, Safe, Sane, RemotesOk, HasAll;
    var s1 := Next(s).0;
    JammedWaits(s, project, k, x);
    if !s1.halted {
      var s2 := Next(s1).0;
      JammedWaits(s1, project, k, x);
      if !s2.halted {
        ListedThere(s2, k);
        ThreadJams(s2, project, s1.w.rows[RowKey(project, IssueRow, issue.id)].boardId, issue.number,
                   s2.w.issues[k].comments, x, limit);
      }
    }
  }

  lemma ListedThere(s: State, k: int)
    requires Safe(s) && 0 <= k < |s.w.issues|
    ensures s.w.issues[k].number == k + 1
    ensures RemotesOk(s.w.issues[k].comments, s.w.nextRemote) && HasAll(s.w, s.w.issues[k].comments)
  {
    ListedHas(s.w, k);
    hide Has;
  }

  lemma JammedWaits(s: State, project: string, k: int, x: Remote)
    requires Safe(s) && Sane(s.w) && Jammed(s.w, project, k, x)
    ensures var t := Next(s).0;
            && Safe(t) && Sane(t.w) && Jammed(t.w, project, k, x) && (t.halted <==> !Next(s).1.Done?)
            && SameIssue(s.w.issues[k], t.w.issues[k])
  {
    var t := Next(s).0;
    NextKept(s);
    NextAside(s);
    NotHaltedDone(s);
    AsideTracks(s.w, t.w, false);
    JammedStays(s.w, t.w, project, k, x, false);
    hide Jammed, Sane, Tracks, Next, AllowedScript, SamePosts;
  }

  lemma {:induction false} CommentsJam(s: State, project: string, listing: seq<Issue>, j: int, k: int, x: Remote,
      limit: nat)
    requires Safe(s) && Sane(s.w) && Jammed(s.w, project, k, x) && Lists(s.w, listing) && 0 <= j <= k < |listing|
    ensures ImportComments(s, project, listing[j..], limit).halted
    decreases k - j
  {
    hide Safe, Sane, Jammed, ImportIssueThread, Tracks, Later;
    if !s.halted {
      assert listing[j..][0] == listing[j] && listing[j..][1..] == listing[j + 1..];
      var t := ImportIssueThread(s, project, listing[j], limit);
      if j == k {
        assert SameIssue(listing[k], s.w.issues[k]);
        IssueThreadJams(s, project, listing[k], k, x, limit);
      } else {
        ThreadStep(s, project, listing, listing[j], k, x, limit);
        CommentsJam(t, project, listing, j + 1, k, x, limit);
      }
    }
  }

  lemma ThreadStep(s: State, project: string, listing: seq<Issue>, issue: Issue, k: int, x: Remote, limit: nat)
    requires Safe(s) && Sane(s.w) && Jammed(s.w, project, k, x) && Lists(s.w, listing)
    ensures var t := ImportIssueThread(s, project, issue, limit);
            Safe(t) && Sane(t.w) && Jammed(t.w, project, k, x) && Lists(t.w, listing)
  {
    var t := ImportIssueThread(s, project, issue, limit);
    RC.ImportIssueThreadKept(s, project, issue, limit);
    ImportIssueThreadTracks(s, project, issue, limit);
    JammedStays(s.w, t.w, project, k, x, !t.halted);
    ListsStay(s.w, t.w, listing);
    hide ImportIssueThread, Jammed, Inv, Sane, Tracks, Later, SamePosts, Lists;
  }

  lemma ListsStay(v: World, w: World, listing: seq<Issue>)
    requires Lists(v, listing) && Later(v, w)
    ensures Lists(w, listing)
  {
    forall i | 0 <= i < |listing| ensures SameIssue(listing[i], w.issues[i]) {
      assert SameIssue(listing[i], v.issues[i]) && SameIssue(v.issues[i], w.issues[i]);
    }
  }

  // ---- No attempt completes again ---------------------------------------------------------------------------------

  /** The first phases of an attempt leave the jam where it is. */
  lemma PhasesKeepJam(w: World, script: seq<Turn>, project: string, limit: nat, k: int, x: Remote)
    requires Inv(w) && Sane(w) && AllowedScript(script) && Plain(project) && Jammed(w, project, k, x)
    ensures var (s1, issues) := ListIssues(State(w, script, NoReceipt, false));
            var s2 := ImportIssues(s1, project, issues, limit);
            var s3 := ExportPosts(s2, project, IssueMarkers(project, issues), 0, limit);
            !s1.halted && !s2.halted ==>
              Safe(s3) && Sane(s3.w) && Jammed(s3.w, project, k, x) && (s3.halted || Lists(s3.w, issues))
                && k < |issues|
  {
    hide Inv, Sane, Plain, Session, ImportedUpTo, Exporting, ImportIssues, ExportPosts, IssueMarkers, Tracks, Aside,
      ListIssues, Jammed, AllowedScript, Later;
    var s0 := State(w, script, NoReceipt, false);
    var (s1, issues) := ListIssues(s0);
    Listed(w, script, project);
    ListKeepsJam(s0, project, k, x);
    if !s1.halted {
      assert issues[0..] == issues;
      var s2 := ImportIssues(s1, project, issues, limit);
      ImportIssuesKept(s1, project, issues, 0, limit);
      ImportIssuesAside(s1, project, issues, limit);
      AsideTracks(s1.w, s2.w, true);
      JammedStays(s1.w, s2.w, project, k, x, true);
      if !s2.halted {
        ExportingStarts(s2.w, project, issues);
        var s3 := ExportPosts(s2, project, IssueMarkers(project, issues), 0, limit);
        ExportPostsKept(s2, project, issues, 0, limit);
        ExportPostsTrack(s2, project, IssueMarkers(project, issues), 0, limit);
        JammedStays(s2.w, s3.w, project, k, x, !s3.halted);
        ExportingLists(s2.w, s3.w, project, issues);
      }
    }
  }

  lemma ExportingLists(v: World, w: World, project: string, issues: seq<Issue>)
    requires Exporting(v, project, issues, None) && Later(v, w)
    ensures Lists(w, issues)
  {
    ListsStay(v, w, issues);
  }

  lemma ListKeepsJam(s: State, project: string, k: int, x: Remote)
    requires Safe(s) && Sane(s.w) && Jammed(s.w, project, k, x)
    ensures var (t, issues) := ListIssues(s);
            Sane(t.w) && Jammed(t.w, project, k, x) && (!t.halted ==> k < |issues|)
  {
    JammedWaits(s, project, k, x);
    hide Safe, Sane, Jam;
  }

  /** No attempt from a jammed world completes, whatever happens to its calls and whatever users do meanwhile. */
  lemma AttemptJams(w: World, script: seq<Turn>, project: string, limit: nat, k: int, x: Remote)
    requires Inv(w) && Sane(w) && AllowedScript(script) && Plain(project) && Jammed(w, project, k, x)
    ensures Sync(w, script, project, limit).halted
  {
    PhasesKeepJam(w, script, project, limit, k, x);
    NotNegative(w, project, k, x);
    hide Inv, Safe, Sane, Plain, ImportIssues, ExportPosts, ImportComments, IssueMarkers, ListIssues, Jammed, Lists;
    var (s1, issues) := ListIssues(State(w, script, NoReceipt, false));
    if !s1.halted {
      var s2 := ImportIssues(s1, project, issues, limit);
      if !s2.halted {
        var s3 := ExportPosts(s2, project, IssueMarkers(project, issues), 0, limit);
        if !s3.halted {
          assert issues[0..] == issues;
          CommentsJam(s3, project, issues, 0, k, x, limit);
        }
      }
    }
  }

  lemma NotNegative(w: World, project: string, k: int, x: Remote)
    requires Jammed(w, project, k, x)
    ensures 0 <= k
  {
  }

  lemma EventKeepsJam(w: World, e: Event, project: string, k: int, x: Remote)
    requires Inv(w) && Sane(w) && AllowedEvent(e) && Jammed(w, project, k, x)
    ensures var v := RunEvents(w, [e]); Inv(v) && Sane(v) && Jammed(v, project, k, x)
  {
    var v := RunEvents(w, [e]);
    EventKept(w, e);
    EventTracks(w, e);
    JammedStays(w, v, project, k, x, e.Users? || !Sync(w, e.script, e.project, e.limit).halted);
    hide Inv, Sane, Later, Tracks, Jammed, Sync;
  }

  /**
    The relay never recovers.  Once a GitHub comment without a row, on an issue that has one, stands for a board comment
    that has another row, no later attempt returns no error: after any events, however the attempt goes.
  */
  lemma {:induction false} NeverCompletes(w: World, events: seq<Event>, script: seq<Turn>, project: string, limit: nat,
                                          k: int, x: Remote)
    requires Inv(w) && Sane(w) && Jammed(w, project, k, x) && AllowedRun(events) && AllowedScript(script)
             && Plain(project)
    ensures Sync(RunEvents(w, events), script, project, limit).halted
    decreases |events|
  {
    hide Inv, Sane, Jammed, Sync, Plain, AllowedScript, AllowedEvent;
    if events == [] {
      AttemptJams(w, script, project, limit, k, x);
    } else {
      EventKeepsJam(w, events[0], project, k, x);
      RunsOn(w, events);
      NeverCompletes(RunEvents(w, [events[0]]), events[1..], script, project, limit, k, x);
    }
  }

  lemma RunsOn(w: World, events: seq<Event>)
    requires events != []
    ensures RunEvents(w, events) == RunEvents(RunEvents(w, [events[0]]), events[1..])
  {
    assert [events[0]][1..] == [];
    hide Sync, ApplyUsers;
  }

  // ---- From an export without its row to the jam ------------------------------------------------------------------

  /** x stands for the due comment c, by its marker or by its replay key, and neither has a row. */
  ghost predicate RowLost(w: World, project: string, k: int, x: Remote, c: int) {
    && HasAt(w, k, x) && RowKey(project, IssueRow, w.issues[k].id) in w.rows
    && Claims(w, project, x, c) && RowKey(project, CommentRow, x.id) !in w.rows
    && Due(w.board, project, c) && !Mapped(w.rows, project, CommentItem, c)
  }

  lemma DeliveredJams(w: World, v: World, project: string, k: int, x: Remote, c: int)
    requires Inv(w) && Inv(v) && Sane(w) && Delivered(w, v, project) && RowLost(w, project, k, x, c)
    ensures Jammed(v, project, k, x)
  {
    MappedOrDue(w, v, project, c);
    assert HasAt(v, k, x);
    assert SameIssue(w.issues[k], v.issues[k]);
    NoLateRow(w, v, project, x);
    ClaimsStay(w, v, project, x, c);
    hide Inv, Sane, Due, Mapped, FreshIds, SentOnce, RowsJustified, AllSaved, PostsExported, CommentsExported,
      IssuesImported, SaidNew, Claims;
  }

  lemma NoLateRow(w: World, v: World, project: string, x: Remote)
    requires Delivered(w, v, project) && Has(w, x) && RowKey(project, CommentRow, x.id) !in w.rows
    ensures RowKey(project, CommentRow, x.id) !in v.rows
  {
    RemoteKept(w, v, x);
    forall y | New(w, v, y) ensures y.id != x.id {
      if y.id == x.id { SameId(v, x, y); }
    }
    hide Has, Remembers, FreshIds, SentOnce, RowsJustified, AllSaved, PostsExported, CommentsExported, IssuesImported,
      Later, Due;
  }

  lemma SameId(w: World, x: Remote, y: Remote)
    requires Sane(w) && Has(w, x) && Has(w, y) && x.id == y.id
    ensures x == y
  {
  }

  /**
    After the row of a comment was lost, exported or imported, the next undisturbed attempt exports the board comment,
    does not complete, and leaves a world in which no attempt ever will.
  */
  lemma LostJams(w: World, script: seq<Turn>, project: string, limit: nat, k: int, x: Remote, c: int)
    requires Inv(w) && Sane(w) && Plain(project) && Clear(script) && CallsNeeded(w) <= |script|
    requires !ImportStops(w, project, w.issues) && RowLost(w, project, k, x, c)
    ensures var r := Sync(w, script, project, limit);
            && r.halted && Inv(r.w) && Sane(r.w) && Jammed(r.w, project, k, x)
            && (exists y :: New(w, r.w, y) && y.exportOf == Some((project, c)))
            && (x.exportOf == Some((project, c)) ==> !Once(r.w))
  {
    hide Inv, Sane, Plain, Clear, Due, Delivered, Load, ImportStops, Sync, BeforeComments, ImportComments, Jammed,
      Mapped, CallsNeeded, AllowedScript, Tracks, Later, Sending, Claims, HasAt;
    ClearQuiet(script);
    SyncKept(w, script, project, limit);
    BeforeCommentsClear(w, script, project, limit);
    BeforeCommentsMeaning(w, script, project, limit);
    SyncSplits(w, script, project, limit);
    var s, r := BeforeComments(w, script, project, limit), Sync(w, script, project, limit);
    DeliveredJams(w, s.w, project, k, x, c);
    PhaseEndsJammed(w, s, project, limit, k, x);
    CommentPhaseIssues(s, project, w.issues, limit);
    var y := DueIsSent(w, s.w, project, c);
    SameHas(s.w, r.w);
    assert Has(w, x);
    SyncTracks(w, script, project, limit);
    TracksKeep(w, r.w, !r.halted, x);
  }

  lemma TracksKeep(v: World, w: World, going: bool, x: Remote)
    requires Tracks(v, w, going) && Has(v, x)
    ensures Has(w, x)
  {
    RemoteKept(v, w, x);
  }

  lemma PhaseEndsJammed(w: World, s: State, project: string, limit: nat, k: int, x: Remote)
    requires Sending(s, project, w.issues) && Jammed(s.w, project, k, x) && HasAt(w, k, x)
    ensures var r := ImportComments(s, project, w.issues, limit); r.halted && Sane(r.w) && Jammed(r.w, project, k, x)
  {
    SendingOpen(s, project, w.issues);
    SendsLinked(s, project, w.issues);
    hide Sane, Jammed, ImportComments, Later, Tracks, SamePosts, Exporting, Plain, Linked, Lists, Inv;
    var r := ImportComments(s, project, w.issues, limit);
    assert w.issues[0..] == w.issues;
    CommentsJam(s, project, w.issues, 0, k, x, limit);
    RC.ImportCommentsKept(s, project, w.issues, limit);
    ImportCommentsTrack(s, project, w.issues, limit);
    JammedStays(s.w, r.w, project, k, x, false);
  }

  lemma {:induction false} ChainWithReply(b: B.Store, d: B.Store, c: int)
    requires B.Valid(b) && B.Valid(d) && B.Extends(b, d) && ActiveChain(b, c)
    requires forall x :: x in b.comments ==> d.comments[x] == b.comments[x]
    ensures ActiveChain(d, c)
    decreases c
  {
    hide B.Valid;
    ValidComment(d, c);
    if b.comments[c].parent.Some? { ChainWithReply(b, d, b.comments[c].parent.value); }
  }

  lemma ValidComment(b: B.Store, c: int)
    requires B.Valid(b) && c in b.comments
    ensures B.CommentValid(b, c)
  {
  }

  /** A reply that was not refused is due, if everything it answers is active. */
  lemma ReplyIsDue(b: B.Store, project: string, c: B.Comment, key: string)
    requires B.Valid(b) && B.Refusal(b, c).None? && key !in b.commentKeys && c.status.Active?
    requires b.posts[c.postId].project == project && (c.parent.Some? ==> ActiveChain(b, c.parent.value))
    ensures var (d, made) := B.TryCommentKeyed(b, c, key);
            made == Ok(b.nextId) && key in d.commentKeys && d.commentKeys[key] == b.nextId && Due(d, project, b.nextId)
  {
    var d := B.TryCommentKeyed(b, c, key).0;
    B.TryCommentKeyedValid(b, c, key);
    ValidComment(d, b.nextId);
    assert d.comments == b.comments[b.nextId := c];
    assert b.nextId !in b.comments by { if b.nextId in b.comments { ValidComment(b, b.nextId); } }
    if c.parent.Some? { ChainWithReply(b, d, c.parent.value); }
    hide B.Valid, B.Extends;
  }

  /** A process that dies between the import of a comment and its row loses the row. */
  lemma CutAfterImport(s: State, project: string, post: int, number: int, k: int, x: Remote, limit: nat)
    requires Taking(s, post) && |s.script| == 2 && B.Valid(s.w.board) && HasAt(s.w, k, x)
    requires RowKey(project, IssueRow, s.w.issues[k].id) in s.w.rows && RowKey(project, CommentRow, x.id) !in s.w.rows
    requires !NamesComment(x, project) && KeyFor(project, x) !in s.w.board.commentKeys
    requires !Refused(s.w, project, post, x) && s.w.board.posts[post].project == project
    requires var parent := ParentFromMarker(project, x.tag); parent.Some? ==> ActiveChain(s.w.board, parent.value)
    ensures var r := ImportComment(s, project, post, number, x, limit);
            r.halted && RowLost(r.w, project, k, x, s.w.board.nextId)
  {
    hide ParentFromMarker, CreateComment, B.Valid, B.Refusal, B.TryCommentKeyed, ActiveChain, Due, AddUrl, TrimSpace,
      ReplayKey, UnfitRemote, Mapped;
    NextClear(s);
    var s1 := Next(s).0;
    CreateCommentClear(s1, project, post, x);
    ReplyIsDue(s.w.board, project, ReplyFor(project, post, x), KeyFor(project, x));
    assert s1.script[1..] == [];
    hide Clear;
  }

  // ---- The two attempts -------------------------------------------------------------------------------------------

  /** A process that lives for n calls, none of which fails, while nobody acts. */
  function Calls(n: nat): (script: seq<Turn>)
    ensures |script| == n && Clear(script)
  {
    seq(n, _ => Turn([], Done))
  }

  /** A user writes a post and a reply; then an attempt dies right after it created the reply's GitHub comment. */
  const FirstAttempt: seq<Event> :=
    [Users([OnBoard(B.OpPost("p", "title", "body", "author", 1)), OnBoard(B.OpComment(1, None, "reply", "author", 1))]),
     Attempt("p", Calls(10), 1)]

  const OnePost: B.Post := B.Post("p", "title", "body", "author", B.Active, 1, None)

  const OneReply: B.Comment := B.Comment(1, None, "reply", "author", B.Active, 1, None)

  const OneBoard: B.Store := B.Store(3, map[1 := OnePost], map[2 := OneReply], map[], map[])

  const Written: World := World(OneBoard, [], 1, map[], map[])

  lemma BoardWritten()
    ensures var b := B.Apply(B.Empty, B.OpPost("p", "title", "body", "author", 1));
            B.Apply(b, B.OpComment(1, None, "reply", "author", 1)) == OneBoard && InRange(b) && InRange(OneBoard)
  {
    var b := B.Apply(B.Empty, B.OpPost("p", "title", "body", "author", 1));
    assert b == B.Store(2, map[1 := OnePost], map[], map[], map[]);
  }

  lemma TwoOps(w: World, a: UserOp, b: UserOp)
    ensures ApplyUsers(w, [a, b]) == ApplyUser(ApplyUser(w, a), b)
  {
    hide ApplyUser;
    var v := ApplyUser(w, a);
    assert [a, b][1..] == [b] && [b][1..] == [];
    assert ApplyUsers(v, [b]) == ApplyUsers(ApplyUser(v, b), []);
  }

  lemma UsersWrite()
    ensures RunEvents(NoWorld, [FirstAttempt[0]]) == Written && Inv(Written) && Sane(Written)
  {
    var ops := FirstAttempt[0].ops;
    BoardWritten();
    TwoOps(NoWorld, ops[0], ops[1]);
    PlainBody();
    assert ops == [ops[0], ops[1]] && AllAllowed(ops);
    StartInv();
    NothingYet();
    hide Inv, Sane, B.Apply, MarkerFree, InRange, ApplyUsers;
    assert ApplyUser(ApplyUser(NoWorld, ops[0]), ops[1]) == Written;
    hide ApplyUser;
    UserEvents(NoWorld, ops);
    assert FirstAttempt[0] == Users(ops);
    UserSteps(NoWorld, ops);
    UsersAside(NoWorld, ops);
    AsideSane(NoWorld, Written);
  }

  lemma UserEvents(w: World, ops: seq<UserOp>)
    ensures RunEvents(w, [Users(ops)]) == ApplyUsers(w, ops)
  {
    var events := [Users(ops)];
    assert events[0] == Users(ops) && events[1..] == [];
    assert RunEvents(ApplyUsers(w, ops), []) == ApplyUsers(w, ops);
    assert RunEvents(w, events) == RunEvents(ApplyUsers(w, ops), events[1..]);
  }

  lemma PlainBody()
    ensures MarkerFree("body") && MarkerFree("reply")
  {
    assert "body"[1..] == "ody" && "ody"[1..] == "dy" && "dy"[1..] == "y" && "y"[1..] == "";
    assert "reply"[1..] == "eply" && "eply"[1..] == "ply" && "ply"[1..] == "ly" && "ly"[1..] == "y";
    assert |Prefix| > 5;
  }

  lemma PageOfOne(m: set<int>, x: int)
    requires m == {x} && 0 < x
    ensures PageOf(m, 0, PageSize) == Page([x], None)
  {
    assert After(m, 0) == {x};
    var ys := Sorted(After(m, 0));
    assert |ys| == 1 && x in ys;
    assert ys == [x];
  }

  /** The world after the post's issue was created and its row saved. */
  function WithIssue(issue: Issue): (w: World) {
    World(OneBoard, [issue], 2, map[RowKey("p", IssueRow, 1) := Row(PostItem, 1, 1, FromBoard, 0)], map[])
  }

  const TheIssue: Issue :=
    var text := Marked("body", PostMarker("p", 1));
    Issue(1, 1, "title", text, Parse(text), 0, [], Some(1))

  lemma IssueMade(s: State)
    requires s.w == Written && Clear(s.script) && !s.halted && s.script != []
    ensures var (r, issue) := CreateIssue(s, 1, "title", Marked("body", PostMarker("p", 1)));
            && issue == TheIssue && !r.halted && r.script == s.script[1..] && Clear(r.script)
            && r.w == Written.(issues := [TheIssue], nextRemote := 2)
  {
    hide Parse, Marked, PostMarker, Clear;
    CreateIssueClear(s, 1, "title", Marked("body", PostMarker("p", 1)));
  }

  lemma PostExported(s: State)
    requires s.w == Written && Clear(s.script) && !s.halted && 4 <= |s.script|
    ensures var (r, row) := EnsureMapping(s, "p", map[], 1, OnePost, 1);
            && r.w == WithIssue(TheIssue) && !r.halted && r.script == s.script[4..] && Clear(r.script)
            && row == Some(Row(PostItem, 1, 1, FromBoard, 0))
  {
    FindClear(s, "p", 1);
    assert !Mapped(Written.rows, "p", PostItem, 1);
    assert OnePost.title == "title" && OnePost.body == "body";
    var s1 := s.(script := s.script[1..]);
    IssueMade(s1);
    hide Parse, Marked, PostMarker, Clear, CreateIssue, OnePost, OneBoard, Mapped;
    var s2 := CreateIssue(s1, 1, "title", Marked("body", PostMarker("p", 1))).0;
    assert s2.script == s.script[2..];
    var counted := AddUrl(s2.receipt.(exportedPosts := s2.receipt.exportedPosts + 1), 1);
    var key, row := RowKey("p", IssueRow, 1), Row(PostItem, 1, 1, FromBoard, 0);
    var s3 := s2.(receipt := counted);
    assert TheIssue.id == 1 && TheIssue.number == 1 && TheIssue.updatedAt == 0;
    hide TheIssue;
    SaveFindClear(s3, key, row, counted);
    assert Save(s3, key, row).(receipt := counted) == Save(s3, key, row);
    assert s.script[2..][2..] == s.script[4..];
    OnlyRowFound(key, row);
    hide Save, FindByBoard, BoardRow;
  }

  lemma OnlyRowFound(key: RowKey, row: Row)
    requires row.kind.PostItem? && row.boardId == 1 && key.project == "p"
    ensures BoardRow(map[key := row], "p", PostItem, 1) == Some(row)
  {
    assert IsRowOf(map[key := row], key, "p", PostItem, 1);
  }

  const TheComment: Remote :=
    var text := Marked("reply", CommentMarker("p", 2, None));
    Remote(2, text, Parse(text), 0, Some(("p", 2)))

  /** The process ends right after the GitHub comment was created. */
  lemma CommentCut(s: State)
    requires s.w == WithIssue(TheIssue) && Clear(s.script) && !s.halted && |s.script| == 3
    ensures var r := ExportComments(s, "p", 1, 1, None, 0, 1);
            r.halted && r.w == AppendRemote(WithIssue(TheIssue), 0, TheComment)
  {
    hide Parse, Marked, CommentMarker, PostMarker, Clear, PageOf, AppendRemote;
    NextClear(s);
    var (s1, page, rows) := ListComments(s, 1, None, 0);
    OneReplyListed();
    assert page == Page([2], None) && rows == OneBoard.comments;
    NextClear(s1);
    assert !Mapped(s1.w.rows, "p", CommentItem, 2);
    var s2 := FindByBoard(s1, "p", CommentItem, 2).0;
    NextClear(s2);
    var s3 := CreateIssueComment(s2, 1, ("p", 2), Marked("reply", CommentMarker("p", 2, None))).0;
    assert s3.w == AppendRemote(WithIssue(TheIssue), 0, TheComment) && s3.script == [];
    var r := ExportComment(s1, "p", 1, 2, OneReply, 1);
    assert r.halted && r.w == s3.w;
    assert ExportReplies(s1, "p", 1, 1, [2], rows, 1) == r;
  }

  lemma OneReplyListed()
    ensures PageOf(B.CommentIds(OneBoard, 1, None), 0, PageSize) == Page([2], None)
  {
    assert B.Valid(OneBoard) by { assert B.CommentValid(OneBoard, 2); }
    assert B.CommentIds(OneBoard, 1, None) == {2};
    PageOfOne(B.CommentIds(OneBoard, 1, None), 2);
  }

  lemma OnePostListed()
    ensures PageOf(B.PostIds(OneBoard, "p"), 0, PageSize) == Page([1], None)
  {
    assert B.PostIds(OneBoard, "p") == {1};
    PageOfOne(B.PostIds(OneBoard, "p"), 1);
  }

  lemma PostRead(s: State)
    requires s.w == Written && Clear(s.script) && !s.halted && s.script != []
    ensures GetPost(s, 1) == (s.(script := s.script[1..]), Some(OnePost)) && Clear(s.script[1..])
            && OnePost.status.Active?
  {
    NextClear(s);
    hide Next;
  }

  /** The export of the one post, from the call that reads it. */
  lemma PostCut(s: State)
    requires s.w == Written && Clear(s.script) && !s.halted && |s.script| == 8
    ensures var r := ExportPost(s, "p", map[], 1, 1);
            r.halted && r.w == AppendRemote(WithIssue(TheIssue), 0, TheComment)
  {
    hide GetPost, EnsureMapping, ExportComments, AppendRemote, Next, TheIssue, TheComment, Clear, OnePost, Written,
      OneBoard, WithIssue;
    PostRead(s);
    var s1 := s.(script := s.script[1..]);
    PostExported(s1);
    var s2 := EnsureMapping(s1, "p", map[], 1, OnePost, 1).0;
    CommentCut(s2);
  }

  lemma OneOfEach(s: State, r: State, id: int)
    requires r.halted && !s.halted && r == ExportPost(s, "p", map[], id, 1)
    ensures ExportEach(s, "p", map[], [id], 1) == r
  {
    hide ExportPost;
    assert [id][1..] == [];
    assert ExportEach(r, "p", map[], [], 1) == r;
  }

  lemma FirstSync()
    ensures Sync(Written, Calls(10), "p", 1).w == AppendRemote(WithIssue(TheIssue), 0, TheComment)
  {
    UsersWrite();
    var script := Calls(10);
    ListIssuesClear(Written, script, "p");
    var s1 := State(Written, script[1..], NoReceipt, false);
    NextClear(s1);
    OnePostListed();
    var s2 := s1.(script := s1.script[1..]);
    PostCut(s2);
    hide Inv, Sane, Clear, Calls, PageOf, AppendRemote, ExportPost, Next, TheIssue, TheComment, ListIssues, B.PostIds;
    var r := ExportPost(s2, "p", map[], 1, 1);
    OneOfEach(s2, r, 1);
    hide ExportEach;
    assert ListPosts(s1, "p", 0) == (s2, Page([1], None));
    assert ExportPosts(s1, "p", map[], 0, 1) == r;
    assert IssueMarkers("p", []) == map[];
  }

  lemma TwoEvents(w: World, a: Event, b: Event)
    requires b.Attempt?
    ensures RunEvents(w, [a, b]) == Sync(RunEvents(w, [a]), b.script, b.project, b.limit).w
  {
    RunsOn(w, [a, b]);
    assert [a, b][1..] == [b] && [b][1..] == [];
    hide Sync, ApplyUsers;
  }

  lemma FirstRunIs()
    ensures RunEvents(NoWorld, FirstAttempt) == AppendRemote(WithIssue(TheIssue), 0, TheComment)
  {
    var users, attempt := FirstAttempt[0], FirstAttempt[1];
    assert FirstAttempt == [users, attempt] && attempt == Attempt("p", Calls(10), 1);
    hide FirstAttempt, RunEvents, Sync, Calls, AppendRemote, TheIssue, TheComment, Inv, Sane;
    TwoEvents(NoWorld, users, attempt);
    UsersWrite();
    FirstSync();
  }

  lemma FirstEventsAllowed()
    ensures AllowedRun(FirstAttempt)
  {
    ClearQuiet(Calls(10));
    PlainBody();
    OneLetter();
    hide Calls, Plain, MarkerFree, Clear;
  }

  lemma FirstRun()
    ensures var w := AppendRemote(WithIssue(TheIssue), 0, TheComment);
            && RunEvents(NoWorld, FirstAttempt) == w && AllowedRun(FirstAttempt)
            && Inv(w) && Sane(w) && Once(w)
  {
    var users := FirstAttempt[0];
    hide Inv, Sane, Once, Sync, Calls, AllowedRun, RunEvents, AllComplete, AppendRemote, TheIssue, TheComment,
      FirstAttempt;
    FirstEventsAllowed();
    FirstRunIs();
    FirstSync();
    StartInv();
    RunKept(NoWorld, FirstAttempt);
    NothingYet();
    RunSane(NoWorld, FirstAttempt);
    UsersWrite();
    UsersComplete();
    CompletedRunsExportOnce([users], Calls(10), "p", 1);
  }

  lemma OneLetter()
    ensures Plain("p")
  {
  }

  lemma UsersComplete()
    ensures AllComplete(NoWorld, [FirstAttempt[0]])
  {
    assert [FirstAttempt[0]][1..] == [];
    hide Sync, ApplyUsers;
  }

  lemma CommentNames()
    ensures NamesComment(TheComment, "p") && TheComment.tag.0.comment == 2
    ensures TheComment.exportOf == Some(("p", 2)) && TheComment.id == 2
  {
    PlainBody();
    OneLetter();
    MarkerFreeMeaning("reply");
    hide Parse, Marked, CommentMarker, Plain, MarkerFree, Contains;
    CommentRoundTrip("reply", "p", 2, None);
  }

  lemma CommentDue()
    ensures Due(OneBoard, "p", 2)
  {
    assert B.CommentValid(OneBoard, 2);
  }

  lemma OnlyIssueRow(rows: map<RowKey, Row>)
    requires rows == map[RowKey("p", IssueRow, 1) := Row(PostItem, 1, 1, FromBoard, 0)]
    ensures !Mapped(rows, "p", CommentItem, 2) && RowKey("p", CommentRow, 2) !in rows
            && RowKey("p", IssueRow, 1) in rows
  {
    assert forall key :: key in rows ==> rows[key].kind == PostItem;
  }

  lemma AppendedToIssue(w: World, issue: Issue, x: Remote)
    requires w == WithIssue(issue)
    ensures var v := AppendRemote(w, 0, x);
            HasAt(v, 0, x) && v.issues[0].id == issue.id && v.rows == w.rows && v.board == OneBoard
  {
    assert AppendRemote(w, 0, x).issues[0].comments == issue.comments + [x];
  }

  lemma RowIsLost()
    ensures RowLost(AppendRemote(WithIssue(TheIssue), 0, TheComment), "p", 0, TheComment, 2)
  {
    var w := WithIssue(TheIssue);
    assert TheIssue.id == 1;
    CommentNames();
    CommentDue();
    OnlyIssueRow(w.rows);
    AppendedToIssue(w, TheIssue, TheComment);
    hide NamesComment, Due, Mapped, HasAt, AppendRemote, TheIssue, TheComment, OneBoard;
  }

  /**
    Comments are not crash-safe.  From nothing: a user writes a post and a reply, and an attempt dies right after it
    created the reply's GitHub comment.  The next attempt, which nobody disturbs, creates a second one and stops with an
    error; and no attempt after it ever completes, whatever users do.
  */
  lemma TwoAttemptsJam(events: seq<Event>, script: seq<Turn>, limit: nat)
    requires AllowedRun(events) && AllowedScript(script)
    ensures var w := RunEvents(NoWorld, FirstAttempt);
            var r := Sync(w, Calls(CallsNeeded(w)), "p", 1);
            && AllowedRun(FirstAttempt) && Once(w) && !Once(r.w) && r.halted
            && Sync(RunEvents(r.w, events), script, "p", limit).halted
  {
    FirstRun();
    RowIsLost();
    OneLetter();
    var w := RunEvents(NoWorld, FirstAttempt);
    FewPosts(w);
    hide Inv, Sane, Once, Sync, Plain, RunEvents, AppendRemote, RowLost, ImportStops, Jammed, CallsNeeded, Clear,
      AllowedRun;
    LostJams(w, Calls(CallsNeeded(w)), "p", 1, 0, TheComment, 2);
    NeverCompletes(Sync(w, Calls(CallsNeeded(w)), "p", 1).w, events, script, "p", limit, 0, TheComment);
  }

  lemma FewPosts(w: World)
    requires w == AppendRemote(WithIssue(TheIssue), 0, TheComment)
    ensures !ImportStops(w, "p", w.issues)
  {
    hide ReplayKey, UnfitIssue, ImportMarked, Parse, Marked, PostMarker, CommentMarker;
    assert OneBoard.nextId == 3;
    hide OneBoard;
    assert |w.issues| == 1 && w.issues[1..] == [] && w.issues[0].id == 1;
    assert RowKey("p", IssueRow, 1) in w.rows;
    hide AppendRemote, WithIssue, TheIssue, TheComment;
    assert PostsNeeded(w, "p", w.issues[1..]) == 0;
  }
}
