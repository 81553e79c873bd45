/**
  Comments are exported once as long as attempts complete; after an attempt that did not, exactly when no due comment of
  the project has a GitHub comment but no row.
*/
module RelayOnce {
  import opened Core
  import opened Paging
  import opened Text
  import opened Marker
  import opened Relay
  import opened RelaySafety
  import opened RelayExport
  import opened RelayRuns
  import opened RelayQuiet
  import opened RelaySettles
  import opened RelayQuiescence
  import opened RelayHistory
  import opened RelayTracks
  import opened RelayEnds
  import opened RelayCompletes
  import B = Board

  // ---- Attempts that leave no export without its row --------------------------------------------------------------

  /** No board comment has two relay-created GitHub comments. */
  ghost predicate Once(w: World) {
    forall x, y :: Has(w, x) && Has(w, y) && x.exportOf.Some? && x.exportOf == y.exportOf ==> x == y
  }

  /** Every GitHub comment the relay created has its row. */
  ghost predicate Tidy(w: World) {
    forall x :: Has(w, x) ==> Saved(w, x)
  }

  lemma OnceStays(v: World, w: World, going: bool)
    requires Sane(v) && Once(v) && Tidy(v) && Tracks(v, w, going)
    ensures Once(w) && (going ==> Tidy(w))
  {
    forall x, y | Has(w, x) && Has(w, y) && x.exportOf.Some? && x.exportOf == y.exportOf ensures x == y {
      if Has(v, x) { SavedIsMapped(v, x); }
      if Has(v, y) { SavedIsMapped(v, y); }
      assert New(v, w, x) ==> WasUnmapped(v, x);
      assert New(v, w, y) ==> WasUnmapped(v, y);
      hide Sane, Has, Remembers, FreshIds, RowsJustified, Saved, AllSaved, Mapped;
    }
    if going {
      forall x | Has(w, x) ensures Saved(w, x) {
        if Has(v, x) { SavedStays(v, w, x); }
        hide Sane, Has, Remembers, FreshIds, RowsJustified, Saved, SentOnce;
      }
    }
    hide Sane, Has, Remembers, FreshIds, RowsJustified, Saved, SentOnce, AllSaved, Mapped;
  }

  /** The attempts among these events all returned no error. */
  ghost predicate AllComplete(w: World, events: seq<Event>)
    decreases |events|
  {
    events != [] ==>
      && (events[0].Attempt? ==> !Sync(w, events[0].script, events[0].project, events[0].limit).halted)
      && AllComplete(RunEvents(w, [events[0]]), events[1..])
  }

  lemma EventTracks(w: World, e: Event)
    requires Sane(w)
    ensures Tracks(w, RunEvents(w, [e]), e.Users? || !Sync(w, e.script, e.project, e.limit).halted)
  {
    match e
    case Users(ops) =>
      UsersAside(w, ops);
      AsideTracks(w, ApplyUsers(w, ops), true);
    case Attempt(project, script, limit) => SyncTracks(w, script, project, limit);
    hide Tracks, Sync, ApplyUsers, Sane, Aside;
  }

  lemma {:induction false} CompleteRunTidy(w: World, events: seq<Event>)
    requires Sane(w) && Once(w) && Tidy(w) && AllComplete(w, events)
    ensures var v := RunEvents(w, events); Sane(v) && Once(v) && Tidy(v)
    decreases |events|
  {
    hide Tracks, Sync, ApplyUsers, Sane, Once, Tidy;
    if events != [] {
      var v := RunEvents(w, [events[0]]);
      EventTracks(w, events[0]);
      OnceStays(w, v, true);
      TracksSane(w, v, true);
      CompleteRunTidy(v, events[1..]);
    }
  }

  lemma NothingYet()
    ensures Sane(NoWorld) && Once(NoWorld) && Tidy(NoWorld)
  {
  }

  /**
    As long as every attempt returned no error, and however the last one is stopped, no board comment was exported
    twice, with users acting before every call.
  */
  lemma CompletedRunsExportOnce(events: seq<Event>, script: seq<Turn>, project: string, limit: nat)
    requires AllComplete(NoWorld, events)
    ensures var w := RunEvents(NoWorld, events); Tidy(w) && Once(Sync(w, script, project, limit).w)
  {
    hide Tracks, Sync, Sane, Once, Tidy, RunEvents, AllComplete;
    NothingYet();
    CompleteRunTidy(NoWorld, events);
    var w := RunEvents(NoWorld, events);
    SyncTracks(w, script, project, limit);
    var r := Sync(w, script, project, limit);
    OnceStays(w, r.w, !r.halted);
  }

  /** Worlds of runs are sane, whatever happened. */
  lemma {:induction false} RunSane(w: World, events: seq<Event>)
    requires Sane(w)
    ensures Sane(RunEvents(w, events))
    decreases |events|
  {
    hide Tracks, Sync, ApplyUsers, Sane;
    if events != [] {
      var e := events[0];
      EventTracks(w, e);
      TracksSane(w, RunEvents(w, [e]), e.Users? || !Sync(w, e.script, e.project, e.limit).halted);
      RunSane(RunEvents(w, [e]), events[1..]);
    }
  }

  // ---- What the first phases leave --------------------------------------------------------------------------------

  lemma {:induction false} SameChain(b: B.Store, d: B.Store, c: int)
    requires B.Valid(b) && B.Valid(d) && Grown(b, d)
    ensures ActiveChain(d, c) <==> ActiveChain(b, c)
    decreases c
  {
    if c in b.comments {
      assert B.CommentValid(b, c) && B.CommentValid(d, c);
      if b.comments[c].parent.Some? { SameChain(b, d, b.comments[c].parent.value); }
    }
  }

  lemma SameDue(b: B.Store, d: B.Store, project: string, c: int)
    requires B.Valid(b) && B.Valid(d) && Grown(b, d)
    ensures Due(d, project, c) <==> Due(b, project, c)
  {
    SameChain(b, d, c);
    assert c in b.comments ==> B.CommentValid(b, c);
    hide ActiveChain;
  }

  /** The comment rows are those of before, and one for each due comment, made with the GitHub comment it names. */
  ghost predicate Delivered(w: World, v: World, project: string) {
    && Grown(w.board, v.board) && Later(w, v)
    && Tracks(w, v, true)
    && (forall key :: key in v.rows && key !in w.rows && key.kind.CommentRow? ==> DueRow(w, v, project, key))
    && PostsExported(v, project) && CommentsExported(v, project) && IssuesImported(v, project)
  }

  lemma BeforeCommentsMeaning(w: World, script: seq<Turn>, project: string, limit: nat)
    requires Inv(w) && Sane(w) && Plain(project) && Clear(script) && CallsNeeded(w) <= |script|
    ensures var s := BeforeComments(w, script, project, limit); !s.halted ==> Inv(s.w) && Delivered(w, s.w, project)
  {
    BeforeExportClear(w, script, project, limit);
    hide Inv, Sane, Plain, Clear, BeforeExport, ExportPosts, Sending, IssueMarkers, Delivered, Load, ImportStops, Aside,
      ListIssues, ExportCalls, Grown;
    var s2 := BeforeExport(w, script, project, limit);
    if !s2.halted { ExportedMeaning(w, s2, project, w.issues, limit); }
  }

  lemma ExportedMeaning(w: World, s2: State, project: string, issues: seq<Issue>, limit: nat)
    requires Inv(w) && Later(w, s2.w) && Sane(w) && Aside(w, s2.w) && Grown(w.board, s2.w.board)
             && s2.w.issues == w.issues == issues
    requires Sending(s2, project, issues) && ExportCalls(s2.w.board, project, 0) <= |s2.script|
    ensures var s := ExportPosts(s2, project, IssueMarkers(project, issues), 0, limit);
            Inv(s.w) && Delivered(w, s.w, project)
  {
    hide Inv, Sane, Plain, ExportPosts, IssueMarkers, Load, ExportCalls, Exporting, Aside, PostsExported, Remembers,
      CommentsExported, DoneBeyond, Tracks, NewThreaded, IssuesImported;
    var s := ExportPosts(s2, project, IssueMarkers(project, issues), 0, limit);
    var n := ExportCalls(s2.w.board, project, 0);
    ExportPostsEnd(s2, project, issues, 0, limit);
    ExportPostsTrack(s2, project, IssueMarkers(project, issues), 0, limit);
    AsideTracks(w, s2.w, true);
    TracksTransitive(w, s2.w, s.w, true);
    RowsSince(w, s2.w, s.w, project);
    SendingOpen(s2, project, issues);
    SendingOpen(s, project, issues);
    ExportPostsSettles(s2, project, issues, 0, limit, |issues|);
    ExportComplete(s.w, project);
    SendingImported(s2, s, project, issues, limit);
    ExportPostsKept(s2, project, issues, 0, limit);
    LaterThrough(w, s2, s.w, project, issues);
    hide Later;
  }

  lemma LaterThrough(u: World, s: State, w: World, project: string, issues: seq<Issue>)
    requires Inv(u) && Later(u, s.w) && Sending(s, project, issues) && Later(s.w, w)
    ensures Later(u, w)
  {
    LaterTransitive(u, s.w, w);
  }

  lemma RowsSince(u: World, v: World, w: World, project: string)
    requires Aside(u, v) && Remembers(v, w) && OnlyDue(v, w, project)
    ensures forall key :: key in w.rows && key !in u.rows && key.kind.CommentRow? ==> DueRow(u, w, project, key)
  {
    hide Remembers, DueRow, Sane, FreshIds, New;
    forall key | key in w.rows && key !in u.rows && key.kind.CommentRow? ensures DueRow(u, w, project, key) {
      DueRowBefore(u, v, w, project, key);
    }
  }

  /** The issues listed at the start are imported, and the issues made since ask for no import. */
  lemma SendingImported(s2: State, s: State, project: string, issues: seq<Issue>, limit: nat)
    requires Sending(s2, project, issues) && s2.w.issues == issues && Sending(s, project, issues)
    requires s == ExportPosts(s2, project, IssueMarkers(project, issues), 0, limit)
    ensures IssuesImported(s.w, project)
  {
    hide Sane, Plain, ExportPosts, IssueMarkers, Step, Clear, DoneBeyond;
    SendingOpen(s2, project, issues);
    ExportPostsSettles(s2, project, issues, 0, limit, |issues|);
    NewAreExports(s.w, project, |issues|);
    AllImported(s.w, project, issues);
  }

  /** After the first phases the mapped comments of the project are those mapped before, and those that were due. */
  lemma MappedOrDue(w: World, v: World, project: string, c: int)
    requires Inv(w) && Inv(v) && Sane(w) && Delivered(w, v, project)
    ensures Mapped(v.rows, project, CommentItem, c)
            <==> Mapped(w.rows, project, CommentItem, c) || Due(w.board, project, c)
  {
    SameDue(w.board, v.board, project, c);
    if Mapped(w.rows, project, CommentItem, c) { CommentMappedStays(w, v, project, c); }
    if Mapped(v.rows, project, CommentItem, c) {
      var key :| IsRowOf(v.rows, key, project, CommentItem, c);
      assert key.kind.CommentRow? by { assert Sane(v); }
      if key in w.rows {
        assert SameCommentRow(w, v, key);
        assert IsRowOf(w.rows, key, project, CommentItem, c);
      } else {
        assert DueRow(w, v, project, key);
      }
    }
    hide Inv, Has, FreshIds, SentOnce, RowsJustified, AllSaved, PostsExported, IssuesImported, Due;
  }

  // ---- Exactly when comments are exported once --------------------------------------------------------------------

  /** The relay created a GitHub comment for this board comment, which is due and has no row. */
  ghost predicate Orphan(w: World, project: string, c: int) {
    && Due(w.board, project, c) && !Mapped(w.rows, project, CommentItem, c)
    && exists x :: Has(w, x) && x.exportOf == Some((project, c))
  }

  /** A due comment without a row is exported. */
  lemma DueIsSent(w: World, v: World, project: string, c: int) returns (y: Remote)
    requires Inv(w) && Inv(v) && Sane(w) && Delivered(w, v, project)
    requires Due(w.board, project, c) && !Mapped(w.rows, project, CommentItem, c)
    ensures New(w, v, y) && y.exportOf == Some((project, c))
  {
    MappedOrDue(w, v, project, c);
    var key :| IsRowOf(v.rows, key, project, CommentItem, c);
    assert key.kind.CommentRow? by { assert Sane(v); }
    assert key in w.rows ==> SameCommentRow(w, v, key);
    assert key in w.rows ==> IsRowOf(w.rows, key, project, CommentItem, c);
    assert DueRow(w, v, project, key);
    y :| New(w, v, y) && y.id == key.id && y.exportOf == Some((project, c));
    hide Inv, FreshIds, SentOnce, RowsJustified, AllSaved, PostsExported, IssuesImported, CommentsExported, Due,
      SaidNew;
  }

  /** Nothing else is. */
  lemma SentWasDue(w: World, v: World, project: string, y: Remote, other: string, c: int)
    requires Inv(w) && Inv(v) && Sane(w) && Delivered(w, v, project)
    requires New(w, v, y) && y.exportOf == Some((other, c))
    ensures other == project && Due(w.board, project, c) && !Mapped(w.rows, project, CommentItem, c)
  {
    assert Saved(v, y) && WasUnmapped(w, y);
    var key := RowKey(other, CommentRow, y.id);
    assert IsRowOf(v.rows, key, other, CommentItem, c);
    assert key in w.rows ==> SameCommentRow(w, v, key);
    assert key in w.rows ==> IsRowOf(w.rows, key, other, CommentItem, c);
    assert DueRow(w, v, project, key);
    SameDue(w.board, v.board, project, c);
    hide Inv, FreshIds, SentOnce, RowsJustified, AllSaved, PostsExported, IssuesImported, CommentsExported, Due,
      Remembers, SaidNew;
  }

  lemma OrphanTwice(w: World, v: World, project: string, c: int)
    requires Inv(w) && Inv(v) && Sane(w) && Delivered(w, v, project) && Orphan(w, project, c)
    ensures !Once(v)
  {
    var x :| Has(w, x) && x.exportOf == Some((project, c));
    var y := DueIsSent(w, v, project, c);
    RemoteKept(w, v, x);
    hide Inv, Remembers, FreshIds, SentOnce, RowsJustified, AllSaved, PostsExported, IssuesImported, CommentsExported,
      Due, SaidNew;
  }

  lemma NoOrphanOnce(w: World, v: World, project: string)
    requires Inv(w) && Inv(v) && Sane(w) && Delivered(w, v, project) && Once(w)
    requires forall c :: !Orphan(w, project, c)
    ensures Once(v)
  {
    forall x, y | Has(v, x) && Has(v, y) && x.exportOf.Some? && x.exportOf == y.exportOf ensures x == y {
      if Has(w, x) && New(w, v, y) { OldAndNew(w, v, project, x, y); }
      if Has(w, y) && New(w, v, x) { OldAndNew(w, v, project, y, x); }
      hide Inv, Has, FreshIds, RowsJustified, AllSaved, PostsExported, IssuesImported, CommentsExported, Orphan,
        Remembers;
    }
    hide Inv, Sane, Delivered, Orphan;
  }

  lemma OldAndNew(w: World, v: World, project: string, x: Remote, y: Remote)
    requires Inv(w) && Inv(v) && Sane(w) && Delivered(w, v, project)
    requires Has(w, x) && New(w, v, y) && x.exportOf.Some? && x.exportOf == y.exportOf
    ensures exists c :: Orphan(w, project, c)
  {
    var (other, c) := y.exportOf.value;
    SentWasDue(w, v, project, y, other, c);
    hide Inv, Delivered, Due;
    assert Orphan(w, project, c);
  }

  /** The import of comments creates nothing on GitHub. */
  lemma CommentPhaseIssues(s: State, project: string, listing: seq<Issue>, limit: nat)
    requires Sending(s, project, listing)
    ensures ImportComments(s, project, listing, limit).w.issues == s.w.issues
  {
    SendingOpen(s, project, listing);
    NoThreads(s.w, project);
    assert listing[0..] == listing;
    SendsGoes(s, project, listing);
    SendsLinked(s, project, listing);
    hide Inv, Sane, Plain, Exporting, ImportComments, KeptPosts, Clear;
    ImportCommentsTaken(s, project, listing, 0, limit);
  }

  lemma SameHas(v: World, w: World)
    requires w.issues == v.issues
    ensures forall x :: Has(w, x) <==> Has(v, x)
  {
    forall x ensures Has(w, x) <==> Has(v, x) {
      forall k ensures HasAt(w, k, x) <==> HasAt(v, k, x) {}
    }
  }

  lemma SameIssuesOnce(v: World, w: World)
    requires w.issues == v.issues
    ensures Once(w) <==> Once(v)
  {
    SameHas(v, w);
    hide Has;
  }

  /**
    Exactly when an undisturbed attempt exports comments once: when no due comment of the project has a GitHub comment
    but no row.  The condition is read before the attempt; without ids for the posts to import nothing is exported.
  */
  lemma ExportedOnceExactly(w: World, script: seq<Turn>, project: string, limit: nat)
    requires Inv(w) && Sane(w) && Once(w) && Plain(project) && Clear(script) && CallsNeeded(w) <= |script|
    ensures var r := Sync(w, script, project, limit);
            && (Once(r.w) <==> ImportStops(w, project, w.issues)
                               || forall c :: !Orphan(w, project, c))
            && Inv(r.w)
  {
    BeforeCommentsClear(w, script, project, limit);
    BeforeCommentsMeaning(w, script, project, limit);
    ClearQuiet(script);
    SyncKept(w, script, project, limit);
    SyncSplits(w, script, project, limit);
    var s, r := BeforeComments(w, script, project, limit), Sync(w, script, project, limit);
    hide Inv, Sane, Plain, Clear, Sending, Delivered, Load, ImportStops, Sync, BeforeComments, ImportComments, Once,
      Orphan, Later;
    if s.halted {
      SameIssuesOnce(w, r.w);
    } else {
      CommentPhaseIssues(s, project, w.issues, limit);
      SameIssuesOnce(s.w, r.w);
      if c :| Orphan(w, project, c) {
        OrphanTwice(w, s.w, project, c);
      } else {
        NoOrphanOnce(w, s.w, project);
      }
    }
  }
}
