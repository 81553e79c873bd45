/**
  Comments whose row was lost, as they show before the next attempt: on GitHub by their text and their marker, on the
  board by the replay keys of the relay.
*/
module RelayObserved {
  import opened Core
  import opened Paging
  import opened Text
  import opened Marker
  import opened Relay
  import opened RelaySafety
  import opened RelayExport
  import opened RelayRuns
  import opened RelayQuiet
  import opened RelaySettles
  import opened RelayQuiescence
  import opened RelayHistory
  import opened RelayTracks
  import opened RelayEnds
  import opened RelayCompletes
  import opened RelayOnce
  import B = Board

  // ---- Every export says what it is for ---------------------------------------------------------------------------

  /** Every GitHub comment the relay created has the text of its board comment, unless that was purged. */
  ghost predicate Told(w: World) {
    forall x :: Has(w, x) ==> Says(w, x)
  }

  lemma ToldStays(v: World, w: World, going: bool)
    requires Told(v) && Tracks(v, w, going)
    ensures Told(w)
  {
    forall x | Has(w, x) ensures Says(w, x) {
      if Has(v, x) { SaysStays(v, w, x); }
      hide Has, Says, Sane, FreshIds, SentOnce, RowsJustified, AllSaved;
    }
  }

  /** It holds over every run, whatever users write and wherever attempts stop. */
  lemma {:induction false} RunTold(w: World, events: seq<Event>)
    requires Sane(w) && Told(w)
    ensures Told(RunEvents(w, events))
    decreases |events|
  {
    hide Tracks, Sync, ApplyUsers, Sane, Told;
    if events != [] {
      var e, v := events[0], RunEvents(w, [events[0]]);
      EventTracks(w, e);
      ToldStays(w, v, e.Users? || !Sync(w, e.script, e.project, e.limit).halted);
      TracksSane(w, v, e.Users? || !Sync(w, e.script, e.project, e.limit).halted);
      RunTold(v, events[1..]);
    }
  }

  lemma NothingTold()
    ensures Told(NoWorld)
  {
  }

  // ---- Seen on GitHub ---------------------------------------------------------------------------------------------

  ghost predicate Waiting(w: World, project: string, c: int) {
    Due(w.board, project, c) && !Mapped(w.rows, project, CommentItem, c)
  }

  /** A listed comment has, word for word, the text of a due comment that has no row. */
  ghost predicate Copied(w: World, project: string, c: int) {
    Waiting(w, project, c) && exists x :: Has(w, x) && x.body == ExportText(w.board, project, c)
  }

  ghost predicate Names(x: Remote, project: string, c: int) {
    NamesComment(x, project) && x.tag.0.comment == c
  }

  /** The marker of a listed comment names a due comment that has no row. */
  ghost predicate Named(w: World, project: string, c: int) {
    Waiting(w, project, c) && exists x :: Has(w, x) && Names(x, project, c)
  }

  /** Nobody but the relay wrote its texts. */
  ghost predicate OnlyRelayCopies(w: World, project: string) {
    forall x, c :: Has(w, x) && Copies(w, x, project, c) ==> x.exportOf == Some((project, c))
  }

  ghost predicate Copies(w: World, x: Remote, project: string, c: int) {
    c in w.board.comments && x.body == ExportText(w.board, project, c)
  }

  /** Nobody but the relay wrote its markers. */
  ghost predicate OnlyRelayMarks(w: World, project: string) {
    forall x, c :: Has(w, x) && Names(x, project, c) ==> x.exportOf == Some((project, c))
  }

  /** What waits to be exported holds no marker of its own. */
  ghost predicate WaitingIsPlain(w: World, project: string) {
    forall c :: Waiting(w, project, c) ==> c in w.board.comments && MarkerFree(w.board.comments[c].body)
  }

  lemma OrphanCopied(w: World, project: string, c: int)
    requires Told(w) && Orphan(w, project, c)
    ensures Copied(w, project, c)
  {
    hide ExportText, Mapped, Has;
    var x :| Has(w, x) && x.exportOf == Some((project, c));
    assert Says(w, x);
  }

  lemma OrphanNamed(w: World, project: string, c: int)
    requires Inv(w) && Told(w) && Plain(project) && Orphan(w, project, c) && WaitingIsPlain(w, project)
    ensures Named(w, project, c)
  {
    var x :| Has(w, x) && x.exportOf == Some((project, c));
    assert Says(w, x) && Waiting(w, project, c);
    TextNames(w, project, c, x);
    hide Inv, ExportText, Mapped, Has, Names, Plain, MarkerFree;
  }

  /** The exported text parses back to the comment it was exported for. */
  lemma TextNames(w: World, project: string, c: int, x: Remote)
    requires Inv(w) && Plain(project) && Due(w.board, project, c) && MarkerFree(w.board.comments[c].body)
    requires x.tag == Parse(x.body) && x.body == ExportText(w.board, project, c)
    ensures Names(x, project, c)
  {
    hide Parse, Marked, CommentMarker, Plain, MarkerFree, Contains, Inv;
    InvBoard(w);
    var b := w.board;
    assert B.CommentValid(b, c);
    assert b.comments[c].parent.Some? ==> B.CommentValid(b, b.comments[c].parent.value);
    MarkerFreeMeaning(b.comments[c].body);
    CommentRoundTrip(b.comments[c].body, project, c, b.comments[c].parent);
  }

  lemma CopyIsOrphan(w: World, project: string, c: int)
    requires OnlyRelayCopies(w, project) && Copied(w, project, c)
    ensures Orphan(w, project, c)
  {
    hide ExportText, Mapped, Has;
    var x :| Has(w, x) && x.body == ExportText(w.board, project, c);
    assert Copies(w, x, project, c);
  }

  lemma NamedIsOrphan(w: World, project: string, c: int)
    requires OnlyRelayMarks(w, project) && Named(w, project, c)
    ensures Orphan(w, project, c)
  {
    hide Names, Mapped, Has, Due;
    var x :| Has(w, x) && Names(x, project, c);
  }

  /**
    Read off the texts on GitHub, whatever they hold: if no listed comment is the text of a due comment without a row,
    the attempt exports once; and if nobody but the relay wrote such texts, exactly then.
  */
  lemma ExportedOnceByText(w: World, script: seq<Turn>, project: string, limit: nat)
    requires Inv(w) && Sane(w) && Once(w) && Told(w) && Plain(project) && Clear(script) && CallsNeeded(w) <= |script|
    ensures var r := Sync(w, script, project, limit);
            && ((forall c :: !Copied(w, project, c)) ==> Once(r.w))
            && (OnlyRelayCopies(w, project) ==>
                  (Once(r.w) <==> ImportStops(w, project, w.issues) || forall c :: !Copied(w, project, c)))
  {
    hide Inv, Sane, Once, Told, Plain, Clear, CallsNeeded, Sync, ImportStops, Orphan, Copied, OnlyRelayCopies;
    ExportedOnceExactly(w, script, project, limit);
    forall c | Orphan(w, project, c) ensures Copied(w, project, c) { OrphanCopied(w, project, c); }
    if OnlyRelayCopies(w, project) {
      forall c | Copied(w, project, c) ensures Orphan(w, project, c) { CopyIsOrphan(w, project, c); }
    }
  }

  /**
    Read off the markers, when what waits holds none: if no listed comment's marker names a due comment without a row,
    the attempt exports once; and if nobody but the relay wrote such markers, exactly then.
  */
  lemma ExportedOnceByMarker(w: World, script: seq<Turn>, project: string, limit: nat)
    requires Inv(w) && Sane(w) && Once(w) && Told(w) && Plain(project) && Clear(script) && CallsNeeded(w) <= |script|
    requires WaitingIsPlain(w, project)
    ensures var r := Sync(w, script, project, limit);
            && ((forall c :: !Named(w, project, c)) ==> Once(r.w))
            && (OnlyRelayMarks(w, project) ==>
                  (Once(r.w) <==> ImportStops(w, project, w.issues) || forall c :: !Named(w, project, c)))
  {
    hide Inv, Sane, Once, Told, Plain, Clear, CallsNeeded, Sync, ImportStops, Orphan, Named, OnlyRelayMarks,
      WaitingIsPlain;
    ExportedOnceExactly(w, script, project, limit);
    forall c | Orphan(w, project, c) ensures Named(w, project, c) { OrphanNamed(w, project, c); }
    if OnlyRelayMarks(w, project) {
      forall c | Named(w, project, c) ensures Orphan(w, project, c) { NamedIsOrphan(w, project, c); }
    }
  }

  // ---- Seen on the board ------------------------------------------------------------------------------------------

  /** The board comment was imported from GitHub: a replay key of the relay holds it. */
  ghost predicate Imported(b: B.Store, project: string, c: int) {
    exists id :: KeyHolds(b, project, id, c)
  }

  ghost predicate KeyHolds(b: B.Store, project: string, id: int, c: int) {
    var key := ReplayKey(project, CommentKind, id);
    key in b.commentKeys && b.commentKeys[key] == c
  }

  /** A comment imported from GitHub was exported to it. */
  ghost predicate SentBack(w: World, v: World, project: string) {
    exists x, c :: New(w, v, x) && x.exportOf == Some((project, c)) && Imported(w.board, project, c)
  }

  lemma SentBackWaited(w: World, v: World, project: string)
    requires Inv(w) && Inv(v) && Sane(w) && Delivered(w, v, project) && SentBack(w, v, project)
    ensures exists c :: Imported(w.board, project, c) && Waiting(w, project, c)
  {
    var x, c :| New(w, v, x) && x.exportOf == Some((project, c)) && Imported(w.board, project, c);
    SentWasDue(w, v, project, x, project, c);
    hide Inv, Sane, Delivered, Imported, Due, Mapped;
    assert Waiting(w, project, c);
  }

  lemma WaitedSentBack(w: World, v: World, project: string, c: int)
    requires Inv(w) && Inv(v) && Sane(w) && Delivered(w, v, project)
    requires Imported(w.board, project, c) && Waiting(w, project, c)
    ensures SentBack(w, v, project)
  {
    var y := DueIsSent(w, v, project, c);
    hide Inv, Sane, Delivered, Imported, Due, Mapped, New;
  }

  lemma SentBackSame(w: World, u: World, v: World, project: string)
    requires u.issues == v.issues
    ensures SentBack(w, u, project) <==> SentBack(w, v, project)
  {
    SameHas(u, v);
    hide Has, Imported;
    assert forall x :: New(w, u, x) <==> New(w, v, x);
    hide New;
  }

  lemma NothingSent(w: World, project: string)
    ensures !SentBack(w, w, project)
  {
  }

  /**
    Exactly when an undisturbed attempt exports to GitHub what came from there: when a due comment held by a replay key
    of the relay lost its row.
  */
  lemma SentBackExactly(w: World, script: seq<Turn>, project: string, limit: nat)
    requires Inv(w) && Sane(w) && Plain(project) && Clear(script) && CallsNeeded(w) <= |script|
    ensures var r := Sync(w, script, project, limit);
            SentBack(w, r.w, project) <==>
              !ImportStops(w, project, w.issues)
              && exists c :: Imported(w.board, project, c) && Waiting(w, project, c)
  {
    hide Inv, Sane, Plain, Clear, Sending, Delivered, Load, ImportStops, Sync, BeforeComments, ImportComments, SentBack,
      Imported, Waiting, CallsNeeded;
    BeforeCommentsClear(w, script, project, limit);
    BeforeCommentsMeaning(w, script, project, limit);
    SyncSplits(w, script, project, limit);
    var s, r := BeforeComments(w, script, project, limit), Sync(w, script, project, limit);
    if s.halted {
      NothingSent(w, project);
      SentBackSame(w, w, r.w, project);
    } else {
      CommentPhaseIssues(s, project, w.issues, limit);
      SentBackSame(w, s.w, r.w, project);
      if SentBack(w, s.w, project) { SentBackWaited(w, s.w, project); }
      if c :| Imported(w.board, project, c) && Waiting(w, project, c) { WaitedSentBack(w, s.w, project, c); }
    }
  }
}
