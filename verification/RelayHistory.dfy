/**
  What attempts do to GitHub comments and to their rows, with users acting between the calls: which comments the relay
  creates, for which board comments, and which rows it writes for them.
*/
module RelayHistory {
  import opened Core
  import opened Paging
  import opened Marker
  import opened Relay
  import B = Board

  // ---- GitHub comments --------------------------------------------------------------------------------------------

  ghost predicate HasAt(w: World, k: int, x: Remote) {
    0 <= k < |w.issues| && x in w.issues[k].comments
  }

  ghost predicate Has(w: World, x: Remote) {
    exists k :: HasAt(w, k, x)
  }

  ghost predicate New(v: World, w: World, x: Remote) {
    Has(w, x) && !Has(v, x)
  }

  /** The marker names a board comment of the project. */
  predicate NamesComment(x: Remote, project: string) {
    x.tag.1 && x.tag.0.project == project && x.tag.0.comment > 0
  }

  /** The board comment this GitHub comment stands for: the one its marker names, or else the one imported for it. */
  ghost predicate Claims(w: World, project: string, x: Remote, c: int) {
    if NamesComment(x, project) then x.tag.0.comment == c
    else ReplayKey(project, CommentKind, x.id) in w.board.commentKeys
         && w.board.commentKeys[ReplayKey(project, CommentKind, x.id)] == c
  }

  /** What the relay writes on GitHub for a board comment. */
  function ExportText(b: B.Store, project: string, c: int): (text: string)
    requires c in b.comments
  {
    Marked(b.comments[c].body, CommentMarker(project, c, b.comments[c].parent))
  }

  /** A GitHub comment that the relay created says what its board comment says, for as long as that is not purged. */
  ghost predicate Says(w: World, x: Remote) {
    x.exportOf.Some? ==>
      var (project, c) := x.exportOf.value;
      && c in w.board.comments && x.tag == Parse(x.body)
      && (w.board.comments[c].status.Active? ==> x.body == ExportText(w.board, project, c))
  }

  /** A GitHub comment has one place, ids identify it, and the table keeps comments apart from issues. */
  ghost predicate Sane(w: World) {
    && B.Valid(w.board)
    && (forall j, k, x :: HasAt(w, j, x) && HasAt(w, k, x) ==> j == k)
    && (forall x :: Has(w, x) ==> x.id < w.nextRemote)
    && (forall x, y :: Has(w, x) && Has(w, y) && x.id == y.id ==> x == y)
    && (forall key :: key in w.rows ==>
          && (key.kind.CommentRow? <==> w.rows[key].kind.CommentItem?)
          && (key.kind.CommentRow? ==> key.id < w.nextRemote))
  }

  // ---- Histories --------------------------------------------------------------------------------------------------

  ghost predicate SameCommentRow(v: World, w: World, key: RowKey) {
    key in v.rows ==>
      key in w.rows && w.rows[key].kind == v.rows[key].kind && w.rows[key].boardId == v.rows[key].boardId
  }

  ghost predicate Remembers(v: World, w: World) {
    && v.nextRemote <= w.nextRemote
    && (forall k, x :: HasAt(v, k, x) ==> HasAt(w, k, x))
    && (forall key: RowKey :: key.kind.CommentRow? ==> SameCommentRow(v, w, key))
    && B.Extends(v.board, w.board)
  }

  ghost predicate FreshIds(v: World, w: World) {
    && (forall x :: New(v, w, x) ==> v.nextRemote <= x.id < w.nextRemote)
    && (forall x, y :: New(v, w, x) && New(v, w, y) && x.id == y.id ==> x == y)
  }

  /** Nothing was exported as a comment, and no row of a comment was written. */
  ghost predicate Aside(v: World, w: World) {
    && Sane(w) && Remembers(v, w) && FreshIds(v, w)
    && (forall x :: New(v, w, x) ==> x.exportOf.None?)
    && (forall key: RowKey :: key.kind.CommentRow? && key in w.rows ==> key in v.rows)
  }

  /** The relay created x for a board comment that had no row then. */
  ghost predicate WasUnmapped(v: World, x: Remote) {
    x.exportOf.Some? ==> !Mapped(v.rows, x.exportOf.value.0, CommentItem, x.exportOf.value.1)
  }

  ghost predicate Saved(w: World, x: Remote) {
    x.exportOf.Some? ==>
      IsRowOf(w.rows, RowKey(x.exportOf.value.0, CommentRow, x.id), x.exportOf.value.0, CommentItem, x.exportOf.value.1)
  }

  /** A row written for the GitHub comment x: x was created for the board comment, or stands for it. */
  ghost predicate Justifies(v: World, w: World, key: RowKey, x: Remote)
    requires key in w.rows
  {
    && Has(w, x) && x.id == key.id
    && ((New(v, w, x) && x.exportOf == Some((key.project, w.rows[key].boardId)))
        || Claims(w, key.project, x, w.rows[key].boardId))
  }

  ghost predicate Justified(v: World, w: World, key: RowKey)
    requires key in w.rows
  {
    exists x :: Justifies(v, w, key, x)
  }

  ghost predicate RowsJustified(v: World, w: World) {
    forall key :: key in w.rows && key !in v.rows && key.kind.CommentRow? ==> Justified(v, w, key)
  }

  ghost predicate SentOnce(v: World, w: World) {
    && (forall x :: New(v, w, x) ==> WasUnmapped(v, x))
    && (forall x, y :: New(v, w, x) && New(v, w, y) && x.exportOf.Some? && x.exportOf == y.exportOf ==> x == y)
  }

  ghost predicate AllSaved(v: World, w: World) {
    forall x :: New(v, w, x) ==> Saved(w, x)
  }

  ghost predicate SaidNew(v: World, w: World) {
    forall x :: New(v, w, x) ==> Says(w, x)
  }

  /** No comment that was there before got a row. */
  ghost predicate OldRows(v: World, w: World) {
    forall key: RowKey :: key.kind.CommentRow? && key in w.rows && key.id < v.nextRemote ==> key in v.rows
  }

  /**
    A stretch of an attempt: comments are exported only while they have no row, each at most once and word for word,
    every row written is justified, and unless the attempt was stopped every export has its row.
  */
  ghost predicate Tracks(v: World, w: World, going: bool) {
    && Sane(w) && Remembers(v, w) && FreshIds(v, w) && SentOnce(v, w) && RowsJustified(v, w) && SaidNew(v, w)
    && (going ==> AllSaved(v, w))
  }

  lemma RemoteKept(v: World, w: World, x: Remote)
    requires Remembers(v, w) && Has(v, x)
    ensures Has(w, x)
  {
    var k :| HasAt(v, k, x);
    assert HasAt(w, k, x);
  }

  lemma NewSplits(u: World, v: World, w: World, x: Remote)
    requires Remembers(u, v) && Remembers(v, w)
    ensures New(u, w, x) ==> New(u, v, x) || New(v, w, x)
    ensures New(v, w, x) ==> New(u, w, x)
    ensures New(u, v, x) ==> New(u, w, x)
  {
    if Has(u, x) { RemoteKept(u, v, x); }
    if Has(v, x) { RemoteKept(v, w, x); }
  }

  lemma OldRowsTransitive(u: World, v: World, w: World)
    requires Remembers(u, v) && OldRows(u, v) && OldRows(v, w)
    ensures OldRows(u, w)
  {
    hide SameCommentRow, HasAt, B.Extends;
  }

  lemma AsideOldRows(v: World, w: World)
    requires Aside(v, w)
    ensures OldRows(v, w)
  {
    hide Sane, Remembers, FreshIds, New;
  }

  lemma SaysStays(v: World, w: World, x: Remote)
    requires B.Extends(v.board, w.board) && Says(v, x)
    ensures Says(w, x)
  {
    hide Parse, Marked, CommentMarker;
  }

  lemma SaidTransitive(u: World, v: World, w: World)
    requires Remembers(u, v) && Remembers(v, w) && SaidNew(u, v) && SaidNew(v, w)
    ensures SaidNew(u, w)
  {
    forall x | New(u, w, x) ensures Says(w, x) {
      NewSplits(u, v, w, x);
      if New(u, v, x) { SaysStays(v, w, x); }
      hide New, Says, HasAt, SameCommentRow;
    }
    hide New, Says, Remembers;
  }

  lemma RemembersTransitive(u: World, v: World, w: World)
    requires Remembers(u, v) && Remembers(v, w)
    ensures Remembers(u, w)
  {
    B.ExtendsTransitive(u.board, v.board, w.board);
    hide B.Extends;
    forall key: RowKey | key.kind.CommentRow? ensures SameCommentRow(u, w, key) {
      assert SameCommentRow(u, v, key) && SameCommentRow(v, w, key);
    }
    hide SameCommentRow, HasAt;
  }

  lemma FreshTransitive(u: World, v: World, w: World)
    requires Remembers(u, v) && Remembers(v, w) && FreshIds(u, v) && FreshIds(v, w)
    ensures FreshIds(u, w)
  {
    forall x | New(u, w, x) ensures u.nextRemote <= x.id < w.nextRemote { NewSplits(u, v, w, x); }
    forall x, y | New(u, w, x) && New(u, w, y) && x.id == y.id ensures x == y {
      NewSplits(u, v, w, x);
      NewSplits(u, v, w, y);
      hide Remembers, New;
    }
    hide New;
  }

  lemma AsideTransitive(u: World, v: World, w: World)
    requires Aside(u, v) && Aside(v, w)
    ensures Aside(u, w)
  {
    RemembersTransitive(u, v, w);
    FreshTransitive(u, v, w);
    forall x | New(u, w, x) ensures x.exportOf.None? { NewSplits(u, v, w, x); hide New, Sane, Remembers, FreshIds; }
    hide Remembers, FreshIds, Sane, New;
  }

  lemma AsideReflexive(w: World)
    requires Sane(w)
    ensures Aside(w, w)
  {
  }

  lemma AsideTracks(v: World, w: World, going: bool)
    requires Aside(v, w)
    ensures Tracks(v, w, going)
  {
    hide Remembers, FreshIds, Sane, New;
  }

  lemma CommentMappedStays(v: World, w: World, project: string, c: int)
    requires Sane(v) && Remembers(v, w) && Mapped(v.rows, project, CommentItem, c)
    ensures Mapped(w.rows, project, CommentItem, c)
  {
    var key :| IsRowOf(v.rows, key, project, CommentItem, c);
    assert SameCommentRow(v, w, key);
    assert IsRowOf(w.rows, key, project, CommentItem, c);
  }

  lemma UnmappedBefore(u: World, v: World, x: Remote)
    requires Sane(u) && Remembers(u, v) && WasUnmapped(v, x)
    ensures WasUnmapped(u, x)
  {
    if x.exportOf.Some? {
      var (project, c) := x.exportOf.value;
      if Mapped(u.rows, project, CommentItem, c) { CommentMappedStays(u, v, project, c); }
    }
  }

  lemma SavedStays(v: World, w: World, x: Remote)
    requires Remembers(v, w) && Saved(v, x)
    ensures Saved(w, x)
  {
    if x.exportOf.Some? { assert SameCommentRow(v, w, RowKey(x.exportOf.value.0, CommentRow, x.id)); }
  }

  lemma SavedIsMapped(w: World, x: Remote)
    requires Saved(w, x)
    ensures !WasUnmapped(w, x) || x.exportOf.None?
  {
  }

  lemma SentOnceTransitive(u: World, v: World, w: World)
    requires Sane(u) && Remembers(u, v) && Remembers(v, w) && SentOnce(u, v) && SentOnce(v, w) && AllSaved(u, v)
    ensures SentOnce(u, w)
  {
    forall x | New(u, w, x) ensures WasUnmapped(u, x) {
      NewSplits(u, v, w, x);
      if New(v, w, x) { UnmappedBefore(u, v, x); }
      hide New, WasUnmapped, Sane, Remembers, Saved;
    }
    forall x, y | New(u, w, x) && New(u, w, y) && x.exportOf.Some? && x.exportOf == y.exportOf ensures x == y {
      NewSplits(u, v, w, x);
      NewSplits(u, v, w, y);
      if New(u, v, x) { SavedIsMapped(v, x); }
      if New(u, v, y) { SavedIsMapped(v, y); }
      hide New, Sane, Remembers, Saved, Mapped;
    }
    hide New, WasUnmapped, Sane, Remembers, Saved;
  }

  lemma ClaimsStay(v: World, w: World, project: string, x: Remote, c: int)
    requires Remembers(v, w) && Claims(v, project, x, c)
    ensures Claims(w, project, x, c)
  {
    hide ReplayKey;
  }

  lemma JustifiedStays(u: World, v: World, w: World, key: RowKey)
    requires Remembers(u, v) && Remembers(v, w) && key in v.rows && key.kind.CommentRow? && Justified(u, v, key)
    ensures key in w.rows && Justified(u, w, key)
  {
    assert SameCommentRow(v, w, key);
    var x :| Justifies(u, v, key, x);
    RemoteKept(v, w, x);
    NewSplits(u, v, w, x);
    var c := v.rows[key].boardId;
    if Claims(v, key.project, x, c) { ClaimsStay(v, w, key.project, x, c); }
    hide Has, Remembers, Claims;
    assert Justifies(u, w, key, x);
  }

  lemma JustifiedBefore(u: World, v: World, w: World, key: RowKey)
    requires Remembers(u, v) && Remembers(v, w) && key in w.rows && Justified(v, w, key)
    ensures Justified(u, w, key)
  {
    var x :| Justifies(v, w, key, x);
    NewSplits(u, v, w, x);
    hide Has, Remembers, Claims;
    assert Justifies(u, w, key, x);
  }

  lemma JustifiedTransitive(u: World, v: World, w: World)
    requires Remembers(u, v) && Remembers(v, w) && RowsJustified(u, v) && RowsJustified(v, w)
    ensures RowsJustified(u, w)
  {
    forall key | key in w.rows && key !in u.rows && key.kind.CommentRow? ensures Justified(u, w, key) {
      if key in v.rows { JustifiedStays(u, v, w, key); } else { JustifiedBefore(u, v, w, key); }
    }
    hide Justified, Remembers;
  }

  lemma TracksTransitive(u: World, v: World, w: World, going: bool)
    requires Sane(u) && Tracks(u, v, true) && Tracks(v, w, going)
    ensures Tracks(u, w, going)
  {
    RemembersTransitive(u, v, w);
    FreshTransitive(u, v, w);
    SentOnceTransitive(u, v, w);
    JustifiedTransitive(u, v, w);
    SaidTransitive(u, v, w);
    if going {
      forall x | New(u, w, x) ensures Saved(w, x) {
        NewSplits(u, v, w, x);
        if New(u, v, x) { SavedStays(v, w, x); }
        hide New, Saved, Remembers, FreshIds, SentOnce, RowsJustified, SaidNew, Sane;
      }
    }
    hide Remembers, FreshIds, SentOnce, RowsJustified, SaidNew, Sane, New, Saved;
  }

  // ---- Users ------------------------------------------------------------------------------------------------------

  lemma BoardAside(w: World, board: B.Store)
    requires Sane(w) && B.Valid(board) && B.Extends(w.board, board)
    ensures Aside(w, w.(board := board))
  {
    var v := w.(board := board);
    assert forall k, x :: HasAt(w, k, x) <==> HasAt(v, k, x);
    assert forall x :: Has(w, x) <==> Has(v, x);
    hide Has, HasAt, B.Valid, B.Extends;
  }

  /** Issues may come or change, as long as their comments stay. */
  lemma IssuesAside(w: World, v: World)
    requires Sane(w) && w.nextRemote <= v.nextRemote && v.rows == w.rows && v.board == w.board
    requires |w.issues| <= |v.issues|
    requires forall k :: 0 <= k < |w.issues| ==> v.issues[k].comments == w.issues[k].comments
    requires forall k :: |w.issues| <= k < |v.issues| ==> v.issues[k].comments == []
    ensures Aside(w, v)
  {
    assert forall k, x :: HasAt(w, k, x) <==> HasAt(v, k, x);
    assert forall x :: Has(w, x) <==> Has(v, x);
    hide Has, HasAt;
  }

  lemma {:induction false} AppendedHas(w: World, i: nat, x: Remote, y: Remote)
    requires i < |w.issues|
    ensures var v := AppendRemote(w, i, x);
            && (Has(v, y) <==> Has(w, y) || y == x)
            && (forall k :: HasAt(w, k, y) ==> HasAt(v, k, y))
            && (forall k :: HasAt(v, k, y) ==> HasAt(w, k, y) || (y == x && k == i))
  {
    var v := AppendRemote(w, i, x);
    assert HasAt(v, i, x);
    assert forall k :: HasAt(w, k, y) ==> HasAt(v, k, y);
    if Has(v, y) && y != x {
      var k :| HasAt(v, k, y);
      assert HasAt(w, k, y);
    }
  }

  /** What appending the comment x leaves: everything as before, and x. */
  ghost predicate Appended(w: World, v: World, x: Remote) {
    && v.nextRemote == w.nextRemote + 1 && v.rows == w.rows && v.board == w.board
    && (forall y :: Has(v, y) <==> Has(w, y) || y == x)
    && (forall k, y :: HasAt(w, k, y) ==> HasAt(v, k, y))
    && (exists i: nat :: OnlyAt(w, v, x, i))
  }

  ghost predicate OnlyAt(w: World, v: World, x: Remote, i: nat) {
    forall k, y :: HasAt(v, k, y) ==> HasAt(w, k, y) || (y == x && k == i)
  }

  lemma AppendRemoteAppends(w: World, i: nat, x: Remote)
    requires i < |w.issues|
    ensures Appended(w, AppendRemote(w, i, x), x)
  {
    forall y ensures var v := AppendRemote(w, i, x);
                     && (Has(v, y) <==> Has(w, y) || y == x)
                     && (forall k :: HasAt(w, k, y) ==> HasAt(v, k, y))
                     && (forall k :: HasAt(v, k, y) ==> HasAt(w, k, y) || (y == x && k == i))
    {
      AppendedHas(w, i, x, y);
    }
    assert OnlyAt(w, AppendRemote(w, i, x), x, i);
    hide Has, HasAt;
  }

  lemma AppendedSane(w: World, v: World, x: Remote)
    requires Sane(w) && x.id == w.nextRemote && Appended(w, v, x)
    ensures Sane(v) && Remembers(w, v) && FreshIds(w, v)
    ensures forall y :: New(w, v, y) ==> y == x
  {
    forall k ensures !HasAt(w, k, x) {
      assert HasAt(w, k, x) ==> Has(w, x);
    }
    var i: nat :| OnlyAt(w, v, x, i);
    hide Has, HasAt, B.Valid;
  }

  lemma ReplyAside(w: World, i: nat, x: Remote)
    requires Sane(w) && i < |w.issues| && x.id == w.nextRemote && x.exportOf.None?
    ensures Aside(w, AppendRemote(w, i, x))
  {
    AppendRemoteAppends(w, i, x);
    AppendedSane(w, AppendRemote(w, i, x), x);
    hide Sane, Remembers, FreshIds, New, Has, HasAt;
  }

  lemma UserAside(w: World, op: UserOp)
    requires Sane(w)
    ensures Aside(w, ApplyUser(w, op))
  {
    AsideReflexive(w);
    hide Aside, Parse, B.Apply, InRange, AppendRemote;
    match op
    case OnBoard(op) =>
      B.ApplyValid(w.board, op);
      BoardAside(w, B.Apply(w.board, op));
    case OpenIssue(title, body, at) => IssuesAside(w, ApplyUser(w, op));
    case EditIssue(i, title, body, at) => IssuesAside(w, ApplyUser(w, op));
    case Reply(i, body, at) =>
      if i < |w.issues| { ReplyAside(w, i, Remote(w.nextRemote, body, Parse(body), at, None)); }
  }

  lemma AsideSane(v: World, w: World)
    requires Aside(v, w)
    ensures Sane(w)
  {
  }

  lemma {:induction false} UsersAside(w: World, ops: seq<UserOp>)
    requires Sane(w)
    ensures Aside(w, ApplyUsers(w, ops)) && ApplyUsers(w, ops).rows == w.rows
    decreases |ops|
  {
    hide Sane, Aside;
    AsideReflexive(w);
    if ops != [] {
      var v := ApplyUser(w, ops[0]);
      UserAside(w, ops[0]);
      AsideSane(w, v);
      UsersAside(v, ops[1..]);
      AsideTransitive(w, v, ApplyUsers(w, ops));
    }
  }

  lemma NextAside(s: State)
    requires Sane(s.w)
    ensures Aside(s.w, Next(s).0.w) && Next(s).0.w.rows == s.w.rows && Sane(Next(s).0.w)
  {
    hide Sane, Aside;
    AsideReflexive(s.w);
    if !s.halted && s.script != [] { UsersAside(s.w, s.script[0].before); }
    AsideSane(s.w, Next(s).0.w);
  }
}
