/**
  GitHub comments without a row that the board refuses for good, because of what was purged: an attempt stops at such a
  comment, and so does every attempt after it, whatever users do.
*/
module RelayBarred {
  import opened Core
  import opened Paging
  import opened Text
  import opened Marker
  import opened Relay
  import opened RelaySafety
  import opened RelayExport
  import opened RelayRuns
  import opened RelayQuiet
  import opened RelaySettles
  import opened RelayHistory
  import opened RelayTracks
  import opened RelayEnds
  import opened RelayCompletes
  import opened RelayOnce
  import opened RelayJams
  import RC = RelayComments
  import B = Board

  // ---- What the board refuses for good ----------------------------------------------------------------------------

  ghost predicate PurgedPost(b: B.Store, p: int) {
    p in b.posts && b.posts[p].status.Deleted?
  }

  /** The comment was purged, or belongs to another post. */
  ghost predicate Unusable(b: B.Store, p: int, c: int) {
    c in b.comments && (b.comments[c].status.Deleted? || b.comments[c].postId != p)
  }

  /** The comment x needs on the board: the one its marker names, or the parent its marker names. */
  function Needed(project: string, x: Remote): (c: Option<int>) {
    if NamesComment(x, project) then Some(x.tag.0.comment) else ParentFromMarker(project, x.tag)
  }

  ghost predicate Barred(b: B.Store, project: string, p: int, x: Remote) {
    || PurgedPost(b, p)
    || (Needed(project, x).Some? && Unusable(b, p, Needed(project, x).value))
    || (!NamesComment(x, project) && UnfitRemote(project, x))
  }

  /** Why a comment without a row is refused: its board comment is taken, for good, or for want of something. */
  lemma RefusedExactly(w: World, project: string, post: int, x: Remote)
    requires post in w.board.posts && RowKey(project, CommentRow, x.id) !in w.rows
    ensures Refused(w, project, post, x) <==>
              || Mapped(w.rows, project, CommentItem, BoardComment(w, project, x))
              || Barred(w.board, project, post, x)
              || (Needed(project, x).Some? && Needed(project, x).value !in w.board.comments)
              || (!NamesComment(x, project) && KeyFor(project, x) !in w.board.commentKeys
                  && w.board.nextId >= TwoTo63)
  {
    hide Mapped, BoardComment, KeyFor, UnfitRemote, TrimSpace, ParentFromMarker;
  }

  lemma BarredStays(b: B.Store, d: B.Store, project: string, p: int, x: Remote)
    requires B.Extends(b, d) && Barred(b, project, p, x)
    ensures Barred(d, project, p, x)
  {
    hide NamesComment, ParentFromMarker, UnfitRemote;
  }

  /** x sits on an issue with a row, has none itself, and the board refuses it for good. */
  ghost predicate BarredAt(w: World, project: string, k: int, x: Remote) {
    && HasAt(w, k, x) && RowKey(project, CommentRow, x.id) !in w.rows
    && var key := RowKey(project, IssueRow, w.issues[k].id);
       key in w.rows && Barred(w.board, project, w.rows[key].boardId, x)
  }

  /** It stays so as long as x gets no row. */
  lemma BarredAtStays(v: World, w: World, project: string, k: int, x: Remote)
    requires Later(v, w) && Remembers(v, w) && BarredAt(v, project, k, x)
    requires RowKey(project, CommentRow, x.id) !in w.rows
    ensures BarredAt(w, project, k, x)
  {
    assert HasAt(w, k, x);
    assert SameIssue(v.issues[k], w.issues[k]);
    var key := RowKey(project, IssueRow, v.issues[k].id);
    BarredStays(v.board, w.board, project, v.rows[key].boardId, x);
    hide Barred, B.Extends, SameCommentRow;
  }

  lemma StillNoRow(v: World, w: World, project: string, k: int, x: Remote)
    requires Sane(v) && OldRows(v, w) && BarredAt(v, project, k, x)
    ensures RowKey(project, CommentRow, x.id) !in w.rows
  {
    assert Has(v, x);
    hide Barred, B.Valid;
  }

  lemma SentBarred(v: World, w: World, project: string, k: int, x: Remote, going: bool)
    requires Sane(v) && Later(v, w) && Sends(v, w, going) && BarredAt(v, project, k, x)
    ensures BarredAt(w, project, k, x) && Sane(w)
  {
    SendsSane(v, w, going);
    StillNoRow(v, w, project, k, x);
    BarredAtStays(v, w, project, k, x);
    hide Tracks, Sane, Later, Remembers, BarredAt;
  }

  lemma AsideBarred(v: World, w: World, project: string, k: int, x: Remote)
    requires Sane(v) && Later(v, w) && Aside(v, w) && BarredAt(v, project, k, x)
    ensures BarredAt(w, project, k, x) && Sane(w)
  {
    AsideSends(v, w, true);
    SentBarred(v, w, project, k, x, true);
    hide Aside, Sane, Later, Sends, BarredAt;
  }

  // ---- One comment ------------------------------------------------------------------------------------------------

  lemma NextBarred(s: State, project: string, p: int, x: Remote)
    requires Sane(s.w) && Barred(s.w.board, project, p, x)
    ensures var t := Next(s).0;
            && Aside(s.w, t.w) && Sane(t.w) && t.w.rows == s.w.rows && Barred(t.w.board, project, p, x)
            && (t.halted <==> !Next(s).1.Done?)
  {
    NextAside(s);
    NotHaltedDone(s);
    BoardGrows(s.w, Next(s).0.w);
    BarredStays(s.w.board, Next(s).0.w.board, project, p, x);
    hide Aside, Sane, Next, Barred, B.Extends;
  }

  lemma BoardGrows(v: World, w: World)
    requires Aside(v, w)
    ensures B.Extends(v.board, w.board)
  {
    hide B.Extends, B.Valid, HasAt, Has;
  }

  /** The import of x stops at once and writes nothing. */
  lemma ImportBarred(s: State, project: string, p: int, number: int, x: Remote, limit: nat)
    requires Sane(s.w) && RowKey(project, CommentRow, x.id) !in s.w.rows && Barred(s.w.board, project, p, x)
    ensures var r := ImportComment(s, project, p, number, x, limit); r.halted && Aside(s.w, r.w)
  {
    hide Sane, Aside, Next, Save, AddUrl, B.Extends, Barred, TrimSpace, ParentFromMarker, UnfitRemote, ReplayKey,
      B.TryCommentKeyed, NamesComment;
    NextBarred(s, project, p, x);
    var s1 := Next(s).0;
    NextBarred(s1, project, p, x);
    var s2 := Next(s1).0;
    AsideTransitive(s.w, s1.w, s2.w);
    if NamesComment(x, project) {
      NextBarred(s2, project, p, x);
      var s3 := Next(s2).0;
      AsideTransitive(s.w, s2.w, s3.w);
      BarredName(s1.w.board, s2.w.board, s3.w.board, project, p, x);
      RecoverBarred(s, project, p, number, x, limit);
    } else {
      BarredReply(s2.w.board, project, p, x);
      CreateBarred(s, project, p, number, x, limit);
    }
  }

  lemma BarredName(a: B.Store, b: B.Store, c: B.Store, project: string, p: int, x: Remote)
    requires Barred(b, project, p, x) && Barred(c, project, p, x) && NamesComment(x, project)
    ensures !B.ActivePost(b, p) || !Readable(c, x.tag.0.comment) || c.comments[x.tag.0.comment].postId != p
  {
  }

  lemma RecoverBarred(s: State, project: string, p: int, number: int, x: Remote, limit: nat)
    requires NamesComment(x, project)
    requires var s2, s3 := Next(Next(s).0).0, Next(Next(Next(s).0).0).0;
             var c := x.tag.0.comment;
             !B.ActivePost(s2.w.board, p) || !Readable(s3.w.board, c) || s3.w.board.comments[c].postId != p
    requires Next(s).0.w.rows == s.w.rows && RowKey(project, CommentRow, x.id) !in s.w.rows
    ensures var r := ImportComment(s, project, p, number, x, limit);
            r.halted && r.w in {Next(s).0.w, Next(Next(s).0).0.w, Next(Next(Next(s).0).0).0.w}
  {
    NotHaltedDone(s);
    NotHaltedDone(Next(s).0);
    NotHaltedDone(Next(Next(s).0).0);
    hide Next, Save, AddUrl, CreateComment;
  }

  lemma BarredReply(b: B.Store, project: string, p: int, x: Remote)
    requires Barred(b, project, p, x) && !NamesComment(x, project)
    ensures UnfitRemote(project, x) || B.Refusal(b, ReplyFor(project, p, x)).Some?
  {
    hide UnfitRemote, TrimSpace, ParentFromMarker;
  }

  lemma CreateBarred(s: State, project: string, p: int, number: int, x: Remote, limit: nat)
    requires !NamesComment(x, project)
    requires UnfitRemote(project, x) || B.Refusal(Next(Next(s).0).0.w.board, ReplyFor(project, p, x)).Some?
    requires Next(s).0.w.rows == s.w.rows && RowKey(project, CommentRow, x.id) !in s.w.rows
    ensures var r := ImportComment(s, project, p, number, x, limit);
            r.halted && r.w in {Next(s).0.w, Next(Next(s).0).0.w}
  {
    NotHaltedDone(s);
    NotHaltedDone(Next(s).0);
    hide Next, Save, AddUrl, TrimSpace, ParentFromMarker, UnfitRemote, B.Refusal, B.TryCommentKeyed, ReplayKey,
      RecoverComment;
  }

  /** The import of a comment writes no row but its own. */
  lemma SaveRows(s: State, key: RowKey, row: Row)
    requires Sane(s.w)
    ensures Save(s, key, row).w.rows.Keys <= s.w.rows.Keys + {key}
  {
    NextAside(s);
    hide Sane, Aside, Next, Conflict;
  }

  lemma RecoverRows(s: State, project: string, p: int, number: int, x: Remote)
    requires Sane(s.w)
    ensures RecoverComment(s, project, p, number, x, x.tag.0.comment).w.rows.Keys
            <= s.w.rows.Keys + {RowKey(project, CommentRow, x.id)}
  {
    hide Sane, Aside, Next, Save;
    NextAside(s);
    var s1 := Next(s).0;
    NextAside(s1);
    var s2 := Next(s1).0;
    NextAside(s2);
    var s3 := Next(s2).0;
    SaveRows(s3, RowKey(project, CommentRow, x.id), Row(CommentItem, x.tag.0.comment, number, FromBoard, x.updatedAt));
  }

  lemma ImportRows(s: State, project: string, p: int, number: int, x: Remote, limit: nat)
    requires Sane(s.w)
    ensures ImportComment(s, project, p, number, x, limit).w.rows.Keys
            <= s.w.rows.Keys + {RowKey(project, CommentRow, x.id)}
  {
    hide Sane, Aside, Next, Save, CreateComment, RecoverComment, AddUrl;
    if NamesComment(x, project) {
      RecoverRows(s, project, p, number, x);
      assert ImportComment(s, project, p, number, x, limit)
        == RecoverComment(s, project, p, number, x, x.tag.0.comment);
    } else {
      NextAside(s);
      var s1 := Next(s).0;
      CreateCommentAside(s1, project, p, ParentFromMarker(project, x.tag), x);
      var (s2, id) := CreateComment(s1, project, p, ParentFromMarker(project, x.tag), x);
      AsideSane(s1.w, s2.w);
      var counted := AddUrl(s2.receipt.(importedComments := s2.receipt.importedComments + 1), limit);
      SaveRows(s2.(receipt := counted), RowKey(project, CommentRow, x.id),
               Row(CommentItem, id, number, FromGitHub, x.updatedAt));
    }
  }

  // ---- The import of comments, of this project or of another ------------------------------------------------------

  /** The post of the issue at position j, in project q. */
  ghost predicate PostOf(w: World, q: string, j: int, p: int) {
    && 0 <= j < |w.issues| && RowKey(q, IssueRow, w.issues[j].id) in w.rows
    && w.rows[RowKey(q, IssueRow, w.issues[j].id)].boardId == p
  }

  lemma PostOfStays(v: World, w: World, q: string, j: int, p: int)
    requires PostOf(v, q, j, p) && Later(v, w)
    ensures PostOf(w, q, j, p)
  {
    assert SameIssue(v.issues[j], w.issues[j]);
  }

  ghost predicate Held(s: State, project: string, k: int, x: Remote) {
    Safe(s) && Sane(s.w) && BarredAt(s.w, project, k, x)
  }

  lemma StepBarred(s: State, q: string, j: int, p: int, number: int, y: Remote, limit: nat, project: string, k: int,
                   x: Remote)
    requires Held(s, project, k, x) && PostOf(s.w, q, j, p) && HasAt(s.w, j, y) && y.id < s.w.nextRemote
    ensures var t := ImportComment(s, q, p, number, y, limit);
            && Held(t, project, k, x) && PostOf(t.w, q, j, p) && Remembers(s.w, t.w) && s.w.nextRemote <= t.w.nextRemote
            && (q == project && y == x ==> t.halted)
  {
    hide Safe, Sane, ImportComment, Later, Barred, SamePosts, Aside, Tracks, PostOf, Remembers;
    assert Has(s.w, y);
    var t := ImportComment(s, q, p, number, y, limit);
    ImportKept(s, q, p, number, y, limit);
    PostOfStays(s.w, t.w, q, j, p);
    ImportRows(s, q, p, number, y, limit);
    var key := RowKey(project, CommentRow, x.id);
    if RowKey(q, CommentRow, y.id) == key {
      SamePlace(s.w, j, y, k, x);
      SamePost(s.w, q, j, p);
      ImportBarred(s, project, p, number, x, limit);
      AsideBarred(s.w, t.w, project, k, x);
    } else {
      assert key !in s.w.rows.Keys;
      BarredAtStays(s.w, t.w, project, k, x);
    }
    hide BarredAt;
  }

  lemma ImportKept(s: State, q: string, p: int, number: int, y: Remote, limit: nat)
    requires Safe(s) && Sane(s.w) && Has(s.w, y) && y.id < s.w.nextRemote
    ensures var t := ImportComment(s, q, p, number, y, limit);
            && Safe(t) && Later(s.w, t.w) && Sane(t.w) && Remembers(s.w, t.w) && s.w.nextRemote <= t.w.nextRemote
  {
    RC.ImportCommentKept(s, q, p, number, y, limit);
    ImportCommentTracks(s, q, p, number, y, limit);
    hide ImportComment, Has, Later, SamePosts, B.Extends, B.Valid, SameCommentRow;
  }

  lemma SamePlace(w: World, j: int, y: Remote, k: int, x: Remote)
    requires Sane(w) && HasAt(w, j, y) && HasAt(w, k, x) && y.id == x.id
    ensures y == x && j == k
  {
    assert Has(w, y) && Has(w, x);
    hide B.Valid;
  }

  lemma SamePost(w: World, q: string, j: int, p: int)
    requires PostOf(w, q, j, p)
    ensures w.rows[RowKey(q, IssueRow, w.issues[j].id)].boardId == p
  {
  }

  ghost predicate AllAt(w: World, j: int, xs: seq<Remote>) {
    forall i :: 0 <= i < |xs| ==> HasAt(w, j, xs[i]) && xs[i].id < w.nextRemote
  }

  lemma AllAtStays(v: World, w: World, j: int, xs: seq<Remote>)
    requires AllAt(v, j, xs) && Remembers(v, w)
    ensures AllAt(w, j, xs)
  {
    hide HasAt, B.Extends, SameCommentRow;
  }

  lemma {:induction false} ThreadBarred(s: State, q: string, j: int, p: int, number: int, xs: seq<Remote>, limit: nat,
                                        project: string, k: int, x: Remote)
    requires Held(s, project, k, x) && PostOf(s.w, q, j, p) && AllAt(s.w, j, xs)
    ensures var r := ImportThread(s, q, p, number, xs, limit);
            Held(r, project, k, x) && (q == project && x in xs ==> r.halted || s.halted)
    decreases |xs|
  {
    hide Held, PostOf, ImportComment, Remembers, HasAt;
    if !s.halted && xs != [] {
      var t := ImportComment(s, q, p, number, xs[0], limit);
      StepBarred(s, q, j, p, number, xs[0], limit, project, k, x);
      AllAtStays(s.w, t.w, j, xs);
      ThreadBarred(t, q, j, p, number, xs[1..], limit, project, k, x);
      if t.halted { assert ImportThread(t, q, p, number, xs[1..], limit) == t; }
      if x in xs && x != xs[0] {
        var i :| 0 <= i < |xs| && xs[i] == x;
        assert xs[1..][i - 1] == x;
      }
    }
  }

  lemma HeldNext(s: State, project: string, k: int, x: Remote)
    requires Held(s, project, k, x)
    ensures var t := Next(s).0;
            && Held(t, project, k, x) && Later(s.w, t.w) && t.w.rows == s.w.rows && (t.halted <==> !Next(s).1.Done?)
  {
    NextKept(s);
    NextAside(s);
    NotHaltedDone(s);
    AsideBarred(s.w, Next(s).0.w, project, k, x);
    hide BarredAt, Sane, Aside, Next, AllowedScript, SamePosts, Later, Inv;
  }

  lemma ListedAt(s: State, j: int)
    requires Safe(s) && 0 <= j < |s.w.issues|
    ensures s.w.issues[j].number == j + 1 && AllAt(s.w, j, s.w.issues[j].comments)
  {
    assert RemotesOk(s.w.issues[j].comments, s.w.nextRemote);
  }

  lemma IssueThreadBarred(s: State, q: string, issue: Issue, j: int, limit: nat, project: string, k: int, x: Remote)
    requires Held(s, project, k, x) && 0 <= j < |s.w.issues| && SameIssue(issue, s.w.issues[j])
    ensures var r := ImportIssueThread(s, q, issue, limit);
            Held(r, project, k, x) && (q == project && j == k ==> r.halted)
  {
    hide Next, ImportThread, Held, Later, AllAt;
    var s1, key := Next(s).0, RowKey(q, IssueRow, issue.id);
    HeldNext(s, project, k, x);
    if !s1.halted && key in s1.w.rows {
      var s2 := Next(s1).0;
      HeldNext(s1, project, k, x);
      IssueStays(s.w, s1.w, j);
      IssueStays(s1.w, s2.w, j);
      HeldSafe(s2, project, k, x);
      if !s2.halted {
        ListedAt(s2, j);
        var p := s1.w.rows[key].boardId;
        assert PostOf(s2.w, q, j, p);
        ThreadBarred(s2, q, j, p, issue.number, s2.w.issues[j].comments, limit, project, k, x);
        HeldThere(s2, project, k, x);
      }
    }
    if q == project && j == k { HeldRow(s, project, k, x); }
  }

  lemma IssueStays(v: World, w: World, j: int)
    requires Later(v, w) && 0 <= j < |v.issues|
    ensures j < |w.issues| && SameIssue(v.issues[j], w.issues[j])
  {
  }

  lemma HeldSafe(s: State, project: string, k: int, x: Remote)
    requires Held(s, project, k, x)
    ensures Safe(s)
  {
  }

  lemma HeldThere(s: State, project: string, k: int, x: Remote)
    requires Held(s, project, k, x)
    ensures 0 <= k < |s.w.issues| && x in s.w.issues[k].comments
  {
  }

  lemma HeldRow(s: State, project: string, k: int, x: Remote)
    requires Held(s, project, k, x)
    ensures 0 <= k < |s.w.issues| && RowKey(project, IssueRow, s.w.issues[k].id) in s.w.rows
  {
  }

  lemma {:induction false} CommentsBarred(s: State, q: string, listing: seq<Issue>, j: int, limit: nat, project: string,
                                          k: int, x: Remote)
    requires Held(s, project, k, x) && Lists(s.w, listing) && 0 <= j <= |listing|
    ensures var r := ImportComments(s, q, listing[j..], limit);
            Held(r, project, k, x) && (q == project && j <= k < |listing| ==> r.halted || s.halted)
    decreases |listing| - j
  {
    hide Held, ImportIssueThread, Later;
    if !s.halted && j < |listing| {
      assert listing[j..][0] == listing[j] && listing[j..][1..] == listing[j + 1..];
      assert SameIssue(listing[j], s.w.issues[j]);
      var t := ImportIssueThread(s, q, listing[j], limit);
      IssueThreadBarred(s, q, listing[j], j, limit, project, k, x);
      HeldSafe(s, project, k, x);
      HeldSane(s, project, k, x);
      ThreadLists(s, q, listing[j], listing, limit);
      CommentsBarred(t, q, listing, j + 1, limit, project, k, x);
      if t.halted { assert ImportComments(t, q, listing[j + 1..], limit) == t; }
    }
  }

  lemma HeldSane(s: State, project: string, k: int, x: Remote)
    requires Held(s, project, k, x)
    ensures Sane(s.w) && BarredAt(s.w, project, k, x)
  {
  }

  lemma ThreadLists(s: State, q: string, issue: Issue, listing: seq<Issue>, limit: nat)
    requires Safe(s) && Sane(s.w) && Lists(s.w, listing)
    ensures Lists(ImportIssueThread(s, q, issue, limit).w, listing)
  {
    RC.ImportIssueThreadKept(s, q, issue, limit);
    ListsStay(s.w, ImportIssueThread(s, q, issue, limit).w, listing);
    hide ImportIssueThread, Inv, Sane, Later, SamePosts, Lists;
  }

  // ---- Attempts and events ----------------------------------------------------------------------------------------

  /** What the first phases of an attempt leave. */
  lemma PhasesBarred(w: World, script: seq<Turn>, q: string, limit: nat, project: string, k: int, x: Remote)
    requires Inv(w) && Sane(w) && AllowedScript(script) && Plain(q) && BarredAt(w, project, k, x)
    ensures var (s1, issues) := ListIssues(State(w, script, NoReceipt, false));
            var s2 := ImportIssues(s1, q, issues, limit);
            var s3 := ExportPosts(s2, q, IssueMarkers(q, issues), 0, limit);
            && Held(s1, project, k, x) && (!s1.halted ==> Held(s2, project, k, x) && k < |issues|)
            && (!s1.halted && !s2.halted ==> Held(s3, project, k, x) && Lists(s3.w, issues))
  {
    hide Inv, Sane, Plain, Session, ImportedUpTo, Exporting, ImportIssues, ExportPosts, IssueMarkers, Aside, Sends,
      BarredAt, AllowedScript, Later, Next;
    var s0 := State(w, script, NoReceipt, false);
    var (s1, issues) := ListIssues(s0);
    Listed(w, script, q);
    HeldNext(s0, project, k, x);
    if !s1.halted {
      HeldThere(s1, project, k, x);
      assert issues[0..] == issues;
      var s2 := ImportIssues(s1, q, issues, limit);
      ImportIssuesKept(s1, q, issues, 0, limit);
      ImportIssuesAside(s1, q, issues, limit);
      AsideBarred(s1.w, s2.w, project, k, x);
      if !s2.halted {
        ExportingStarts(s2.w, q, issues);
        var s3 := ExportPosts(s2, q, IssueMarkers(q, issues), 0, limit);
        ExportPostsKept(s2, q, issues, 0, limit);
        ExportPostsTrack(s2, q, IssueMarkers(q, issues), 0, limit);
        SentBarred(s2.w, s3.w, project, k, x, !s3.halted);
        ExportingLists(s2.w, s3.w, q, issues);
      }
    }
  }

  /** An attempt of any project leaves the comment barred, and one of its own project does not complete. */
  lemma AttemptBarred(w: World, script: seq<Turn>, q: string, limit: nat, project: string, k: int, x: Remote)
    requires Inv(w) && Sane(w) && AllowedScript(script) && Plain(q) && BarredAt(w, project, k, x)
    ensures var r := Sync(w, script, q, limit);
            Inv(r.w) && Sane(r.w) && BarredAt(r.w, project, k, x) && (q == project ==> r.halted)
  {
    PhasesBarred(w, script, q, limit, project, k, x);
    hide Inv, Safe, Sane, Plain, ImportIssues, ExportPosts, ImportComments, IssueMarkers, ListIssues, BarredAt, Lists,
      Held, AllowedScript;
    SyncKept(w, script, q, limit);
    hide Later;
    var (s1, issues) := ListIssues(State(w, script, NoReceipt, false));
    HeldOpen(s1, project, k, x);
    if !s1.halted {
      var s2 := ImportIssues(s1, q, issues, limit);
      HeldOpen(s2, project, k, x);
      if !s2.halted {
        var s3 := ExportPosts(s2, q, IssueMarkers(q, issues), 0, limit);
        HeldOpen(s3, project, k, x);
        if !s3.halted {
          assert issues[0..] == issues;
          CommentsBarred(s3, q, issues, 0, limit, project, k, x);
          HeldOpen(ImportComments(s3, q, issues, limit), project, k, x);
        }
      }
    }
  }

  lemma HeldOpen(s: State, project: string, k: int, x: Remote)
    requires Held(s, project, k, x)
    ensures Inv(s.w) && Sane(s.w) && BarredAt(s.w, project, k, x) && 0 <= k
  {
  }

  lemma EventBarred(w: World, e: Event, project: string, k: int, x: Remote)
    requires Inv(w) && Sane(w) && AllowedEvent(e) && BarredAt(w, project, k, x)
    ensures var v := RunEvents(w, [e]); Inv(v) && Sane(v) && BarredAt(v, project, k, x)
  {
    EventKept(w, e);
    match e
    case Users(ops) =>
      UserEvents(w, ops);
      UsersAside(w, ops);
      AsideBarred(w, ApplyUsers(w, ops), project, k, x);
    case Attempt(q, script, limit) =>
      OneAttempt(w, q, script, limit);
      AttemptBarred(w, script, q, limit, project, k, x);
    hide Inv, Sane, Later, BarredAt, Sync, ApplyUsers, RunEvents, Aside, Plain, AllowedScript;
  }

  lemma OneAttempt(w: World, q: string, script: seq<Turn>, limit: nat)
    ensures RunEvents(w, [Attempt(q, script, limit)]) == Sync(w, script, q, limit).w
  {
    assert [Attempt(q, script, limit)][1..] == [];
    hide Sync;
  }

  /**
    Purges stop the relay for good.  Once the board refuses a GitHub comment without a row because its post or the
    comment its marker names was purged, no later attempt of the project returns no error: after any events, however
    it goes.
  */
  lemma {:induction false} BarredNeverCompletes(w: World, events: seq<Event>, script: seq<Turn>, project: string,
                                                limit: nat, k: int, x: Remote)
    requires Inv(w) && Sane(w) && BarredAt(w, project, k, x) && AllowedRun(events) && AllowedScript(script)
    requires Plain(project)
    ensures Sync(RunEvents(w, events), script, project, limit).halted
    decreases |events|
  {
    hide Inv, Sane, BarredAt, Sync, Plain, AllowedScript, AllowedEvent;
    if events == [] {
      AttemptBarred(w, script, project, limit, project, k, x);
    } else {
      EventBarred(w, events[0], project, k, x);
      RunsOn(w, events);
      BarredNeverCompletes(RunEvents(w, [events[0]]), events[1..], script, project, limit, k, x);
    }
  }

  // ---- A purge between two attempts -------------------------------------------------------------------------------

  const Purge: seq<UserOp> := [OnBoard(B.OpPurgeComment(2, 2))]

  lemma OneOp(w: World, op: UserOp)
    ensures ApplyUsers(w, [op]) == ApplyUser(w, op)
  {
    hide ApplyUser;
    assert [op][1..] == [];
    assert ApplyUsers(ApplyUser(w, op), []) == ApplyUser(w, op);
  }

  lemma ReplyPurged(w: World)
    requires w.board == OneBoard
    ensures var v := ApplyUsers(w, Purge);
            && v == w.(board := v.board) && 2 in v.board.comments && v.board.comments[2].status.Deleted?
  {
    OneOp(w, Purge[0]);
    assert B.ActiveComment(OneBoard, 2) && OneBoard.nextId == 3;
    hide ApplyUsers;
  }

  lemma IssueIds()
    ensures TheIssue.id == 1 && WithIssue(TheIssue).board == OneBoard
    ensures WithIssue(TheIssue).rows == map[RowKey("p", IssueRow, 1) := Row(PostItem, 1, 1, FromBoard, 0)]
  {
    hide Parse, Marked, PostMarker, OneBoard;
  }

  lemma NameBars(w: World, v: World, x: Remote)
    requires v == w.(board := v.board) && HasAt(w, 0, x) && w.issues[0].id == 1 && RowKey("p", IssueRow, 1) in w.rows
    requires RowKey("p", CommentRow, x.id) !in w.rows && NamesComment(x, "p")
    requires x.tag.0.comment in v.board.comments && v.board.comments[x.tag.0.comment].status.Deleted?
    ensures BarredAt(v, "p", 0, x)
  {
    hide UnfitRemote, ParentFromMarker;
    assert HasAt(v, 0, x);
  }

  lemma PurgeBars(w: World)
    requires w == AppendRemote(WithIssue(TheIssue), 0, TheComment)
    ensures BarredAt(ApplyUsers(w, Purge), "p", 0, TheComment)
  {
    hide NamesComment, AppendRemote, TheIssue, TheComment, OneBoard, ApplyUsers, Mapped, WithIssue, Purge, HasAt,
      BarredAt;
    IssueIds();
    CommentNames();
    AppendedToIssue(WithIssue(TheIssue), TheIssue, TheComment);
    OnlyIssueRow(w.rows);
    ReplyPurged(w);
    AtFirst(w, TheComment);
    NameBars(w, ApplyUsers(w, Purge), TheComment);
  }

  lemma AtFirst(w: World, x: Remote)
    requires HasAt(w, 0, x)
    ensures |w.issues| > 0
  {
  }

  /**
    The first attempt of `FirstAttempt` died right after it created the reply's GitHub comment; then a user purges the
    reply.  No attempt after that completes, whatever users do.
  */
  lemma PurgedReplyStops(events: seq<Event>, script: seq<Turn>, limit: nat)
    requires AllowedRun(events) && AllowedScript(script)
    ensures var w := RunEvents(RunEvents(NoWorld, FirstAttempt), [Users(Purge)]);
            AllowedRun([Users(Purge)]) && Sync(RunEvents(w, events), script, "p", limit).halted
  {
    hide Inv, Sane, Once, Sync, Plain, RunEvents, AppendRemote, BarredAt, AllowedScript, ApplyUsers, TheIssue,
      TheComment, FirstAttempt;
    FirstRun();
    OneLetter();
    var w := RunEvents(NoWorld, FirstAttempt);
    UserEvents(w, Purge);
    UserSteps(w, Purge);
    UsersAside(w, Purge);
    AsideSane(w, ApplyUsers(w, Purge));
    PurgeBars(w);
    BarredNeverCompletes(ApplyUsers(w, Purge), events, script, "p", limit, 0, TheComment);
  }
}
