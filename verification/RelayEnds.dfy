/**
  The export phase ends.  Nobody acts and every call succeeds; then the walk makes no more calls than the posts and
  comments of the board allow, because replies are younger than what they answer.  It halts nowhere, and the only
  comment rows it writes are for comments that were due.
*/
module RelayEnds {
  import opened Core
  import opened Paging
  import opened Text
  import opened Marker
  import opened Relay
  import opened RelaySafety
  import opened RelayExport
  import opened RelayRuns
  import opened RelayQuiet
  import opened RelaySettles
  import opened RelayQuiescence
  import opened RelayHistory
  import opened RelayTracks
  import opened RelayForest
  import B = Board

  // ---- Undisturbed calls ------------------------------------------------------------------------------------------

  /** Nobody acts, and no call fails. */
  predicate Clear(script: seq<Turn>) {
    forall i :: 0 <= i < |script| ==> script[i] == Turn([], Done)
  }

  lemma ClearQuiet(script: seq<Turn>)
    requires Clear(script)
    ensures Quiet(script) && AllowedScript(script)
  {
  }

  lemma NextClear(s: State)
    requires Clear(s.script) && !s.halted && s.script != []
    ensures Next(s) == (s.(script := s.script[1..]), Done) && Clear(s.script[1..])
  {
    assert ApplyUsers(s.w, []) == s.w;
  }

  // ---- The number of GitHub comments ------------------------------------------------------------------------------

  ghost function Load(issues: seq<Issue>): (n: nat) {
    if issues == [] then 0 else |issues[0].comments| + Load(issues[1..])
  }

  lemma {:induction false} LoadAppended(issues: seq<Issue>, i: nat, issue: Issue)
    requires i < |issues| && |issue.comments| == |issues[i].comments| + 1
    ensures Load(issues[i := issue]) == Load(issues) + 1
    decreases i
  {
    if i == 0 {
      assert issues[i := issue][1..] == issues[1..];
    } else {
      assert issues[i := issue][1..] == issues[1..][i - 1 := issue];
      LoadAppended(issues[1..], i - 1, issue);
    }
  }

  lemma {:induction false} LoadOpened(issues: seq<Issue>, issue: Issue)
    requires issue.comments == []
    ensures Load(issues + [issue]) == Load(issues)
    decreases |issues|
  {
    if issues == [] {
      assert (issues + [issue])[1..] == [];
    } else {
      assert (issues + [issue])[1..] == issues[1..] + [issue];
      LoadOpened(issues[1..], issue);
    }
  }

  // ---- A stretch of the export phase ------------------------------------------------------------------------------

  /** The row is for a GitHub comment just created for a due comment of the project. */
  ghost predicate DueRow(v: World, w: World, project: string, key: RowKey)
    requires key in w.rows
  {
    var c := w.rows[key].boardId;
    && key.project == project && Due(w.board, project, c)
    && exists x :: New(v, w, x) && x.id == key.id && x.exportOf == Some((project, c))
  }

  ghost predicate OnlyDue(v: World, w: World, project: string) {
    forall key :: key in w.rows && key !in v.rows && key.kind.CommentRow? ==> DueRow(v, w, project, key)
  }

  /** The stretch ended after at most n calls. */
  ghost predicate Ends(s: State, r: State, project: string, n: int) {
    && Clear(r.script) && !r.halted && |s.script| <= |r.script| + n
    && Load(r.w.issues) + |r.script| <= Load(s.w.issues) + |s.script|
    && r.w.board == s.w.board && |s.w.issues| <= |r.w.issues|
    && Sane(r.w) && Remembers(s.w, r.w) && OnlyDue(s.w, r.w, project)
  }

  lemma DueRowStays(u: World, v: World, w: World, project: string, key: RowKey)
    requires Remembers(u, v) && Remembers(v, w) && w.board == v.board
    requires key in v.rows && key.kind.CommentRow? && DueRow(u, v, project, key)
    ensures key in w.rows && DueRow(u, w, project, key)
  {
    assert SameCommentRow(v, w, key);
    var x :| New(u, v, x) && x.id == key.id && x.exportOf == Some((project, v.rows[key].boardId));
    NewSplits(u, v, w, x);
    hide New, Remembers, Due;
  }

  lemma DueRowBefore(u: World, v: World, w: World, project: string, key: RowKey)
    requires Remembers(u, v) && Remembers(v, w) && key in w.rows && DueRow(v, w, project, key)
    ensures DueRow(u, w, project, key)
  {
    var x :| New(v, w, x) && x.id == key.id && x.exportOf == Some((project, w.rows[key].boardId));
    NewSplits(u, v, w, x);
    hide New, Remembers, Due;
  }

  lemma OnlyDueTransitive(u: World, v: World, w: World, project: string)
    requires Remembers(u, v) && Remembers(v, w) && w.board == v.board && OnlyDue(u, v, project)
             && OnlyDue(v, w, project)
    ensures OnlyDue(u, w, project)
  {
    hide Remembers, DueRow;
    forall key | key in w.rows && key !in u.rows && key.kind.CommentRow? ensures DueRow(u, w, project, key) {
      if key in v.rows { DueRowStays(u, v, w, project, key); } else { DueRowBefore(u, v, w, project, key); }
    }
  }

  lemma EndsTransitive(s: State, t: State, r: State, project: string, n: int, m: int)
    requires Ends(s, t, project, n) && Ends(t, r, project, m)
    ensures Ends(s, r, project, n + m)
  {
    hide Sane, Remembers, OnlyDue, Clear;
    RemembersTransitive(s.w, t.w, r.w);
    OnlyDueTransitive(s.w, t.w, r.w, project);
  }

  lemma EndsWithin(s: State, r: State, project: string, n: int, m: int)
    requires Ends(s, r, project, n) && n <= m
    ensures Ends(s, r, project, m)
  {
    hide Sane, Remembers, OnlyDue, Clear;
  }

  lemma EndsGoes(s: State, r: State, project: string, n: int)
    requires Ends(s, r, project, n)
    ensures Clear(r.script) && !r.halted && |s.script| <= |r.script| + n && r.w.board == s.w.board
    ensures |s.w.issues| <= |r.w.issues| && Sane(r.w)
  {
  }

  /** Nothing is done to comments. */
  lemma EndsAside(s: State, r: State, project: string, n: int)
    requires Aside(s.w, r.w) && Clear(r.script) && !r.halted && |r.script| <= |s.script| <= |r.script| + n
    requires Load(r.w.issues) == Load(s.w.issues) && r.w.board == s.w.board && |s.w.issues| <= |r.w.issues|
    ensures Ends(s, r, project, n)
  {
    hide Sane, Remembers, DueRow, FreshIds;
  }

  lemma EndsReflexive(s: State, project: string)
    requires Clear(s.script) && !s.halted && Sane(s.w)
    ensures Ends(s, s, project, 0)
  {
    AsideReflexive(s.w);
    EndsAside(s, s, project, 0);
  }

  lemma CallEnds(s: State, project: string)
    requires Clear(s.script) && !s.halted && s.script != [] && Sane(s.w)
    ensures Ends(s, Next(s).0, project, 1) && Next(s).0.w == s.w && Next(s).1.Done?
  {
    NextClear(s);
    AsideReflexive(s.w);
    EndsAside(s, Next(s).0, project, 1);
  }

  // ---- One comment ------------------------------------------------------------------------------------------------

  /** The world after the comment x was created and its row saved. */
  function WithComment(w: World, i: nat, x: Remote, key: RowKey, row: Row): (r: World)
    requires i < |w.issues|
  {
    var v := AppendRemote(w, i, x);
    v.(rows := v.rows[key := row])
  }

  lemma CommentAdded(w: World, i: nat, x: Remote, project: string, c: int, row: Row)
    requires Sane(w) && i < |w.issues| && x.id == w.nextRemote && x.exportOf == Some((project, c))
    requires row.boardId == c && Due(w.board, project, c)
    ensures OnlyDue(w, WithComment(w, i, x, RowKey(project, CommentRow, x.id), row), project)
  {
    var key := RowKey(project, CommentRow, x.id);
    var u, v := AppendRemote(w, i, x), WithComment(w, i, x, key, row);
    AppendRemoteAppends(w, i, x);
    SameComments(u, v, x);
    NotYet(w, x);
    hide Has, Due, Sane;
    assert v.rows == w.rows[key := row];
  }

  lemma NotYet(w: World, x: Remote)
    requires Sane(w) && x.id == w.nextRemote
    ensures !Has(w, x)
  {
  }

  lemma SameComments(u: World, v: World, x: Remote)
    requires v == u.(rows := v.rows) && Has(u, x)
    ensures Has(v, x)
  {
    var k :| HasAt(u, k, x);
    assert HasAt(v, k, x);
  }

  /** What the export of one unmapped comment does when every call succeeds. */
  lemma ExportCommentClear(s: State, project: string, number: int, id: int, c: B.Comment, limit: nat)
    requires Clear(s.script) && !s.halted && 3 <= |s.script| && 1 <= number <= |s.w.issues|
    requires !Mapped(s.w.rows, project, CommentItem, id)
    ensures var r := ExportComment(s, project, number, id, c, limit);
            var body := Marked(c.body, CommentMarker(project, id, c.parent));
            var x := Remote(s.w.nextRemote, body, Parse(body), 0, Some((project, id)));
            var key, row := RowKey(project, CommentRow, x.id), Row(CommentItem, id, number, FromBoard, 0);
            && !r.halted && r.script == s.script[3..] && Clear(r.script)
            && r.w == WithComment(s.w, number - 1, x, key, row)
  {
    hide Parse, Marked, CommentMarker, AddUrl, AppendRemote, Mapped;
    var t := s.(script := s.script[1..]);
    NextClear(s);
    var s1 := FindByBoard(s, project, CommentItem, id).0;
    assert s1 == t;
    NextClear(s1);
    var body := Marked(c.body, CommentMarker(project, id, c.parent));
    var (s2, x) := CreateIssueComment(s1, number, (project, id), body);
    assert s2.script == s.script[2..];
    AppendedRows(s.w, number - 1, x);
    var counted := AddUrl(s2.receipt.(exportedComments := s2.receipt.exportedComments + 1), limit);
    NextClear(s2.(receipt := counted));
    NoConflict(s2.w.rows, RowKey(project, CommentRow, x.id), Row(CommentItem, id, number, FromBoard, 0));
    assert s.script[2..][1..] == s.script[3..];
  }

  lemma AppendedRows(w: World, i: nat, x: Remote)
    requires i < |w.issues|
    ensures AppendRemote(w, i, x).rows == w.rows && AppendRemote(w, i, x).board == w.board
    ensures |AppendRemote(w, i, x).issues| == |w.issues|
    ensures Load(AppendRemote(w, i, x).issues) == Load(w.issues) + 1
  {
    var issue := w.issues[i].(comments := w.issues[i].comments + [x]);
    LoadAppended(w.issues, i, issue);
  }

  lemma NoConflict(rows: map<RowKey, Row>, key: RowKey, row: Row)
    requires !Mapped(rows, key.project, row.kind, row.boardId)
    ensures !Conflict(rows, key, row)
  {
  }

  lemma ExportCommentEnds(s: State, project: string, number: int, id: int, c: B.Comment, limit: nat)
    requires Clear(s.script) && !s.halted && 3 <= |s.script| && 1 <= number <= |s.w.issues|
    requires Sane(s.w) && Due(s.w.board, project, id) && ReadAs(s.w.board, id, c)
    ensures Ends(s, ExportComment(s, project, number, id, c, limit), project, 3)
  {
    hide Sane, Due, Mapped, Clear, Remembers, Parse, Marked, CommentMarker, ExportComment, CreateIssueComment, Save,
      AddUrl, ReadAs, Sends, Tracks;
    var r := ExportComment(s, project, number, id, c, limit);
    if Mapped(s.w.rows, project, CommentItem, id) {
      CallEnds(s, project);
      AlreadyMapped(s, project, number, id, c, limit);
      EndsWithin(s, r, project, 1, 3);
    } else {
      ExportCommentClear(s, project, number, id, c, limit);
      ExportCommentTracks(s, project, number, id, c, limit);
      SendsSane(s.w, r.w, true);
      var body := Marked(c.body, CommentMarker(project, id, c.parent));
      var x := Remote(s.w.nextRemote, body, Parse(body), 0, Some((project, id)));
      CommentAdded(s.w, number - 1, x, project, id, Row(CommentItem, id, number, FromBoard, 0));
      AppendedRows(s.w, number - 1, x);
      hide OnlyDue;
    }
  }

  lemma AlreadyMapped(s: State, project: string, number: int, id: int, c: B.Comment, limit: nat)
    requires Clear(s.script) && !s.halted && s.script != [] && Mapped(s.w.rows, project, CommentItem, id)
    ensures ExportComment(s, project, number, id, c, limit) == Next(s).0
  {
    NextClear(s);
    hide CreateIssueComment, Save, Marked, CommentMarker, Mapped, Clear;
  }

  // ---- The walk ---------------------------------------------------------------------------------------------------

  ghost function Rank(b: B.Store, parent: Option<int>): (n: int) {
    if parent.Some? then b.nextId - parent.value else b.nextId + 1
  }

  lemma RankFalls(b: B.Store, post: int, parent: Option<int>, ids: seq<int>)
    requires B.Valid(b) && RepliesOf(b, post, parent, ids) && ids != []
    ensures 0 <= Rank(b, Some(ids[0])) < Rank(b, parent)
  {
    assert B.CommentValid(b, ids[0]);
  }

  ghost predicate Walking(s: State, project: string, post: int, number: int, parent: Option<int>) {
    Clear(s.script) && !s.halted && Sane(s.w) && 1 <= number <= |s.w.issues| && Below(s.w.board, project, post, parent)
  }

  lemma WalkingOn(s: State, r: State, project: string, post: int, number: int, parent: Option<int>, n: int)
    requires Walking(s, project, post, number, parent) && Ends(s, r, project, n)
    ensures Walking(r, project, post, number, parent) && r.w.board == s.w.board && |s.script| <= |r.script| + n
  {
    hide Sane, Below, Remembers, OnlyDue;
  }

  /** A page of replies, and what is left beyond it. */
  ghost predicate PageFits(b: B.Store, post: int, parent: Option<int>, after: int, page: Page<int>) {
    && RepliesOf(b, post, parent, page.items) && Siblings(b, parent, page.items)
    && (page.next.None? ==> |Trees(b, page.items)| <= |Reach(b, post, parent, after)|)
    && (page.next.Some? ==>
          && after < page.next.value < b.nextId && page.items != []
          && |Trees(b, page.items)| + |Reach(b, post, parent, page.next.value)| <= |Reach(b, post, parent, after)|)
  }

  lemma PageOfWalk(b: B.Store, post: int, parent: Option<int>, after: int)
    requires B.Valid(b)
    ensures PageFits(b, post, parent, after, PageOf(B.CommentIds(b, post, parent), after, PageSize))
  {
    var ids := B.CommentIds(b, post, parent);
    var page := PageOf(ids, after, PageSize);
    PageMeaning(ids, after, PageSize);
    PageOfReplies(b, post, parent, after);
    hide PageOf, B.Valid, Ascending, RepliesOf;
    PageItems(b, post, parent, after, page);
    hide IsPage, Trees, Reach, B.CommentIds, Siblings;
    if page.next.Some? { PageSplit(b, post, parent, after, page.next.value, page.items); }
  }

  lemma PageItems(b: B.Store, post: int, parent: Option<int>, after: int, page: Page<int>)
    requires B.Valid(b) && IsPage(page, B.CommentIds(b, post, parent), after)
    ensures Siblings(b, parent, page.items) && |Trees(b, page.items)| <= |Reach(b, post, parent, after)|
    ensures page.next.Some? ==> after < page.next.value < b.nextId && page.items != []
    ensures page.next.Some? ==> forall i :: 0 <= i < |page.items| ==>
              after < page.items[i] <= page.next.value && b.comments[page.items[i]].postId == post
  {
    assert forall i :: 0 <= i < |page.items| ==> page.items[i] in page.items;
    assert Siblings(b, parent, page.items);
    TreesReached(b, post, parent, after, page.items);
    SubsetSize(Trees(b, page.items), Reach(b, post, parent, after));
    if page.next.Some? { assert B.CommentValid(b, page.next.value); }
    hide Trees, Reach;
  }

  lemma ListedPage(s: State, project: string, post: int, number: int, parent: Option<int>, after: int)
    requires Walking(s, project, post, number, parent) && s.script != []
    ensures var (r, page, rows) := ListComments(s, post, parent, after);
            && Ends(s, r, project, 1) && rows == r.w.board.comments && PageFits(r.w.board, post, parent, after, page)
            && r.w.board == s.w.board
  {
    CallEnds(s, project);
    PageOfWalk(s.w.board, post, parent, after);
    hide PageFits, PageOf, B.CommentIds, Ends, Sane;
  }

  /** The walk halts nowhere, after at most five calls for each comment it may reach, and one more. */
  lemma {:induction false} WalkEnds(s: State, project: string, post: int, number: int, parent: Option<int>, after: int,
                                    limit: nat)
    requires Walking(s, project, post, number, parent)
    requires 1 + 5 * |Reach(s.w.board, post, parent, after)| <= |s.script|
    ensures Ends(s, ExportComments(s, project, post, number, parent, after, limit), project,
                 1 + 5 * |Reach(s.w.board, post, parent, after)|)
    decreases Rank(s.w.board, parent), 1, s.w.board.nextId - after
  {
    assert !s.halted;
    hide Ends, Walking, ListComments, ExportReplies, Reach, Trees, Siblings, RepliesOf, B.Valid;
    var b := s.w.board;
    var (s1, page, rows) := ListComments(s, post, parent, after);
    ListedPage(s, project, post, number, parent, after);
    EndsGoes(s, s1, project, 1);
    WalkingOn(s, s1, project, post, number, parent, 1);
    var n := 5 * |Trees(b, page.items)| - |page.items|;
    RepliesEnd(s1, project, post, number, parent, page.items, limit);
    var s2 := ExportReplies(s1, project, post, number, page.items, rows, limit);
    EndsTransitive(s, s1, s2, project, 1, n);
    EndsGoes(s, s2, project, 1 + n);
    if page.next.Some? {
      WalkingOn(s1, s2, project, post, number, parent, n);
      WalkEnds(s2, project, post, number, parent, page.next.value, limit);
      var m := 1 + 5 * |Reach(b, post, parent, page.next.value)|;
      var r := ExportComments(s2, project, post, number, parent, page.next.value, limit);
      EndsTransitive(s, s2, r, project, 1 + n, m);
      assert r == ExportComments(s, project, post, number, parent, after, limit);
      EndsWithin(s, r, project, 1 + n + m, 1 + 5 * |Reach(b, post, parent, after)|);
    } else {
      assert s2 == ExportComments(s, project, post, number, parent, after, limit);
      EndsWithin(s, s2, project, 1 + n, 1 + 5 * |Reach(b, post, parent, after)|);
    }
  }

  /** The first reply and the others, each with its share of the calls. */
  lemma FirstReply(b: B.Store, post: int, parent: Option<int>, ids: seq<int>)
    requires B.Valid(b) && RepliesOf(b, post, parent, ids) && Siblings(b, parent, ids) && ids != []
    ensures ids[0] in b.comments && ids[0] in B.CommentIds(b, post, parent)
    ensures RepliesOf(b, post, parent, ids[1..]) && Siblings(b, parent, ids[1..])
    ensures 0 <= Rank(b, Some(ids[0])) < Rank(b, parent)
    ensures |ids[1..]| <= |Trees(b, ids[1..])|
    ensures 1 + |Reach(b, post, Some(ids[0]), 0)| + |Trees(b, ids[1..])| <= |Trees(b, ids)|
  {
    assert forall i :: 0 <= i < |ids| ==> ids[i] in B.CommentIds(b, post, parent) && b.comments[ids[i]].postId == post;
    hide Trees, B.Valid, B.CommentIds;
    TreesSplit(b, parent, ids);
    TreeSize(b, post, ids[0]);
    TreesHoldRoots(b, post, parent, ids[1..]);
    RankFalls(b, post, parent, ids);
  }

  lemma {:induction false} RepliesEnd(s: State, project: string, post: int, number: int, parent: Option<int>,
                                      ids: seq<int>, limit: nat)
    requires Walking(s, project, post, number, parent)
    requires RepliesOf(s.w.board, post, parent, ids) && Siblings(s.w.board, parent, ids)
    requires 5 * |Trees(s.w.board, ids)| <= |s.script| + |ids|
    ensures Ends(s, ExportReplies(s, project, post, number, ids, s.w.board.comments, limit), project,
                 5 * |Trees(s.w.board, ids)| - |ids|)
    decreases Rank(s.w.board, parent), 0, |ids|
  {
    assert !s.halted && B.Valid(s.w.board);
    hide Walking, Ends, Trees, Reach, ExportComment, ExportComments, B.Valid, B.CommentIds;
    var b, rows := s.w.board, s.w.board.comments;
    if ids == [] {
      EndsReflexive(s, project);
      EndsWithin(s, s, project, 0, 5 * |Trees(b, ids)| - |ids|);
    } else {
      FirstReply(b, post, parent, ids);
      hide RepliesOf, Siblings, Rank;
      var n := 5 * |Trees(b, ids[1..])| - |ids[1..]|;
      if !rows[ids[0]].status.Active? {
        RepliesEnd(s, project, post, number, parent, ids[1..], limit);
        EndsWithin(s, ExportReplies(s, project, post, number, ids[1..], rows, limit), project, n,
                   5 * |Trees(b, ids)| - |ids|);
      } else {
        ReplyEnds(s, project, post, number, parent, ids[0], limit);
        var s2 := AfterReply(s, project, post, number, ids[0], limit);
        var m := 4 + 5 * |Reach(b, post, Some(ids[0]), 0)|;
        WalkingOn(s, s2, project, post, number, parent, m);
        EndsGoes(s, s2, project, m);
        RepliesEnd(s2, project, post, number, parent, ids[1..], limit);
        EndsTransitive(s, s2, ExportReplies(s2, project, post, number, ids[1..], rows, limit), project, m, n);
      }
    }
  }

  /** The export of one active reply and of everything below it. */
  ghost function AfterReply(s: State, project: string, post: int, number: int, id: int, limit: nat): (r: State)
    requires id in s.w.board.comments
  {
    ExportComments(ExportComment(s, project, number, id, s.w.board.comments[id], limit),
                   project, post, number, Some(id), 0, limit)
  }

  lemma {:induction false} ReplyEnds(s: State, project: string, post: int, number: int, parent: Option<int>, id: int,
                                     limit: nat)
    requires Walking(s, project, post, number, parent) && id in B.CommentIds(s.w.board, post, parent)
    requires s.w.board.comments[id].status.Active? && 0 <= Rank(s.w.board, Some(id)) < Rank(s.w.board, parent)
    requires 4 + 5 * |Reach(s.w.board, post, Some(id), 0)| <= |s.script|
    ensures var m := 4 + 5 * |Reach(s.w.board, post, Some(id), 0)|;
            Ends(s, AfterReply(s, project, post, number, id, limit), project, m)
    ensures !ExportComment(s, project, number, id, s.w.board.comments[id], limit).halted
    decreases Rank(s.w.board, Some(id)), 2
  {
    hide Ends, Reach, ExportComment, ExportComments, Due, B.Valid;
    var s1 := ExportComment(s, project, number, id, s.w.board.comments[id], limit);
    ReplyDue(s.w.board, project, post, parent, id);
    ExportCommentEnds(s, project, number, id, s.w.board.comments[id], limit);
    EndsGoes(s, s1, project, 3);
    assert Walking(s1, project, post, number, Some(id));
    WalkEnds(s1, project, post, number, Some(id), 0, limit);
    EndsTransitive(s, s1, ExportComments(s1, project, post, number, Some(id), 0, limit), project, 3,
                   1 + 5 * |Reach(s.w.board, post, Some(id), 0)|);
  }

  // ---- The mapping of a post --------------------------------------------------------------------------------------

  lemma SaveClear(s: State, key: RowKey, row: Row)
    requires Clear(s.script) && !s.halted && s.script != [] && !Mapped(s.w.rows, key.project, row.kind, row.boardId)
    ensures Save(s, key, row) == s.(script := s.script[1..], w := s.w.(rows := s.w.rows[key := row]))
    ensures Clear(s.script[1..])
  {
    NextClear(s);
    NoConflict(s.w.rows, key, row);
    hide Conflict, Mapped;
  }

  lemma FindClear(s: State, project: string, id: int)
    requires Clear(s.script) && !s.halted && s.script != []
    ensures FindByBoard(s, project, PostItem, id)
            == (s.(script := s.script[1..]), BoardRow(s.w.rows, project, PostItem, id))
    ensures Clear(s.script[1..])
  {
    NextClear(s);
    hide BoardRow;
  }

  /** The state after a post's row was written and read back, two calls later. */
  ghost function WithRow(s: State, key: RowKey, row: Row): (r: State)
    requires 2 <= |s.script|
  {
    s.(script := s.script[2..], w := s.w.(rows := s.w.rows[key := row]))
  }

  lemma SaveFindClear(s: State, key: RowKey, row: Row, receipt: Receipt)
    requires Clear(s.script) && !s.halted && 2 <= |s.script|
    requires row.kind.PostItem? && !Mapped(s.w.rows, key.project, PostItem, row.boardId)
    ensures var s1 := Save(s, key, row);
            var (r, found) := FindByBoard(s1.(receipt := receipt), key.project, PostItem, row.boardId);
            && !s1.halted && s1.receipt == s.receipt
            && r == WithRow(s, key, row).(receipt := receipt) && Clear(r.script)
            && found == BoardRow(r.w.rows, key.project, PostItem, row.boardId) && found.Some?
  {
    SaveClear(s, key, row);
    var s1 := Save(s, key, row).(receipt := receipt);
    FindClear(s1, key.project, row.boardId);
    assert IsRowOf(s1.w.rows, key, key.project, PostItem, row.boardId);
    assert s.script[1..][1..] == s.script[2..];
    hide Save, FindByBoard, Mapped, Clear;
  }

  lemma RecoverClear(s: State, project: string, id: int, found: Issue)
    requires Clear(s.script) && !s.halted && 2 <= |s.script| && !Mapped(s.w.rows, project, PostItem, id)
    ensures var (r, row) := Recover(s, project, id, found);
            && Clear(r.script) && !r.halted && |r.script| == |s.script| - 2
            && row.Some? && row == BoardRow(r.w.rows, project, PostItem, id)
            && r.w.issues == s.w.issues && r.w.board == s.w.board
  {
    var key, row := RowKey(project, IssueRow, found.id), Row(PostItem, id, found.number, FromBoard, found.updatedAt);
    SaveFindClear(s, key, row, s.receipt.(recovered := s.receipt.recovered + 1));
    hide Save, FindByBoard, Mapped, Clear, BoardRow;
  }

  lemma CreateIssueClear(s: State, id: int, title: string, body: string)
    requires Clear(s.script) && !s.halted && s.script != []
    ensures var (r, issue) := CreateIssue(s, id, title, body);
            && !r.halted && r.script == s.script[1..] && Clear(r.script)
            && r.w == s.w.(issues := s.w.issues + [issue], nextRemote := s.w.nextRemote + 1)
            && Load(r.w.issues) == Load(s.w.issues)
  {
    NextClear(s);
    hide Parse, Clear;
    var issue := CreateIssue(s, id, title, body).1;
    LoadOpened(s.w.issues, issue);
  }

  lemma ExportNewClear(s: State, project: string, id: int, post: B.Post, limit: nat)
    requires Clear(s.script) && !s.halted && 3 <= |s.script| && !Mapped(s.w.rows, project, PostItem, id)
    ensures var (r, row) := ExportNew(s, project, id, post, limit);
            && Clear(r.script) && !r.halted && |r.script| == |s.script| - 3
            && row.Some? && row == BoardRow(r.w.rows, project, PostItem, id)
            && Load(r.w.issues) == Load(s.w.issues) && |s.w.issues| <= |r.w.issues| && r.w.board == s.w.board
  {
    hide Mapped, Clear, BoardRow, Load, Marked, PostMarker, AddUrl, CreateIssue;
    var body := Marked(post.body, PostMarker(project, id));
    CreateIssueClear(s, id, post.title, body);
    var (s1, issue) := CreateIssue(s, id, post.title, body);
    var counted := AddUrl(s1.receipt.(exportedPosts := s1.receipt.exportedPosts + 1), limit);
    var key, row := RowKey(project, IssueRow, issue.id), Row(PostItem, id, issue.number, FromBoard, issue.updatedAt);
    var s2 := s1.(receipt := counted);
    SaveFindClear(s2, key, row, counted);
    assert Save(s2, key, row).(receipt := counted) == Save(s2, key, row);
    hide Save, FindByBoard;
  }

  lemma EnsureMappingClear(s: State, project: string, markers: map<int, Issue>, id: int, post: B.Post, limit: nat)
    requires Clear(s.script) && !s.halted && 4 <= |s.script|
    ensures var (r, row) := EnsureMapping(s, project, markers, id, post, limit);
            && Clear(r.script) && !r.halted && |s.script| - 4 <= |r.script| <= |s.script|
            && row.Some? && row == BoardRow(r.w.rows, project, PostItem, id)
            && Load(r.w.issues) == Load(s.w.issues) && |s.w.issues| <= |r.w.issues| && r.w.board == s.w.board
  {
    hide Mapped, Clear, Load, Recover, ExportNew;
    FindClear(s, project, id);
    var s1 := s.(script := s.script[1..]);
    if BoardRow(s.w.rows, project, PostItem, id).None? {
      if id in markers {
        RecoverClear(s1, project, id, markers[id]);
      } else {
        ExportNewClear(s1, project, id, post, limit);
      }
    }
    hide BoardRow, FindByBoard;
  }

  /** The row of a post names a listed issue. */
  lemma RowNumber(w: World, project: string, p: int)
    requires Inv(w) && Mapped(w.rows, project, PostItem, p)
    ensures 1 <= BoardRow(w.rows, project, PostItem, p).value.number <= |w.issues|
  {
    var key :| IsRowOf(w.rows, key, project, PostItem, p)
      && w.rows[key] == BoardRow(w.rows, project, PostItem, p).value;
    assert RowOk(w, key);
    assert key.kind.IssueRow?;
    var k :| RowAgrees(w, key, w.rows[key], k);
    assert w.issues[k].number == k + 1;
  }

  // ---- Posts ------------------------------------------------------------------------------------------------------

  ghost predicate Sending(s: State, project: string, listing: seq<Issue>) {
    Clear(s.script) && !s.halted && Inv(s.w) && Sane(s.w) && Exporting(s.w, project, listing, None) && Plain(project)
  }

  lemma SendingOpen(s: State, project: string, listing: seq<Issue>)
    requires Sending(s, project, listing)
    ensures Open(s, project, listing) && B.Valid(s.w.board) && Clear(s.script) && !s.halted && Sane(s.w)
  {
    ClearQuiet(s.script);
  }

  lemma StepSends(s: State, r: State, project: string, listing: seq<Issue>, n: int)
    requires Sending(s, project, listing) && Step(s, r, project, listing) && Ends(s, r, project, n)
    ensures Sending(r, project, listing) && r.w.board == s.w.board && |s.script| <= |r.script| + n
  {
    hide Inv, Later, Exporting, Plain, Sane, Remembers, OnlyDue;
  }

  lemma MappingEnds(s: State, project: string, listing: seq<Issue>, p: int, post: B.Post, limit: nat)
    requires Sending(s, project, listing) && Read(s.w, project, p, post) && 4 <= |s.script|
    ensures var (r, row) := EnsureMapping(s, project, IssueMarkers(project, listing), p, post, limit);
            && Ends(s, r, project, 4) && Sending(r, project, listing) && r.w.board == s.w.board
            && row.Some? && 1 <= row.value.number <= |r.w.issues|
  {
    hide Inv, Exporting, Plain, Sane, Read, EnsureMapping, Remembers, OnlyDue, Clear, Load, IssueMarkers, Later,
      BoardRow, AllowedScript;
    SendingOpen(s, project, listing);
    var markers := IssueMarkers(project, listing);
    var (r, row) := EnsureMapping(s, project, markers, p, post, limit);
    EnsureMappingClear(s, project, markers, p, post, limit);
    EnsureMappingAside(s, project, markers, p, post, limit);
    EnsureMappingKept(s, project, listing, p, post, limit);
    EndsAside(s, r, project, 4);
    StepSends(s, r, project, listing, 4);
    RowNumber(r.w, project, p);
  }

  lemma GetPostEnds(s: State, project: string, listing: seq<Issue>, p: int)
    requires Sending(s, project, listing) && p in B.PostIds(s.w.board, project) && s.script != []
    ensures var (r, post) := GetPost(s, p);
            && Ends(s, r, project, 1) && Sending(r, project, listing) && r.w == s.w
            && post.Some? && post.value.status.Active? && Read(r.w, project, p, post.value)
  {
    CallEnds(s, project);
    SendingOpen(s, project, listing);
    GetPostStep(s, project, listing, p);
    StepSends(s, Next(s).0, project, listing, 1);
    hide Inv, Exporting, Plain, Sane, Read, Remembers, OnlyDue, Clear, Ends, Step, Next;
  }

  lemma WalkSends(s: State, project: string, listing: seq<Issue>, p: int, number: int, limit: nat)
    requires Sending(s, project, listing) && p in B.PostIds(s.w.board, project)
    requires 1 <= number <= |s.w.issues| && 1 + 5 * |CommentsIn(s.w.board, {p})| <= |s.script|
    ensures var r := ExportComments(s, project, p, number, None, 0, limit);
            var n := 1 + 5 * |CommentsIn(s.w.board, {p})|;
            Ends(s, r, project, n) && Sending(r, project, listing) && r.w.board == s.w.board
  {
    hide Inv, Exporting, Plain, Sane, Ends, Step, Reach, ExportComments, CommentsIn, Clear;
    SendingOpen(s, project, listing);
    var b, r := s.w.board, ExportComments(s, project, p, number, None, 0, limit);
    ReachedInPost(b, p);
    assert Below(b, project, p, None);
    WalkEnds(s, project, p, number, None, 0, limit);
    EndsWithin(s, r, project, 1 + 5 * |Reach(b, p, None, 0)|, 1 + 5 * |CommentsIn(b, {p})|);
    CommentsStep(s, project, listing, p, number, limit);
    StepSends(s, r, project, listing, 1 + 5 * |CommentsIn(b, {p})|);
  }

  /** What the export of one post takes at most. */
  ghost function PostCalls(b: B.Store, p: int): (n: nat) {
    6 + 5 * |CommentsIn(b, {p})|
  }

  lemma ExportPostEnds(s: State, project: string, listing: seq<Issue>, p: int, limit: nat)
    requires Sending(s, project, listing) && p in B.PostIds(s.w.board, project) && PostCalls(s.w.board, p) <= |s.script|
    ensures var r := ExportPost(s, project, IssueMarkers(project, listing), p, limit);
            && Ends(s, r, project, PostCalls(s.w.board, p)) && Sending(r, project, listing)
            && r.w.board == s.w.board
  {
    hide Sending, Ends, GetPost, EnsureMapping, ExportComments, IssueMarkers, CommentsIn, Read;
    var markers, n := IssueMarkers(project, listing), |CommentsIn(s.w.board, {p})|;
    var (s1, post) := GetPost(s, p);
    GetPostEnds(s, project, listing, p);
    EndsGoes(s, s1, project, 1);
    var (s2, row) := EnsureMapping(s1, project, markers, p, post.value, limit);
    MappingEnds(s1, project, listing, p, post.value, limit);
    EndsGoes(s1, s2, project, 4);
    EndsTransitive(s, s1, s2, project, 1, 4);
    WalkSends(s2, project, listing, p, row.value.number, limit);
    EndsTransitive(s, s2, ExportComments(s2, project, p, row.value.number, None, 0, limit), project, 5, 1 + 5 * n);
  }

  ghost function SetOf(ids: seq<int>): (r: set<int>) {
    set i | 0 <= i < |ids| :: ids[i]
  }

  /** What the export of these posts takes at most. */
  ghost function EachCalls(b: B.Store, ids: seq<int>): (n: nat) {
    6 * |ids| + 5 * |CommentsIn(b, SetOf(ids))|
  }

  lemma SetOfFirst(ids: seq<int>)
    requires Ascending(ids) && ids != []
    ensures SetOf(ids) == {ids[0]} + SetOf(ids[1..]) && {ids[0]} !! SetOf(ids[1..])
  {
    forall x ensures x in SetOf(ids) <==> x in {ids[0]} + SetOf(ids[1..]) {
      if x in SetOf(ids) {
        var i :| 0 <= i < |ids| && x == ids[i];
        if i > 0 { assert ids[1..][i - 1] == x; }
      }
    }
  }

  lemma EachCallsFirst(b: B.Store, ids: seq<int>)
    requires Ascending(ids) && ids != []
    ensures EachCalls(b, ids) == PostCalls(b, ids[0]) + EachCalls(b, ids[1..])
  {
    SetOfFirst(ids);
    hide Ascending, CommentsIn, SetOf;
    CommentsApart(b, {ids[0]}, SetOf(ids[1..]));
  }

  lemma PostsLeft(b: B.Store, project: string, ids: seq<int>)
    requires ActivePosts(b, project, ids) && Ascending(ids) && ids != []
    ensures ids[0] in B.PostIds(b, project) && ActivePosts(b, project, ids[1..]) && Ascending(ids[1..])
  {
    hide B.PostIds;
  }

  lemma {:induction false} ExportEachEnds(s: State, project: string, listing: seq<Issue>, ids: seq<int>, limit: nat)
    requires Sending(s, project, listing) && ActivePosts(s.w.board, project, ids) && Ascending(ids)
    requires EachCalls(s.w.board, ids) <= |s.script|
    ensures var r := ExportEach(s, project, IssueMarkers(project, listing), ids, limit);
            && Ends(s, r, project, EachCalls(s.w.board, ids)) && Sending(r, project, listing)
            && r.w.board == s.w.board
    decreases |ids|
  {
    SendingOpen(s, project, listing);
    hide Sending, Ends, ExportPost, IssueMarkers, EachCalls, PostCalls, ActivePosts, Ascending, B.PostIds, Sane, Clear,
      Open, B.Valid;
    var b, n := s.w.board, EachCalls(s.w.board, ids);
    if ids == [] {
      EndsReflexive(s, project);
      EndsWithin(s, s, project, 0, n);
    } else {
      var markers := IssueMarkers(project, listing);
      EachCallsFirst(b, ids);
      PostsLeft(b, project, ids);
      var t := ExportPost(s, project, markers, ids[0], limit);
      ExportPostEnds(s, project, listing, ids[0], limit);
      EndsGoes(s, t, project, PostCalls(b, ids[0]));
      ExportEachEnds(t, project, listing, ids[1..], limit);
      EndsTransitive(s, t, ExportEach(t, project, markers, ids[1..], limit), project, PostCalls(b, ids[0]),
                     EachCalls(b, ids[1..]));
    }
  }

  ghost function Beyond(b: B.Store, project: string, after: int): (r: set<int>) {
    set p | p in B.PostIds(b, project) && p > after
  }

  /** What exporting the posts beyond the cursor takes at most. */
  ghost function ExportCalls(b: B.Store, project: string, after: int): (n: nat) {
    1 + 7 * |Beyond(b, project, after)| + 5 * |CommentsIn(b, Beyond(b, project, after))|
  }

  ghost predicate PostsFit(b: B.Store, project: string, after: int, page: Page<int>) {
    && Ascending(page.items) && ActivePosts(b, project, page.items)
    && 1 + EachCalls(b, page.items) + CallsBeyond(b, project, page) <= ExportCalls(b, project, after)
    && (page.next.Some? ==> after < page.next.value < b.nextId)
  }

  ghost function CallsBeyond(b: B.Store, project: string, page: Page<int>): (n: nat) {
    if page.next.Some? then ExportCalls(b, project, page.next.value) else 0
  }

  lemma SetOfSize(ids: seq<int>)
    requires Ascending(ids)
    ensures |SetOf(ids)| == |ids|
    decreases |ids|
  {
    if ids != [] {
      var last := |ids| - 1;
      SetOfSize(ids[..last]);
      assert SetOf(ids) == SetOf(ids[..last]) + {ids[last]} by {
        forall x | x in SetOf(ids) ensures x in SetOf(ids[..last]) + {ids[last]} {
          var i :| 0 <= i < |ids| && x == ids[i];
          if i < last { assert ids[..last][i] == x; }
        }
      }
      assert ids[last] !in SetOf(ids[..last]);
    }
  }

  lemma PageOfPostsSplits(b: B.Store, project: string, after: int, page: Page<int>)
    requires B.Valid(b) && IsPage(page, B.PostIds(b, project), after)
    ensures var items, all := SetOf(page.items), Beyond(b, project, after);
            var rest := if page.next.Some? then Beyond(b, project, page.next.value) else {};
            items !! rest && items + rest <= all
    ensures Ascending(page.items) && ActivePosts(b, project, page.items)
    ensures page.next.Some? ==> after < page.next.value < b.nextId && page.items != []
  {
    assert forall i :: 0 <= i < |page.items| ==> page.items[i] in page.items;
  }

  lemma PageOfPostsFits(b: B.Store, project: string, after: int, page: Page<int>)
    requires B.Valid(b) && IsPage(page, B.PostIds(b, project), after)
    ensures PostsFit(b, project, after, page)
  {
    PageOfPostsSplits(b, project, after, page);
    SetOfSize(page.items);
    hide CommentsIn, B.Valid, IsPage, Ascending, ActivePosts, SetOf, Beyond;
    var items, all := SetOf(page.items), Beyond(b, project, after);
    var rest := if page.next.Some? then Beyond(b, project, page.next.value) else {};
    Fits(items, rest, all);
    CommentsApart(b, items, rest);
    CommentsGrow(b, items + rest, all);
  }

  lemma CommentsGrow(b: B.Store, x: set<int>, y: set<int>)
    requires x <= y
    ensures |CommentsIn(b, x)| <= |CommentsIn(b, y)|
  {
    SubsetSize(CommentsIn(b, x), CommentsIn(b, y));
  }

  lemma ListedPosts(s: State, project: string, listing: seq<Issue>, after: int)
    requires Sending(s, project, listing) && s.script != []
    ensures var (r, page) := ListPosts(s, project, after);
            && Ends(s, r, project, 1) && Sending(r, project, listing) && r.w.board == s.w.board
            && PostsFit(r.w.board, project, after, page)
  {
    SendingOpen(s, project, listing);
    CallEnds(s, project);
    ListPostsStep(s, project, listing, after);
    StepSends(s, Next(s).0, project, listing, 1);
    PageMeaning(B.PostIds(s.w.board, project), after, PageSize);
    hide Inv, Exporting, Plain, Sane, Clear, Ends, Step, Next, PageOf, IsPage, PostsFit, B.PostIds, B.Valid;
    PageOfPostsFits(s.w.board, project, after, PageOf(B.PostIds(s.w.board, project), after, PageSize));
  }

  /** One page of posts: the state after it, the page, and what it took at most. */
  lemma PagePostsEnd(s: State, project: string, listing: seq<Issue>, after: int, limit: nat)
    requires Sending(s, project, listing) && ExportCalls(s.w.board, project, after) <= |s.script|
    ensures var (s1, page) := ListPosts(s, project, after);
            var r := ExportEach(s1, project, IssueMarkers(project, listing), page.items, limit);
            var n := 1 + EachCalls(s.w.board, page.items);
            && !s1.halted && PostsFit(s.w.board, project, after, page)
            && Ends(s, r, project, n) && Sending(r, project, listing) && r.w.board == s.w.board
              && |s.script| <= |r.script| + n
  {
    assert s.script != [];
    hide Sending, Ends, ListPosts, ExportEach, IssueMarkers, ExportCalls, EachCalls, CallsBeyond, ActivePosts,
      Ascending, Sane, Clear;
    var (s1, page) := ListPosts(s, project, after);
    ListedPosts(s, project, listing, after);
    EndsGoes(s, s1, project, 1);
    var n := EachCalls(s.w.board, page.items);
    var r := ExportEach(s1, project, IssueMarkers(project, listing), page.items, limit);
    ExportEachEnds(s1, project, listing, page.items, limit);
    EndsTransitive(s, s1, r, project, 1, n);
    EndsGoes(s, r, project, 1 + n);
  }

  lemma SendingGoesOn(s: State, project: string, listing: seq<Issue>)
    requires Sending(s, project, listing)
    ensures !s.halted
  {
    hide Inv, Sane, Exporting, Plain, Clear;
  }

  /** What one page costs, and what the pages after it may cost. */
  lemma PageCosts(b: B.Store, project: string, after: int, page: Page<int>)
    requires PostsFit(b, project, after, page)
    ensures 1 + EachCalls(b, page.items) + CallsBeyond(b, project, page) <= ExportCalls(b, project, after)
    ensures page.next.Some? ==>
              after < page.next.value < b.nextId
                && CallsBeyond(b, project, page) == ExportCalls(b, project, page.next.value)
  {
    hide ExportCalls, EachCalls, Ascending, ActivePosts;
  }

  /** The export of posts halts nowhere, within the calls the board allows for. */
  lemma {:induction false} ExportPostsEnd(s: State, project: string, listing: seq<Issue>, after: int, limit: nat)
    requires Sending(s, project, listing) && ExportCalls(s.w.board, project, after) <= |s.script|
    ensures var r := ExportPosts(s, project, IssueMarkers(project, listing), after, limit);
            && Ends(s, r, project, ExportCalls(s.w.board, project, after)) && Sending(r, project, listing)
            && r.w.board == s.w.board
    decreases s.w.board.nextId - after
  {
    hide Sending, Ends, ListPosts, ExportEach, IssueMarkers, ExportCalls, EachCalls, CallsBeyond, PostsFit, Plain, Inv;
    SendingGoesOn(s, project, listing);
    var b, markers, total := s.w.board, IssueMarkers(project, listing), ExportCalls(s.w.board, project, after);
    var (s1, page) := ListPosts(s, project, after);
    PagePostsEnd(s, project, listing, after, limit);
    PageCosts(b, project, after, page);
    var n := 1 + EachCalls(b, page.items);
    var s2 := ExportEach(s1, project, markers, page.items, limit);
    EndsGoes(s, s2, project, n);
    if page.next.Some? {
      var r := ExportPosts(s2, project, markers, page.next.value, limit);
      ExportPostsEnd(s2, project, listing, page.next.value, limit);
      EndsTransitive(s, s2, r, project, n, ExportCalls(b, project, page.next.value));
      EndsWithin(s, r, project, n + ExportCalls(b, project, page.next.value), total);
    } else {
      EndsWithin(s, s2, project, n, total);
    }
  }

  /** Seven calls for every post of the board, five for every comment, and one more. */
  lemma ExportCallsBound(b: B.Store, project: string, after: int)
    ensures ExportCalls(b, project, after) <= 1 + 7 * |b.posts| + 5 * |b.comments|
  {
    CommentsWithin(b, Beyond(b, project, after));
    SubsetSize(Beyond(b, project, after), b.posts.Keys);
  }
}
