/**
  Quiescence of the relay, second half: an undisturbed attempt that completes leaves a settled world, so the attempt
  after it has nothing to do.
*/
module RelaySettles {
  import opened Core
  import opened Paging
  import opened Marker
  import opened Relay
  import opened RelaySafety
  import opened RelayExport
  import opened RelayRuns
  import opened RelayQuiet
  import RC = RelayComments
  import B = Board

  lemma QuietAllowed(script: seq<Turn>)
    requires Quiet(script)
    ensures AllowedScript(script)
  {
  }

  lemma NextQuiet(s: State)
    requires Quiet(s.script)
    ensures Next(s).0.w == s.w && Quiet(Next(s).0.script)
  {
    NextStill(s);
  }

  // ---- Import of issues leaves the repository alone ---------------------------------------------------------------

  ghost predicate SameRepository(s: State, r: State) {
    Quiet(r.script) && r.w.issues == s.w.issues
  }

  lemma SaveQuiet(s: State, key: RowKey, row: Row)
    requires Quiet(s.script)
    ensures var r := Save(s, key, row);
            && Quiet(r.script)
            && r.w == s.w.(rows := r.w.rows)
            && s.w.rows.Keys <= r.w.rows.Keys
            && (!r.halted ==> key in r.w.rows && r.w.rows[key] == row)
  {
    NextQuiet(s);
    hide Quiet, Conflict;
  }

  lemma CreatePostQuiet(s: State, project: string, issue: Issue)
    requires Quiet(s.script)
    ensures SameRepository(s, CreatePost(s, project, issue).0)
  {
    NextQuiet(s);
    hide Quiet, ReplayKey, BoardPost, B.AddPostKeyed;
  }

  lemma ImportIssueQuiet(s: State, project: string, issue: Issue, limit: nat)
    requires Quiet(s.script)
    ensures SameRepository(s, ImportIssue(s, project, issue, limit))
  {
    hide Quiet, CreatePost, Save, AddUrl, ImportMarked;
    NextQuiet(s);
    var (s1, row) := FindByGitHub(s, RowKey(project, IssueRow, issue.id));
    var (s2, id) := CreatePost(s1, project, issue);
    CreatePostQuiet(s1, project, issue);
    var counted := AddUrl(s2.receipt.(importedPosts := s2.receipt.importedPosts + 1), limit);
    SaveQuiet(s2.(receipt := counted), RowKey(project, IssueRow, issue.id),
              Row(PostItem, id, issue.number, FromGitHub, issue.updatedAt));
  }

  lemma {:induction false} ImportIssuesQuiet(s: State, project: string, issues: seq<Issue>, limit: nat)
    requires Quiet(s.script)
    ensures SameRepository(s, ImportIssues(s, project, issues, limit))
    decreases |issues|
  {
    hide Quiet, ImportIssue;
    if !s.halted && issues != [] {
      ImportIssueQuiet(s, project, issues[0], limit);
      ImportIssuesQuiet(ImportIssue(s, project, issues[0], limit), project, issues[1..], limit);
    }
  }

  // ---- Export leaves the board alone and maps every comment it writes ---------------------------------------------

  /** Issues from position n on were exported, and each of their comments has its row. */
  ghost predicate NewThreaded(w: World, project: string, n: nat) {
    && n <= |w.issues|
    && (forall k :: n <= k < |w.issues| ==>
          w.issues[k].exportOf.Some? && Threaded(w.rows, project, w.issues[k].comments))
  }

  ghost predicate Built(s: State, r: State, project: string, n: nat) {
    && Quiet(r.script) && r.w.board == s.w.board
    && (!r.halted && NewThreaded(s.w, project, n) ==> NewThreaded(r.w, project, n))
  }

  lemma ThreadedGrows(a: map<RowKey, Row>, b: map<RowKey, Row>, project: string, remotes: seq<Remote>)
    requires a.Keys <= b.Keys && Threaded(a, project, remotes)
    ensures Threaded(b, project, remotes)
  {
    forall i | 0 <= i < |remotes| ensures RowKey(project, CommentRow, remotes[i].id) in b {
      assert RowKey(project, CommentRow, remotes[i].id) in a.Keys;
    }
  }

  lemma RowsBuilt(s: State, r: State, project: string, n: nat)
    requires Quiet(r.script) && r.w == s.w.(rows := r.w.rows) && s.w.rows.Keys <= r.w.rows.Keys
    ensures Built(s, r, project, n)
  {
    if NewThreaded(s.w, project, n) {
      forall k | n <= k < |r.w.issues| ensures Threaded(r.w.rows, project, r.w.issues[k].comments) {
        ThreadedGrows(s.w.rows, r.w.rows, project, s.w.issues[k].comments);
      }
    }
  }

  lemma FindQuiet(s: State, project: string, kind: BoardKind, id: int)
    requires Quiet(s.script)
    ensures var (r, row) := FindByBoard(s, project, kind, id);
            && Quiet(r.script) && r.w == s.w
            && (row.Some? ==> Mapped(r.w.rows, project, kind, id))
  {
    NextQuiet(s);
    hide Quiet;
  }

  lemma SaveFindBuilt(s: State, counted: Receipt, key: RowKey, row: Row, receipt: Receipt, project: string, id: int,
      n: nat)
    requires Quiet(s.script)
    ensures var s1 := Save(s.(receipt := counted), key, row);
            var (r, found) := FindByBoard(s1.(receipt := receipt), project, PostItem, id);
            && Built(s, s1, project, n)
            && Built(s, r, project, n) && (found.Some? ==> Mapped(r.w.rows, project, PostItem, id))
  {
    hide Quiet, Built, Save, FindByBoard, Mapped, NewThreaded;
    SaveQuiet(s.(receipt := counted), key, row);
    var s1 := Save(s.(receipt := counted), key, row);
    RowsBuilt(s, s1, project, n);
    FindQuiet(s1.(receipt := receipt), project, PostItem, id);
    RowsBuilt(s, FindByBoard(s1.(receipt := receipt), project, PostItem, id).0, project, n);
  }

  lemma RecoverBuilt(s: State, project: string, p: int, found: Issue, n: nat)
    requires Quiet(s.script)
    ensures var (r, row) := Recover(s, project, p, found);
            Built(s, r, project, n) && (row.Some? ==> Mapped(r.w.rows, project, PostItem, p))
  {
    hide Quiet, Built, Save, FindByBoard, Mapped;
    var key, row := RowKey(project, IssueRow, found.id), Row(PostItem, p, found.number, FromBoard, found.updatedAt);
    var s1 := Save(s, key, row);
    assert s == s.(receipt := s.receipt);
    SaveFindBuilt(s, s.receipt, key, row, s1.receipt.(recovered := s1.receipt.recovered + 1), project, p, n);
  }

  lemma CreateIssueBuilt(s: State, project: string, p: int, title: string, body: string, n: nat)
    requires Quiet(s.script)
    ensures var r := CreateIssue(s, p, title, body).0; Built(s, r, project, n) && Quiet(r.script)
  {
    NextQuiet(s);
    hide Quiet, Parse;
    var w := s.w;
    var issue := Issue(w.nextRemote, |w.issues| + 1, title, body, Parse(body), 0, [], Some(p));
    if NewThreaded(w, project, n) {
      var v := w.(issues := w.issues + [issue], nextRemote := w.nextRemote + 1);
      assert NewThreaded(v, project, n);
    }
    hide NewThreaded;
  }

  lemma BuiltTransitive(s: State, t: State, r: State, project: string, n: nat)
    requires Built(s, t, project, n) && Built(t, r, project, n) && (r.halted || !t.halted)
    ensures Built(s, r, project, n)
  {
  }

  lemma ExportNewBuilt(s: State, project: string, p: int, post: B.Post, limit: nat, n: nat)
    requires Quiet(s.script)
    ensures var (r, row) := ExportNew(s, project, p, post, limit);
            Built(s, r, project, n) && (row.Some? ==> Mapped(r.w.rows, project, PostItem, p))
  {
    hide Quiet, Built, Save, FindByBoard, Mapped, CreateIssue, Marked, PostMarker, AddUrl;
    var body := Marked(post.body, PostMarker(project, p));
    var (s1, issue) := CreateIssue(s, p, post.title, body);
    CreateIssueBuilt(s, project, p, post.title, body, n);
    if !s1.halted {
      var counted := AddUrl(s1.receipt.(exportedPosts := s1.receipt.exportedPosts + 1), limit);
      var key, row := RowKey(project, IssueRow, issue.id), Row(PostItem, p, issue.number, FromBoard, issue.updatedAt);
      var s2 := Save(s1.(receipt := counted), key, row);
      SaveFindBuilt(s1, counted, key, row, s2.receipt, project, p, n);
      assert s2 == s2.(receipt := s2.receipt);
      BuiltTransitive(s, s1, s2, project, n);
      BuiltTransitive(s, s1, FindByBoard(s2, project, PostItem, p).0, project, n);
    }
  }

  lemma BuiltQuiet(s: State, r: State, project: string, n: nat)
    requires Built(s, r, project, n)
    ensures Quiet(r.script) && r.w.board == s.w.board
  {
  }

  lemma EnsureMappingBuilt(s: State, project: string, markers: map<int, Issue>, p: int, post: B.Post, limit: nat,
      n: nat)
    requires Quiet(s.script)
    ensures var (r, row) := EnsureMapping(s, project, markers, p, post, limit);
            Built(s, r, project, n) && (row.Some? ==> Mapped(r.w.rows, project, PostItem, p))
  {
    hide Quiet, Built, Mapped, ExportNew, Recover, FindByBoard;
    FindQuiet(s, project, PostItem, p);
    var (s1, row1) := FindByBoard(s, project, PostItem, p);
    RowsBuilt(s, s1, project, n);
    if !s1.halted && row1.None? {
      if p in markers {
        var (s2, row2) := Recover(s1, project, p, markers[p]);
        RecoverBuilt(s1, project, p, markers[p], n);
        BuiltTransitive(s, s1, s2, project, n);
        BuiltQuiet(s1, s2, project, n);
        if !s2.halted && row2.None? {
          ExportNewBuilt(s2, project, p, post, limit, n);
          BuiltTransitive(s, s2, ExportNew(s2, project, p, post, limit).0, project, n);
        }
      } else {
        ExportNewBuilt(s1, project, p, post, limit, n);
        BuiltTransitive(s, s1, ExportNew(s1, project, p, post, limit).0, project, n);
      }
    }
  }

  // ---- Export of comments -----------------------------------------------------------------------------------------

  /** As NewThreaded, except that the comment with this key may still lack its row. */
  ghost predicate AlmostThreaded(w: World, project: string, n: nat, key: RowKey) {
    && n <= |w.issues|
    && (forall k :: n <= k < |w.issues| ==>
          w.issues[k].exportOf.Some? && AlmostIn(w.rows, project, w.issues[k].comments, key))
  }

  ghost predicate AlmostIn(rows: map<RowKey, Row>, project: string, remotes: seq<Remote>, key: RowKey) {
    forall i :: 0 <= i < |remotes| ==>
      RowKey(project, CommentRow, remotes[i].id) in rows || RowKey(project, CommentRow, remotes[i].id) == key
  }

  lemma RemoteAlmost(w: World, project: string, n: nat, i: nat, remote: Remote)
    requires NewThreaded(w, project, n) && i < |w.issues|
    ensures AlmostThreaded(AppendRemote(w, i, remote), project, n, RowKey(project, CommentRow, remote.id))
  {
    var v := AppendRemote(w, i, remote);
    forall k | n <= k < |v.issues|
      ensures v.issues[k].exportOf.Some?
      ensures AlmostIn(v.rows, project, v.issues[k].comments, RowKey(project, CommentRow, remote.id))
    {
      assert w.issues[k].exportOf.Some? && Threaded(w.rows, project, w.issues[k].comments);
    }
  }

  lemma AlmostDone(v: World, w: World, project: string, n: nat, key: RowKey)
    requires AlmostThreaded(v, project, n, key) && w == v.(rows := w.rows)
    requires v.rows.Keys <= w.rows.Keys && key in w.rows
    ensures NewThreaded(w, project, n)
  {
    forall k | n <= k < |w.issues|
      ensures w.issues[k].exportOf.Some? && Threaded(w.rows, project, w.issues[k].comments) {
      assert AlmostIn(v.rows, project, v.issues[k].comments, key);
      var remotes := w.issues[k].comments;
      forall i | 0 <= i < |remotes| ensures RowKey(project, CommentRow, remotes[i].id) in w.rows {
        assert RowKey(project, CommentRow, remotes[i].id) in v.rows.Keys
          || RowKey(project, CommentRow, remotes[i].id) == key;
      }
    }
  }

  lemma CreateRemoteQuiet(s: State, project: string, number: int, comment: (string, int), body: string, n: nat)
    requires Quiet(s.script)
    ensures var (r, remote) := CreateIssueComment(s, number, comment, body);
            && Quiet(r.script) && r.w.board == s.w.board
            && (!r.halted && NewThreaded(s.w, project, n) ==>
                  AlmostThreaded(r.w, project, n, RowKey(project, CommentRow, remote.id)))
  {
    NextQuiet(s);
    var remote := Remote(s.w.nextRemote, body, Parse(body), 0, Some(comment));
    hide Quiet, Parse;
    if 1 <= number <= |s.w.issues| && NewThreaded(s.w, project, n) {
      RemoteAlmost(s.w, project, n, number - 1, remote);
    }
    hide NewThreaded, AlmostThreaded;
  }

  lemma SaveCommentBuilt(s0: State, s: State, counted: Receipt, project: string, key: RowKey, row: Row, n: nat)
    requires Quiet(s.script) && s.w.board == s0.w.board && key.project == project && row.kind == CommentItem
    requires NewThreaded(s0.w, project, n) ==> AlmostThreaded(s.w, project, n, key)
    ensures var r := Save(s.(receipt := counted), key, row);
            Built(s0, r, project, n) && (!r.halted ==> Mapped(r.w.rows, project, CommentItem, row.boardId))
  {
    SaveQuiet(s.(receipt := counted), key, row);
    hide Quiet, Save, NewThreaded, AlmostThreaded;
    var r := Save(s.(receipt := counted), key, row);
    if !r.halted {
      assert IsRowOf(r.w.rows, key, project, CommentItem, row.boardId);
      if NewThreaded(s0.w, project, n) { AlmostDone(s.w, r.w, project, n, key); }
    }
  }

  lemma ExportCommentBuilt(s: State, project: string, number: int, id: int, c: B.Comment, limit: nat, n: nat)
    requires Quiet(s.script)
    ensures var r := ExportComment(s, project, number, id, c, limit);
            Built(s, r, project, n) && (!r.halted ==> Mapped(r.w.rows, project, CommentItem, id))
  {
    hide Quiet, NewThreaded, AlmostThreaded, Mapped, FindByBoard, CreateIssueComment, Save, AddUrl, Marked,
      CommentMarker;
    FindQuiet(s, project, CommentItem, id);
    var (s1, row) := FindByBoard(s, project, CommentItem, id);
    RowsBuilt(s, s1, project, n);
    FindAnswers(s, project, id);
    if !s1.halted && row.None? {
      var body := Marked(c.body, CommentMarker(project, id, c.parent));
      var (s2, remote) := CreateIssueComment(s1, number, (project, id), body);
      CreateRemoteQuiet(s1, project, number, (project, id), body, n);
      if !s2.halted {
        var counted := AddUrl(s2.receipt.(exportedComments := s2.receipt.exportedComments + 1), limit);
        SaveCommentBuilt(s, s2, counted, project, RowKey(project, CommentRow, remote.id),
                         Row(CommentItem, id, number, FromBoard, remote.updatedAt), n);
      }
    }
  }

  lemma FindAnswers(s: State, project: string, id: int)
    ensures var (r, row) := FindByBoard(s, project, CommentItem, id);
            !r.halted && row.Some? ==> Mapped(r.w.rows, project, CommentItem, id)
  {
  }

  // ---- What the comment walk covers -------------------------------------------------------------------------------

  /** Following parents from c leads to a reply of `parent` beyond the cursor. */
  ghost predicate HangsFrom(b: B.Store, parent: Option<int>, after: int, c: int)
    decreases c
  {
    && c in b.comments && B.CommentValid(b, c)
    && ((b.comments[c].parent == parent && c > after)
        || (b.comments[c].parent.Some? && HangsFrom(b, parent, after, b.comments[c].parent.value)))
  }

  ghost predicate Wanted(b: B.Store, post: int, parent: Option<int>, after: int, c: int) {
    ActiveChain(b, c) && b.comments[c].postId == post && HangsFrom(b, parent, after, c)
  }

  ghost predicate Covered(b: B.Store, rows: map<RowKey, Row>, project: string, post: int, parent: Option<int>,
      after: int) {
    forall c :: Wanted(b, post, parent, after, c) ==> Mapped(rows, project, CommentItem, c)
  }

  lemma CoveredStays(v: World, w: World, project: string, post: int, parent: Option<int>, after: int)
    requires Covered(v.board, v.rows, project, post, parent, after) && Later(v, w) && w.board == v.board
    ensures Covered(w.board, w.rows, project, post, parent, after)
  {
    forall c | Wanted(w.board, post, parent, after, c) ensures Mapped(w.rows, project, CommentItem, c) {
      MappedStays(v, w, project, CommentItem, c);
    }
  }

  /** The reply of `parent` through which c hangs. */
  lemma {:induction false} Branch(b: B.Store, post: int, parent: Option<int>, after: int, c: int) returns (d: int)
    requires B.Valid(b) && Wanted(b, post, parent, after, c)
    ensures ActiveChain(b, d) && b.comments[d].postId == post && b.comments[d].parent == parent && d > after
    ensures c == d || HangsFrom(b, Some(d), 0, c)
    decreases c
  {
    if b.comments[c].parent == parent && c > after {
      d := c;
    } else {
      d := Branch(b, post, parent, after, b.comments[c].parent.value);
      assert B.CommentValid(b, d);
    }
  }

  lemma {:induction false} Regraft(b: B.Store, parent: Option<int>, after: int, d: int, c: int)
    requires d in b.comments && B.CommentValid(b, d) && b.comments[d].parent == parent && d > after
    requires c == d || HangsFrom(b, Some(d), 0, c)
    ensures HangsFrom(b, parent, after, c)
    decreases c
  {
    if c != d && !(b.comments[c].parent == Some(d) && c > 0) {
      Regraft(b, parent, after, d, b.comments[c].parent.value);
    }
  }

  lemma {:induction false} EverythingHangs(b: B.Store, c: int)
    requires ActiveChain(b, c)
    ensures HangsFrom(b, None, 0, c)
    decreases c
  {
    if b.comments[c].parent.Some? { EverythingHangs(b, b.comments[c].parent.value); }
  }

  /** An active item of the page is mapped, and so is everything below it. */
  ghost predicate ItemDone(b: B.Store, rows: map<RowKey, Row>, project: string, post: int, d: int) {
    d in b.comments && b.comments[d].status.Active? ==>
      Mapped(rows, project, CommentItem, d) && Covered(b, rows, project, post, Some(d), 0)
  }

  lemma ActiveIsListed(b: B.Store, post: int, parent: Option<int>, d: int)
    requires B.Valid(b) && ActiveChain(b, d) && b.comments[d].postId == post && b.comments[d].parent == parent
    ensures d in B.CommentIds(b, post, parent)
  {
  }

  lemma PageCovers(b: B.Store, rows: map<RowKey, Row>, project: string, post: int, parent: Option<int>, after: int,
                   page: Page<int>)
    requires B.Valid(b) && IsPage(page, B.CommentIds(b, post, parent), after)
    requires forall d :: d in page.items ==> ItemDone(b, rows, project, post, d)
    requires page.next.Some? ==> Covered(b, rows, project, post, parent, page.next.value)
    ensures Covered(b, rows, project, post, parent, after)
  {
    hide Mapped, Ascending;
    forall c | Wanted(b, post, parent, after, c) ensures Mapped(rows, project, CommentItem, c) {
      hide B.Valid, B.CommentIds;
      var d := Branch(b, post, parent, after, c);
      ActiveIsListed(b, post, parent, d);
      if d in page.items {
        assert ItemDone(b, rows, project, post, d);
        assert c != d ==> Wanted(b, post, Some(d), 0, c);
      } else {
        Regraft(b, parent, page.next.value, d, c);
        assert Wanted(b, post, parent, page.next.value, c);
      }
    }
  }

  // ---- The walks of a completed export ----------------------------------------------------------------------------

  /** An undisturbed stretch of the export phase. */
  ghost predicate Calm(s: State) {
    Safe(s) && Quiet(s.script)
  }

  ghost predicate Run(s: State, r: State, project: string, n: nat) {
    KeptPosts(s, r) && Built(s, r, project, n)
  }

  lemma RunReflexive(s: State, project: string, n: nat)
    requires Calm(s)
    ensures Run(s, s, project, n)
  {
    LaterReflexive(s.w);
  }

  lemma RunTransitive(s: State, t: State, r: State, project: string, n: nat)
    requires Calm(s) && Run(s, t, project, n) && Run(t, r, project, n) && (r.halted || !t.halted)
    ensures Run(s, r, project, n)
  {
    KeptTransitive(s, t, r);
    BuiltTransitive(s, t, r, project, n);
  }

  lemma RunCalm(s: State, r: State, project: string, n: nat)
    requires Run(s, r, project, n)
    ensures Calm(r) && r.w.board == s.w.board && Later(s.w, r.w)
  {
  }

  ghost predicate ItemsDone(w: World, project: string, post: int, ids: seq<int>) {
    forall i :: 0 <= i < |ids| ==> ItemDone(w.board, w.rows, project, post, ids[i])
  }

  lemma ItemDoneStays(v: World, w: World, project: string, post: int, d: int)
    requires ItemDone(v.board, v.rows, project, post, d) && Later(v, w) && w.board == v.board
    ensures ItemDone(w.board, w.rows, project, post, d)
  {
    hide Later;
    if d in v.board.comments && v.board.comments[d].status.Active? {
      MappedStays(v, w, project, CommentItem, d);
      CoveredStays(v, w, project, post, Some(d), 0);
    }
  }

  lemma FirstDone(w: World, project: string, post: int, ids: seq<int>)
    requires ids != [] && ItemDone(w.board, w.rows, project, post, ids[0]) && ItemsDone(w, project, post, ids[1..])
    ensures ItemsDone(w, project, post, ids)
  {
    forall i | 0 <= i < |ids| ensures ItemDone(w.board, w.rows, project, post, ids[i]) {
      if i > 0 { assert ids[1..][i - 1] == ids[i]; }
    }
    hide ItemDone;
  }

  lemma ListedCalm(s: State, post: int, parent: Option<int>, after: int, project: string, n: nat)
    requires Calm(s)
    ensures var (r, page, rows) := ListComments(s, post, parent, after);
            && Run(s, r, project, n)
            && (!r.halted ==>
                  rows == r.w.board.comments && page == PageOf(B.CommentIds(r.w.board, post, parent), after, PageSize))
  {
    hide Inv, Later, SamePosts, AllowedScript, PageOf, B.CommentIds, Listable;
    NextKept(s);
    NextQuiet(s);
    RowsBuilt(s, Next(s).0, project, n);
    RowsBuilt(s, Halt(Next(s).0), project, n);
    hide Built;
  }

  lemma CommentCalm(s: State, project: string, number: int, id: int, c: B.Comment, limit: nat, n: nat)
    requires Calm(s)
    ensures var r := ExportComment(s, project, number, id, c, limit);
            Run(s, r, project, n) && (!r.halted ==> Mapped(r.w.rows, project, CommentItem, id))
  {
    RC.ExportCommentKept(s, project, number, id, c, limit);
    ExportCommentBuilt(s, project, number, id, c, limit, n);
    hide Inv, Later, SamePosts, AllowedScript, Quiet, Built, ExportComment, Mapped;
  }

  lemma {:induction false} WalkCovers(s: State, project: string, post: int, number: int, parent: Option<int>,
                                      after: int, limit: nat, n: nat)
    requires Calm(s)
    ensures var r := ExportComments(s, project, post, number, parent, after, limit);
            && Run(s, r, project, n)
            && (!r.halted ==> Covered(r.w.board, r.w.rows, project, post, parent, after))
    decreases |s.script|, 0
  {
    hide Calm, Run, ListComments, ExportReplies, ItemsDone, Covered, PageOf, B.CommentIds, Later;
    RunReflexive(s, project, n);
    if !s.halted {
      var (s1, page, rows) := ListComments(s, post, parent, after);
      ListedCalm(s, post, parent, after, project, n);
      if !s1.halted {
        RunCalm(s, s1, project, n);
        var s2 := ExportReplies(s1, project, post, number, page.items, rows, limit);
        RepliesCover(s1, project, post, number, page.items, limit, n);
        RunTransitive(s, s1, s2, project, n);
        if !s2.halted {
          RunCalm(s1, s2, project, n);
          if page.next.None? {
            Unchanged(s2);
            PageEnds(s2.w, s2.w, project, post, parent, after, page);
          } else {
            var r := ExportComments(s2, project, post, number, parent, page.next.value, limit);
            WalkCovers(s2, project, post, number, parent, page.next.value, limit, n);
            RunTransitive(s, s2, r, project, n);
            RunCalm(s2, r, project, n);
            if !r.halted { PageEnds(s2.w, r.w, project, post, parent, after, page); }
          }
        }
      }
    }
  }

  /** What was done for the items of a page stays done while the rest of the list is walked. */
  lemma PageEnds(v: World, w: World, project: string, post: int, parent: Option<int>, after: int, page: Page<int>)
    requires B.Valid(w.board) && w.board == v.board && Later(v, w) && ItemsDone(v, project, post, page.items)
    requires page == PageOf(B.CommentIds(v.board, post, parent), after, PageSize)
    requires page.next.Some? ==> Covered(w.board, w.rows, project, post, parent, page.next.value)
    ensures Covered(w.board, w.rows, project, post, parent, after)
  {
    PageMeaning(B.CommentIds(v.board, post, parent), after, PageSize);
    hide PageOf, B.CommentIds, Later, ItemDone, Covered, IsPage, B.Valid;
    forall d | d in page.items ensures ItemDone(w.board, w.rows, project, post, d) {
      ItemDoneStays(v, w, project, post, d);
    }
    PageCovers(w.board, w.rows, project, post, parent, after, page);
  }

  lemma Unchanged(s: State)
    requires Calm(s)
    ensures Later(s.w, s.w)
  {
    LaterReflexive(s.w);
  }

  lemma ValidBoard(s: State)
    requires Calm(s)
    ensures B.Valid(s.w.board)
  {
  }

  lemma {:induction false} RepliesCover(s: State, project: string, post: int, number: int, ids: seq<int>, limit: nat,
      n: nat)
    requires Calm(s)
    ensures var r := ExportReplies(s, project, post, number, ids, s.w.board.comments, limit);
            && Run(s, r, project, n)
            && (!r.halted ==> ItemsDone(r.w, project, post, ids) && B.Valid(r.w.board))
    decreases |s.script|, 1 + |ids|
  {
    hide Calm, Run, ExportComment, ExportComments, ItemsDone, ItemDone, Covered, Later, B.Valid, Mapped;
    RunReflexive(s, project, n);
    ValidBoard(s);
    NothingToDo(s.w, project, post);
    if !s.halted && ids != [] {
      var rows := s.w.board.comments;
      var r := ExportReplies(s, project, post, number, ids, rows, limit);
      if !(ids[0] in rows && rows[ids[0]].status.Active?) {
        RepliesCover(s, project, post, number, ids[1..], limit, n);
        RunCalm(s, r, project, n);
        Inactive(r.w, project, post, ids[0]);
        if !r.halted { FirstDone(r.w, project, post, ids); }
      } else {
        var s1 := ExportComment(s, project, number, ids[0], rows[ids[0]], limit);
        CommentCalm(s, project, number, ids[0], rows[ids[0]], limit, n);
        if !s1.halted {
          RunCalm(s, s1, project, n);
          var s2 := ExportComments(s1, project, post, number, Some(ids[0]), 0, limit);
          WalkCovers(s1, project, post, number, Some(ids[0]), 0, limit, n);
          RunCalm(s1, s2, project, n);
          RunTransitive(s, s1, s2, project, n);
          RepliesCover(s2, project, post, number, ids[1..], limit, n);
          RunTransitive(s, s2, r, project, n);
          if !r.halted {
            RunCalm(s2, r, project, n);
            RestDone(s1.w, s2.w, r.w, project, post, ids);
          }
        }
      }
    }
  }

  lemma NothingToDo(w: World, project: string, post: int)
    ensures ItemsDone(w, project, post, [])
  {
  }

  lemma Inactive(w: World, project: string, post: int, d: int)
    ensures !(d in w.board.comments && w.board.comments[d].status.Active?)
            ==> ItemDone(w.board, w.rows, project, post, d)
  {
  }

  lemma RestDone(u: World, v: World, w: World, project: string, post: int, ids: seq<int>)
    requires ids != [] && Later(u, v) && Later(v, w) && v.board == u.board && w.board == v.board
    requires Mapped(u.rows, project, CommentItem, ids[0])
    requires Covered(v.board, v.rows, project, post, Some(ids[0]), 0)
    requires ItemsDone(w, project, post, ids[1..])
    ensures ItemsDone(w, project, post, ids)
  {
    MappedStays(u, v, project, CommentItem, ids[0]);
    hide Later, Mapped, Covered;
    assert ItemDone(v.board, v.rows, project, post, ids[0]);
    ItemDoneStays(v, w, project, post, ids[0]);
    FirstDone(w, project, post, ids);
  }
}
