/** Crash safety of the relay for posts: what every attempt keeps, stopped wherever it is stopped. */
module RelaySafety {
  import opened Core
  import opened Paging
  import opened Text
  import opened Marker
  import opened Relay
  import B = Board

  // ---- What users do ----------------------------------------------------------------------------------------------

  /** No suffix starts a marker. */
  predicate MarkerFree(body: string) {
    body == "" || (!(Prefix <= body) && MarkerFree(body[1..]))
  }

  lemma {:induction false} MarkerFreeMeaning(body: string)
    requires MarkerFree(body)
    ensures !Contains(body, Prefix)
    decreases |body|
  {
    if body != "" {
      MarkerFreeMeaning(body[1..]);
      forall i | 0 <= i <= |body| ensures !OccursAt(body, Prefix, i) {
        if i == 0 {
          assert |Prefix| <= |body| ==> body[0..|Prefix|] == body[..|Prefix|];
        } else {
          assert !OccursAt(body[1..], Prefix, i - 1);
          if i + |Prefix| <= |body| { assert body[1..][i - 1..i - 1 + |Prefix|] == body[i..i + |Prefix|]; }
        }
      }
    }
  }

  /** Keys of this form belong to the relay. */
  predicate UserKey(key: string) {
    !("github-relay:" <= key)
  }

  /** Users write marker-free posts and do not take the relay's replay keys; issues and comments are free. */
  predicate Allowed(op: UserOp) {
    match op
    case OnBoard(OpPost(_, _, body, _, _)) => MarkerFree(body)
    case OnBoard(OpPostKeyed(_, _, body, _, _, key)) => MarkerFree(body) && UserKey(key)
    case _ => true
  }

  predicate AllAllowed(ops: seq<UserOp>) {
    forall i :: 0 <= i < |ops| ==> Allowed(ops[i])
  }

  predicate AllowedScript(script: seq<Turn>) {
    forall i :: 0 <= i < |script| ==> AllAllowed(script[i].before)
  }

  // ---- Invariant --------------------------------------------------------------------------------------------------

  ghost predicate IssuesOk(w: World) {
    && 1 <= w.nextRemote
    && (forall i :: 0 <= i < |w.issues| ==> w.issues[i].number == i + 1 && 1 <= w.issues[i].id < w.nextRemote)
    && (forall i, j :: 0 <= i < j < |w.issues| ==> w.issues[i].id != w.issues[j].id)
    && (forall i :: 0 <= i < |w.issues| ==> RemotesOk(w.issues[i].comments, w.nextRemote))
  }

  ghost predicate RemotesOk(remotes: seq<Remote>, next: int) {
    forall i :: 0 <= i < |remotes| ==> remotes[i].id < next
  }

  /** The issue at position k has this id, and its marker asks for an import into the project. */
  ghost predicate ImportSource(w: World, k: int, project: string, id: int) {
    0 <= k < |w.issues| && w.issues[k].id == id && ImportMarked(w.issues[k], project)
  }

  ghost predicate ImportOk(w: World, p: int)
    requires p in w.imported
  {
    var (project, issue) := w.imported[p];
    && p in w.board.posts && w.board.posts[p].project == project
    && ReplayKey(project, IssueKind, issue) in w.board.postKeys
    && w.board.postKeys[ReplayKey(project, IssueKind, issue)] == p
    && exists k :: ImportSource(w, k, project, issue)
  }

  ghost predicate BoardOk(w: World) {
    && B.Valid(w.board) && InRange(w.board)
    && (forall p :: p in w.board.posts && p !in w.imported ==> MarkerFree(w.board.posts[p].body))
    && (forall p :: p in w.imported ==> ImportOk(w, p))
    && (forall key :: key in w.board.postKeys && !UserKey(key) ==> KeyOk(w, key))
  }

  /** A replay key of the relay is held by the post it created for the issue the key names. */
  ghost predicate KeyOk(w: World, key: string)
    requires key in w.board.postKeys
  {
    var p := w.board.postKeys[key];
    p in w.imported && key == ReplayKey(w.imported[p].0, IssueKind, w.imported[p].1)
  }

  /** An issue created by the relay says which post it is for. */
  ghost predicate ExportOk(w: World, k: int)
    requires 0 <= k < |w.issues| && w.issues[k].exportOf.Some?
  {
    var p := w.issues[k].exportOf.value;
    && p in w.board.posts && p !in w.imported
    && w.issues[k].tag == (Marker(w.board.posts[p].project, p, 0, 0), true)
  }

  ghost predicate ExportsOk(w: World) {
    && (forall k :: 0 <= k < |w.issues| && w.issues[k].exportOf.Some? ==> ExportOk(w, k))
    && (forall j, k :: 0 <= j < k < |w.issues| && w.issues[j].exportOf.Some? ==>
          w.issues[j].exportOf != w.issues[k].exportOf)
  }

  /** The row of an issue agrees with the issue's marker: it was recovered or exported, or else imported. */
  ghost predicate RowAgrees(w: World, key: RowKey, row: Row, k: int) {
    && 0 <= k < |w.issues| && w.issues[k].id == key.id && row.number == w.issues[k].number
    && row.kind.PostItem? && row.boardId in w.board.posts
    && var (m, marked) := w.issues[k].tag;
       && marked && m.project == key.project
       && (m.post > 0 ==> row.boardId == m.post && row.boardId !in w.imported)
       && (m.post <= 0 ==> row.boardId in w.imported && w.imported[row.boardId] == (key.project, key.id))
  }

  ghost predicate RowOk(w: World, key: RowKey)
    requires key in w.rows
  {
    && key.id < w.nextRemote
    && (key.kind.IssueRow? ==> exists k :: RowAgrees(w, key, w.rows[key], k))
    && (key.kind.CommentRow? ==> w.rows[key].kind.CommentItem?)
  }

  /** Both unique constraints of the table: rows are keyed by GitHub item, and board items repeat no more. */
  ghost predicate TableOk(rows: map<RowKey, Row>) {
    forall a, b :: (a in rows && b in rows && a.project == b.project
                    && rows[a].kind == rows[b].kind && rows[a].boardId == rows[b].boardId) ==> a == b
  }

  ghost predicate Inv(w: World) {
    && IssuesOk(w) && BoardOk(w) && ExportsOk(w)
    && (forall key :: key in w.rows ==> RowOk(w, key))
    && TableOk(w.rows)
  }

  // ---- What later worlds keep -------------------------------------------------------------------------------------

  ghost predicate SameIssue(a: Issue, b: Issue) {
    a.id == b.id && a.number == b.number && a.exportOf == b.exportOf && a.tag == b.tag
  }

  ghost predicate Later(v: World, w: World) {
    && B.Extends(v.board, w.board)
    && v.nextRemote <= w.nextRemote
    && |v.issues| <= |w.issues|
    && (forall i :: 0 <= i < |v.issues| ==> SameIssue(v.issues[i], w.issues[i]))
    && (forall key :: key in v.rows ==>
          key in w.rows && w.rows[key].kind == v.rows[key].kind && w.rows[key].boardId == v.rows[key].boardId)
    && (forall p :: p in v.imported ==> p in w.imported && w.imported[p] == v.imported[p])
  }

  /** Nothing about posts was recorded: no import, no export, no row of an issue. */
  ghost predicate SamePosts(v: World, w: World) {
    && w.imported == v.imported
    && (forall i :: |v.issues| <= i < |w.issues| ==> w.issues[i].exportOf.None?)
    && (forall key: RowKey :: key.kind.IssueRow? ==>
          (key in v.rows <==> key in w.rows) && (key in v.rows ==> v.rows[key] == w.rows[key]))
  }

  lemma LaterReflexive(w: World)
    requires B.Valid(w.board)
    ensures Later(w, w) && SamePosts(w, w)
  {
  }

  lemma LaterTransitive(u: World, v: World, w: World)
    requires B.Valid(u.board) && B.Valid(v.board) && Later(u, v) && Later(v, w)
    ensures Later(u, w)
    ensures SamePosts(u, v) && SamePosts(v, w) ==> SamePosts(u, w)
  {
    B.ExtendsTransitive(u.board, v.board, w.board);
    forall i | 0 <= i < |u.issues| ensures SameIssue(u.issues[i], w.issues[i]) {
      assert SameIssue(u.issues[i], v.issues[i]);
      assert SameIssue(v.issues[i], w.issues[i]);
    }
    if SamePosts(u, v) && SamePosts(v, w) {
      forall i | |u.issues| <= i < |w.issues| ensures w.issues[i].exportOf.None? {
        if i < |v.issues| { assert SameIssue(v.issues[i], w.issues[i]); }
      }
    }
  }

  // ---- Pieces of the invariant under change ------------------------------------------------------------------------

  /** Marks of the old world carry over when issues keep id, number, marker and history. */
  lemma RowsCarry(v: World, w: World)
    requires forall key :: key in v.rows ==> RowOk(v, key)
    requires Later(v, w) && w.rows == v.rows && w.imported == v.imported
    ensures forall key :: key in w.rows ==> RowOk(w, key)
  {
    forall key | key in w.rows ensures RowOk(w, key) {
      assert RowOk(v, key);
      if key.kind.IssueRow? {
        var k :| RowAgrees(v, key, v.rows[key], k);
        assert SameIssue(v.issues[k], w.issues[k]);
        assert RowAgrees(w, key, w.rows[key], k);
      }
    }
  }

  lemma ImportsCarry(v: World, w: World, p: int)
    requires p in v.imported && ImportOk(v, p) && Later(v, w)
    ensures p in w.imported && ImportOk(w, p)
  {
    var (project, issue) := v.imported[p];
    var k :| ImportSource(v, k, project, issue);
    assert SameIssue(v.issues[k], w.issues[k]);
    assert ImportSource(w, k, project, issue);
  }

  lemma ExportsCarry(v: World, w: World)
    requires ExportsOk(v) && Later(v, w) && w.imported == v.imported
    requires forall i :: |v.issues| <= i < |w.issues| ==> w.issues[i].exportOf.None?
    ensures ExportsOk(w)
  {
    forall k | 0 <= k < |w.issues| && w.issues[k].exportOf.Some? ensures ExportOk(w, k) {
      assert SameIssue(v.issues[k], w.issues[k]);
      assert ExportOk(v, k);
    }
    forall j, k | 0 <= j < k < |w.issues| && w.issues[j].exportOf.Some?
      ensures w.issues[j].exportOf != w.issues[k].exportOf
    {
      assert SameIssue(v.issues[j], w.issues[j]);
      if k < |v.issues| { assert SameIssue(v.issues[k], w.issues[k]); }
    }
  }

  /** A board write by a user, or one that only adds comments, keeps what is known about posts. */
  lemma BoardWrite(v: World, board: B.Store)
    requires Inv(v) && B.Valid(board) && InRange(board) && B.Extends(v.board, board)
    requires forall p :: p in board.posts && p !in v.imported ==> MarkerFree(board.posts[p].body)
    requires forall key :: key in board.postKeys && key !in v.board.postKeys ==> UserKey(key)
    ensures Inv(v.(board := board)) && Later(v, v.(board := board)) && SamePosts(v, v.(board := board))
  {
    var w := v.(board := board);
    assert forall i :: 0 <= i < |v.issues| ==> SameIssue(v.issues[i], w.issues[i]);
    assert Later(v, w);
    forall p | p in w.imported ensures ImportOk(w, p) { assert ImportOk(v, p); ImportsCarry(v, w, p); }
    forall key | key in w.board.postKeys && !UserKey(key) ensures KeyOk(w, key) { assert KeyOk(v, key); }
    ExportsCarry(v, w);
    RowsCarry(v, w);
  }

  /** Issue changes that keep ids, markers and history, or append an issue without history. */
  lemma IssueWrite(v: World, issues: seq<Issue>, nextRemote: int)
    requires Inv(v) && IssuesOk(v.(issues := issues, nextRemote := nextRemote))
    requires v.nextRemote <= nextRemote && |v.issues| <= |issues|
    requires forall i :: 0 <= i < |v.issues| ==> SameIssue(v.issues[i], issues[i])
    requires forall i :: |v.issues| <= i < |issues| ==> issues[i].exportOf.None?
    ensures var w := v.(issues := issues, nextRemote := nextRemote);
            Inv(w) && Later(v, w) && SamePosts(v, w)
  {
    var w := v.(issues := issues, nextRemote := nextRemote);
    assert Later(v, w);
    forall p | p in w.imported ensures ImportOk(w, p) { assert ImportOk(v, p); ImportsCarry(v, w, p); }
    forall key | key in w.board.postKeys && !UserKey(key) ensures KeyOk(w, key) { assert KeyOk(v, key); }
    ExportsCarry(v, w);
    RowsCarry(v, w);
  }

  // ---- Users and turns --------------------------------------------------------------------------------------------

  lemma UserPosts(w: World, op: B.Op, p: int)
    requires BoardOk(w) && Allowed(OnBoard(op)) && p in B.Apply(w.board, op).posts && p !in w.imported
    ensures MarkerFree(B.Apply(w.board, op).posts[p].body)
  {
    hide MarkerFree, ReplayKey, ImportOk, KeyOk;
    if p in w.board.posts {
      if B.Apply(w.board, op).posts[p] != w.board.posts[p] { ScrubbedBody(w.board, op, p); }
    }
  }

  lemma UserKeys(b: B.Store, op: B.Op, key: string)
    requires Allowed(OnBoard(op)) && key in B.Apply(b, op).postKeys && key !in b.postKeys
    ensures UserKey(key)
  {
    hide MarkerFree, UserKey;
  }

  lemma UserBoardOp(w: World, op: B.Op)
    requires Inv(w) && Allowed(OnBoard(op))
    ensures var v := ApplyUser(w, OnBoard(op)); Inv(v) && Later(w, v) && SamePosts(w, v) && v.rows == w.rows
  {
    B.ApplyValid(w.board, op);
    LaterReflexive(w);
    hide Inv, Later, SamePosts, Allowed, MarkerFree, UserKey, B.Apply, B.Valid, B.Extends, InRange;
    var board := B.Apply(w.board, op);
    if InRange(board) {
      forall p | p in board.posts && p !in w.imported ensures MarkerFree(board.posts[p].body) {
        InvBoard(w);
        UserPosts(w, op, p);
      }
      forall key | key in board.postKeys && key !in w.board.postKeys
        ensures UserKey(key) { UserKeys(w.board, op, key); }
      BoardWrite(w, board);
    }
  }

  lemma InvBoard(w: World)
    requires Inv(w)
    ensures BoardOk(w)
  {
  }

  lemma EmptyBody()
    ensures MarkerFree("")
  {
  }

  /** A post that changes is scrubbed, so its body becomes empty. */
  lemma ScrubbedBody(s: B.Store, op: B.Op, p: int)
    requires B.Valid(s) && p in s.posts && p in B.Apply(s, op).posts && B.Apply(s, op).posts[p] != s.posts[p]
    ensures B.Apply(s, op).posts[p].body == "" && MarkerFree("")
  {
    EmptyBody();
  }

  /** One issue is replaced by a version with the same id, number, marker and history. */
  lemma IssueReplaced(w: World, v: World, i: nat, issue: Issue)
    requires Inv(w) && i < |w.issues| && SameIssue(w.issues[i], issue) && w.nextRemote <= v.nextRemote
    requires RemotesOk(issue.comments, v.nextRemote)
    requires v == w.(issues := w.issues[i := issue], nextRemote := v.nextRemote)
    ensures Inv(v) && Later(w, v) && SamePosts(w, v)
  {
    var issues := w.issues[i := issue];
    assert forall j :: 0 <= j < |issues| ==> SameIssue(w.issues[j], issues[j]);
    IssueWrite(w, issues, v.nextRemote);
  }

  lemma IssueAppended(w: World, issue: Issue)
    requires Inv(w) && issue.id == w.nextRemote && issue.number == |w.issues| + 1 && issue.exportOf.None?
    requires issue.comments == []
    ensures var v := w.(issues := w.issues + [issue], nextRemote := w.nextRemote + 1);
            Inv(v) && Later(w, v) && SamePosts(w, v)
  {
    IssueWrite(w, w.issues + [issue], w.nextRemote + 1);
  }

  lemma UserEdit(w: World, i: nat, title: string, body: string, at: int)
    requires Inv(w) && i < |w.issues| && Parse(body) == w.issues[i].tag
    ensures var issue := w.issues[i].(title := title, body := body, updatedAt := at);
            var v := w.(issues := w.issues[i := issue]);
            Inv(v) && Later(w, v) && SamePosts(w, v)
  {
    var issue := w.issues[i].(title := title, body := body, updatedAt := at);
    IssueReplaced(w, w.(issues := w.issues[i := issue]), i, issue);
  }

  /** A comment, by a user or by the relay, arrives on an issue. */
  lemma RemoteAppended(w: World, i: nat, remote: Remote)
    requires Inv(w) && i < |w.issues| && remote.id == w.nextRemote
    ensures var v := AppendRemote(w, i, remote); Inv(v) && Later(w, v) && SamePosts(w, v)
  {
    var issue := w.issues[i].(comments := w.issues[i].comments + [remote]);
    IssueReplaced(w, AppendRemote(w, i, remote), i, issue);
  }

  lemma OpenStep(w: World, title: string, body: string, at: int)
    requires Inv(w)
    ensures var v := ApplyUser(w, OpenIssue(title, body, at));
            Inv(v) && Later(w, v) && SamePosts(w, v) && v.rows == w.rows
  {
    hide Inv, Later, SamePosts, Parse;
    IssueAppended(w, Issue(w.nextRemote, |w.issues| + 1, title, body, Parse(body), at, [], None));
  }

  lemma ReplyStep(w: World, i: nat, body: string, at: int)
    requires Inv(w)
    ensures var v := ApplyUser(w, Reply(i, body, at));
            Inv(v) && Later(w, v) && SamePosts(w, v) && v.rows == w.rows
  {
    if i < |w.issues| {
      RemoteAppended(w, i, Remote(w.nextRemote, body, Parse(body), at, None));
    } else {
      LaterReflexive(w);
    }
  }

  lemma UserStep(w: World, op: UserOp)
    requires Inv(w) && Allowed(op)
    ensures var v := ApplyUser(w, op); Inv(v) && Later(w, v) && SamePosts(w, v) && v.rows == w.rows
  {
    match op
    case OnBoard(op) => UserBoardOp(w, op);
    case OpenIssue(title, body, at) => OpenStep(w, title, body, at);
    case EditIssue(i, title, body, at) => EditStep(w, i, title, body, at);
    case Reply(i, body, at) => ReplyStep(w, i, body, at);
  }

  lemma EditStep(w: World, i: nat, title: string, body: string, at: int)
    requires Inv(w)
    ensures var v := ApplyUser(w, EditIssue(i, title, body, at));
            Inv(v) && Later(w, v) && SamePosts(w, v) && v.rows == w.rows
  {
    if i < |w.issues| && Parse(body) == w.issues[i].tag {
      UserEdit(w, i, title, body, at);
    } else {
      LaterReflexive(w);
    }
  }

  lemma {:induction false} UserSteps(w: World, ops: seq<UserOp>)
    requires Inv(w) && AllAllowed(ops)
    ensures var v := ApplyUsers(w, ops); Inv(v) && Later(w, v) && SamePosts(w, v) && v.rows == w.rows
    decreases |ops|
  {
    LaterReflexive(w);
    if ops != [] {
      UserStep(w, ops[0]);
      var v := ApplyUser(w, ops[0]);
      UserSteps(v, ops[1..]);
      LaterTransitive(w, v, ApplyUsers(w, ops));
    }
  }

  /** What every call keeps, whatever its outcome, as far as users are concerned. */
  ghost predicate Safe(s: State) {
    Inv(s.w) && AllowedScript(s.script)
  }

  ghost predicate Kept(s: State, r: State) {
    Safe(r) && Later(s.w, r.w)
  }

  ghost predicate KeptPosts(s: State, r: State) {
    Kept(s, r) && SamePosts(s.w, r.w)
  }

  lemma KeptTransitive(s: State, t: State, r: State)
    requires Safe(s) && Kept(s, t) && Kept(t, r)
    ensures Kept(s, r)
    ensures KeptPosts(s, t) && KeptPosts(t, r) ==> KeptPosts(s, r)
  {
    LaterTransitive(s.w, t.w, r.w);
  }

  lemma NextKept(s: State)
    requires Safe(s)
    ensures KeptPosts(s, Next(s).0) && Next(s).0.w.rows == s.w.rows
    ensures Next(s).0.receipt == s.receipt
  {
    LaterReflexive(s.w);
    if !s.halted && s.script != [] {
      UserSteps(s.w, s.script[0].before);
      assert AllowedScript(s.script[1..]);
    }
  }

  // ---- Writing a row ----------------------------------------------------------------------------------------------

  lemma PostRowWrite(v: World, key: RowKey, row: Row, k: int)
    requires Inv(v) && key.kind.IssueRow? && RowAgrees(v, key, row, k) && !Conflict(v.rows, key, row)
    ensures var w := v.(rows := v.rows[key := row]); Inv(w) && Later(v, w)
  {
    if key in v.rows {
      assert RowOk(v, key);
      var j :| RowAgrees(v, key, v.rows[key], j);
      SameImportPost(v, key, row, v.rows[key], k, j);
    }
    RowWrite(v, key, row);
    var w := v.(rows := v.rows[key := row]);
    assert w.rows[key] == row && RowAgrees(w, key, w.rows[key], k);
    assert RowOk(w, key);
    RowsAfterWrite(v, w, key, row);
    TableWrite(v.rows, key, row);
  }

  lemma CommentRowWrite(v: World, key: RowKey, row: Row)
    requires Inv(v) && key.kind.CommentRow? && row.kind.CommentItem? && key !in v.rows && key.id < v.nextRemote
    requires !Conflict(v.rows, key, row)
    ensures var w := v.(rows := v.rows[key := row]); Inv(w) && Later(v, w) && SamePosts(v, w)
  {
    RowWrite(v, key, row);
    var w := v.(rows := v.rows[key := row]);
    assert RowOk(w, key);
    RowsAfterWrite(v, w, key, row);
    TableWrite(v.rows, key, row);
  }

  /** Everything but the table itself is untouched by a row that keeps the board item of its key. */
  lemma RowWrite(v: World, key: RowKey, row: Row)
    requires Inv(v)
    requires key in v.rows ==> v.rows[key].kind == row.kind && v.rows[key].boardId == row.boardId
    ensures var w := v.(rows := v.rows[key := row]);
            IssuesOk(w) && BoardOk(w) && ExportsOk(w) && Later(v, w)
  {
    hide MarkerFree, UserKey, ReplayKey, ImportMarked, RowOk, TableOk, InRange;
    var w := v.(rows := v.rows[key := row]);
    assert forall i :: 0 <= i < |v.issues| ==> SameIssue(v.issues[i], w.issues[i]);
    assert Later(v, w);
    forall p | p in w.imported ensures ImportOk(w, p) { assert ImportOk(v, p); ImportsCarry(v, w, p); }
    forall q | q in w.board.postKeys && !UserKey(q) ensures KeyOk(w, q) { assert KeyOk(v, q); }
    ExportsCarry(v, w);
  }

  lemma RowsAfterWrite(v: World, w: World, key: RowKey, row: Row)
    requires w == v.(rows := v.rows[key := row])
    requires forall k :: k in v.rows ==> RowOk(v, k)
    requires RowOk(w, key)
    ensures forall k :: k in w.rows ==> RowOk(w, k)
  {
    forall other | other in w.rows && other != key ensures RowOk(w, other) {
      assert RowOk(v, other);
      if other.kind.IssueRow? {
        var j :| RowAgrees(v, other, v.rows[other], j);
        assert RowAgrees(w, other, w.rows[other], j);
      }
    }
  }

  lemma TableWrite(rows: map<RowKey, Row>, key: RowKey, row: Row)
    requires TableOk(rows) && !Conflict(rows, key, row)
    ensures TableOk(rows[key := row])
  {
    assert forall b :: b in rows && b != key ==> !IsRowOf(rows, b, key.project, row.kind, row.boardId);
  }

  /** Two rows that agree with one issue name one board post. */
  lemma SameImportPost(v: World, key: RowKey, a: Row, b: Row, k: int, j: int)
    requires Inv(v) && RowAgrees(v, key, a, k) && RowAgrees(v, key, b, j)
    ensures j == k && a.boardId == b.boardId && a.kind == b.kind
  {
    assert j == k;
    var (m, marked) := v.issues[k].tag;
    if m.post <= 0 {
      assert ImportOk(v, a.boardId) && ImportOk(v, b.boardId);
    }
  }

  // ---- One attempt: what the listing at its start guarantees -------------------------------------------------------

  ghost predicate SameHistory(v: World, w: World) {
    && w.imported == v.imported
    && (forall i :: |v.issues| <= i < |w.issues| ==> w.issues[i].exportOf.None?)
  }

  ghost predicate Lists(w: World, listing: seq<Issue>) {
    && |listing| <= |w.issues|
    && (forall i :: 0 <= i < |listing| ==> SameIssue(listing[i], w.issues[i]))
  }

  ghost predicate InListing(listing: seq<Issue>, id: int) {
    exists k :: 0 <= k < |listing| && listing[k].id == id
  }

  /**
    During an attempt: issues exported after the listing are mapped, and everything imported so far came from listed
    issues.
  */
  ghost predicate Session(w: World, project: string, listing: seq<Issue>) {
    && Lists(w, listing)
    && (forall k :: |listing| <= k < |w.issues| && w.issues[k].exportOf.Some? ==>
          Mapped(w.rows, project, PostItem, w.issues[k].exportOf.value))
    && (forall p :: p in w.imported && w.imported[p].0 == project ==> InListing(listing, w.imported[p].1))
  }

  lemma MappedStays(v: World, w: World, project: string, kind: BoardKind, id: int)
    requires Later(v, w) && Mapped(v.rows, project, kind, id)
    ensures Mapped(w.rows, project, kind, id)
  {
    var key :| IsRowOf(v.rows, key, project, kind, id);
    assert IsRowOf(w.rows, key, project, kind, id);
  }

  lemma SessionStays(v: World, w: World, project: string, listing: seq<Issue>)
    requires Session(v, project, listing) && Later(v, w) && SameHistory(v, w)
    ensures Session(w, project, listing)
  {
    forall i | 0 <= i < |listing| ensures SameIssue(listing[i], w.issues[i]) {
      assert SameIssue(listing[i], v.issues[i]) && SameIssue(v.issues[i], w.issues[i]);
    }
    forall k | |listing| <= k < |w.issues| && w.issues[k].exportOf.Some?
      ensures Mapped(w.rows, project, PostItem, w.issues[k].exportOf.value)
    {
      assert SameIssue(v.issues[k], w.issues[k]);
      MappedStays(v, w, project, PostItem, v.issues[k].exportOf.value);
    }
  }

  lemma SessionStarts(w: World, project: string)
    requires Inv(w)
    ensures Session(w, project, w.issues)
  {
    forall p | p in w.imported && w.imported[p].0 == project ensures InListing(w.issues, w.imported[p].1) {
      assert ImportOk(w, p);
      var k :| ImportSource(w, k, w.imported[p].0, w.imported[p].1);
      assert w.issues[k].id == w.imported[p].1;
    }
  }

  // ---- Import of issues ---------------------------------------------------------------------------------------------

  lemma RowAgreesStays(v: World, w: World, key: RowKey, row: Row, k: int)
    requires RowAgrees(v, key, row, k) && Later(v, w) && w.imported == v.imported
    ensures RowAgrees(w, key, row, k)
  {
    assert SameIssue(v.issues[k], w.issues[k]);
  }

  lemma SavePostRow(s: State, key: RowKey, row: Row, k: int)
    requires Safe(s) && key.kind.IssueRow? && RowAgrees(s.w, key, row, k)
    ensures var r := Save(s, key, row);
            && Kept(s, r) && SameHistory(s.w, r.w)
            && (!r.halted ==> key in r.w.rows && r.w.rows[key] == row)
  {
    var t := Next(s).0;
    NextKept(s);
    RowAgreesStays(s.w, t.w, key, row, k);
    if Next(s).1 != Failed && !Conflict(t.w.rows, key, row) {
      PostRowWrite(t.w, key, row, k);
      var r := Save(s, key, row);
      assert r.w == t.w.(rows := t.w.rows[key := row]);
      LaterTransitive(s.w, t.w, r.w);
    }
  }

  /** A replay of a relay key changes nothing: the post is already recorded for this issue. */
  lemma ReplayedPost(w: World, project: string, id: int)
    requires Inv(w) && ReplayKey(project, IssueKind, id) in w.board.postKeys
    ensures var p := w.board.postKeys[ReplayKey(project, IssueKind, id)];
            p in w.imported && w.imported[p] == (project, id) && p in w.board.posts
  {
    var key := ReplayKey(project, IssueKind, id);
    RelayKey(project, IssueKind, id);
    assert KeyOk(w, key);
    var p := w.board.postKeys[key];
    ReplayKeyInjective(project, IssueKind, id, w.imported[p].0, IssueKind, w.imported[p].1);
    assert ImportOk(w, p);
  }

  /** What the world becomes when a post is made for an issue. */
  function WithImport(w: World, project: string, issue: int, post: B.Post): (r: (World, int)) {
    var (board, p) := B.AddPostKeyed(w.board, post, ReplayKey(project, IssueKind, issue));
    (w.(board := board, imported := w.imported[p := (project, issue)]), p)
  }

  lemma FirstImport(w: World, project: string, issue: int, k: int, post: B.Post, v: World, p: int)
    requires Inv(w) && ImportSource(w, k, project, issue) && post.project == project
    requires ReplayKey(project, IssueKind, issue) !in w.board.postKeys
    requires (v, p) == WithImport(w, project, issue, post) && InRange(v.board)
    ensures Inv(v) && Later(w, v)
  {
    hide ReplayKey, B.Valid, B.Extends, ImportMarked, Inv, Later;
    var key := ReplayKey(project, IssueKind, issue);
    ValidBoardOf(w);
    B.AddPostKeyedValid(w.board, post, key);
    NotImportedYet(w, p);
    assert ImportSource(v, k, project, issue);
    assert ImportOk(v, p);
    hide ImportOk, ImportSource;
    NewImport(w, v, key, p);
  }

  lemma ValidBoardOf(w: World)
    requires Inv(w)
    ensures B.Valid(w.board)
  {
  }

  lemma NotImportedYet(w: World, p: int)
    requires Inv(w) && p == w.board.nextId
    ensures p !in w.imported && p !in w.board.posts
  {
    forall q | q in w.imported ensures q in w.board.posts { assert ImportOk(w, q); }
  }

  /** The post made for an issue, on first use of the key or on a replay. */
  lemma ImportedPost(w: World, project: string, issue: int, k: int, post: B.Post, v: World, p: int)
    requires Inv(w) && ImportSource(w, k, project, issue) && post.project == project
    requires (v, p) == WithImport(w, project, issue, post) && InRange(v.board)
    ensures Inv(v) && Later(w, v)
    ensures p in v.board.posts && p in v.imported && v.imported[p] == (project, issue)
    ensures v.issues == w.issues && v.rows == w.rows
    ensures forall q :: q in v.imported ==> q in w.imported || v.imported[q] == (project, issue)
  {
    if ReplayKey(project, IssueKind, issue) in w.board.postKeys {
      ReplayedPost(w, project, issue);
      assert v.imported == w.imported;
      assert v == w;
      LaterReflexive(w);
    } else {
      FirstImport(w, project, issue, k, post, v, p);
    }
  }

  lemma StartsWith(a: string, b: string, c: string, d: string)
    ensures a <= a + b + c + d
  {
    assert (a + b + c + d)[..|a|] == a;
  }

  lemma RelayKey(project: string, kind: Kind, id: int)
    ensures !UserKey(ReplayKey(project, kind, id))
  {
    StartsWith("github-relay:", project, KindWord(kind), Decimal(id));
    hide KindWord, Decimal;
  }

  lemma NewImport(w: World, v: World, key: string, p: int)
    requires Inv(w) && p == w.board.nextId && p !in w.imported
    requires B.Valid(v.board) && InRange(v.board) && B.Extends(w.board, v.board)
    requires v.imported.Keys == w.imported.Keys + {p} && forall q :: q in w.imported ==> v.imported[q] == w.imported[q]
    requires v == w.(board := v.board, imported := v.imported)
    requires v.board.posts.Keys == w.board.posts.Keys + {p}
    requires forall q :: q in w.board.posts ==> v.board.posts[q] == w.board.posts[q]
    requires v.board.postKeys == w.board.postKeys[key := p] && key !in w.board.postKeys
    requires key == ReplayKey(v.imported[p].0, IssueKind, v.imported[p].1)
    requires ImportOk(v, p)
    ensures Inv(v) && Later(w, v)
  {
    hide ReplayKey, MarkerFree, UserKey, ImportMarked, TableOk, B.Valid, B.Extends, RowOk, ExportsOk;
    assert forall i :: 0 <= i < |w.issues| ==> SameIssue(w.issues[i], v.issues[i]);
    assert Later(w, v);
    forall q | q in v.imported ensures ImportOk(v, q) {
      if q in w.imported { assert ImportOk(w, q); ImportsCarry(w, v, q); }
    }
    forall x | x in v.board.postKeys && !UserKey(x) ensures KeyOk(v, x) {
      if x != key { assert KeyOk(w, x); }
    }
    NewImportRows(w, v, p);
  }

  /** A post id that was never used is in no row and in no export. */
  lemma NewImportRows(w: World, v: World, p: int)
    requires Inv(w) && p == w.board.nextId && p !in w.imported
    requires v == w.(board := v.board, imported := v.imported)
    requires v.imported.Keys == w.imported.Keys + {p} && forall q :: q in w.imported ==> v.imported[q] == w.imported[q]
    requires v.board.posts.Keys == w.board.posts.Keys + {p}
    requires forall q :: q in w.board.posts ==> v.board.posts[q] == w.board.posts[q]
    ensures ExportsOk(v) && forall x :: x in v.rows ==> RowOk(v, x)
  {
    assert p !in w.board.posts;
    forall k | 0 <= k < |v.issues| && v.issues[k].exportOf.Some? ensures ExportOk(v, k) { assert ExportOk(w, k); }
    forall x | x in v.rows ensures RowOk(v, x) {
      assert RowOk(w, x);
      if x.kind.IssueRow? {
        var k :| RowAgrees(w, x, w.rows[x], k);
        assert RowAgrees(v, x, v.rows[x], k);
      }
    }
  }

  lemma CreatePostKept(s: State, project: string, issue: Issue, listing: seq<Issue>, k: int)
    requires Safe(s) && Session(s.w, project, listing) && ImportMarked(issue, project)
    requires 0 <= k < |listing| && issue == listing[k]
    ensures var (r, p) := CreatePost(s, project, issue);
            && Kept(s, r) && Session(r.w, project, listing)
            && (!r.halted ==>
                  RowAgrees(r.w, RowKey(project, IssueRow, issue.id),
                            Row(PostItem, p, issue.number, FromGitHub, issue.updatedAt), k))
  {
    hide UnfitIssue, BoardPost, ReplayKey, B.AddPostKeyed, Next, AllowedScript, Inv, Later, Session, RowAgrees, InRange,
      ImportMarked, UserKey;
    var t := Next(s).0;
    NextKept(s);
    FailedHalts(s);
    SessionWaits(s.w, t.w, project, listing);
    hide SamePosts;
    var (v, p) := WithImport(t.w, project, issue.id, BoardPost(project, issue));
    if InRange(v.board) {
      ImportLands(t.w, project, issue, listing, k, v, p);
      LaterChain(s.w, t.w, v);
    }
  }

  lemma FailedHalts(s: State)
    ensures Next(s).1.Failed? ==> Next(s).0.halted
  {
  }

  lemma SessionWaits(v: World, w: World, project: string, listing: seq<Issue>)
    requires Session(v, project, listing) && Later(v, w) && SamePosts(v, w)
    ensures Session(w, project, listing)
  {
    SessionStays(v, w, project, listing);
  }

  lemma LaterChain(u: World, v: World, w: World)
    requires Inv(u) && Inv(v) && Later(u, v) && Later(v, w)
    ensures Later(u, w)
  {
    LaterTransitive(u, v, w);
  }

  /** The post of an issue that asked for its import, new or made before. */
  lemma ImportLands(w: World, project: string, issue: Issue, listing: seq<Issue>, k: int, v: World, p: int)
    requires Inv(w) && Session(w, project, listing) && ImportMarked(issue, project)
    requires 0 <= k < |listing| && issue == listing[k]
    requires (v, p) == WithImport(w, project, issue.id, BoardPost(project, issue)) && InRange(v.board)
    ensures Inv(v) && Later(w, v) && Session(v, project, listing)
    ensures RowAgrees(v, RowKey(project, IssueRow, issue.id),
                      Row(PostItem, p, issue.number, FromGitHub, issue.updatedAt), k)
  {
    hide ReplayKey, WithImport, Inv, Later, Session, RowAgrees, ImportSource, ImportMarked, SameIssue, InRange,
      TrimSpace;
    assert BoardPost(project, issue).project == project;
    ListedSource(w, project, issue, listing, k);
    ImportedPost(w, project, issue.id, k, BoardPost(project, issue), v, p);
    hide BoardPost;
    ImportKeepsSession(w, v, project, listing, k);
    MarkedAgrees(v, project, issue, k, p);
  }

  lemma ListedSource(w: World, project: string, issue: Issue, listing: seq<Issue>, k: int)
    requires Session(w, project, listing) && ImportMarked(issue, project) && 0 <= k < |listing| && issue == listing[k]
    ensures k < |w.issues| && ImportSource(w, k, project, issue.id) && SameIssue(issue, w.issues[k])
  {
    assert SameIssue(issue, w.issues[k]);
    hide Mapped, InListing;
  }

  lemma MarkedAgrees(w: World, project: string, issue: Issue, k: int, p: int)
    requires 0 <= k < |w.issues| && SameIssue(issue, w.issues[k]) && ImportMarked(issue, project)
    requires p in w.board.posts && p in w.imported && w.imported[p] == (project, issue.id)
    ensures RowAgrees(w, RowKey(project, IssueRow, issue.id),
                      Row(PostItem, p, issue.number, FromGitHub, issue.updatedAt), k)
  {
  }

  lemma ImportKeepsSession(v: World, w: World, project: string, listing: seq<Issue>, k: int)
    requires Session(v, project, listing) && Later(v, w) && 0 <= k < |listing|
    requires w.issues == v.issues && w.rows == v.rows
    requires forall q :: q in w.imported ==> q in v.imported || w.imported[q] == (project, listing[k].id)
    ensures Session(w, project, listing)
  {
    assert listing[k].id == listing[k].id;
    forall p | p in w.imported && w.imported[p].0 == project ensures InListing(listing, w.imported[p].1) {
      if p in v.imported { assert w.imported[p] == v.imported[p]; }
    }
  }

  ghost predicate ImportedUpTo(w: World, project: string, listing: seq<Issue>, n: int) {
    forall k :: 0 <= k < n <= |listing| && ImportMarked(listing[k], project) ==>
      RowKey(project, IssueRow, listing[k].id) in w.rows
  }

  /** What is known of an attempt that goes on, or that stopped here. */
  ghost predicate Going(s: State, r: State, project: string, listing: seq<Issue>) {
    Kept(s, r) && Session(r.w, project, listing)
  }

  /** Saving the row of a listed issue is a step of the attempt. */
  lemma SaveGoing(s: State, project: string, listing: seq<Issue>, key: RowKey, row: Row, k: int)
    requires Safe(s) && Session(s.w, project, listing) && key.kind.IssueRow? && RowAgrees(s.w, key, row, k)
    ensures Going(s, Save(s, key, row), project, listing)
    ensures var r := Save(s, key, row); !r.halted ==> key in r.w.rows && r.w.rows[key] == row
  {
    SavePostRow(s, key, row, k);
    SessionStays(s.w, Save(s, key, row).w, project, listing);
  }

  lemma GoingTransitive(s: State, t: State, r: State, project: string, listing: seq<Issue>)
    requires Safe(s) && Kept(s, t) && Going(t, r, project, listing)
    ensures Going(s, r, project, listing)
  {
    KeptTransitive(s, t, r);
  }

  /** Counting what was done comes before saving its row; the count is not part of the invariant. */
  lemma CountAndSave(s: State, receipt: Receipt, project: string, listing: seq<Issue>, key: RowKey, row: Row, k: int)
    requires Safe(s) && Session(s.w, project, listing) && key.kind.IssueRow? && RowAgrees(s.w, key, row, k)
    ensures Going(s, Save(s.(receipt := receipt), key, row), project, listing)
    ensures var r := Save(s.(receipt := receipt), key, row); !r.halted ==> key in r.w.rows && r.w.rows[key] == row
  {
    var s1 := s.(receipt := receipt);
    assert Safe(s1);
    SaveGoing(s1, project, listing, key, row, k);
  }

  lemma SaveImportedKept(s: State, project: string, listing: seq<Issue>, k: int, id: int, limit: nat)
    requires Safe(s) && Session(s.w, project, listing) && 0 <= k < |listing|
    requires RowAgrees(s.w, RowKey(project, IssueRow, listing[k].id),
                       Row(PostItem, id, listing[k].number, FromGitHub, listing[k].updatedAt), k)
    ensures Going(s, SaveImported(s, project, listing[k], id, limit), project, listing)
    ensures var r := SaveImported(s, project, listing[k], id, limit);
            !r.halted ==> RowKey(project, IssueRow, listing[k].id) in r.w.rows
  {
    hide Inv; hide Later; hide Session; hide RowAgrees;
    var issue := listing[k];
    var counted := AddUrl(s.receipt.(importedPosts := s.receipt.importedPosts + 1), limit);
    CountAndSave(s, counted, project, listing, RowKey(project, IssueRow, issue.id),
                 Row(PostItem, id, issue.number, FromGitHub, issue.updatedAt), k);
  }

  lemma ImportNewKept(s: State, project: string, listing: seq<Issue>, k: int, limit: nat)
    requires Safe(s) && Session(s.w, project, listing) && 0 <= k < |listing| && ImportMarked(listing[k], project)
    ensures Going(s, ImportNew(s, project, listing[k], limit), project, listing)
    ensures var r := ImportNew(s, project, listing[k], limit);
            !r.halted ==> RowKey(project, IssueRow, listing[k].id) in r.w.rows
  {
    var issue := listing[k];
    var (s1, p) := CreatePost(s, project, issue);
    CreatePostKept(s, project, issue, listing, k);
    if !s1.halted {
      SaveImportedKept(s1, project, listing, k, p, limit);
      GoingTransitive(s, s1, SaveImported(s1, project, issue, p, limit), project, listing);
    }
  }

  /** A step of the import of issues, as its own relation. */
  lemma GoingReflexive(s: State, receipt: Receipt, project: string, listing: seq<Issue>)
    requires Safe(s) && Session(s.w, project, listing)
    ensures Going(s, s.(receipt := receipt), project, listing)
  {
    LaterReflexive(s.w);
    hide Inv, Later, Session, AllowedScript;
  }

  lemma GoingGoes(s: State, r: State, project: string, listing: seq<Issue>)
    requires Going(s, r, project, listing)
    ensures Safe(r) && Kept(s, r) && Session(r.w, project, listing)
  {
    hide Inv, Later, Session, AllowedScript;
  }

  lemma GoingRecount(s: State, t: State, receipt: Receipt, project: string, listing: seq<Issue>)
    requires Going(s, t, project, listing)
    ensures Going(s, t.(receipt := receipt), project, listing)
  {
    hide Inv, Later, Session, AllowedScript;
  }

  lemma ImportIssueGoes(s: State, project: string, listing: seq<Issue>, k: int, limit: nat)
    requires Safe(s) && Session(s.w, project, listing) && 0 <= k < |listing|
    ensures var r := ImportIssue(s, project, listing[k], limit);
            && Going(s, r, project, listing)
            && (!r.halted && ImportMarked(listing[k], project) ==> RowKey(project, IssueRow, listing[k].id) in r.w.rows)
  {
    hide Safe, Kept, Going, Session, ImportNew, ImportMarked, Next;
    var issue := listing[k];
    GoingReflexive(s, s.receipt, project, listing);
    if ImportMarked(issue, project) {
      var (s1, row) := FindByGitHub(s, RowKey(project, IssueRow, issue.id));
      LookedUp(s, project, listing);
      FoundRow(s, RowKey(project, IssueRow, issue.id));
      GoingGoes(s, s1, project, listing);
      GoingRecount(s, s1, s1.receipt.(remoteEdits := s1.receipt.remoteEdits + 1), project, listing);
      if !s1.halted && row.None? {
        ImportNewKept(s1, project, listing, k, limit);
        GoingTransitive(s, s1, ImportNew(s1, project, issue, limit), project, listing);
      }
    }
  }

  lemma LookedUp(s: State, project: string, listing: seq<Issue>)
    requires Safe(s) && Session(s.w, project, listing)
    ensures Going(s, Next(s).0, project, listing)
  {
    NextKept(s);
    SessionStays(s.w, Next(s).0.w, project, listing);
  }

  lemma FoundRow(s: State, key: RowKey)
    ensures var (r, row) := FindByGitHub(s, key); row.Some? ==> key in r.w.rows
  {
    hide Next;
  }

  lemma ImportIssueKept(s: State, project: string, listing: seq<Issue>, k: int, limit: nat)
    requires Safe(s) && Session(s.w, project, listing) && 0 <= k < |listing|
    ensures var r := ImportIssue(s, project, listing[k], limit);
            && Kept(s, r) && Session(r.w, project, listing)
            && (!r.halted && ImportMarked(listing[k], project) ==> RowKey(project, IssueRow, listing[k].id) in r.w.rows)
  {
    ImportIssueGoes(s, project, listing, k, limit);
    hide Safe, Kept, Session, ImportIssue, ImportMarked;
  }

  lemma {:induction false} ImportIssuesGo(s: State, project: string, listing: seq<Issue>, k: int, limit: nat)
    requires Safe(s) && Session(s.w, project, listing) && 0 <= k <= |listing|
    requires s.halted || ImportedUpTo(s.w, project, listing, k)
    ensures var r := ImportIssues(s, project, listing[k..], limit);
            && Going(s, r, project, listing)
            && (!r.halted ==> ImportedUpTo(r.w, project, listing, |listing|))
    decreases |listing| - k
  {
    hide Safe, Kept, Going, Session, ImportIssue, ImportedUpTo;
    GoingReflexive(s, s.receipt, project, listing);
    if !s.halted && k < |listing| {
      var t := ImportIssue(s, project, listing[k], limit);
      ImportIssueGoes(s, project, listing, k, limit);
      GoingGoes(s, t, project, listing);
      assert listing[k..][1..] == listing[k + 1..];
      if !t.halted { ImportedOneMore(s, t, project, listing, k); }
      ImportIssuesGo(t, project, listing, k + 1, limit);
      GoingTransitive(s, t, ImportIssues(s, project, listing[k..], limit), project, listing);
    }
  }

  lemma ImportedOneMore(s: State, t: State, project: string, listing: seq<Issue>, k: int)
    requires Kept(s, t) && 0 <= k < |listing| && ImportedUpTo(s.w, project, listing, k)
    requires ImportMarked(listing[k], project) ==> RowKey(project, IssueRow, listing[k].id) in t.w.rows
    ensures ImportedUpTo(t.w, project, listing, k + 1)
  {
    hide Safe, ImportMarked;
  }

  lemma ImportIssuesKept(s: State, project: string, listing: seq<Issue>, k: int, limit: nat)
    requires Safe(s) && Session(s.w, project, listing) && 0 <= k <= |listing|
    requires s.halted || ImportedUpTo(s.w, project, listing, k)
    ensures var r := ImportIssues(s, project, listing[k..], limit);
            && Kept(s, r) && Session(r.w, project, listing)
            && (!r.halted ==> ImportedUpTo(r.w, project, listing, |listing|))
  {
    ImportIssuesGo(s, project, listing, k, limit);
    hide Safe, Kept, Session, ImportIssues, ImportedUpTo;
  }
}
