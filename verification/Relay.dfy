/**
  The relay between the board and a GitHub repository: board-relay/internal/service.go over the mapping table of
  board-relay/internal/store.go, as a function of the world and of a script.

  Every call the relay makes takes one turn from the script.  A turn first lets users change the board or the
  repository, then says whether the call succeeds, fails without effect, or takes effect and loses its answer.  When the
  script is empty the process is gone.  So one script is one attempt, stopped at any call.
*/
module Relay {
  import opened Core
  import opened Paging
  import opened Text
  import opened Marker
  import B = Board

  const PageSize := 100

  // ---- World ----------------------------------------------------------------------------------------------------

  /**
    A GitHub comment; `tag` is what `parseMarker` reads off the body.  `exportOf` is history: the project and the board
    comment the relay created this comment for.
  */
  datatype Remote = Remote(id: int, body: string, tag: (Marker, bool), updatedAt: int, exportOf: Option<(string, int)>)

  /** A GitHub issue, likewise tagged; `exportOf` is history: the board post the relay created this issue for. */
  datatype Issue = Issue(id: int, number: int, title: string, body: string, tag: (Marker, bool), updatedAt: int,
                         comments: seq<Remote>, exportOf: Option<int>)

  datatype RemoteKind = IssueRow | CommentRow

  datatype BoardKind = PostItem | CommentItem

  datatype Origin = FromBoard | FromGitHub

  /** The conflict target of the upsert. */
  datatype RowKey = RowKey(project: string, kind: RemoteKind, id: int)

  datatype Row = Row(kind: BoardKind, boardId: int, number: int, origin: Origin, remoteUpdatedAt: int)

  /** `imported` is history: which issue a board post was created for. */
  datatype World = World(board: B.Store, issues: seq<Issue>, nextRemote: int, rows: map<RowKey, Row>,
                         imported: map<int, (string, int)>)

  // ---- What the board refuses -----------------------------------------------------------------------------------

  /**
    The issues, by project, id, title and body, and the GitHub comments, by project, id and body, whose text, author,
    metadata or key the board's field checks refuse.  The limits are configuration, so which these are is left open.
  */
  const RefusedIssues: iset<(string, int, string, string)>

  const RefusedRemotes: iset<(string, int, string)>

  predicate UnfitIssue(project: string, issue: Issue) {
    (project, issue.id, issue.title, issue.body) in RefusedIssues
  }

  predicate UnfitRemote(project: string, remote: Remote) {
    (project, remote.id, remote.body) in RefusedRemotes
  }

  /** The board shows a comment only while it and its post are active. */
  function Readable(b: B.Store, id: int): (r: bool) {
    B.ActiveComment(b, id) && B.ActivePost(b, b.comments[id].postId)
  }

  /** The board lists the replies of an active post, or of one of its comments, purged or not. */
  function Listable(b: B.Store, post: int, parent: Option<int>): (r: bool) {
    && B.ActivePost(b, post)
    && (parent.Some? ==> parent.value in b.comments && b.comments[parent.value].postId == post)
  }

  // ---- Users ----------------------------------------------------------------------------------------------------

  datatype UserOp =
    | OnBoard(op: B.Op)
    | OpenIssue(title: string, body: string, at: int)
    | EditIssue(index: nat, title: string, body: string, at: int)
    | Reply(index: nat, body: string, at: int)

  function AppendRemote(w: World, i: nat, remote: Remote): (r: World)
    requires i < |w.issues|
  {
    var issue := w.issues[i].(comments := w.issues[i].comments + [remote]);
    w.(issues := w.issues[i := issue], nextRemote := w.nextRemote + 1)
  }

  /** The board's id sequence ends at the largest 64-bit number; a write beyond it is refused. */
  function InRange(b: B.Store): (r: bool) {
    b.nextId <= TwoTo63
  }

  /** Edits that would change what an issue's marker says are not part of this model. */
  function ApplyUser(w: World, op: UserOp): (r: World) {
    match op
    case OnBoard(op) => if InRange(B.Apply(w.board, op)) then w.(board := B.Apply(w.board, op)) else w
    case OpenIssue(title, body, at) =>
      w.(issues := w.issues + [Issue(w.nextRemote, |w.issues| + 1, title, body, Parse(body), at, [], None)],
         nextRemote := w.nextRemote + 1)
    case EditIssue(i, title, body, at) =>
      if i < |w.issues| && Parse(body) == w.issues[i].tag
      then w.(issues := w.issues[i := w.issues[i].(title := title, body := body, updatedAt := at)])
      else w
    case Reply(i, body, at) =>
      if i < |w.issues|
      then AppendRemote(w, i, Remote(w.nextRemote, body, Parse(body), at, None))
      else w
  }

  function ApplyUsers(w: World, ops: seq<UserOp>): (r: World)
    decreases |ops|
  {
    if ops == [] then w else ApplyUsers(ApplyUser(w, ops[0]), ops[1..])
  }

  // ---- Calls ----------------------------------------------------------------------------------------------------

  datatype Outcome = Done | Failed | Lost

  datatype Turn = Turn(before: seq<UserOp>, outcome: Outcome)

  datatype Receipt = Receipt(importedPosts: nat, importedComments: nat, exportedPosts: nat, exportedComments: nat,
                             recovered: nat, remoteEdits: nat, skipped: nat, urls: nat, omittedUrls: nat)

  const NoReceipt := Receipt(0, 0, 0, 0, 0, 0, 0, 0, 0)

  datatype State = State(w: World, script: seq<Turn>, receipt: Receipt, halted: bool)

  function Halt(s: State): (r: State) {
    s.(halted := true)
  }

  /** Take the next turn: users act, then the call meets its outcome. */
  function Next(s: State): (r: (State, Outcome))
    ensures |r.0.script| <= |s.script|
    ensures !r.0.halted ==> |r.0.script| < |s.script|
    ensures r.1.Done? ==> |r.0.script| < |s.script|
  {
    if s.halted || s.script == [] then (Halt(s), Failed)
    else
      var t := s.(w := ApplyUsers(s.w, s.script[0].before), script := s.script[1..]);
      (if s.script[0].outcome.Done? then t else Halt(t), s.script[0].outcome)
  }

  /** `addItemURL`: links beyond the limit are only counted. */
  function AddUrl(r: Receipt, limit: nat): (q: Receipt) {
    if r.urls >= limit then r.(omittedUrls := r.omittedUrls + 1) else r.(urls := r.urls + 1)
  }

  function ListIssues(s: State): (r: (State, seq<Issue>))
    ensures |r.0.script| <= |s.script|
  {
    var (t, o) := Next(s);
    (t, if o.Done? then t.w.issues else [])
  }

  function FindByGitHub(s: State, key: RowKey): (r: (State, Option<Row>))
    ensures |r.0.script| <= |s.script|
  {
    var (t, o) := Next(s);
    (t, if o.Done? && key in t.w.rows then Some(t.w.rows[key]) else None)
  }

  ghost predicate IsRowOf(rows: map<RowKey, Row>, key: RowKey, project: string, kind: BoardKind, id: int) {
    key in rows && key.project == project && rows[key].kind == kind && rows[key].boardId == id
  }

  ghost predicate Mapped(rows: map<RowKey, Row>, project: string, kind: BoardKind, id: int) {
    exists key :: IsRowOf(rows, key, project, kind, id)
  }

  ghost function BoardRow(rows: map<RowKey, Row>, project: string, kind: BoardKind, id: int): (r: Option<Row>)
    ensures r.Some? <==> Mapped(rows, project, kind, id)
    ensures r.Some? ==> exists key :: IsRowOf(rows, key, project, kind, id) && rows[key] == r.value
  {
    if Mapped(rows, project, kind, id) then
      var key :| IsRowOf(rows, key, project, kind, id);
      Some(rows[key])
    else None
  }

  ghost function FindByBoard(s: State, project: string, kind: BoardKind, id: int): (r: (State, Option<Row>))
    ensures |r.0.script| <= |s.script|
    ensures !r.0.halted ==> |r.0.script| < |s.script|
  {
    var (t, o) := Next(s);
    (t, if o.Done? then BoardRow(t.w.rows, project, kind, id) else None)
  }

  /** The board side is the primary key, so a row of another GitHub item with the same board item is an error. */
  ghost predicate Conflict(rows: map<RowKey, Row>, key: RowKey, row: Row) {
    exists other :: other != key && IsRowOf(rows, other, key.project, row.kind, row.boardId)
  }

  ghost function Save(s: State, key: RowKey, row: Row): (r: State)
    ensures |r.script| <= |s.script|
  {
    var (t, o) := Next(s);
    if o.Failed? then t
    else if Conflict(t.w.rows, key, row) then Halt(t)
    else t.(w := t.w.(rows := t.w.rows[key := row]))
  }

  function BoardPost(project: string, issue: Issue): (p: B.Post) {
    B.Post(project, TrimSpace(issue.title), TrimSpace(issue.body), "github", B.Active, issue.updatedAt, None)
  }

  /** `CreatePost` with the issue's replay key; the board checks the fields first and trims the text. */
  function CreatePost(s: State, project: string, issue: Issue): (r: (State, int))
    ensures |r.0.script| <= |s.script|
  {
    var (t, o) := Next(s);
    if o.Failed? then (t, 0)
    else if UnfitIssue(project, issue) then (Halt(t), 0)
    else
      var (board, id) := B.AddPostKeyed(t.w.board, BoardPost(project, issue), ReplayKey(project, IssueKind, issue.id));
      if !InRange(board) then (Halt(t), 0)
      else (t.(w := t.w.(board := board, imported := t.w.imported[id := (project, issue.id)])), id)
  }

  ghost function ListPosts(s: State, project: string, after: int): (r: (State, Page<int>))
    ensures |r.0.script| <= |s.script|
    ensures !r.0.halted ==> |r.0.script| < |s.script|
  {
    var (t, o) := Next(s);
    (t, if o.Done? then PageOf(B.PostIds(t.w.board, project), after, PageSize) else Page([], None))
  }

  /** A post that is not active is not found, which is an error of the call. */
  function GetPost(s: State, id: int): (r: (State, Option<B.Post>))
    ensures |r.0.script| <= |s.script|
  {
    var (t, o) := Next(s);
    if !o.Done? then (t, None)
    else if !B.ActivePost(t.w.board, id) then (Halt(t), None)
    else (t, Some(t.w.board.posts[id]))
  }

  function CreateIssue(s: State, post: int, title: string, body: string): (r: (State, Issue))
    ensures |r.0.script| <= |s.script|
  {
    var (t, o) := Next(s);
    var issue := Issue(t.w.nextRemote, |t.w.issues| + 1, title, body, Parse(body), 0, [], Some(post));
    if o.Failed? then (t, issue)
    else (t.(w := t.w.(issues := t.w.issues + [issue], nextRemote := t.w.nextRemote + 1)), issue)
  }

  /** A page of replies with the rows as they were when listed. */
  ghost function ListComments(s: State, post: int, parent: Option<int>, after: int)
    : (r: (State, Page<int>, map<int, B.Comment>))
    ensures |r.0.script| <= |s.script|
    ensures !r.0.halted ==> |r.0.script| < |s.script|
  {
    var (t, o) := Next(s);
    if !o.Done? then (t, Page([], None), t.w.board.comments)
    else if !Listable(t.w.board, post, parent) then (Halt(t), Page([], None), t.w.board.comments)
    else (t, PageOf(B.CommentIds(t.w.board, post, parent), after, PageSize), t.w.board.comments)
  }

  function CreateIssueComment(s: State, number: int, comment: (string, int), body: string): (r: (State, Remote))
    ensures |r.0.script| <= |s.script|
  {
    var (t, o) := Next(s);
    var remote := Remote(t.w.nextRemote, body, Parse(body), 0, Some(comment));
    if o.Failed? then (t, remote)
    else if !(1 <= number <= |t.w.issues|) then (Halt(t), remote)
    else (t.(w := AppendRemote(t.w, number - 1, remote)), remote)
  }

  function ListIssueComments(s: State, number: int): (r: (State, seq<Remote>))
    ensures |r.0.script| <= |s.script|
  {
    var (t, o) := Next(s);
    if !o.Done? then (t, [])
    else if !(1 <= number <= |t.w.issues|) then (Halt(t), [])
    else (t, t.w.issues[number - 1].comments)
  }

  /** Likewise for a comment that is not active, or whose post is not. */
  function GetComment(s: State, id: int): (r: (State, Option<B.Comment>))
    ensures |r.0.script| <= |s.script|
  {
    var (t, o) := Next(s);
    if !o.Done? then (t, None)
    else if !Readable(t.w.board, id) then (Halt(t), None)
    else (t, Some(t.w.board.comments[id]))
  }

  /** The board service checks the fields, the post and the parent before it looks at the replay key. */
  function CreateComment(s: State, project: string, post: int, parent: Option<int>, remote: Remote): (r: (State, int))
    ensures |r.0.script| <= |s.script|
  {
    var (t, o) := Next(s);
    var c := B.Comment(post, parent, TrimSpace(remote.body), "github", B.Active, remote.updatedAt, None);
    if o.Failed? then (t, 0)
    else if UnfitRemote(project, remote) || B.Refusal(t.w.board, c).Some? then (Halt(t), 0)
    else
      var (board, made) := B.TryCommentKeyed(t.w.board, c, ReplayKey(project, CommentKind, remote.id));
      if !InRange(board) then (Halt(t), 0)
      else (t.(w := t.w.(board := board)), if made.Ok? then made.value else 0)
  }

  // ---- Import of issues -------------------------------------------------------------------------------------------

  /** The issue asks to be imported into the project: it carries a marker that names no board post. */
  function ImportMarked(issue: Issue, project: string): (b: bool) {
    issue.tag.1 && issue.tag.0.project == project && issue.tag.0.post <= 0
  }

  ghost function ImportIssue(s: State, project: string, issue: Issue, limit: nat): (r: State)
    ensures |r.script| <= |s.script|
  {
    if !ImportMarked(issue, project) then s else
      var key := RowKey(project, IssueRow, issue.id);
      var (s1, row) := FindByGitHub(s, key);
      if s1.halted then s1
      else if row.Some? then
        if issue.updatedAt > row.value.remoteUpdatedAt
        then s1.(receipt := s1.receipt.(remoteEdits := s1.receipt.remoteEdits + 1)) else s1
      else ImportNew(s1, project, issue, limit)
  }

  ghost function ImportNew(s: State, project: string, issue: Issue, limit: nat): (r: State)
    ensures |r.script| <= |s.script|
  {
    var (s1, id) := CreatePost(s, project, issue);
    if s1.halted then s1 else SaveImported(s1, project, issue, id, limit)
  }

  ghost function SaveImported(s: State, project: string, issue: Issue, id: int, limit: nat): (r: State)
    ensures |r.script| <= |s.script|
  {
    var counted := AddUrl(s.receipt.(importedPosts := s.receipt.importedPosts + 1), limit);
    Save(s.(receipt := counted), RowKey(project, IssueRow, issue.id),
         Row(PostItem, id, issue.number, FromGitHub, issue.updatedAt))
  }

  ghost function ImportIssues(s: State, project: string, issues: seq<Issue>, limit: nat): (r: State)
    ensures |r.script| <= |s.script|
    decreases |issues|
  {
    if s.halted || issues == [] then s
    else ImportIssues(ImportIssue(s, project, issues[0], limit), project, issues[1..], limit)
  }

  // ---- Export of posts and comments -------------------------------------------------------------------------------

  /** Issues that name one of the project's posts; the last one listed wins. */
  function IssueMarkers(project: string, issues: seq<Issue>): (r: map<int, Issue>)
    decreases |issues|
  {
    if issues == [] then map[] else
      var last := issues[|issues| - 1];
      var rest := IssueMarkers(project, issues[..|issues| - 1]);
      var (m, marked) := last.tag;
      if marked && m.project == project && m.post > 0 then rest[m.post := last] else rest
  }

  /** Adopt an issue that already carries the post's marker. */
  ghost function Recover(s: State, project: string, id: int, found: Issue): (r: (State, Option<Row>))
    ensures |r.0.script| <= |s.script|
  {
    var s1 := Save(s, RowKey(project, IssueRow, found.id), Row(PostItem, id, found.number, FromBoard, found.updatedAt));
    if s1.halted then (s1, None)
    else FindByBoard(s1.(receipt := s1.receipt.(recovered := s1.receipt.recovered + 1)), project, PostItem, id)
  }

  ghost function ExportNew(s: State, project: string, id: int, post: B.Post, limit: nat): (r: (State, Option<Row>))
    ensures |r.0.script| <= |s.script|
  {
    var (s1, issue) := CreateIssue(s, id, post.title, Marked(post.body, PostMarker(project, id)));
    if s1.halted then (s1, None) else SaveExported(s1, project, id, issue, limit)
  }

  ghost function SaveExported(s: State, project: string, id: int, issue: Issue, limit: nat): (r: (State, Option<Row>))
    ensures |r.0.script| <= |s.script|
  {
    var counted := AddUrl(s.receipt.(exportedPosts := s.receipt.exportedPosts + 1), limit);
    var s1 := Save(s.(receipt := counted), RowKey(project, IssueRow, issue.id),
                   Row(PostItem, id, issue.number, FromBoard, issue.updatedAt));
    if s1.halted then (s1, None) else FindByBoard(s1, project, PostItem, id)
  }

  /** The mapping of an active post: found, recovered from a listed issue, or made by exporting the post. */
  ghost function EnsureMapping(s: State, project: string, markers: map<int, Issue>, id: int, post: B.Post, limit: nat)
    : (r: (State, Option<Row>))
    ensures |r.0.script| <= |s.script|
  {
    var (s1, row1) := FindByBoard(s, project, PostItem, id);
    if s1.halted then (s1, None) else
      var (s2, row2) := if row1.None? && id in markers then Recover(s1, project, id, markers[id]) else (s1, row1);
      if s2.halted then (s2, None)
      else if row2.None? then ExportNew(s2, project, id, post, limit)
      else (s2, row2)
  }

  ghost function ExportComment(s: State, project: string, number: int, id: int, c: B.Comment, limit: nat): (r: State)
    ensures |r.script| <= |s.script|
    ensures !r.halted ==> |r.script| < |s.script|
  {
    var (s1, row) := FindByBoard(s, project, CommentItem, id);
    if s1.halted || row.Some? then s1 else
      var (s2, remote) := CreateIssueComment(s1, number, (project, id),
        Marked(c.body, CommentMarker(project, id, c.parent)));
      if s2.halted then s2 else
        var counted := AddUrl(s2.receipt.(exportedComments := s2.receipt.exportedComments + 1), limit);
        Save(s2.(receipt := counted), RowKey(project, CommentRow, remote.id),
             Row(CommentItem, id, number, FromBoard, remote.updatedAt))
  }

  ghost function ExportComments(s: State, project: string, post: int, number: int, parent: Option<int>, after: int,
                                limit: nat): (r: State)
    ensures |r.script| <= |s.script|
    decreases |s.script|, 0
  {
    if s.halted then s else
      var (s1, page, rows) := ListComments(s, post, parent, after);
      if s1.halted then s1 else
        var s2 := ExportReplies(s1, project, post, number, page.items, rows, limit);
        if s2.halted || page.next.None? then s2
        else ExportComments(s2, project, post, number, parent, page.next.value, limit)
  }

  ghost function ExportReplies(s: State, project: string, post: int, number: int, ids: seq<int>,
                               rows: map<int, B.Comment>, limit: nat): (r: State)
    ensures |r.script| <= |s.script|
    decreases |s.script|, 1 + |ids|
  {
    if s.halted || ids == [] then s
    else if !(ids[0] in rows && rows[ids[0]].status.Active?)
    then ExportReplies(s, project, post, number, ids[1..], rows, limit)
    else
      var s1 := ExportComment(s, project, number, ids[0], rows[ids[0]], limit);
      if s1.halted then s1 else
        var s2 := ExportComments(s1, project, post, number, Some(ids[0]), 0, limit);
        ExportReplies(s2, project, post, number, ids[1..], rows, limit)
  }

  ghost function ExportPost(s: State, project: string, markers: map<int, Issue>, id: int, limit: nat): (r: State)
    ensures |r.script| <= |s.script|
  {
    var (s1, post) := GetPost(s, id);
    if s1.halted then s1
    else if post.None? || !post.value.status.Active?
    then s1.(receipt := s1.receipt.(skipped := s1.receipt.skipped + 1))
    else
      var (s2, row) := EnsureMapping(s1, project, markers, id, post.value, limit);
      if s2.halted || row.None? then s2
      else ExportComments(s2, project, id, row.value.number, None, 0, limit)
  }

  ghost function ExportEach(s: State, project: string, markers: map<int, Issue>, ids: seq<int>, limit: nat): (r: State)
    ensures |r.script| <= |s.script|
    decreases |ids|
  {
    if s.halted || ids == [] then s
    else ExportEach(ExportPost(s, project, markers, ids[0], limit), project, markers, ids[1..], limit)
  }

  ghost function ExportPosts(s: State, project: string, markers: map<int, Issue>, after: int, limit: nat): (r: State)
    ensures |r.script| <= |s.script|
    decreases |s.script|
  {
    if s.halted then s else
      var (s1, page) := ListPosts(s, project, after);
      if s1.halted then s1 else
        var s2 := ExportEach(s1, project, markers, page.items, limit);
        if s2.halted || page.next.None? then s2
        else ExportPosts(s2, project, markers, page.next.value, limit)
  }

  // ---- Import of comments -----------------------------------------------------------------------------------------

  ghost function RecoverComment(s: State, project: string, post: int, number: int, remote: Remote,
      comment: int): (r: State)
    ensures |r.script| <= |s.script|
  {
    var key := RowKey(project, CommentRow, remote.id);
    var (s1, row) := FindByGitHub(s, key);
    if s1.halted || row.Some? then s1 else
      var (s2, p) := GetPost(s1, post);
      if s2.halted then s2 else if p.None? then Halt(s2) else
        var (s3, c) := GetComment(s2, comment);
        if s3.halted then s3 else if c.None? || c.value.postId != post then Halt(s3) else
          var s4 := Save(s3, key, Row(CommentItem, comment, number, FromBoard, remote.updatedAt));
          if s4.halted then s4 else s4.(receipt := s4.receipt.(recovered := s4.receipt.recovered + 1))
  }

  function ParentFromMarker(project: string, parsed: (Marker, bool)): (r: Option<int>) {
    if !parsed.1 || parsed.0.project != project || parsed.0.parent <= 0 then None else Some(parsed.0.parent)
  }

  ghost function ImportComment(s: State, project: string, post: int, number: int, remote: Remote,
      limit: nat): (r: State)
    ensures |r.script| <= |s.script|
  {
    var parsed := remote.tag;
    if parsed.1 && parsed.0.project == project && parsed.0.comment > 0
    then RecoverComment(s, project, post, number, remote, parsed.0.comment)
    else
      var key := RowKey(project, CommentRow, remote.id);
      var (s1, row) := FindByGitHub(s, key);
      if s1.halted then s1
      else if row.Some? then
        if remote.updatedAt > row.value.remoteUpdatedAt
        then s1.(receipt := s1.receipt.(remoteEdits := s1.receipt.remoteEdits + 1)) else s1
      else
        var (s2, id) := CreateComment(s1, project, post, ParentFromMarker(project, parsed), remote);
        if s2.halted then s2 else
          var counted := AddUrl(s2.receipt.(importedComments := s2.receipt.importedComments + 1), limit);
          Save(s2.(receipt := counted), key, Row(CommentItem, id, number, FromGitHub, remote.updatedAt))
  }

  ghost function ImportThread(s: State, project: string, post: int, number: int, remotes: seq<Remote>,
      limit: nat): (r: State)
    ensures |r.script| <= |s.script|
    decreases |remotes|
  {
    if s.halted || remotes == [] then s
    else ImportThread(ImportComment(s, project, post, number, remotes[0], limit), project, post, number, remotes[1..],
      limit)
  }

  ghost function ImportIssueThread(s: State, project: string, issue: Issue, limit: nat): (r: State)
    ensures |r.script| <= |s.script|
  {
    var (s1, row) := FindByGitHub(s, RowKey(project, IssueRow, issue.id));
    if s1.halted || row.None? then s1 else
      var (s2, remotes) := ListIssueComments(s1, issue.number);
      if s2.halted then s2 else ImportThread(s2, project, row.value.boardId, issue.number, remotes, limit)
  }

  ghost function ImportComments(s: State, project: string, issues: seq<Issue>, limit: nat): (r: State)
    ensures |r.script| <= |s.script|
    decreases |issues|
  {
    if s.halted || issues == [] then s
    else ImportComments(ImportIssueThread(s, project, issues[0], limit), project, issues[1..], limit)
  }

  // ---- One attempt ------------------------------------------------------------------------------------------------

  /** `Sync`; the attempt completed exactly when the result is not halted. */
  ghost function Sync(w: World, script: seq<Turn>, project: string, limit: nat): (r: State) {
    var s0 := State(w, script, NoReceipt, false);
    var (s1, issues) := ListIssues(s0);
    if s1.halted then s1 else
      var s2 := ImportIssues(s1, project, issues, limit);
      if s2.halted then s2 else
        var s3 := ExportPosts(s2, project, IssueMarkers(project, issues), 0, limit);
        if s3.halted then s3 else ImportComments(s3, project, issues, limit)
  }
}
