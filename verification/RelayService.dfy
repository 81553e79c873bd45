/**
  The relay as an object: the loops of board-relay/internal/service.go over a table that is searched row by row, proved
  equal to the functions of module Relay, with the receipt's accounting kept by every method.
*/
module RelayService {
  import opened Core
  import opened Paging
  import opened Text
  import opened Marker
  import opened Relay
  import RS = RelaySafety
  import RX = RelayExport
  import B = Board
  import BS = BoardStore

  // ---- The table --------------------------------------------------------------------------------------------------

  lemma OnlyRow(rows: map<RowKey, Row>, key: RowKey, project: string, kind: BoardKind, id: int)
    requires RS.TableOk(rows) && IsRowOf(rows, key, project, kind, id)
    ensures BoardRow(rows, project, kind, id) == Some(rows[key])
  {
    var other :| IsRowOf(rows, other, project, kind, id) && rows[other] == BoardRow(rows, project, kind, id).value;
    assert IsRowOf(rows, other, project, kind, id);
    assert other in rows;
    assert key in rows && other in rows && key.project == other.project;
  }

  /** `FindByBoard`: the board side is unique, so a scan finds the row. */
  method FindRow(rows: map<RowKey, Row>, project: string, kind: BoardKind, id: int) returns (row: Option<Row>)
    requires RS.TableOk(rows)
    ensures row == BoardRow(rows, project, kind, id)
  {
    var todo := rows.Keys;
    while todo != {}
      invariant todo <= rows.Keys
      invariant forall key :: IsRowOf(rows, key, project, kind, id) ==> key in todo
      decreases todo
    {
      var key := Pick(todo);
      if key.project == project && rows[key].kind == kind && rows[key].boardId == id {
        OnlyRow(rows, key, project, kind, id);
        return Some(rows[key]);
      }
      todo := todo - {key};
    }
    return None;
  }

  /** Whether the primary key refuses the write. */
  method Refuses(rows: map<RowKey, Row>, key: RowKey, row: Row) returns (b: bool)
    ensures b == Conflict(rows, key, row)
  {
    var todo := rows.Keys;
    while todo != {}
      invariant todo <= rows.Keys
      invariant forall k :: k != key && IsRowOf(rows, k, key.project, row.kind, row.boardId) ==> k in todo
      decreases todo
    {
      var other := Pick(todo);
      if other != key && other.project == key.project && rows[other].kind == row.kind
        && rows[other].boardId == row.boardId {
        assert IsRowOf(rows, other, key.project, row.kind, row.boardId);
        return true;
      }
      todo := todo - {other};
    }
    return false;
  }

  // ---- The board --------------------------------------------------------------------------------------------------

  method PostOnBoard(b: B.Store, post: B.Post, key: string) returns (after: B.Store, id: int)
    ensures (after, id) == B.AddPostKeyed(b, post, key)
  {
    var board := new BS.MemoryStore.Holding(b);
    id := board.CreatePostIdempotent(post, key);
    after := B.Store(board.nextId, board.posts, board.comments, board.postKeys, board.commentKeys);
  }

  /** The board service checks the reply before it looks at the key. */
  method ReplyOnBoard(b: B.Store, c: B.Comment, key: string)
    returns (refusal: Option<B.Error>, after: B.Store, made: Result<int, B.Error>)
    ensures refusal == B.Refusal(b, c) && (after, made) == B.TryCommentKeyed(b, c, key)
  {
    hide B.Refusal, B.TryCommentKeyed, B.Valid, B.Extends;
    var board := new BS.MemoryStore.Holding(b);
    refusal := board.CheckReply(c);
    made := board.CreateCommentIdempotent(c, key);
    after := B.Store(board.nextId, board.posts, board.comments, board.postKeys, board.commentKeys);
  }

  /** What a reply leaves, from the answers of the board. */
  lemma RepliedIs(s: State, project: string, post: int, parent: Option<int>, remote: Remote)
    ensures var (t, o) := Next(s);
            var c := B.Comment(post, parent, TrimSpace(remote.body), "github", B.Active, remote.updatedAt, None);
            var (after, made) := B.TryCommentKeyed(t.w.board, c, ReplayKey(project, CommentKind, remote.id));
            Relay.CreateComment(s, project, post, parent, remote) ==
            if o.Failed? then (t, 0)
            else if UnfitRemote(project, remote) || B.Refusal(t.w.board, c).Some? || !InRange(after) then (Halt(t), 0)
            else (t.(w := t.w.(board := after)), if made.Ok? then made.value else 0)
  {
    hide Next, ReplayKey, TrimSpace, B.Refusal, B.TryCommentKeyed, InRange, UnfitRemote;
  }

  // ---- Tags are what the parser reads -----------------------------------------------------------------------------

  ghost predicate RemotesTagged(remotes: seq<Remote>) {
    forall i :: 0 <= i < |remotes| ==> remotes[i].tag == Parse(remotes[i].body)
  }

  ghost predicate Tagged(issues: seq<Issue>) {
    forall k :: 0 <= k < |issues| ==> issues[k].tag == Parse(issues[k].body) && RemotesTagged(issues[k].comments)
  }

  /** What the object relies on: unique board items, a sound board, and honest tags. */
  ghost predicate Sound(w: World) {
    RS.TableOk(w.rows) && B.Valid(w.board) && Tagged(w.issues)
  }

  lemma AppendTagged(w: World, i: nat, remote: Remote)
    requires Tagged(w.issues) && i < |w.issues| && remote.tag == Parse(remote.body)
    ensures Tagged(AppendRemote(w, i, remote).issues)
  {
    hide Parse;
    assert RemotesTagged(w.issues[i].comments + [remote]);
  }

  lemma UserSound(w: World, op: UserOp)
    requires Sound(w)
    ensures Sound(ApplyUser(w, op))
  {
    hide Parse, B.Valid, RS.TableOk, AppendRemote;
    match op
    case OnBoard(op) => B.ApplyValid(w.board, op);
    case OpenIssue(title, body, at) =>
    case EditIssue(i, title, body, at) =>
    case Reply(i, body, at) =>
      if i < |w.issues| {
        AppendTagged(w, i, Remote(w.nextRemote, body, Parse(body), at, None));
        AppendOnly(w, i, Remote(w.nextRemote, body, Parse(body), at, None));
      }
  }

  lemma AppendOnly(w: World, i: nat, remote: Remote)
    requires i < |w.issues|
    ensures var v := AppendRemote(w, i, remote); v.rows == w.rows && v.board == w.board
  {
  }

  lemma PostSound(w: World, post: B.Post, key: string, imported: map<int, (string, int)>)
    requires Sound(w)
    ensures Sound(w.(board := B.AddPostKeyed(w.board, post, key).0, imported := imported))
  {
    B.AddPostKeyedValid(w.board, post, key);
    hide B.Valid, Tagged, RS.TableOk;
  }

  lemma ReplySound(w: World, c: B.Comment, key: string)
    requires Sound(w)
    ensures Sound(w.(board := B.TryCommentKeyed(w.board, c, key).0))
  {
    B.TryCommentKeyedValid(w.board, c, key);
    hide B.Valid, Tagged, RS.TableOk;
  }

  lemma {:induction false} UsersSound(w: World, ops: seq<UserOp>)
    requires Sound(w)
    ensures Sound(ApplyUsers(w, ops))
    decreases |ops|
  {
    hide Sound, ApplyUser;
    if ops != [] {
      UserSound(w, ops[0]);
      UsersSound(ApplyUser(w, ops[0]), ops[1..]);
    }
  }

  // ---- Receipt accounting -----------------------------------------------------------------------------------------

  /** Every imported or exported item has its link shown or counted as omitted, and no more than the limit are shown. */
  predicate Counted(r: Receipt, limit: nat) {
    && r.urls <= limit
    && r.urls + r.omittedUrls == r.importedPosts + r.importedComments + r.exportedPosts + r.exportedComments
  }

  /** The row answered was read last, from the table the attempt goes on with. */
  lemma MappingRead(s: State, project: string, markers: map<int, Issue>, id: int, post: B.Post, limit: nat)
    ensures var (r, row) := Relay.EnsureMapping(s, project, markers, id, post, limit);
            !r.halted ==> row == BoardRow(r.w.rows, project, PostItem, id)
  {
    hide Relay.Save, AddUrl, Relay.CreateIssue, BoardRow, Marked, PostMarker;
  }

  class Service {
    const limit: nat
    var w: World
    var script: seq<Turn>
    var receipt: Receipt
    var halted: bool

    constructor (w: World, script: seq<Turn>, limit: nat)
      requires Sound(w)
      ensures Now() == State(w, script, NoReceipt, false) && this.limit == limit && Valid()
    {
      this.limit := limit;
      this.w, this.script, this.receipt, this.halted := w, script, NoReceipt, false;
    }

    ghost function Now(): (s: State)
      reads this
    {
      State(w, script, receipt, halted)
    }

    ghost predicate Valid()
      reads this
    {
      Sound(w) && Counted(receipt, limit)
    }

    // ---- Calls ----

    /** One call: users act first, then it succeeds, fails, or takes effect and loses its answer. */
    method Call() returns (o: Outcome)
      requires Valid()
      modifies this
      ensures Valid() && (Now(), o) == Next(old(Now())) && receipt == old(receipt)
      ensures Next(old(Now())).0.w == w
    {
      hide Sound, Counted;
      if halted || script == [] {
        halted := true;
        return Failed;
      }
      var turn := script[0];
      UsersSound(w, turn.before);
      w := ApplyUsers(w, turn.before);
      script := script[1..];
      if !turn.outcome.Done? { halted := true; }
      return turn.outcome;
    }

    method ListIssues() returns (issues: seq<Issue>)
      requires Valid()
      modifies this
      ensures Valid() && (Now(), issues) == Relay.ListIssues(old(Now())) && Tagged(issues)
    {
      var o := Call();
      hide B.Valid, RS.TableOk, Parse, RemotesTagged, Next;
      return if o.Done? then w.issues else [];
    }

    method FindByGitHub(key: RowKey) returns (row: Option<Row>)
      requires Valid()
      modifies this
      ensures Valid() && (Now(), row) == Relay.FindByGitHub(old(Now()), key)
    {
      var o := Call();
      hide Sound, Next;
      return if o.Done? && key in w.rows then Some(w.rows[key]) else None;
    }

    method FindByBoard(project: string, kind: BoardKind, id: int) returns (row: Option<Row>)
      requires Valid()
      modifies this
      ensures Valid() && (Now(), row) == Relay.FindByBoard(old(Now()), project, kind, id)
    {
      var o := Call();
      if !o.Done? { return None; }
      row := FindRow(w.rows, project, kind, id);
      hide Sound, Next, BoardRow;
    }

    method Save(key: RowKey, row: Row)
      requires Valid()
      modifies this
      ensures Valid() && Now() == Relay.Save(old(Now()), key, row)
    {
      var o := Call();
      if o.Failed? { return; }
      var refused := Refuses(w.rows, key, row);
      if refused {
        halted := true;
      } else {
        RS.TableWrite(w.rows, key, row);
        w := w.(rows := w.rows[key := row]);
      }
      hide Conflict, Next, B.Valid, Tagged, RS.TableOk;
    }

    method CreatePost(project: string, issue: Issue) returns (id: int)
      requires Valid()
      modifies this
      ensures Valid() && (Now(), id) == Relay.CreatePost(old(Now()), project, issue) && receipt == old(receipt)
    {
      hide ReplayKey, BoardPost, Sound, Next, Counted, B.AddPostKeyed, UnfitIssue;
      var o := Call();
      if o.Failed? { return 0; }
      if UnfitIssue(project, issue) {
        halted := true;
        return 0;
      }
      var post, key := BoardPost(project, issue), ReplayKey(project, IssueKind, issue.id);
      var after;
      after, id := PostOnBoard(w.board, post, key);
      if InRange(after) {
        var imported := w.imported[id := (project, issue.id)];
        PostSound(w, post, key, imported);
        w := w.(board := after, imported := imported);
      } else {
        halted, id := true, 0;
      }
    }

    method ListPosts(project: string, after: int) returns (page: Page<int>)
      requires Valid()
      modifies this
      ensures Valid() && (Now(), page) == Relay.ListPosts(old(Now()), project, after)
    {
      var o := Call();
      hide Sound, Next, PageOf;
      if !o.Done? { return Page([], None); }
      var board := new BS.MemoryStore.Holding(w.board);
      page := board.ListPosts(project, after, PageSize);
    }

    method GetPost(id: int) returns (post: Option<B.Post>)
      requires Valid()
      modifies this
      ensures Valid() && (Now(), post) == Relay.GetPost(old(Now()), id) && receipt == old(receipt)
    {
      var o := Call();
      hide Sound, Next;
      if !o.Done? { return None; }
      if !B.ActivePost(w.board, id) {
        halted := true;
        return None;
      }
      return Some(w.board.posts[id]);
    }

    method CreateIssue(post: int, title: string, body: string) returns (issue: Issue)
      requires Valid()
      modifies this
      ensures Valid() && (Now(), issue) == Relay.CreateIssue(old(Now()), post, title, body) && receipt == old(receipt)
    {
      var o := Call();
      hide B.Valid, RS.TableOk, Parse, Next;
      var marker, marked := ParseMarker(body);
      issue := Issue(w.nextRemote, |w.issues| + 1, title, body, (marker, marked), 0, [], Some(post));
      if !o.Failed? {
        w := w.(issues := w.issues + [issue], nextRemote := w.nextRemote + 1);
      }
    }

    method ListComments(post: int, parent: Option<int>, after: int)
      returns (page: Page<int>, rows: map<int, B.Comment>)
      requires Valid()
      modifies this
      ensures Valid() && (Now(), page, rows) == Relay.ListComments(old(Now()), post, parent, after)
    {
      var o := Call();
      hide RS.TableOk, Tagged, Next, PageOf, B.Valid, Listable;
      rows := w.board.comments;
      if !o.Done? { return Page([], None), rows; }
      if !Listable(w.board, post, parent) {
        halted := true;
        return Page([], None), rows;
      }
      var board := new BS.MemoryStore.Holding(w.board);
      page := board.ListComments(post, parent, after, PageSize);
    }

    method CreateIssueComment(number: int, comment: (string, int), body: string) returns (remote: Remote)
      requires Valid()
      modifies this
      ensures Valid() && (Now(), remote) == Relay.CreateIssueComment(old(Now()), number, comment, body)
              && receipt == old(receipt)
    {
      var o := Call();
      hide B.Valid, RS.TableOk, Parse, Next, AppendRemote;
      var marker, marked := ParseMarker(body);
      remote := Remote(w.nextRemote, body, (marker, marked), 0, Some(comment));
      if o.Failed? { return; }
      if !(1 <= number <= |w.issues|) {
        halted := true;
        return;
      }
      AppendTagged(w, number - 1, remote);
      AppendOnly(w, number - 1, remote);
      hide Tagged;
      w := AppendRemote(w, number - 1, remote);
    }

    method ListIssueComments(number: int) returns (remotes: seq<Remote>)
      requires Valid()
      modifies this
      ensures Valid() && (Now(), remotes) == Relay.ListIssueComments(old(Now()), number) && RemotesTagged(remotes)
    {
      var o := Call();
      hide B.Valid, RS.TableOk, Parse, Next;
      if !o.Done? { return []; }
      if !(1 <= number <= |w.issues|) {
        halted := true;
        return [];
      }
      return w.issues[number - 1].comments;
    }

    method GetComment(id: int) returns (c: Option<B.Comment>)
      requires Valid()
      modifies this
      ensures Valid() && (Now(), c) == Relay.GetComment(old(Now()), id)
    {
      var o := Call();
      hide Sound, Next;
      if !o.Done? { return None; }
      if !Readable(w.board, id) {
        halted := true;
        return None;
      }
      return Some(w.board.comments[id]);
    }

    method CreateComment(project: string, post: int, parent: Option<int>, remote: Remote) returns (id: int)
      requires Valid()
      modifies this
      ensures Valid() && (Now(), id) == Relay.CreateComment(old(Now()), project, post, parent, remote)
      ensures receipt == old(receipt)
    {
      hide ReplayKey, Sound, Next, Counted, TrimSpace, B.Refusal, B.TryCommentKeyed, InRange, Relay.CreateComment,
        UnfitRemote;
      RepliedIs(Now(), project, post, parent, remote);
      var o := Call();
      if o.Failed? { return 0; }
      if UnfitRemote(project, remote) {
        halted := true;
        return 0;
      }
      var c := B.Comment(post, parent, TrimSpace(remote.body), "github", B.Active, remote.updatedAt, None);
      var key := ReplayKey(project, CommentKind, remote.id);
      ReplySound(w, c, key);
      var refusal, after, made := ReplyOnBoard(w.board, c, key);
      if refusal.Some? || !InRange(after) {
        halted := true;
        return 0;
      }
      w := w.(board := after);
      id := if made.Ok? then made.value else 0;
    }

    // ---- `addItemURL` ----

    method AddItemUrl(counted: Receipt)
      requires Sound(w) && counted.urls <= limit
      requires counted.urls + counted.omittedUrls + 1
               == counted.importedPosts + counted.importedComments + counted.exportedPosts + counted.exportedComments
      modifies this`receipt
      ensures Valid() && receipt == AddUrl(counted, limit)
    {
      hide Sound;
      receipt := counted;
      if receipt.urls >= limit {
        receipt := receipt.(omittedUrls := receipt.omittedUrls + 1);
      } else {
        receipt := receipt.(urls := receipt.urls + 1);
      }
    }

    // ---- `importIssues` ----

    method SaveCounted(counted: Receipt, key: RowKey, row: Row)
      requires Sound(w) && counted.urls <= limit
      requires counted.urls + counted.omittedUrls + 1
               == counted.importedPosts + counted.importedComments + counted.exportedPosts + counted.exportedComments
      modifies this
      ensures Valid() && Now() == Relay.Save(old(Now()).(receipt := AddUrl(counted, limit)), key, row)
    {
      hide Sound, Counted, Relay.Save, AddUrl;
      AddItemUrl(counted);
      Save(key, row);
    }

    method ImportIssue(project: string, issue: Issue)
      requires Valid() && !halted && issue.tag == Parse(issue.body)
      modifies this
      ensures Valid() && Now() == Relay.ImportIssue(old(Now()), project, issue, limit)
    {
      hide Sound, Relay.Save, AddUrl, Relay.CreatePost, Parse, Relay.FindByGitHub;
      var marker, marked := ParseMarker(issue.body);
      if !marked || marker.project != project || marker.post > 0 { return; }
      var key := RowKey(project, IssueRow, issue.id);
      var row := FindByGitHub(key);
      if halted { return; }
      if row.Some? {
        if issue.updatedAt > row.value.remoteUpdatedAt {
          receipt := receipt.(remoteEdits := receipt.remoteEdits + 1);
        }
        return;
      }
      var id := CreatePost(project, issue);
      if halted { return; }
      SaveCounted(receipt.(importedPosts := receipt.importedPosts + 1), key,
                  Row(PostItem, id, issue.number, FromGitHub, issue.updatedAt));
    }

    method ImportIssues(project: string, issues: seq<Issue>)
      requires Valid() && !halted && Tagged(issues)
      modifies this
      ensures Valid() && Now() == Relay.ImportIssues(old(Now()), project, issues, limit)
    {
      hide Sound, Counted, Parse, Relay.ImportIssue, RemotesTagged;
      var i := 0;
      while i < |issues|
        invariant Valid() && !halted && i <= |issues|
        invariant Relay.ImportIssues(old(Now()), project, issues, limit)
                  == Relay.ImportIssues(Now(), project, issues[i..], limit)
      {
        assert issues[i..][0] == issues[i] && issues[i..][1..] == issues[i + 1..];
        ImportIssue(project, issues[i]);
        i := i + 1;
        if halted { return; }
      }
    }

    // ---- `exportPosts` and `exportComments` ----

    method MarkersOf(project: string, issues: seq<Issue>) returns (markers: map<int, Issue>)
      requires Tagged(issues)
      ensures markers == IssueMarkers(project, issues)
    {
      hide Parse, RemotesTagged;
      markers := map[];
      for i := 0 to |issues|
        invariant markers == IssueMarkers(project, issues[..i])
      {
        assert issues[..i + 1][..i] == issues[..i] && issues[..i + 1][i] == issues[i];
        var marker, marked := ParseMarker(issues[i].body);
        if marked && marker.project == project && marker.post > 0 {
          markers := markers[marker.post := issues[i]];
        }
      }
      assert issues[..|issues|] == issues;
    }

    method Recover(project: string, id: int, found: Issue) returns (row: Option<Row>)
      requires Valid()
      modifies this
      ensures Valid() && (Now(), row) == Relay.Recover(old(Now()), project, id, found)
    {
      hide Sound, Relay.Save, Relay.FindByBoard;
      Save(RowKey(project, IssueRow, found.id), Row(PostItem, id, found.number, FromBoard, found.updatedAt));
      if halted { return None; }
      receipt := receipt.(recovered := receipt.recovered + 1);
      row := FindByBoard(project, PostItem, id);
    }

    method ExportNew(project: string, id: int, post: B.Post) returns (row: Option<Row>)
      requires Valid()
      modifies this
      ensures Valid() && (Now(), row) == Relay.ExportNew(old(Now()), project, id, post, limit)
    {
      hide Sound, Relay.Save, Relay.FindByBoard, Relay.CreateIssue, AddUrl, Marked, PostMarker;
      var issue := CreateIssue(id, post.title, Marked(post.body, PostMarker(project, id)));
      if halted { return None; }
      SaveCounted(receipt.(exportedPosts := receipt.exportedPosts + 1), RowKey(project, IssueRow, issue.id),
                  Row(PostItem, id, issue.number, FromBoard, issue.updatedAt));
      if halted { return None; }
      row := FindByBoard(project, PostItem, id);
    }

    /**
      The row answered is the row the table holds for the post.  In a sound export phase the attempt goes on only with
      such a row, and whatever earlier attempts left behind no second issue is made for the post.
    */
    method EnsureMapping(project: string, markers: map<int, Issue>, id: int, post: B.Post) returns (row: Option<Row>)
      requires Valid()
      modifies this
      ensures Valid() && (Now(), row) == Relay.EnsureMapping(old(Now()), project, markers, id, post, limit)
      ensures !halted ==> row == BoardRow(w.rows, project, PostItem, id)
      ensures forall listing ::
                (RS.Safe(old(Now())) && RX.Exporting(old(w), project, listing, None) && Plain(project)
                 && RX.Read(old(w), project, id, post) && markers == IssueMarkers(project, listing))
                ==> RX.Step(old(Now()), Now(), project, listing) && (!halted ==> row.Some?)
    {
      ghost var s0 := Now();
      forall listing | RS.Safe(s0) && RX.Exporting(s0.w, project, listing, None) && Plain(project)
                       && RX.Read(s0.w, project, id, post) && markers == IssueMarkers(project, listing)
        ensures var (r, found) := Relay.EnsureMapping(s0, project, markers, id, post, limit);
                RX.Step(s0, r, project, listing) && (!r.halted ==> found.Some?)
      {
        RX.EnsureMappingKept(s0, project, listing, id, post, limit);
      }
      MappingRead(s0, project, markers, id, post, limit);
      hide RS.Safe, RX.Exporting, Plain, RX.Read, RX.Step, IssueMarkers, BoardRow;
      hide Sound, Counted, Relay.FindByBoard, Relay.Recover, Relay.ExportNew;
      row := FindByBoard(project, PostItem, id);
      if halted { return None; }
      if row.None? && id in markers {
        row := Recover(project, id, markers[id]);
        if halted { return None; }
      }
      if row.None? {
        row := ExportNew(project, id, post);
      }
    }

    method ExportComment(project: string, number: int, id: int, c: B.Comment)
      requires Valid()
      modifies this
      ensures Valid() && Now() == Relay.ExportComment(old(Now()), project, number, id, c, limit)
    {
      hide Sound, Relay.FindByBoard, Relay.Save, Relay.CreateIssueComment, AddUrl, Marked, CommentMarker;
      var row := FindByBoard(project, CommentItem, id);
      if halted || row.Some? { return; }
      var remote := CreateIssueComment(number, (project, id), Marked(c.body, CommentMarker(project, id, c.parent)));
      if halted { return; }
      SaveCounted(receipt.(exportedComments := receipt.exportedComments + 1), RowKey(project, CommentRow, remote.id),
                  Row(CommentItem, id, number, FromBoard, remote.updatedAt));
    }

    /** The walk descends into the replies of every active comment before it goes on to the next. */
    method ExportComments(project: string, post: int, number: int, parent: Option<int>)
      requires Valid() && !halted
      modifies this
      ensures Valid() && |script| <= |old(script)|
      ensures Now() == Relay.ExportComments(old(Now()), project, post, number, parent, 0, limit)
      decreases |script|
    {
      hide Sound, Counted, Relay.ListComments, Relay.ExportComment;
      var after := 0;
      while true
        invariant Valid() && !halted && |script| <= |old(script)|
        invariant Relay.ExportComments(old(Now()), project, post, number, parent, 0, limit)
                  == Relay.ExportComments(Now(), project, post, number, parent, after, limit)
        decreases |script|
      {
        var page, rows := ListComments(post, parent, after);
        if halted { return; }
        ExportReplies(project, post, number, page.items, rows);
        if halted || page.next.None? { return; }
        after := page.next.value;
      }
    }

    method ExportReplies(project: string, post: int, number: int, ids: seq<int>, rows: map<int, B.Comment>)
      requires Valid() && !halted
      modifies this
      ensures Valid() && |script| <= |old(script)|
      ensures Now() == Relay.ExportReplies(old(Now()), project, post, number, ids, rows, limit)
      decreases |script|, 0
    {
      hide Sound, Counted, Relay.ExportComment, Relay.ExportComments;
      var i := 0;
      while i < |ids|
        invariant Valid() && !halted && i <= |ids| && |script| <= |old(script)|
        invariant Relay.ExportReplies(old(Now()), project, post, number, ids, rows, limit)
                  == Relay.ExportReplies(Now(), project, post, number, ids[i..], rows, limit)
      {
        assert ids[i..][0] == ids[i] && ids[i..][1..] == ids[i + 1..];
        if ids[i] in rows && rows[ids[i]].status.Active? {
          ExportComment(project, number, ids[i], rows[ids[i]]);
          if halted { return; }
          ExportComments(project, post, number, Some(ids[i]));
        }
        i := i + 1;
        if halted { return; }
      }
    }

    method ExportPost(project: string, markers: map<int, Issue>, id: int)
      requires Valid() && !halted
      modifies this
      ensures Valid() && Now() == Relay.ExportPost(old(Now()), project, markers, id, limit)
    {
      hide Sound, Counted, Relay.GetPost, Relay.EnsureMapping, Relay.ExportComments;
      var post := GetPost(id);
      if halted { return; }
      if post.None? || !post.value.status.Active? {
        SkipItem();
        return;
      }
      var row := EnsureMapping(project, markers, id, post.value);
      if !halted && row.Some? {
        ExportComments(project, id, row.value.number, None);
      }
    }

    method SkipItem()
      requires Valid()
      modifies this`receipt
      ensures Valid() && receipt == old(receipt).(skipped := old(receipt).skipped + 1)
    {
      receipt := receipt.(skipped := receipt.skipped + 1);
    }

    method ExportPosts(project: string, markers: map<int, Issue>)
      requires Valid() && !halted
      modifies this
      ensures Valid() && Now() == Relay.ExportPosts(old(Now()), project, markers, 0, limit)
    {
      hide Sound, Counted, Relay.ListPosts, Relay.ExportPost;
      var after := 0;
      while true
        invariant Valid() && !halted
        invariant Relay.ExportPosts(old(Now()), project, markers, 0, limit)
                  == Relay.ExportPosts(Now(), project, markers, after, limit)
        decreases |script|
      {
        var page := ListPosts(project, after);
        if halted { return; }
        label Listed:
        var i := 0;
        while i < |page.items|
          invariant Valid() && !halted && i <= |page.items| && |script| <= |old@Listed(script)|
          invariant Relay.ExportEach(old@Listed(Now()), project, markers, page.items, limit)
                    == Relay.ExportEach(Now(), project, markers, page.items[i..], limit)
        {
          assert page.items[i..][0] == page.items[i] && page.items[i..][1..] == page.items[i + 1..];
          ExportPost(project, markers, page.items[i]);
          i := i + 1;
          if halted { return; }
        }
        if page.next.None? { return; }
        after := page.next.value;
      }
    }

    // ---- `importIssueComments` ----

    method RecoverComment(project: string, post: int, number: int, remote: Remote, comment: int)
      requires Valid()
      modifies this
      ensures Valid() && Now() == Relay.RecoverComment(old(Now()), project, post, number, remote, comment)
    {
      hide Sound, Relay.FindByGitHub, Relay.GetPost, Relay.GetComment, Relay.Save;
      var key := RowKey(project, CommentRow, remote.id);
      var row := FindByGitHub(key);
      if halted || row.Some? { return; }
      var p := GetPost(post);
      if halted { return; }
      if p.None? { halted := true; return; }
      var c := GetComment(comment);
      if halted { return; }
      if c.None? || c.value.postId != post { halted := true; return; }
      Save(key, Row(CommentItem, comment, number, FromBoard, remote.updatedAt));
      if !halted { receipt := receipt.(recovered := receipt.recovered + 1); }
    }

    method ImportNewComment(project: string, post: int, number: int, remote: Remote)
      requires Valid() && remote.tag == Parse(remote.body)
      modifies this
      ensures Valid()
      ensures var (s2, id) := Relay.CreateComment(old(Now()), project, post, ParentFromMarker(project, remote.tag),
              remote);
              var counted := AddUrl(s2.receipt.(importedComments := s2.receipt.importedComments + 1), limit);
              Now() == if s2.halted then s2 else
                Relay.Save(s2.(receipt := counted), RowKey(project, CommentRow, remote.id),
                           Row(CommentItem, id, number, FromGitHub, remote.updatedAt))
    {
      hide Sound, Parse, Relay.Save, Relay.CreateComment, AddUrl;
      var id := CreateComment(project, post, ParentFromMarker(project, remote.tag), remote);
      if halted { return; }
      SaveCounted(receipt.(importedComments := receipt.importedComments + 1), RowKey(project, CommentRow, remote.id),
                  Row(CommentItem, id, number, FromGitHub, remote.updatedAt));
    }

    method ImportComment(project: string, post: int, number: int, remote: Remote)
      requires Valid() && remote.tag == Parse(remote.body)
      modifies this
      ensures Valid() && Now() == Relay.ImportComment(old(Now()), project, post, number, remote, limit)
    {
      hide Sound, Parse, Relay.RecoverComment, Relay.FindByGitHub, Relay.Save, Relay.CreateComment, AddUrl;
      var marker, marked := ParseMarker(remote.body);
      if marked && marker.project == project && marker.comment > 0 {
        RecoverComment(project, post, number, remote, marker.comment);
        return;
      }
      var row := FindByGitHub(RowKey(project, CommentRow, remote.id));
      if halted { return; }
      if row.Some? {
        if remote.updatedAt > row.value.remoteUpdatedAt {
          receipt := receipt.(remoteEdits := receipt.remoteEdits + 1);
        }
        return;
      }
      ImportNewComment(project, post, number, remote);
    }

    method ImportThread(project: string, post: int, number: int, remotes: seq<Remote>)
      requires Valid() && !halted && RemotesTagged(remotes)
      modifies this
      ensures Valid() && Now() == Relay.ImportThread(old(Now()), project, post, number, remotes, limit)
    {
      hide Sound, Counted, Parse, Relay.ImportComment;
      var i := 0;
      while i < |remotes|
        invariant Valid() && !halted && i <= |remotes|
        invariant Relay.ImportThread(old(Now()), project, post, number, remotes, limit)
                  == Relay.ImportThread(Now(), project, post, number, remotes[i..], limit)
      {
        assert remotes[i..][0] == remotes[i] && remotes[i..][1..] == remotes[i + 1..];
        ImportComment(project, post, number, remotes[i]);
        i := i + 1;
        if halted { return; }
      }
    }

    method ImportComments(project: string, issues: seq<Issue>)
      requires Valid() && !halted
      modifies this
      ensures Valid() && Now() == Relay.ImportComments(old(Now()), project, issues, limit)
    {
      hide Sound, Counted, Relay.ImportThread, Relay.ListIssueComments, Relay.FindByGitHub, RemotesTagged;
      var i := 0;
      while i < |issues|
        invariant Valid() && !halted && i <= |issues|
        invariant Relay.ImportComments(old(Now()), project, issues, limit)
                  == Relay.ImportComments(Now(), project, issues[i..], limit)
      {
        assert issues[i..][0] == issues[i] && issues[i..][1..] == issues[i + 1..];
        var issue := issues[i];
        i := i + 1;
        var row := FindByGitHub(RowKey(project, IssueRow, issue.id));
        if halted { return; }
        if row.None? { continue; }
        var remotes := ListIssueComments(issue.number);
        if halted { return; }
        ImportThread(project, row.value.boardId, issue.number, remotes);
        if halted { return; }
      }
    }

    // ---- `Sync` ----

    /** One attempt; it returned no error exactly when the object is not halted. */
    method Sync(project: string)
      requires Valid() && !halted && receipt == NoReceipt
      modifies this
      ensures Valid() && Now() == Relay.Sync(old(w), old(script), project, limit)
    {
      hide Sound, Counted, Tagged, Relay.ListIssues, Relay.ImportIssues, Relay.ExportPosts, Relay.ImportComments,
        IssueMarkers;
      var issues := ListIssues();
      if halted { return; }
      ImportIssues(project, issues);
      if halted { return; }
      var markers := MarkersOf(project, issues);
      ExportPosts(project, markers);
      if halted { return; }
      ImportComments(project, issues);
    }
  }

  /** The receipt of any attempt accounts for every item it imported or exported, wherever the attempt stopped. */
  method SyncReceipt(w: World, script: seq<Turn>, project: string, limit: nat) returns (after: World, receipt: Receipt)
    requires Sound(w)
    ensures (after, receipt) == (Relay.Sync(w, script, project, limit).w, Relay.Sync(w, script, project, limit).receipt)
    ensures Counted(receipt, limit)
  {
    hide Sound, Relay.Sync, Counted;
    var service := new Service(w, script, limit);
    service.Sync(project);
    return service.w, service.receipt;
  }
}
