/** Quiescence of the relay: the two halves put together. */
module RelayQuiescence {
  import opened Core
  import opened Paging
  import opened Text
  import opened Marker
  import opened Relay
  import opened RelaySafety
  import opened RelayExport
  import opened RelayRuns
  import opened RelayQuiet
  import opened RelaySettles
  import RC = RelayComments
  import B = Board

  // ---- Export of posts --------------------------------------------------------------------------------------------

  ghost predicate Open(s: State, project: string, listing: seq<Issue>) {
    Calm(s) && Exporting(s.w, project, listing, None) && Plain(project)
  }

  ghost predicate Out(s: State, r: State, project: string, listing: seq<Issue>, n: nat) {
    Step(s, r, project, listing) && Built(s, r, project, n)
  }

  lemma OutOpen(s: State, r: State, project: string, listing: seq<Issue>, n: nat)
    requires Plain(project) && Out(s, r, project, listing, n) && !r.halted
    ensures Open(r, project, listing) && Later(s.w, r.w) && r.w.board == s.w.board
  {
    hide Inv, Later, Exporting, NewThreaded, Plain;
  }

  lemma OutTransitive(s: State, t: State, r: State, project: string, listing: seq<Issue>, n: nat)
    requires Open(s, project, listing) && Out(s, t, project, listing, n) && Out(t, r, project, listing, n)
    requires r.halted || !t.halted
    ensures Out(s, r, project, listing, n)
  {
    StepTransitive(s, t, r, project, listing);
    BuiltTransitive(s, t, r, project, n);
    hide Step, Built;
  }

  lemma OutReflexive(s: State, r: State, project: string, listing: seq<Issue>, n: nat)
    requires Open(s, project, listing) && r == s.(receipt := r.receipt)
    ensures Out(s, r, project, listing, n)
  {
    StepReflexive(s, r, project, listing);
    hide Step;
  }

  /** The post has its row, and so does every comment the walk below it reaches. */
  ghost predicate PostDone(w: World, project: string, p: int) {
    Mapped(w.rows, project, PostItem, p) && Covered(w.board, w.rows, project, p, None, 0)
  }

  lemma PostDoneStays(v: World, w: World, project: string, p: int)
    requires PostDone(v, project, p) && Later(v, w) && w.board == v.board
    ensures PostDone(w, project, p)
  {
    MappedStays(v, w, project, PostItem, p);
    CoveredStays(v, w, project, p, None, 0);
  }

  lemma GetPostOut(s: State, project: string, listing: seq<Issue>, p: int, n: nat)
    requires Open(s, project, listing) && p in B.PostIds(s.w.board, project)
    ensures var (r, post) := GetPost(s, p);
            && Out(s, r, project, listing, n)
            && (!r.halted ==> post.Some? && post.value.status.Active? && Read(r.w, project, p, post.value))
  {
    GetPostStep(s, project, listing, p);
    NextQuiet(s);
    RowsBuilt(s, Next(s).0, project, n);
    hide Inv, Step, Built, Exporting, Plain;
  }

  lemma MappingOut(s: State, project: string, listing: seq<Issue>, p: int, post: B.Post, limit: nat, n: nat)
    requires Open(s, project, listing) && Read(s.w, project, p, post)
    ensures var (r, row) := EnsureMapping(s, project, IssueMarkers(project, listing), p, post, limit);
            && Out(s, r, project, listing, n)
            && (!r.halted ==> row.Some? && Mapped(r.w.rows, project, PostItem, p))
  {
    EnsureMappingKept(s, project, listing, p, post, limit);
    EnsureMappingBuilt(s, project, IssueMarkers(project, listing), p, post, limit, n);
    hide Inv, Step, Built, Exporting, Plain, EnsureMapping, IssueMarkers, Mapped;
  }

  lemma WalkOut(s: State, project: string, listing: seq<Issue>, p: int, number: int, limit: nat, n: nat)
    requires Open(s, project, listing) && Mapped(s.w.rows, project, PostItem, p)
    ensures var r := ExportComments(s, project, p, number, None, 0, limit);
            Out(s, r, project, listing, n) && (!r.halted ==> PostDone(r.w, project, p))
  {
    var r := ExportComments(s, project, p, number, None, 0, limit);
    WalkCovers(s, project, p, number, None, 0, limit, n);
    MappedStays(s.w, r.w, project, PostItem, p);
    hide Inv, Later, Built, Exporting, Plain, ExportComments, Mapped, Covered, SamePosts, AllowedScript, Quiet;
    CommentsStep(s, project, listing, p, number, limit);
  }

  lemma ExportPostSettles(s: State, project: string, listing: seq<Issue>, p: int, limit: nat, n: nat)
    requires Open(s, project, listing) && p in B.PostIds(s.w.board, project)
    ensures var r := ExportPost(s, project, IssueMarkers(project, listing), p, limit);
            Out(s, r, project, listing, n) && (!r.halted ==> PostDone(r.w, project, p))
  {
    hide Out, Read, IssueMarkers, GetPost, EnsureMapping, ExportComments, PostDone, B.PostIds, Calm, Mapped, Exporting;
    var markers := IssueMarkers(project, listing);
    var (s1, post) := GetPost(s, p);
    GetPostOut(s, project, listing, p, n);
    if !s1.halted {
      OutOpen(s, s1, project, listing, n);
      var (s2, row) := EnsureMapping(s1, project, markers, p, post.value, limit);
      MappingOut(s1, project, listing, p, post.value, limit, n);
      OutTransitive(s, s1, s2, project, listing, n);
      if !s2.halted {
        OutOpen(s1, s2, project, listing, n);
        WalkOut(s2, project, listing, p, row.value.number, limit, n);
        OutTransitive(s, s2, ExportComments(s2, project, p, row.value.number, None, 0, limit), project, listing, n);
      }
    }
  }

  ghost predicate PostsDone(w: World, project: string, ids: seq<int>) {
    forall i :: 0 <= i < |ids| ==> PostDone(w, project, ids[i])
  }

  lemma FirstPostDone(v: World, w: World, project: string, ids: seq<int>)
    requires ids != [] && PostDone(v, project, ids[0]) && Later(v, w) && w.board == v.board
    requires PostsDone(w, project, ids[1..])
    ensures PostsDone(w, project, ids)
  {
    PostDoneStays(v, w, project, ids[0]);
    hide PostDone;
    forall i | 0 <= i < |ids| ensures PostDone(w, project, ids[i]) {
      if i > 0 { assert ids[1..][i - 1] == ids[i]; }
    }
  }

  lemma {:induction false} ExportEachSettles(s: State, project: string, listing: seq<Issue>, ids: seq<int>, limit: nat,
      n: nat)
    requires Open(s, project, listing) && ActivePosts(s.w.board, project, ids)
    ensures var r := ExportEach(s, project, IssueMarkers(project, listing), ids, limit);
            Out(s, r, project, listing, n) && (!r.halted ==> PostsDone(r.w, project, ids))
    decreases |ids|
  {
    hide Out, IssueMarkers, ExportPost, PostDone, B.PostIds, Calm, Exporting, Later;
    OutReflexive(s, s, project, listing, n);
    if !s.halted && ids != [] {
      var markers := IssueMarkers(project, listing);
      var t := ExportPost(s, project, markers, ids[0], limit);
      ExportPostSettles(s, project, listing, ids[0], limit, n);
      if !t.halted {
        OutOpen(s, t, project, listing, n);
        var r := ExportEach(t, project, markers, ids[1..], limit);
        ExportEachSettles(t, project, listing, ids[1..], limit, n);
        OutTransitive(s, t, r, project, listing, n);
        if !r.halted {
          OutOpen(t, r, project, listing, n);
          FirstPostDone(t.w, r.w, project, ids);
        }
      }
    }
  }

  lemma ListPostsOut(s: State, project: string, listing: seq<Issue>, after: int, n: nat)
    requires Open(s, project, listing)
    ensures var (r, page) := ListPosts(s, project, after);
            && Out(s, r, project, listing, n)
            && (!r.halted ==> page == PageOf(B.PostIds(r.w.board, project), after, PageSize))
  {
    hide Inv, Step, Built, Exporting, Plain, PageOf, B.PostIds;
    ListPostsStep(s, project, listing, after);
    NextQuiet(s);
    RowsBuilt(s, Next(s).0, project, n);
  }

  /** Every post of the project beyond the cursor. */
  ghost predicate DoneBeyond(w: World, project: string, after: int) {
    forall p :: p in B.PostIds(w.board, project) && p > after ==> PostDone(w, project, p)
  }

  lemma PageOfPosts(v: World, w: World, project: string, after: int, page: Page<int>)
    requires page == PageOf(B.PostIds(v.board, project), after, PageSize) && PostsDone(v, project, page.items)
    requires Later(v, w) && w.board == v.board
    requires page.next.Some? ==> DoneBeyond(w, project, page.next.value)
    ensures DoneBeyond(w, project, after)
  {
    PageMeaning(B.PostIds(v.board, project), after, PageSize);
    hide PageOf, PostDone, Later, Ascending, B.PostIds;
    forall p | p in B.PostIds(w.board, project) && p > after ensures PostDone(w, project, p) {
      if p in page.items { PostDoneStays(v, w, project, p); }
    }
  }

  lemma PagePosts(w: World, project: string, after: int, page: Page<int>)
    requires page == PageOf(B.PostIds(w.board, project), after, PageSize)
    ensures ActivePosts(w.board, project, page.items)
  {
    hide PageOf, B.PostIds, Ascending;
    var ids := B.PostIds(w.board, project);
    PageMeaning(ids, after, PageSize);
    assert IsPage(page, ids, after);
    forall i | 0 <= i < |page.items| ensures page.items[i] in ids {
      var id := page.items[i];
      assert id in page.items;
    }
  }

  lemma {:induction false} ExportPostsSettles(s: State, project: string, listing: seq<Issue>, after: int, limit: nat,
      n: nat)
    requires Open(s, project, listing)
    ensures var r := ExportPosts(s, project, IssueMarkers(project, listing), after, limit);
            Out(s, r, project, listing, n) && (!r.halted ==> DoneBeyond(r.w, project, after))
    decreases |s.script|
  {
    hide Out, IssueMarkers, ExportEach, ListPosts, PostsDone, DoneBeyond, PageOf, B.PostIds, Calm, Exporting, Later,
      ActivePosts;
    OutReflexive(s, s, project, listing, n);
    if !s.halted {
      var markers := IssueMarkers(project, listing);
      var (s1, page) := ListPosts(s, project, after);
      ListPostsOut(s, project, listing, after, n);
      if !s1.halted {
        OutOpen(s, s1, project, listing, n);
        PagePosts(s1.w, project, after, page);
        var s2 := ExportEach(s1, project, markers, page.items, limit);
        ExportEachSettles(s1, project, listing, page.items, limit, n);
        OutTransitive(s, s1, s2, project, listing, n);
        if !s2.halted {
          OutOpen(s1, s2, project, listing, n);
          if page.next.None? {
            Unchanged(s2);
            PageOfPosts(s2.w, s2.w, project, after, page);
          } else {
            var r := ExportPosts(s2, project, markers, page.next.value, limit);
            ExportPostsSettles(s2, project, listing, page.next.value, limit, n);
            OutTransitive(s, s2, r, project, listing, n);
            if !r.halted {
              OutOpen(s2, r, project, listing, n);
              PageOfPosts(s2.w, r.w, project, after, page);
            }
          }
        }
      }
    }
  }

  /** A completed walk over all posts leaves no post and no due comment without its row. */
  lemma ExportComplete(w: World, project: string)
    requires B.Valid(w.board) && DoneBeyond(w, project, 0)
    ensures PostsExported(w, project) && CommentsExported(w, project)
  {
    hide Mapped;
    forall c | Due(w.board, project, c) ensures Mapped(w.rows, project, CommentItem, c) {
      EverythingHangs(w.board, c);
      var p := w.board.comments[c].postId;
      assert B.CommentValid(w.board, c);
      assert p in B.PostIds(w.board, project);
      assert Wanted(w.board, p, None, 0, c);
    }
  }

  // ---- Import of comments -----------------------------------------------------------------------------------------

  /** Rows grow, issues stay, and due comments stay mapped. */
  ghost predicate Taken(s: State, r: State, project: string) {
    && KeptPosts(s, r) && Quiet(r.script) && r.w.issues == s.w.issues && r.w.board.posts == s.w.board.posts
    && (!r.halted && CommentsExported(s.w, project) ==> CommentsExported(r.w, project))
  }

  lemma {:induction false} OldChain(b: B.Store, t: B.Store, c: int)
    requires B.Valid(b) && t.comments.Keys == b.comments.Keys + {b.nextId} && c != b.nextId
    requires forall x :: x in b.comments ==> t.comments[x] == b.comments[x]
    requires ActiveChain(t, c)
    ensures ActiveChain(b, c)
    decreases c
  {
    assert B.CommentValid(b, c);
    if b.comments[c].parent.Some? { OldChain(b, t, b.comments[c].parent.value); }
  }

  /** The only comment that may have become due is the new one. */
  lemma NewDue(b: B.Store, c0: B.Comment, key: string, project: string, c: int)
    requires B.Valid(b)
    requires var (t, made) := B.TryCommentKeyed(b, c0, key); Due(t, project, c) && (made.Ok? ==> c != made.value)
    ensures Due(b, project, c)
  {
    var t := B.TryCommentKeyed(b, c0, key).0;
    assert B.CommentValid(t, c);
    if t != b { OldChain(b, t, c); }
  }

  lemma CreateCommentQuiet(s: State, project: string, post: int, parent: Option<int>, remote: Remote)
    requires Calm(s)
    ensures var (r, id) := CreateComment(s, project, post, parent, remote);
            && KeptPosts(s, r) && Quiet(r.script) && r.w == s.w.(board := r.w.board)
            && r.w.board.posts == s.w.board.posts
            && (!r.halted ==> forall c :: Due(r.w.board, project, c) && c != id ==> Due(s.w.board, project, c))
  {
    hide Inv, Later, SamePosts, AllowedScript, Quiet, Due, CreateComment;
    RC.CreateCommentKept(s, project, post, parent, remote);
    ValidBoard(s);
    BoardOnly(s, project, post, parent, remote);
  }

  lemma BoardOnly(s: State, project: string, post: int, parent: Option<int>, remote: Remote)
    requires Quiet(s.script) && B.Valid(s.w.board)
    ensures var (r, id) := CreateComment(s, project, post, parent, remote);
            && Quiet(r.script) && r.w == s.w.(board := r.w.board)
            && r.w.board.posts == s.w.board.posts
            && (!r.halted ==> forall c :: Due(r.w.board, project, c) && c != id ==> Due(s.w.board, project, c))
  {
    hide Quiet, TrimSpace, ReplayKey, Due, B.Valid, B.TryCommentKeyed, B.Refusal;
    NextQuiet(s);
    var c0 := B.Comment(post, parent, TrimSpace(remote.body), "github", B.Active, remote.updatedAt, None);
    OnlyNewDue(s.w.board, c0, ReplayKey(project, CommentKind, remote.id), project);
  }

  lemma OnlyNewDue(b: B.Store, c0: B.Comment, key: string, project: string)
    requires B.Valid(b)
    ensures var (t, made) := B.TryCommentKeyed(b, c0, key);
            && t.posts == b.posts && (B.Refusal(b, c0).None? ==> made.Ok?)
            && (made.Ok? ==> forall c :: Due(t, project, c) && c != made.value ==> Due(b, project, c))
  {
    var (t, made) := B.TryCommentKeyed(b, c0, key);
    if made.Ok? {
      forall c | Due(t, project, c) && c != made.value ensures Due(b, project, c) {
        NewDue(b, c0, key, project, c);
      }
    }
  }

  lemma SaveCommentTaken(s: State, t: State, counted: Receipt, project: string, key: RowKey, row: Row)
    requires Safe(s) && KeptPosts(s, t) && Quiet(t.script) && t.w == s.w.(board := t.w.board)
    requires t.w.board.posts == s.w.board.posts && RC.Free(t.w, key) && key.project == project && row.kind.CommentItem?
    requires forall c :: Due(t.w.board, project, c) && c != row.boardId ==> Due(s.w.board, project, c)
    ensures var r := Save(t.(receipt := counted), key, row);
            Taken(s, r, project) && (!r.halted ==> key in r.w.rows)
  {
    hide Due, AllowedScript, SamePosts;
    RC.CountedCommentRow(t, counted, key, row);
    SaveQuiet(t.(receipt := counted), key, row);
    var r := Save(t.(receipt := counted), key, row);
    KeptTransitive(s, t, r);
    hide Inv, Save, Quiet;
    if !r.halted && CommentsExported(s.w, project) {
      assert IsRowOf(r.w.rows, key, project, CommentItem, row.boardId);
      forall c | Due(r.w.board, project, c) ensures Mapped(r.w.rows, project, CommentItem, c) {
        if c != row.boardId { MappedStays(s.w, r.w, project, CommentItem, c); }
      }
    }
    hide Later;
  }

  lemma TakenTransitive(s: State, t: State, r: State, project: string)
    requires Calm(s) && Taken(s, t, project) && Taken(t, r, project) && (r.halted || !t.halted)
    ensures Taken(s, r, project)
  {
    KeptTransitive(s, t, r);
    hide Inv, Later, SamePosts, CommentsExported;
  }

  lemma TakenReflexive(s: State, project: string)
    requires Calm(s)
    ensures Taken(s, s, project)
  {
    LaterReflexive(s.w);
    hide Inv, Later, SamePosts, CommentsExported;
  }

  lemma TakenCalm(s: State, r: State, project: string)
    requires Taken(s, r, project)
    ensures Calm(r) && r.w.issues == s.w.issues && s.w.nextRemote <= r.w.nextRemote && s.w.rows.Keys <= r.w.rows.Keys
    ensures forall key: RowKey :: key.kind.IssueRow? ==> (key in s.w.rows <==> key in r.w.rows)
  {
    forall key | key in s.w.rows.Keys ensures key in r.w.rows.Keys {
      assert key in r.w.rows;
    }
  }

  /** A call that only looks. */
  lemma LookTaken(s: State, project: string)
    requires Calm(s)
    ensures Taken(s, Next(s).0, project) && Next(s).0.w == s.w && Calm(Next(s).0)
  {
    NextKept(s);
    NextQuiet(s);
    hide Inv, Later, SamePosts, CommentsExported, AllowedScript, Quiet;
  }

  lemma RecoverCommentTaken(s: State, project: string, post: int, number: int, remote: Remote, comment: int)
    requires Calm(s) && remote.id < s.w.nextRemote
    ensures var r := RecoverComment(s, project, post, number, remote, comment);
            Taken(s, r, project) && (!r.halted ==> RowKey(project, CommentRow, remote.id) in r.w.rows)
  {
    hide Calm, Taken, Save;
    var key := RowKey(project, CommentRow, remote.id);
    LookTaken(s, project);
    var (s1, row) := FindByGitHub(s, key);
    if !s1.halted && row.None? {
      LookTaken(s1, project);
      TakenTransitive(s, s1, Next(s1).0, project);
      HaltTaken(s, Next(s1).0, project);
      var s2 := GetPost(s1, post).0;
      if !s2.halted {
        LookTaken(s2, project);
        TakenTransitive(s, s2, Next(s2).0, project);
        HaltTaken(s, Next(s2).0, project);
        var s3 := GetComment(s2, comment).0;
        if !s3.halted {
          RowOnlyTaken(s3, project, key, Row(CommentItem, comment, number, FromBoard, remote.updatedAt));
          var s4 := Save(s3, key, Row(CommentItem, comment, number, FromBoard, remote.updatedAt));
          TakenTransitive(s, s3, s4, project);
          RecountTaken(s, s4, project, s4.receipt.(recovered := s4.receipt.recovered + 1));
        }
      }
    }
  }

  lemma RecountTaken(s: State, r: State, project: string, receipt: Receipt)
    requires Taken(s, r, project)
    ensures Taken(s, r.(receipt := receipt), project)
  {
    hide Inv, Later, SamePosts, CommentsExported, AllowedScript, Quiet;
  }

  lemma HaltTaken(s: State, r: State, project: string)
    requires Taken(s, r, project)
    ensures Taken(s, Halt(r), project)
  {
    hide Inv, Later, SamePosts, CommentsExported, AllowedScript, Quiet;
  }

  lemma RowOnlyTaken(s: State, project: string, key: RowKey, row: Row)
    requires Calm(s) && RC.Free(s.w, key) && key.project == project && row.kind.CommentItem?
    ensures var r := Save(s, key, row); Taken(s, r, project) && (!r.halted ==> key in r.w.rows)
  {
    LaterReflexive(s.w);
    assert s == s.(receipt := s.receipt);
    SaveCommentTaken(s, s, s.receipt, project, key, row);
    hide Taken, Save, Inv, Later;
  }

  lemma ImportNewTaken(s: State, project: string, post: int, number: int, remote: Remote, limit: nat)
    requires Calm(s) && RC.Free(s.w, RowKey(project, CommentRow, remote.id))
    ensures var (s2, id) := CreateComment(s, project, post, ParentFromMarker(project, remote.tag), remote);
            var counted := AddUrl(s2.receipt.(importedComments := s2.receipt.importedComments + 1), limit);
            var r := Save(s2.(receipt := counted), RowKey(project, CommentRow, remote.id),
                          Row(CommentItem, id, number, FromGitHub, remote.updatedAt));
            && (s2.halted ==> Taken(s, s2, project))
            && Quiet(s2.script)
            && (!s2.halted ==>
                  Taken(s, r, project) && (!r.halted ==> RowKey(project, CommentRow, remote.id) in r.w.rows))
  {
    var key := RowKey(project, CommentRow, remote.id);
    var parent := ParentFromMarker(project, remote.tag);
    hide Inv, CommentsExported, CreateComment, Save, AddUrl, AllowedScript, Quiet, SamePosts, Due;
    var (s2, id) := CreateComment(s, project, post, parent, remote);
    CreateCommentQuiet(s, project, post, parent, remote);
    if !s2.halted {
      RC.FreeStays(s.w, s2.w, key);
      hide Later, Taken;
      var counted := AddUrl(s2.receipt.(importedComments := s2.receipt.importedComments + 1), limit);
      SaveCommentTaken(s, s2, counted, project, key, Row(CommentItem, id, number, FromGitHub, remote.updatedAt));
    }
  }

  lemma ImportCommentTaken(s: State, project: string, post: int, number: int, remote: Remote, limit: nat)
    requires Calm(s) && remote.id < s.w.nextRemote
    ensures var r := ImportComment(s, project, post, number, remote, limit);
            Taken(s, r, project) && (!r.halted ==> RowKey(project, CommentRow, remote.id) in r.w.rows)
  {
    hide Calm, Taken, Save, CreateComment, AddUrl, RecoverComment;
    var parsed := remote.tag;
    if parsed.1 && parsed.0.project == project && parsed.0.comment > 0 {
      RecoverCommentTaken(s, project, post, number, remote, parsed.0.comment);
    } else {
      var key := RowKey(project, CommentRow, remote.id);
      LookTaken(s, project);
      var (s1, row) := FindByGitHub(s, key);
      RecountTaken(s, s1, project, s1.receipt.(remoteEdits := s1.receipt.remoteEdits + 1));
      if !s1.halted && row.None? {
        ImportNewTaken(s1, project, post, number, remote, limit);
        var (s2, id) := CreateComment(s1, project, post, ParentFromMarker(project, parsed), remote);
        var counted := AddUrl(s2.receipt.(importedComments := s2.receipt.importedComments + 1), limit);
        var r := Save(s2.(receipt := counted), key, Row(CommentItem, id, number, FromGitHub, remote.updatedAt));
        if s2.halted { TakenTransitive(s, s1, s2, project); } else { TakenTransitive(s, s1, r, project); }
      }
    }
  }

  lemma {:induction false} ImportThreadTaken(s: State, project: string, post: int, number: int, remotes: seq<Remote>,
                                             limit: nat)
    requires Calm(s) && RemotesOk(remotes, s.w.nextRemote)
    ensures var r := ImportThread(s, project, post, number, remotes, limit);
            Taken(s, r, project) && (!r.halted ==> Threaded(r.w.rows, project, remotes))
    decreases |remotes|
  {
    hide Calm, Taken, ImportComment;
    TakenReflexive(s, project);
    if !s.halted && remotes != [] {
      var t := ImportComment(s, project, post, number, remotes[0], limit);
      ImportCommentTaken(s, project, post, number, remotes[0], limit);
      TakenCalm(s, t, project);
      var r := ImportThread(t, project, post, number, remotes[1..], limit);
      ImportThreadTaken(t, project, post, number, remotes[1..], limit);
      if !t.halted {
        TakenCalm(t, r, project);
        if !r.halted { ThreadedCons(t.w.rows, r.w.rows, project, remotes); }
      }
      TakenTransitive(s, t, r, project);
    }
  }

  lemma ThreadedCons(a: map<RowKey, Row>, b: map<RowKey, Row>, project: string, remotes: seq<Remote>)
    requires remotes != [] && RowKey(project, CommentRow, remotes[0].id) in a && a.Keys <= b.Keys
    requires Threaded(b, project, remotes[1..])
    ensures Threaded(b, project, remotes)
  {
    assert RowKey(project, CommentRow, remotes[0].id) in a.Keys;
    forall i | 0 <= i < |remotes| ensures RowKey(project, CommentRow, remotes[i].id) in b {
      if i > 0 { assert remotes[1..][i - 1] == remotes[i]; }
    }
  }

  lemma ListedThread(s: State, k: int)
    requires Calm(s) && 0 <= k < |s.w.issues|
    ensures var (r, remotes) := ListIssueComments(s, s.w.issues[k].number);
            && Next(s).0.w == r.w && (r.halted || remotes == s.w.issues[k].comments)
            && RemotesOk(remotes, r.w.nextRemote)
            && (r == Next(s).0 || r == Halt(Next(s).0))
  {
    NextQuiet(s);
  }

  lemma ImportIssueThreadTaken(s: State, project: string, issue: Issue, k: int, limit: nat)
    requires Calm(s) && 0 <= k < |s.w.issues| && s.w.issues[k].id == issue.id && s.w.issues[k].number == issue.number
    ensures var r := ImportIssueThread(s, project, issue, limit);
            && Taken(s, r, project)
            && (!r.halted ==> 0 <= k < |r.w.issues| && ThreadDone(r.w, project, k))
  {
    hide Calm, Taken, ImportThread, Threaded, ListIssueComments, RemotesOk;
    LookTaken(s, project);
    var (s1, row) := FindByGitHub(s, RowKey(project, IssueRow, issue.id));
    if !s1.halted && row.Some? {
      LookTaken(s1, project);
      ListedThread(s1, k);
      HaltTaken(s1, Next(s1).0, project);
      var (s2, remotes) := ListIssueComments(s1, issue.number);
      TakenTransitive(s, s1, s2, project);
      if !s2.halted {
        TakenCalm(s1, s2, project);
        var r := ImportThread(s2, project, row.value.boardId, issue.number, remotes, limit);
        ImportThreadTaken(s2, project, row.value.boardId, issue.number, remotes, limit);
        TakenTransitive(s, s2, r, project);
        TakenCalm(s2, r, project);
      }
    }
  }

  ghost predicate ThreadsUpTo(w: World, project: string, n: int) {
    n <= |w.issues| && forall k :: 0 <= k < n ==> ThreadDone(w, project, k)
  }

  lemma ThreadStays(v: World, w: World, project: string, k: int)
    requires 0 <= k < |v.issues| && w.issues == v.issues && v.rows.Keys <= w.rows.Keys && ThreadDone(v, project, k)
    requires forall key: RowKey :: key.kind.IssueRow? ==> (key in v.rows <==> key in w.rows)
    ensures ThreadDone(w, project, k)
  {
    if RowKey(project, IssueRow, w.issues[k].id) in w.rows {
      ThreadedGrows(v.rows, w.rows, project, v.issues[k].comments);
    }
  }

  lemma {:induction false} ImportCommentsTaken(s: State, project: string, listing: seq<Issue>, k: int, limit: nat)
    requires Calm(s) && Lists(s.w, listing) && 0 <= k <= |listing| && ThreadsUpTo(s.w, project, k)
    ensures var r := ImportComments(s, project, listing[k..], limit);
            Taken(s, r, project) && (!r.halted ==> ThreadsUpTo(r.w, project, |listing|))
    decreases |listing| - k
  {
    hide Calm, Taken, ImportIssueThread, ThreadDone;
    TakenReflexive(s, project);
    if !s.halted && k < |listing| {
      var t := ImportIssueThread(s, project, listing[k], limit);
      assert SameIssue(listing[k], s.w.issues[k]);
      ImportIssueThreadTaken(s, project, listing[k], k, limit);
      TakenCalm(s, t, project);
      assert listing[k..][1..] == listing[k + 1..];
      if !t.halted {
        forall j | 0 <= j < k ensures ThreadDone(t.w, project, j) { ThreadStays(s.w, t.w, project, j); }
        ImportCommentsTaken(t, project, listing, k + 1, limit);
        TakenTransitive(s, t, ImportComments(t, project, listing[k + 1..], limit), project);
      }
    }
  }

  // ---- The whole attempt ------------------------------------------------------------------------------------------

  /** An issue the relay made itself never asks to be imported. */
  lemma ExportedNotMarked(w: World, project: string, k: int)
    requires Inv(w) && 0 <= k < |w.issues| && w.issues[k].exportOf.Some?
    ensures !ImportMarked(w.issues[k], project)
  {
    assert ExportOk(w, k);
  }

  lemma AllImported(w: World, project: string, listing: seq<Issue>)
    requires Inv(w) && Lists(w, listing) && ImportedUpTo(w, project, listing, |listing|)
    requires forall k :: |listing| <= k < |w.issues| ==> w.issues[k].exportOf.Some?
    ensures IssuesImported(w, project)
  {
    forall k | 0 <= k < |w.issues| && ImportMarked(w.issues[k], project)
      ensures RowKey(project, IssueRow, w.issues[k].id) in w.rows
    {
      if k < |listing| {
        assert SameIssue(listing[k], w.issues[k]);
      } else {
        ExportedNotMarked(w, project, k);
      }
    }
  }

  lemma AllThreads(v: World, w: World, project: string, n: nat)
    requires NewThreaded(v, project, n) && ThreadsUpTo(w, project, n)
    requires w.issues == v.issues && v.rows.Keys <= w.rows.Keys
    ensures ThreadsImported(w, project)
  {
    forall k | 0 <= k < |w.issues| ensures ThreadDone(w, project, k) {
      if n <= k { ThreadedGrows(v.rows, w.rows, project, v.issues[k].comments); }
    }
  }

  lemma PostsStay(v: World, w: World, project: string)
    requires PostsExported(v, project) && Later(v, w) && w.board.posts == v.board.posts
    ensures PostsExported(w, project)
  {
    forall p | p in B.PostIds(w.board, project) ensures Mapped(w.rows, project, PostItem, p) {
      assert p in B.PostIds(v.board, project);
      MappedStays(v, w, project, PostItem, p);
    }
  }

  /** What the export phase leaves for the comment phase. */
  ghost predicate Exported(w: World, project: string, listing: seq<Issue>) {
    && Inv(w) && Lists(w, listing) && ImportedUpTo(w, project, listing, |listing|)
    && NewThreaded(w, project, |listing|) && PostsExported(w, project) && CommentsExported(w, project)
  }

  lemma ExportPhase(s: State, project: string, listing: seq<Issue>, limit: nat)
    requires Open(s, project, listing) && |s.w.issues| == |listing|
    ensures var r := ExportPosts(s, project, IssueMarkers(project, listing), 0, limit);
            !r.halted ==> Calm(r) && Exported(r.w, project, listing)
  {
    hide PostsExported, CommentsExported, ExportPosts, IssueMarkers, Plain, Later, DoneBeyond;
    var n := |listing|;
    assert NewThreaded(s.w, project, n);
    ExportPostsSettles(s, project, listing, 0, limit, n);
    var r := ExportPosts(s, project, IssueMarkers(project, listing), 0, limit);
    if !r.halted {
      OutOpen(s, r, project, listing, n);
      ExportComplete(r.w, project);
      hide Inv, NewThreaded, Lists, ImportedUpTo, Quiet, AllowedScript;
    }
  }

  lemma CommentPhase(s: State, project: string, listing: seq<Issue>, limit: nat)
    requires Calm(s) && Exported(s.w, project, listing)
    ensures var r := ImportComments(s, project, listing, limit);
            !r.halted ==> Inv(r.w) && Settled(r.w, project)
  {
    hide Calm, NewThreaded, ThreadsUpTo, PostsExported, CommentsExported, ImportedUpTo, ThreadsImported,
      IssuesImported, Inv, Later, ImportComments, Quiet;
    var r := ImportComments(s, project, listing, limit);
    assert listing[0..] == listing;
    NoThreads(s.w, project);
    ImportCommentsTaken(s, project, listing, 0, limit);
    if !r.halted {
      TakenCalm(s, r, project);
      AllThreads(s.w, r.w, project, |listing|);
      PostsStay(s.w, r.w, project);
      NewAreExports(s.w, project, |listing|);
      AllImported(s.w, project, listing);
      ImportedStays(s.w, r.w, project);
    }
  }

  lemma NoThreads(w: World, project: string)
    ensures ThreadsUpTo(w, project, 0)
  {
  }

  lemma NewAreExports(w: World, project: string, n: nat)
    requires NewThreaded(w, project, n)
    ensures forall k :: n <= k < |w.issues| ==> w.issues[k].exportOf.Some?
  {
  }

  lemma ImportedStays(v: World, w: World, project: string)
    requires IssuesImported(v, project) && w.issues == v.issues && v.rows.Keys <= w.rows.Keys
    ensures IssuesImported(w, project)
  {
    forall k | 0 <= k < |w.issues| && ImportMarked(w.issues[k], project)
      ensures RowKey(project, IssueRow, w.issues[k].id) in w.rows
    {
      assert RowKey(project, IssueRow, v.issues[k].id) in v.rows.Keys;
    }
  }

  /** An undisturbed attempt that returns no error leaves a settled world. */
  lemma SyncSettles(w: World, script: seq<Turn>, project: string, limit: nat)
    requires Inv(w) && Quiet(script) && Plain(project) && !Sync(w, script, project, limit).halted
    ensures var v := Sync(w, script, project, limit).w; Inv(v) && Settled(v, project)
  {
    QuietAllowed(script);
    hide Inv, Plain, Session, ImportedUpTo, Settled, ListIssues, ImportIssues, ExportPosts, ImportComments,
      IssueMarkers, Exported, Exporting, Later, AllowedScript;
    var s0 := State(w, script, NoReceipt, false);
    var (s1, issues) := ListIssues(s0);
    Listed(w, script, project);
    ListQuiet(s0);
    assert issues[0..] == issues;
    ImportIssuesKept(s1, project, issues, 0, limit);
    var s2 := ImportIssues(s1, project, issues, limit);
    ImportIssuesQuiet(s1, project, issues, limit);
    ExportingStarts(s2.w, project, issues);
    ExportPhase(s2, project, issues, limit);
    var s3 := ExportPosts(s2, project, IssueMarkers(project, issues), 0, limit);
    CommentPhase(s3, project, issues, limit);
  }

  lemma ListQuiet(s: State)
    requires Quiet(s.script)
    ensures var (r, issues) := ListIssues(s); Quiet(r.script) && (!r.halted ==> issues == r.w.issues)
  {
    NextQuiet(s);
  }

  lemma InvNumbered(w: World)
    requires Inv(w)
    ensures Numbered(w)
  {
  }

  /**
    Quiescence.  In any world the relay and its users can reach from nothing, once an undisturbed attempt returns no
    error, the next undisturbed attempt changes nothing at all, neither the board nor the repository nor the table, and
    imports, exports and recovers nothing, even when it is cut short.
  */
  lemma Quiescence(events: seq<Event>, project: string, first: seq<Turn>, second: seq<Turn>, limit: nat, limit2: nat)
    requires AllowedRun(events) && Plain(project) && Quiet(first) && Quiet(second)
    requires !Sync(RunEvents(NoWorld, events), first, project, limit).halted
    ensures var v := Sync(RunEvents(NoWorld, events), first, project, limit).w;
            var again := Sync(v, second, project, limit2);
            again.w == v && SameCounts(NoReceipt, again.receipt)
  {
    hide Inv, Settled, Numbered, Sync, RunEvents, Quiet, Plain, AllowedRun;
    StartInv();
    RunKept(NoWorld, events);
    var w := RunEvents(NoWorld, events);
    SyncSettles(w, first, project, limit);
    var v := Sync(w, first, project, limit).w;
    InvNumbered(v);
    SettledIsStill(v, second, project, limit2);
  }
}
