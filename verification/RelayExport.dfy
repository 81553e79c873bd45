/** Crash safety of the relay, second half: export, comments, and the whole attempt. */
module RelayExport {
  import opened Core
  import opened Paging
  import opened Text
  import opened Marker
  import opened Relay
  import opened RelaySafety
  import B = Board

  // ---- What the export phase starts from --------------------------------------------------------------------------

  /** The listing has been imported; `pending` may name one post whose new issue has no row yet. */
  ghost predicate Exporting(w: World, project: string, listing: seq<Issue>, pending: Option<int>) {
    && Lists(w, listing)
    && (forall k :: |listing| <= k < |w.issues| && w.issues[k].exportOf.Some? && w.issues[k].exportOf != pending ==>
          Mapped(w.rows, project, PostItem, w.issues[k].exportOf.value))
    && (forall p :: p in w.imported && w.imported[p].0 == project ==> InListing(listing, w.imported[p].1))
    && ImportedUpTo(w, project, listing, |listing|)
  }

  lemma ExportingStarts(w: World, project: string, listing: seq<Issue>)
    requires Session(w, project, listing) && ImportedUpTo(w, project, listing, |listing|)
    ensures Exporting(w, project, listing, None)
  {
  }

  lemma ExportingStays(v: World, w: World, project: string, listing: seq<Issue>, pending: Option<int>)
    requires Exporting(v, project, listing, pending) && Later(v, w) && SameHistory(v, w)
    ensures Exporting(w, project, listing, pending)
  {
    forall i | 0 <= i < |listing| ensures SameIssue(listing[i], w.issues[i]) {
      assert SameIssue(listing[i], v.issues[i]) && SameIssue(v.issues[i], w.issues[i]);
    }
    forall k | |listing| <= k < |w.issues| && w.issues[k].exportOf.Some? && w.issues[k].exportOf != pending
      ensures Mapped(w.rows, project, PostItem, w.issues[k].exportOf.value)
    {
      assert SameIssue(v.issues[k], w.issues[k]);
      MappedStays(v, w, project, PostItem, v.issues[k].exportOf.value);
    }
  }

  /** A step of the export phase: nothing more is imported, and an attempt that goes on is still exporting. */
  ghost predicate Step(s: State, r: State, project: string, listing: seq<Issue>) {
    && Kept(s, r) && r.w.imported == s.w.imported
    && (r.halted || Exporting(r.w, project, listing, None))
  }

  lemma StepTransitive(s: State, t: State, r: State, project: string, listing: seq<Issue>)
    requires Safe(s) && Step(s, t, project, listing) && Step(t, r, project, listing)
    ensures Step(s, r, project, listing)
  {
    KeptTransitive(s, t, r);
  }

  /** Calls that record nothing about posts are steps. */
  lemma QuietStep(s: State, r: State, project: string, listing: seq<Issue>)
    requires Exporting(s.w, project, listing, None) && KeptPosts(s, r)
    ensures Step(s, r, project, listing)
  {
    ExportingStays(s.w, r.w, project, listing, None);
  }

  lemma NextStep(s: State, project: string, listing: seq<Issue>)
    requires Safe(s) && Exporting(s.w, project, listing, None)
    ensures Step(s, Next(s).0, project, listing) && Exporting(Next(s).0.w, project, listing, None)
    ensures Next(s).0.w.rows == s.w.rows && KeptPosts(s, Next(s).0)
  {
    NextKept(s);
    ExportingStays(s.w, Next(s).0.w, project, listing, None);
  }

  // ---- A post without a row was written on the board --------------------------------------------------------------

  /** The row of an imported issue names the post recorded for it. */
  lemma ImportedRow(w: World, key: RowKey, p: int, k: int)
    requires Inv(w) && key in w.rows && key.kind.IssueRow? && ImportSource(w, k, key.project, key.id)
    requires p in w.imported && w.imported[p] == (key.project, key.id)
    ensures IsRowOf(w.rows, key, key.project, PostItem, p)
  {
    assert RowOk(w, key);
    var j :| RowAgrees(w, key, w.rows[key], j);
    assert j == k;
    assert ImportOk(w, p) && ImportOk(w, w.rows[key].boardId);
  }

  lemma UnmappedIsBoardBorn(w: World, project: string, listing: seq<Issue>, p: int)
    requires Inv(w) && Exporting(w, project, listing, None)
    requires p in w.board.posts && w.board.posts[p].project == project && !Mapped(w.rows, project, PostItem, p)
    ensures p !in w.imported
  {
    if p in w.imported {
      assert ImportOk(w, p);
      var id := w.imported[p].1;
      ImportSourceListed(w, project, listing, id);
      var k :| 0 <= k < |listing| && ImportSource(w, k, project, id);
      assert SameIssue(listing[k], w.issues[k]);
      ImportedRow(w, RowKey(project, IssueRow, id), p, k);
    }
  }

  /** An import source of a listed id is the listed issue itself. */
  lemma ImportSourceListed(w: World, project: string, listing: seq<Issue>, id: int)
    requires Inv(w) && Lists(w, listing) && InListing(listing, id)
    requires exists k :: ImportSource(w, k, project, id)
    ensures exists k :: 0 <= k < |listing| && ImportSource(w, k, project, id)
  {
    var j :| 0 <= j < |listing| && listing[j].id == id;
    assert SameIssue(listing[j], w.issues[j]);
    var k :| ImportSource(w, k, project, id);
    assert k == j;
  }

  // ---- The markers of the listing ---------------------------------------------------------------------------------

  /** The listed issue says it is for this post of the project. */
  ghost predicate Names(issue: Issue, project: string, p: int) {
    issue.tag.1 && issue.tag.0.project == project && issue.tag.0.post == p && p > 0
  }

  ghost predicate NamedAt(listing: seq<Issue>, k: int, project: string, p: int, issue: Issue) {
    0 <= k < |listing| && issue == listing[k] && Names(issue, project, p)
  }

  lemma {:induction false} MarkedIssue(project: string, listing: seq<Issue>, p: int) returns (k: int)
    requires p in IssueMarkers(project, listing)
    ensures NamedAt(listing, k, project, p, IssueMarkers(project, listing)[p])
    decreases |listing|
  {
    var last := |listing| - 1;
    if Names(listing[last], project, p) {
      k := last;
    } else {
      k := MarkedIssue(project, listing[..last], p);
    }
  }

  lemma {:induction false} MarkersComplete(project: string, listing: seq<Issue>, k: int, p: int)
    requires 0 <= k < |listing| && Names(listing[k], project, p)
    ensures p in IssueMarkers(project, listing)
    decreases |listing|
  {
    var last := |listing| - 1;
    if k < last { MarkersComplete(project, listing[..last], k, p); }
  }

  /** With neither a row nor a listed marker, no issue was ever created for the post. */
  lemma NeverExported(w: World, project: string, listing: seq<Issue>, p: int)
    requires Inv(w) && Exporting(w, project, listing, None)
    requires p in w.board.posts && w.board.posts[p].project == project
    requires !Mapped(w.rows, project, PostItem, p) && p !in IssueMarkers(project, listing)
    ensures forall k :: 0 <= k < |w.issues| ==> w.issues[k].exportOf != Some(p)
  {
    forall k | 0 <= k < |w.issues| ensures w.issues[k].exportOf != Some(p) {
      if w.issues[k].exportOf == Some(p) {
        assert ExportOk(w, k);
        if k < |listing| {
          assert SameIssue(listing[k], w.issues[k]);
          MarkersComplete(project, listing, k, p);
        }
      }
    }
  }

  // ---- Recovering a row -------------------------------------------------------------------------------------------

  lemma RowFound(w: World, key: RowKey, row: Row, project: string, p: int)
    requires key in w.rows && w.rows[key] == row && key.project == project && row.kind == PostItem && row.boardId == p
    ensures Mapped(w.rows, project, PostItem, p) && BoardRow(w.rows, project, PostItem, p).Some?
  {
    assert IsRowOf(w.rows, key, project, PostItem, p);
  }

  /** Save a row for a post and read it back. */
  lemma SaveAndFind(s: State, project: string, listing: seq<Issue>, key: RowKey, row: Row, k: int, pending: Option<int>,
                    receipt: Receipt)
    requires Safe(s) && Exporting(s.w, project, listing, pending) && (pending.Some? ==> pending == Some(row.boardId))
    requires key.kind.IssueRow? && key.project == project && RowAgrees(s.w, key, row, k)
    ensures var s1 := Save(s, key, row);
            var s2 := s1.(receipt := receipt);
            var (r, found) := FindByBoard(s2, project, PostItem, row.boardId);
            && (s1.halted ==> Step(s, s1, project, listing))
            && (!s1.halted ==> Step(s, r, project, listing) && (!r.halted ==> found.Some?))
  {
    SavePostRow(s, key, row, k);
    var s1 := Save(s, key, row);
    ExportingStays(s.w, s1.w, project, listing, pending);
    if !s1.halted {
      RowFound(s1.w, key, row, project, row.boardId);
      NothingPending(s1.w, project, listing, pending);
      var s2 := s1.(receipt := receipt);
      FindStep(s2, project, listing, row.boardId);
      FindStays(s, s1, s2, project, listing, row.boardId);
    }
  }

  lemma NothingPending(w: World, project: string, listing: seq<Issue>, pending: Option<int>)
    requires Exporting(w, project, listing, pending)
    requires pending.Some? ==> Mapped(w.rows, project, PostItem, pending.value)
    ensures Exporting(w, project, listing, None)
  {
  }

  lemma FindStep(s: State, project: string, listing: seq<Issue>, p: int)
    requires Safe(s) && Exporting(s.w, project, listing, None)
    ensures var (r, found) := FindByBoard(s, project, PostItem, p);
            && KeptPosts(s, r) && Step(s, r, project, listing)
            && (!r.halted ==> (found.Some? <==> Mapped(r.w.rows, project, PostItem, p)))
            && r.w.rows == s.w.rows
  {
    NextStep(s, project, listing);
  }

  lemma FindStays(s: State, s1: State, s2: State, project: string, listing: seq<Issue>, p: int)
    requires Safe(s) && Kept(s, s1) && s1.w.imported == s.w.imported && s2 == s1.(receipt := s2.receipt)
    requires Step(s2, FindByBoard(s2, project, PostItem, p).0, project, listing)
    ensures Step(s, FindByBoard(s2, project, PostItem, p).0, project, listing)
  {
    KeptTransitive(s, s1, FindByBoard(s2, project, PostItem, p).0);
  }

  lemma RecoverKept(s: State, project: string, listing: seq<Issue>, p: int)
    requires Safe(s) && !s.halted && Exporting(s.w, project, listing, None)
    requires p in s.w.board.posts && s.w.board.posts[p].project == project && p !in s.w.imported
    requires p in IssueMarkers(project, listing)
    ensures var (r, found) := Recover(s, project, p, IssueMarkers(project, listing)[p]);
            Step(s, r, project, listing) && (!r.halted ==> found.Some?)
  {
    var issue := IssueMarkers(project, listing)[p];
    var k := MarkedIssue(project, listing, p);
    assert SameIssue(listing[k], s.w.issues[k]);
    var key, row := RowKey(project, IssueRow, issue.id), Row(PostItem, p, issue.number, FromBoard, issue.updatedAt);
    assert RowAgrees(s.w, key, row, k);
    var s1 := Save(s, key, row);
    SaveAndFind(s, project, listing, key, row, k, None, s1.receipt.(recovered := s1.receipt.recovered + 1));
    hide Step, Save, RowAgrees, Safe, Exporting, FindByBoard;
  }

  // ---- Exporting a post -------------------------------------------------------------------------------------------

  /** The world right after the relay created an issue for a board post that had none. */
  lemma IssueCreated(w: World, project: string, listing: seq<Issue>, p: int, issue: Issue)
    requires Inv(w) && Exporting(w, project, listing, None)
    requires p in w.board.posts && w.board.posts[p].project == project && p !in w.imported
    requires forall k :: 0 <= k < |w.issues| ==> w.issues[k].exportOf != Some(p)
    requires issue.id == w.nextRemote && issue.number == |w.issues| + 1 && issue.exportOf == Some(p)
    requires issue.comments == [] && issue.tag == (Marker(project, p, 0, 0), true)
    ensures var v := w.(issues := w.issues + [issue], nextRemote := w.nextRemote + 1);
            Inv(v) && Later(w, v) && Exporting(v, project, listing, Some(p))
  {
    var v := w.(issues := w.issues + [issue], nextRemote := w.nextRemote + 1);
    assert forall i :: 0 <= i < |w.issues| ==> v.issues[i] == w.issues[i] && SameIssue(w.issues[i], v.issues[i]);
    CreatedKeeps(w, v, p);
    CreatedExports(w, v, p);
    RowsCarry(w, v);
    forall k | |listing| <= k < |v.issues| && v.issues[k].exportOf.Some? && v.issues[k].exportOf != Some(p)
      ensures Mapped(v.rows, project, PostItem, v.issues[k].exportOf.value)
    {
      assert v.issues[k] == w.issues[k];
    }
  }

  lemma CreatedKeeps(w: World, v: World, p: int)
    requires Inv(w) && |v.issues| == |w.issues| + 1 && v.nextRemote == w.nextRemote + 1
    requires v == w.(issues := v.issues, nextRemote := v.nextRemote)
    requires forall i :: 0 <= i < |w.issues| ==> v.issues[i] == w.issues[i]
    requires v.issues[|w.issues|].id == w.nextRemote && v.issues[|w.issues|].number == |v.issues|
    requires v.issues[|w.issues|].comments == []
    ensures IssuesOk(v) && BoardOk(v) && Later(w, v)
  {
    hide MarkerFree, ReplayKey, ImportMarked, RowOk, TableOk, UserKey;
    assert Later(w, v);
    forall q | q in v.imported ensures ImportOk(v, q) { assert ImportOk(w, q); ImportsCarry(w, v, q); }
    forall key | key in v.board.postKeys && !UserKey(key) ensures KeyOk(v, key) { assert KeyOk(w, key); }
  }

  lemma CreatedExports(w: World, v: World, p: int)
    requires Inv(w) && |v.issues| == |w.issues| + 1
    requires v == w.(issues := v.issues, nextRemote := v.nextRemote)
    requires forall i :: 0 <= i < |w.issues| ==> v.issues[i] == w.issues[i]
    requires v.issues[|w.issues|].exportOf == Some(p) && p in w.board.posts && p !in w.imported
    requires v.issues[|w.issues|].tag == (Marker(w.board.posts[p].project, p, 0, 0), true)
    requires forall k :: 0 <= k < |w.issues| ==> w.issues[k].exportOf != Some(p)
    ensures ExportsOk(v)
  {
    forall k | 0 <= k < |v.issues| && v.issues[k].exportOf.Some? ensures ExportOk(v, k) {
      if k < |w.issues| { assert ExportOk(w, k); }
    }
  }

  lemma ExportedTag(w: World, project: string, p: int, body: string)
    requires Inv(w) && Plain(project) && p in w.board.posts && MarkerFree(body)
    ensures Parse(Marked(body, PostMarker(project, p))) == (Marker(project, p, 0, 0), true)
  {
    assert 1 <= p < w.board.nextId <= TwoTo63;
    MarkerFreeMeaning(body);
    PostRoundTrip(body, project, p);
  }

  /** Without a row and without an issue the post is exported; at most the last of the two writes is missing after. */
  lemma CreateIssueKept(s: State, project: string, listing: seq<Issue>, p: int, title: string, body: string)
    requires Safe(s) && Exporting(s.w, project, listing, None) && Plain(project) && MarkerFree(body)
    requires p in s.w.board.posts && s.w.board.posts[p].project == project && p !in s.w.imported
    requires forall k :: 0 <= k < |s.w.issues| ==> s.w.issues[k].exportOf != Some(p)
    ensures var (r, issue) := CreateIssue(s, p, title, Marked(body, PostMarker(project, p)));
            && Kept(s, r) && r.w.imported == s.w.imported
            && (!r.halted ==>
                  && Exporting(r.w, project, listing, Some(p))
                  && RowAgrees(r.w, RowKey(project, IssueRow, issue.id),
                               Row(PostItem, p, issue.number, FromBoard, issue.updatedAt), |r.w.issues| - 1))
  {
    hide Inv, Later, Exporting, AllowedScript, RowAgrees, Marked, PostMarker, Parse, MarkerFree, Plain;
    NextStep(s, project, listing);
    var t := Next(s).0;
    PostStays(s.w, t.w, p);
    NotYetExported(s.w, t.w, p);
    ExportedTag(t.w, project, p, body);
    CreatedAfter(s.w, t.w, project, listing, p, title, Marked(body, PostMarker(project, p)));
  }

  lemma PostStays(v: World, w: World, p: int)
    requires Later(v, w) && p in v.board.posts
    ensures p in w.board.posts && w.board.posts[p].project == v.board.posts[p].project
  {
  }

  lemma CreatedAfter(u: World, w: World, project: string, listing: seq<Issue>, p: int, title: string, text: string)
    requires Inv(u) && Inv(w) && Later(u, w) && Exporting(w, project, listing, None)
    requires p in u.board.posts && u.board.posts[p].project == project && p !in w.imported
    requires forall k :: 0 <= k < |w.issues| ==> w.issues[k].exportOf != Some(p)
    requires Parse(text) == (Marker(project, p, 0, 0), true)
    ensures var issue := Issue(w.nextRemote, |w.issues| + 1, title, text, Parse(text), 0, [], Some(p));
            var v := w.(issues := w.issues + [issue], nextRemote := w.nextRemote + 1);
            && Inv(v) && Later(u, v) && Exporting(v, project, listing, Some(p))
            && RowAgrees(v, RowKey(project, IssueRow, issue.id),
                         Row(PostItem, p, issue.number, FromBoard, issue.updatedAt), |v.issues| - 1)
  {
    var issue := Issue(w.nextRemote, |w.issues| + 1, title, text, Parse(text), 0, [], Some(p));
    hide Parse;
    IssueCreated(w, project, listing, p, issue);
    var v := w.(issues := w.issues + [issue], nextRemote := w.nextRemote + 1);
    LaterTransitive(u, w, v);
    hide Inv, Later, Exporting;
  }

  lemma NotYetExported(v: World, w: World, p: int)
    requires Later(v, w) && SameHistory(v, w)
    requires forall k :: 0 <= k < |v.issues| ==> v.issues[k].exportOf != Some(p)
    ensures forall k :: 0 <= k < |w.issues| ==> w.issues[k].exportOf != Some(p)
  {
    forall k | 0 <= k < |w.issues| ensures w.issues[k].exportOf != Some(p) {
      if k < |v.issues| { assert SameIssue(v.issues[k], w.issues[k]); }
    }
  }

  lemma SaveExportedKept(s: State, project: string, listing: seq<Issue>, p: int, issue: Issue, limit: nat)
    requires Safe(s) && Exporting(s.w, project, listing, Some(p))
    requires RowAgrees(s.w, RowKey(project, IssueRow, issue.id),
                       Row(PostItem, p, issue.number, FromBoard, issue.updatedAt), |s.w.issues| - 1)
    ensures var (r, found) := SaveExported(s, project, p, issue, limit);
            Step(s, r, project, listing) && (!r.halted ==> found.Some?)
  {
    hide Step, Save, RowAgrees, Safe, Exporting, FindByBoard, Inv, AddUrl;
    var counted := AddUrl(s.receipt.(exportedPosts := s.receipt.exportedPosts + 1), limit);
    var key, row := RowKey(project, IssueRow, issue.id), Row(PostItem, p, issue.number, FromBoard, issue.updatedAt);
    var s1 := Save(s.(receipt := counted), key, row);
    CountedSaveAndFind(s, counted, project, listing, key, row, |s.w.issues| - 1, s1.receipt);
    assert s1 == s1.(receipt := s1.receipt);
  }

  lemma CountedSaveAndFind(s: State, counted: Receipt, project: string, listing: seq<Issue>, key: RowKey, row: Row,
                           k: int, receipt: Receipt)
    requires Safe(s) && Exporting(s.w, project, listing, Some(row.boardId))
    requires key.kind.IssueRow? && key.project == project && RowAgrees(s.w, key, row, k)
    ensures var s1 := Save(s.(receipt := counted), key, row);
            var (r, found) := FindByBoard(s1.(receipt := receipt), project, PostItem, row.boardId);
            && (s1.halted ==> Step(s, s1, project, listing))
            && (!s1.halted ==> Step(s, r, project, listing) && (!r.halted ==> found.Some?))
  {
    SaveAndFind(s.(receipt := counted), project, listing, key, row, k, Some(row.boardId), receipt);
    hide Exporting, Inv, Later, Save, FindByBoard;
  }

  lemma ExportNewKept(s: State, project: string, listing: seq<Issue>, p: int, post: B.Post, limit: nat)
    requires Safe(s) && Exporting(s.w, project, listing, None) && Plain(project) && MarkerFree(post.body)
    requires p in s.w.board.posts && s.w.board.posts[p].project == project && p !in s.w.imported
    requires forall k :: 0 <= k < |s.w.issues| ==> s.w.issues[k].exportOf != Some(p)
    ensures var (r, found) := ExportNew(s, project, p, post, limit);
            Step(s, r, project, listing) && (!r.halted ==> found.Some?)
  {
    var (s1, issue) := CreateIssue(s, p, post.title, Marked(post.body, PostMarker(project, p)));
    CreateIssueKept(s, project, listing, p, post.title, post.body);
    if !s1.halted {
      SaveExportedKept(s1, project, listing, p, issue, limit);
      KeptThenStep(s, s1, SaveExported(s1, project, p, issue, limit).0, project, listing);
    }
    hide Inv, Later, RowAgrees, Exporting, Marked, PostMarker, Parse, SaveExported, CreateIssue, MarkerFree;
  }

  lemma KeptThenStep(s: State, t: State, r: State, project: string, listing: seq<Issue>)
    requires Safe(s) && Kept(s, t) && t.w.imported == s.w.imported && Step(t, r, project, listing)
    ensures Step(s, r, project, listing)
  {
    KeptTransitive(s, t, r);
  }

  // ---- The mapping of a post --------------------------------------------------------------------------------------

  /** A post of the project, as read at some point of the attempt. */
  ghost predicate Read(w: World, project: string, p: int, post: B.Post) {
    && p in w.board.posts && w.board.posts[p].project == project
    && (p !in w.imported ==> MarkerFree(post.body))
  }

  lemma ReadStays(v: World, w: World, project: string, p: int, post: B.Post)
    requires Read(v, project, p, post) && Later(v, w) && w.imported == v.imported
    ensures Read(w, project, p, post)
  {
  }

  /** The part of the mapping step after the row was looked up and not found. */
  lemma MappingMade(s: State, project: string, listing: seq<Issue>, p: int, post: B.Post, limit: nat)
    requires Safe(s) && !s.halted && Exporting(s.w, project, listing, None) && Plain(project)
    requires Read(s.w, project, p, post) && !Mapped(s.w.rows, project, PostItem, p)
    ensures var markers := IssueMarkers(project, listing);
            var (s2, row2) := if p in markers then Recover(s, project, p, markers[p]) else (s, None);
            && Step(s, s2, project, listing) && (!s2.halted && p in markers ==> row2.Some?)
            && (p !in markers ==>
                  var (r, found) := ExportNew(s, project, p, post, limit);
                  Step(s, r, project, listing) && (!r.halted ==> found.Some?))
  {
    UnmappedIsBoardBorn(s.w, project, listing, p);
    LaterReflexive(s.w);
    if p in IssueMarkers(project, listing) {
      RecoverKept(s, project, listing, p);
    } else {
      NeverExported(s.w, project, listing, p);
      ExportNewKept(s, project, listing, p, post, limit);
    }
    hide Inv, Later, Exporting, Recover, ExportNew, MarkerFree, Plain, AllowedScript, IssueMarkers;
  }

  /** An active post ends up with a row, by lookup, recovery or export, whatever earlier attempts left behind. */
  lemma EnsureMappingKept(s: State, project: string, listing: seq<Issue>, p: int, post: B.Post, limit: nat)
    requires Safe(s) && Exporting(s.w, project, listing, None) && Plain(project) && Read(s.w, project, p, post)
    ensures var (r, row) := EnsureMapping(s, project, IssueMarkers(project, listing), p, post, limit);
            Step(s, r, project, listing) && (!r.halted ==> row.Some?)
  {
    hide Inv, Exporting, AllowedScript, Later, Recover, ExportNew, MarkerFree, Plain, IssueMarkers, Save, Read;
    var (s1, row1) := FindByBoard(s, project, PostItem, p);
    FindStep(s, project, listing, p);
    if !s1.halted && row1.None? {
      ReadStays(s.w, s1.w, project, p, post);
      var markers := IssueMarkers(project, listing);
      MappingMade(s1, project, listing, p, post, limit);
      if p in markers {
        StepTransitive(s, s1, Recover(s1, project, p, markers[p]).0, project, listing);
      } else {
        StepTransitive(s, s1, ExportNew(s1, project, p, post, limit).0, project, listing);
      }
    }
  }
}
