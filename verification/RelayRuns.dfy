/** The whole attempt, and any sequence of attempts from an empty world. */
module RelayRuns {
  import opened Core
  import opened Paging
  import opened Text
  import opened Marker
  import opened Relay
  import opened RelaySafety
  import opened RelayExport
  import RC = RelayComments
  import B = Board

  // ---- Export of posts --------------------------------------------------------------------------------------------

  ghost predicate PostsOf(w: World, project: string, ids: seq<int>) {
    forall i :: 0 <= i < |ids| ==> ids[i] in w.board.posts && w.board.posts[ids[i]].project == project
  }

  lemma PostsOfStays(v: World, w: World, project: string, ids: seq<int>)
    requires PostsOf(v, project, ids) && Later(v, w)
    ensures PostsOf(w, project, ids)
  {
    forall i | 0 <= i < |ids| ensures ids[i] in w.board.posts && w.board.posts[ids[i]].project == project {
      PostStays(v, w, ids[i]);
    }
  }

  lemma GetPostStep(s: State, project: string, listing: seq<Issue>, p: int)
    requires Safe(s) && Exporting(s.w, project, listing, None)
    requires p in s.w.board.posts && s.w.board.posts[p].project == project
    ensures var (r, post) := GetPost(s, p);
            && Step(s, r, project, listing)
            && (post.Some? ==> Read(r.w, project, p, post.value))
  {
    NextStep(s, project, listing);
    PostStays(s.w, Next(s).0.w, p);
  }

  lemma CommentsStep(s: State, project: string, listing: seq<Issue>, p: int, number: int, limit: nat)
    requires Safe(s) && Exporting(s.w, project, listing, None)
    ensures Step(s, ExportComments(s, project, p, number, None, 0, limit), project, listing)
  {
    RC.ExportCommentsKept(s, project, p, number, None, 0, limit);
    QuietStep(s, ExportComments(s, project, p, number, None, 0, limit), project, listing);
    hide Inv, Later, Exporting, SamePosts, ExportComments;
  }

  lemma StepReflexive(s: State, r: State, project: string, listing: seq<Issue>)
    requires Safe(s) && Exporting(s.w, project, listing, None) && r == s.(receipt := r.receipt)
    ensures Step(s, r, project, listing)
  {
    LaterReflexive(s.w);
    hide Inv, Later, Exporting;
  }

  lemma StepGoes(s: State, r: State, project: string, listing: seq<Issue>)
    requires Step(s, r, project, listing) && !r.halted
    ensures Safe(r) && Exporting(r.w, project, listing, None) && Later(s.w, r.w) && r.w.imported == s.w.imported
  {
  }

  lemma ExportPostKept(s: State, project: string, listing: seq<Issue>, p: int, limit: nat)
    requires Safe(s) && Exporting(s.w, project, listing, None) && Plain(project)
    requires p in s.w.board.posts && s.w.board.posts[p].project == project
    ensures Step(s, ExportPost(s, project, IssueMarkers(project, listing), p, limit), project, listing)
  {
    hide Safe, Step, Exporting, Read, Plain, IssueMarkers, GetPost, EnsureMapping, ExportComments, Later;
    var markers := IssueMarkers(project, listing);
    var (s1, post) := GetPost(s, p);
    GetPostStep(s, project, listing, p);
    if !s1.halted {
      StepGoes(s, s1, project, listing);
      var skipped := s1.receipt.(skipped := s1.receipt.skipped + 1);
      StepReflexive(s1, s1.(receipt := skipped), project, listing);
      StepTransitive(s, s1, s1.(receipt := skipped), project, listing);
      if post.Some? && post.value.status.Active? {
        var (s2, row) := EnsureMapping(s1, project, markers, p, post.value, limit);
        EnsureMappingKept(s1, project, listing, p, post.value, limit);
        StepTransitive(s, s1, s2, project, listing);
        if !s2.halted && row.Some? {
          StepGoes(s1, s2, project, listing);
          CommentsStep(s2, project, listing, p, row.value.number, limit);
          StepTransitive(s, s2, ExportComments(s2, project, p, row.value.number, None, 0, limit), project, listing);
        }
      }
    }
  }

  lemma {:induction false} ExportEachKept(s: State, project: string, listing: seq<Issue>, ids: seq<int>, limit: nat)
    requires Safe(s) && Exporting(s.w, project, listing, None) && Plain(project) && PostsOf(s.w, project, ids)
    ensures Step(s, ExportEach(s, project, IssueMarkers(project, listing), ids, limit), project, listing)
    decreases |ids|
  {
    hide Safe, Step, Exporting, Plain, IssueMarkers, ExportPost, Later;
    StepReflexive(s, s, project, listing);
    if !s.halted && ids != [] {
      var t := ExportPost(s, project, IssueMarkers(project, listing), ids[0], limit);
      ExportPostKept(s, project, listing, ids[0], limit);
      if !t.halted {
        StepGoes(s, t, project, listing);
        PostsOfStays(s.w, t.w, project, ids);
        ExportEachKept(t, project, listing, ids[1..], limit);
        StepTransitive(s, t, ExportEach(t, project, IssueMarkers(project, listing), ids[1..], limit), project, listing);
      }
    }
  }

  lemma ListPostsStep(s: State, project: string, listing: seq<Issue>, after: int)
    requires Safe(s) && Exporting(s.w, project, listing, None)
    ensures var (r, page) := ListPosts(s, project, after);
            Step(s, r, project, listing) && PostsOf(r.w, project, page.items)
  {
    hide Inv, Later, SamePosts, AllowedScript, Exporting, PageOf;
    NextStep(s, project, listing);
    var t := Next(s).0;
    var ids := B.PostIds(t.w.board, project);
    PageMeaning(ids, after, PageSize);
    var items := PageOf(ids, after, PageSize).items;
    assert forall i :: 0 <= i < |items| ==> items[i] in items;
  }

  lemma {:induction false} ExportPostsKept(s: State, project: string, listing: seq<Issue>, after: int, limit: nat)
    requires Safe(s) && Exporting(s.w, project, listing, None) && Plain(project)
    ensures Step(s, ExportPosts(s, project, IssueMarkers(project, listing), after, limit), project, listing)
    decreases |s.script|
  {
    hide Safe, Step, Exporting, Plain, IssueMarkers, ExportEach, ListPosts, Later, PostsOf;
    StepReflexive(s, s, project, listing);
    if !s.halted {
      var markers := IssueMarkers(project, listing);
      var (s1, page) := ListPosts(s, project, after);
      ListPostsStep(s, project, listing, after);
      if !s1.halted {
        StepGoes(s, s1, project, listing);
        var s2 := ExportEach(s1, project, markers, page.items, limit);
        ExportEachKept(s1, project, listing, page.items, limit);
        StepTransitive(s, s1, s2, project, listing);
        if !s2.halted && page.next.Some? {
          StepGoes(s1, s2, project, listing);
          ExportPostsKept(s2, project, listing, page.next.value, limit);
          StepTransitive(s, s2, ExportPosts(s2, project, markers, page.next.value, limit), project, listing);
        }
      }
    }
  }

  // ---- One attempt ------------------------------------------------------------------------------------------------

  lemma Listed(w: World, script: seq<Turn>, project: string)
    requires Inv(w) && AllowedScript(script)
    ensures var s0 := State(w, script, NoReceipt, false);
            var (s1, issues) := ListIssues(s0);
            && Safe(s0) && Kept(s0, s1)
            && (!s1.halted ==> issues == s1.w.issues && Session(s1.w, project, issues) && !s1.halted
                               && ImportedUpTo(s1.w, project, issues, 0))
  {
    var s0 := State(w, script, NoReceipt, false);
    NextKept(s0);
    var t := Next(s0).0;
    SessionStarts(t.w, project);
  }

  /** An attempt, stopped at any call with or without its effect, keeps the invariant. */
  lemma SyncKept(w: World, script: seq<Turn>, project: string, limit: nat)
    requires Inv(w) && AllowedScript(script) && Plain(project)
    ensures Inv(Sync(w, script, project, limit).w) && Later(w, Sync(w, script, project, limit).w)
  {
    hide Inv, Later, Session, ImportedUpTo, Exporting, AllowedScript, Plain, ListIssues, ImportIssues, ExportPosts,
      ImportComments, IssueMarkers;
    var s0 := State(w, script, NoReceipt, false);
    var (s1, issues) := ListIssues(s0);
    Listed(w, script, project);
    if !s1.halted {
      assert issues[0..] == issues;
      ImportIssuesKept(s1, project, issues, 0, limit);
      var s2 := ImportIssues(s1, project, issues, limit);
      KeptTransitive(s0, s1, s2);
      if !s2.halted {
        RestOfAttempt(s0, s2, project, issues, limit);
      }
    }
  }

  lemma RestOfAttempt(s0: State, s2: State, project: string, issues: seq<Issue>, limit: nat)
    requires Safe(s0) && Kept(s0, s2) && Plain(project)
    requires Session(s2.w, project, issues) && ImportedUpTo(s2.w, project, issues, |issues|)
    ensures var s3 := ExportPosts(s2, project, IssueMarkers(project, issues), 0, limit);
            Kept(s0, s3) && Kept(s0, ImportComments(s3, project, issues, limit))
  {
    hide Inv, Later, Session, ImportedUpTo, Exporting, AllowedScript, Plain, ExportPosts, ImportComments, IssueMarkers,
      SamePosts;
    ExportingStarts(s2.w, project, issues);
    var s3 := ExportPosts(s2, project, IssueMarkers(project, issues), 0, limit);
    ExportPostsKept(s2, project, issues, 0, limit);
    KeptTransitive(s0, s2, s3);
    RC.ImportCommentsKept(s3, project, issues, limit);
    KeptTransitive(s0, s3, ImportComments(s3, project, issues, limit));
  }

  // ---- Any run ----------------------------------------------------------------------------------------------------

  datatype Event = Users(ops: seq<UserOp>) | Attempt(project: string, script: seq<Turn>, limit: nat)

  ghost function RunEvents(w: World, events: seq<Event>): (r: World)
    decreases |events|
  {
    if events == [] then w else
      var v := match events[0]
               case Users(ops) => ApplyUsers(w, ops)
               case Attempt(project, script, limit) => Sync(w, script, project, limit).w;
      RunEvents(v, events[1..])
  }

  /** Projects have plain ids, and users stay within `Allowed`. */
  predicate AllowedEvent(e: Event) {
    match e
    case Users(ops) => AllAllowed(ops)
    case Attempt(project, script, _) => Plain(project) && AllowedScript(script)
  }

  predicate AllowedRun(events: seq<Event>) {
    forall i :: 0 <= i < |events| ==> AllowedEvent(events[i])
  }

  const NoWorld := World(B.Empty, [], 1, map[], map[])

  lemma StartInv()
    ensures Inv(NoWorld)
  {
  }

  lemma EventKept(w: World, e: Event)
    requires Inv(w) && AllowedEvent(e)
    ensures var v := RunEvents(w, [e]); Inv(v) && Later(w, v)
  {
    match e
    case Users(ops) => UserSteps(w, ops);
    case Attempt(project, script, limit) => SyncKept(w, script, project, limit);
    hide Inv, Later, Sync, ApplyUsers;
  }

  lemma {:induction false} RunKept(w: World, events: seq<Event>)
    requires Inv(w) && AllowedRun(events)
    ensures Inv(RunEvents(w, events))
    decreases |events|
  {
    hide Inv, Later, Sync, ApplyUsers, AllowedEvent;
    if events != [] {
      EventKept(w, events[0]);
      assert [events[0]][1..] == [];
      RunKept(RunEvents(w, [events[0]]), events[1..]);
    }
  }

  /** At most one issue was ever created for a post, and none for a post that came from GitHub. */
  ghost predicate ExportedOnce(w: World) {
    && (forall j, k :: 0 <= j < k < |w.issues| && w.issues[j].exportOf.Some? ==>
          w.issues[j].exportOf != w.issues[k].exportOf)
    && (forall k :: 0 <= k < |w.issues| && w.issues[k].exportOf.Some? ==> w.issues[k].exportOf.value !in w.imported)
  }

  /** Posts made for issues stand for distinct issues, each marked for import into the post's project. */
  ghost predicate ImportedOnce(w: World) {
    && (forall p, q :: p in w.imported && q in w.imported && w.imported[p] == w.imported[q] ==> p == q)
    && (forall p :: p in w.imported ==>
          && p in w.board.posts && w.board.posts[p].project == w.imported[p].0
          && exists k :: ImportSource(w, k, w.imported[p].0, w.imported[p].1))
  }

  /** A row of an issue links it to the post it was exported from, or to the post imported from it. */
  ghost predicate RowTrue(w: World, key: RowKey)
    requires key in w.rows
  {
    var row := w.rows[key];
    && row.boardId in w.board.posts
    && exists k :: 0 <= k < |w.issues| && w.issues[k].id == key.id && w.issues[k].tag.1 && row.number == k + 1
         && (if row.boardId in w.imported then w.imported[row.boardId] == (key.project, key.id)
             else w.issues[k].tag.0.project == key.project && w.issues[k].tag.0.post == row.boardId)
  }

  ghost predicate OneToOne(w: World) {
    && (forall a, b :: (a in w.rows && b in w.rows && a.kind.IssueRow? && b.kind.IssueRow? && a.project == b.project
                        && w.rows[a].boardId == w.rows[b].boardId) ==> a == b)
    && (forall key :: key in w.rows && key.kind.IssueRow? ==> RowTrue(w, key))
  }

  lemma RowsAreTrue(w: World, key: RowKey)
    requires Inv(w) && key in w.rows && key.kind.IssueRow?
    ensures RowTrue(w, key) && w.rows[key].kind == PostItem
  {
    assert RowOk(w, key);
    var k :| RowAgrees(w, key, w.rows[key], k);
    assert w.issues[k].number == k + 1;
  }

  lemma InvMeaning(w: World)
    requires Inv(w)
    ensures ExportedOnce(w) && ImportedOnce(w) && OneToOne(w)
  {
    forall k | 0 <= k < |w.issues| && w.issues[k].exportOf.Some?
      ensures w.issues[k].exportOf.value !in w.imported
    {
      assert ExportOk(w, k);
    }
    forall p | p in w.imported ensures ImportOk(w, p) {}
    forall key | key in w.rows && key.kind.IssueRow? ensures RowTrue(w, key) && w.rows[key].kind == PostItem {
      RowsAreTrue(w, key);
    }
  }

  /**
    Crash safety.  After any sequence of attempts from an empty world, each stopped at any call, before or after the
    call took effect, with users acting before every call: no post has two relay-created issues, no issue has two
    board posts, nothing imported is exported back, and the rows of posts are one-to-one.
  */
  lemma CrashSafety(events: seq<Event>)
    requires AllowedRun(events)
    ensures var w := RunEvents(NoWorld, events); ExportedOnce(w) && ImportedOnce(w) && OneToOne(w)
  {
    StartInv();
    RunKept(NoWorld, events);
    InvMeaning(RunEvents(NoWorld, events));
  }
}
