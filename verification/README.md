# Models of the Den services

Dafny models of the protocols and algorithms in the Den services repository, with proofs of what they promise.  Each
module follows one component.  State that the Go code changes in place is a class whose methods are proved equal to a
function of the old state; the theorems are about those functions, over every run, script of failures or interleaving.

| module | component |
|---|---|
| `Core`, `Text`, `Paging` | options, the Go string functions the code relies on, cursor pages and cursor walks |
| `Board`, `BoardStore` | the board: posts, a comment forest with tombstones, replay keys, listings, paths |
| `Marker` | the text markers of the board relay and its replay keys |
| `Relay`, `RelaySafety`, `RelayExport`, `RelayComments`, `RelayRuns` | the board relay over board, repository and mapping table; crash safety |
| `RelayQuiet`, `RelaySettles`, `RelayQuiescence` | the board relay has nothing to do after it succeeded |
| `RelayForest`, `RelayEnds`, `RelayCompletes` | the board relay ends, and exactly when it succeeds |
| `RelayHistory`, `RelayTracks`, `RelayOnce`, `RelayObserved` | comments of the board relay: exported once, and sent back, exactly when |
| `RelayJams`, `RelayBarred` | comments on which the board relay is stuck for good |
| `RelayService` | the board relay as an object with its loops and receipt |
| `Ops`, `OpsCollector` | the operations collector: cache, spool and server |
| `Delivery`, `DeliveryService` | delivery intents: interleaved claims, reports and reapers |
| `GuidanceCap`, `GuidanceBindings`, `Utf8`, `GuidancePacket` | guidance: the cap, binding resolution, the byte-budgeted packet |
| `Migrations`, `MigrationRunner` | the migration runner and discovery |
| `Slugs`, `Publish` | blog publication records and slugs |
| `Vzdump` | the Proxmox backup log reader |
| `Markdown`, `MarkdownTitles` | headings, their ids and sections of knowledge entries |

## How failures are modelled

A call to something remote takes one turn of a script.  A turn says what others do before the call and whether the call
succeeds, fails without effect, or takes effect and loses its answer; an empty script is a process that is gone.  So one
script is one attempt stopped at any call.  In `Delivery` every database statement is one step and clients interleave
freely, each acting on what it read earlier.

## Where the code and its own words disagree

- The relay's upsert names the GitHub side as its conflict target (board-relay/internal/store.go:86), while the
  table's primary key is the board side (migration/postgres/den_board_relay/001_initial.sql).  `Relay.Conflict` models
  the second as an error of `Save`.
- The spool is described as safe to replay (cmd/den-tool/ops.go:115-116), but two paths with one slug share a file
  name within a collection; `Ops.CollisionLosesAReport` shows the loss, and the agreement theorem assumes distinct
  slugs.
- Relay comments are not crash-safe as posts are (board-relay/internal/service.go:187-224 looks only at the mapping
  table).  A comment whose row was lost, exported or imported, is exported again, and then its first copy conflicts
  with the new row on every later attempt (service.go:226-300).  `RelayJams.TwoAttemptsJam` gives two attempts,
  `RelayOnce.ExportedOnceExactly` and `RelayObserved.SentBackExactly` the exact conditions, and
  `RelayJams.NeverCompletes` that the relay does not recover.
- The board does not show what was purged (board/internal/service.go:144-156, 254-272), and the relay's client makes
  that an error.  So one purge can stop the relay of a project for good: `RelayBarred.PurgedReplyStops` gives the run,
  `RelayBarred.BarredNeverCompletes` the theorem, and `RelayCompletes.CompletesExactly` when an attempt does complete.
- Heading ids are counted per base (knowledge/internal/navigation.go:319-324) and so are not always unique:
  `MarkdownTitles.TextRepeats` gives a text, `Markdown.IdsDistinctExactly` the exact condition.
- A lifetime given in seconds is multiplied into 64-bit nanoseconds before it is compared with the maximum
  (delivery/internal/service.go:53-57), so some lifetimes far beyond it pass: `DeliveryService.OverlongAccepted`, and
  exactly which in `DeliveryService.LifetimeRefusedExactly`.
- A migration file numbered 0 is discovered and never applied, while `Up` and `Status` report success; see
  `Migrations.AllAppliedExactly`.
- The relay only recognises its own markers for projects with plain ids; `Marker.RecognisedExactlyWhenPlain` gives the
  exact condition.

## Model

| member | source | states |
|---|---|---|
| Paging.PageMeaning | board/internal/store.go:379-408 | A page is ascending, holds only matching keys beyond the cursor, and misses none up to its next cursor; without a next cursor it misses none at all. |
| Paging.WalkUnderChange | board/internal/store.go:379-408 | Whatever changes between fetches, a cursor walk returns keys strictly increasing, only keys that matched at some fetch, and, once finished, every key that matched at every fetch. |
| Board.ApplyValid | board/internal/memory_store.go:28-48 | Every write keeps the forest valid (a parent is older than its reply and shares its post, an active comment has an active post, keys name rows) and only adds rows or scrubs them. |
| Board.RunValid | board/internal/memory_store.go:113-159 | The same over every run of writes. |
| Board.PurgePostValid | board/internal/memory_store.go:215-232 | Purging a post scrubs it and its comments without breaking the forest or losing a row. |
| Board.PurgeCommentValid | board/internal/memory_store.go:234-246 | Purging a comment leaves a tombstone in the same place of the forest. |
| Board.ReplayReturnsFirstRow | board/internal/memory_store.go:37-48 | A replay key answers with the row of its first use after any run of writes, and the replay changes nothing. |
| Board.RoundsAreFinite | board/internal/store.go:464-476 | The recursive query runs dry: round k holds only ids beyond root + k. |
| Board.VisibilityAgreesWithQuery | board/internal/memory_store.go:250-260 | The recursive search for an active descendant agrees with the transitive closure of the SQL. |
| Board.HiddenStaysHidden | board/internal/memory_store.go:167-184 | A comment that left the listing never reappears, whatever is written later. |
| Board.PathsAgree | board/internal/store.go:481-492 | The recursive path query yields the last `limit` links of the root-to-target chain, and the first returned row has a parent exactly when something was cut. |
| Board.PostWalk | board/internal/memory_store.go:56-70 | A finished walk over posts, with any writes in between, returns each post listed at its first and last fetch exactly once, in increasing order. |
| Board.CommentWalk | board/internal/memory_store.go:167-184 | The same for replies, where tombstones with active replies are listed too; and every reply returned was listed at some fetch. |
| Board.SearchWalk | board/internal/memory_store.go:72-101 | The same for search results, whose cursor interleaves posts and comments; and every key returned matched at some fetch. |
| BoardStore.SortKeys | board/internal/memory_store.go:65 | The sort of a listing: ascending, with exactly the keys collected. |
| BoardStore.SortedPage | board/internal/memory_store.go:65-69 | Sorting, keeping one key too many and cutting gives the specified page. |
| BoardStore.MemoryStore.CreatePostIdempotent | board/internal/memory_store.go:37-48 | A key always answers with the post it was first used for. The first use adds that one post under an id no post or comment had; a later use changes nothing. The forest stays valid and keeps its rows. |
| BoardStore.MemoryStore.CheckReply | board/internal/memory_store.go:116-128 | An active reply is let through exactly when adding it leaves the forest valid and its parent, if any, is active; the post is judged first, and no cycle is ever reported. |
| BoardStore.MemoryStore.CreateComment | board/internal/memory_store.go:113-133 | A refused reply changes nothing. An accepted one is the only new row, under an id no post or comment had and greater than its parent; the forest stays valid and keeps its rows. |
| BoardStore.MemoryStore.CreateCommentIdempotent | board/internal/memory_store.go:135-159 | A key answers with the reply it was first used for, before any check and without a change; a first use that is accepted adds only that reply under a new id; a refusal changes nothing and leaves the key unused. The forest stays valid. |
| BoardStore.MemoryStore.PurgePostRow | board/internal/memory_store.go:215-232 | The loop scrubs the post and exactly its active comments. |
| BoardStore.MemoryStore.PurgeCommentRow | board/internal/memory_store.go:234-246 | Refused exactly when the comment is not active. Afterwards it is not active, every other row is as before, the tombstone keeps post and parent and loses body and author, and the forest stays valid. |
| BoardStore.MemoryStore.HasActiveReply | board/internal/memory_store.go:250-260 | The recursive search finds an active descendant exactly when there is one, and terminates. |
| BoardStore.MemoryStore.ListPosts | board/internal/memory_store.go:56-70 | The page of the active posts of a project. |
| BoardStore.MemoryStore.Search | board/internal/memory_store.go:72-101 | The nested loops collect exactly the matching active posts of the project and the matching active comments under active posts, each once, and return the page of their cursors. |
| BoardStore.MemoryStore.ListComments | board/internal/memory_store.go:167-184 | The page of the visible replies of a parent. |
| BoardStore.MemoryStore.GetCommentPath | board/internal/memory_store.go:186-213 | Returns exactly the last `limit` links of the chain, oldest first, truncated exactly when the chain is longer; the cycle error never occurs on a valid store. |
| BoardStore.ReverseInPlace | board/internal/memory_store.go:209-211 | The swapping loop reverses the rows. |
| Marker.ParseMarker | board-relay/internal/marker.go:28-57 | The loop over fields computes the parse function; its slice of the fields is in range on every input. |
| Marker.FieldsOfMarker | board-relay/internal/marker.go:37-39 | A located marker has at least two fields, so skipping two is safe whatever the body. |
| Marker.PostRoundTrip | board-relay/internal/marker.go:16-18 | For a plain project id and a body without a marker, parsing body plus post marker gives back project and post id and nothing else, whichever characters beyond ASCII are printable. |
| Marker.CommentRoundTrip | board-relay/internal/marker.go:20-26 | Likewise for comment markers, with and without a parent. |
| Marker.RecognisedExactlyWhenPlain | board-relay/internal/marker.go:16-57 | The relay recognises its own post marker for a project exactly when the project id is plain: non-empty, of printable characters that quoting leaves alone, without a closing arrow. A character the quoting writes as an escape, printable or not, makes the id not plain. |
| Marker.ReplayKeyInjective | board-relay/internal/service.go:318-324 | Replay keys are injective in project, kind and GitHub id. |
| RelaySafety.MarkerFreeMeaning | board-relay/internal/marker.go:29 | A marker-free body contains the marker prefix nowhere. |
| RelaySafety.UserSteps | board-relay/internal/service.go:35-56 | Whatever users do between two calls keeps the invariant and records nothing about relayed posts. |
| RelaySafety.ReplayedPost | board-relay/internal/service.go:99-103 | A replay of the key of an issue answers with the post recorded for that issue. |
| RelaySafety.ImportIssueKept | board-relay/internal/service.go:84-111 | Importing one issue, stopped anywhere, keeps the invariant; if it went through, the issue has its row. |
| RelaySafety.ImportIssuesKept | board-relay/internal/service.go:83-114 | After the import phase every import-marked issue of the listing has its row. |
| RelayExport.MarkedIssue | board-relay/internal/service.go:117-123 | Every entry of the marker table is a listed issue that names the post. |
| RelayExport.MarkersComplete | board-relay/internal/service.go:117-123 | Every listed issue that names a post of the project is in the marker table. |
| RelayExport.UnmappedIsBoardBorn | board-relay/internal/service.go:143-159 | During export a post of the project without a row was not imported from GitHub. |
| RelayExport.NeverExported | board-relay/internal/service.go:147-159 | A post with neither a row nor a listed marker has no relay-created issue yet. |
| RelayExport.RecoverKept | board-relay/internal/service.go:147-158 | Adopting a listed issue that carries the marker of the post keeps the invariant and leaves the post mapped. |
| RelayExport.ExportNewKept | board-relay/internal/service.go:159-173 | Creating the issue and saving its row keeps the invariant wherever it stops. |
| RelayExport.EnsureMappingKept | board-relay/internal/service.go:143-173 | An active post ends up mapped, by lookup, recovery or export, whatever earlier attempts left behind. |
| RelayComments.ExportCommentsKept | board-relay/internal/service.go:187-224 | The recursive comment export, stopped at any call and with users acting, keeps the invariant and records nothing about posts. (That it ends of itself is `RelayEnds.WalkEnds`.) |
| RelayComments.ImportCommentsKept | board-relay/internal/service.go:226-274 | The comment import keeps the invariant and records nothing about posts. |
| RelayComments.RecoverCommentKept | board-relay/internal/service.go:276-300 | Recovering the row of a comment keeps the invariant wherever it stops. |
| RelayRuns.ExportPostsKept | board-relay/internal/service.go:116-185 | The export phase over all pages keeps the invariant and imports nothing. |
| RelayRuns.SyncKept | board-relay/internal/service.go:35-56 | One attempt, stopped at any call with or without its effect, keeps the invariant. |
| RelayRuns.InvMeaning | board-relay/internal/service.go:83-185 | What the invariant says of posts, issues and rows in plain terms. |
| RelayRuns.CrashSafety | board-relay/internal/service.go:35-185 | After any sequence of attempts and user actions from an empty world: no post has two relay-created issues, no two posts were made for one issue, no imported post is exported, and rows of issues are one-to-one with their posts and say the truth. |
| RelayQuiet.SettledIsStill | board-relay/internal/service.go:35-300 | On a settled world an undisturbed attempt, complete or not, changes neither board nor repository nor table, and counts nothing imported, exported or recovered. |
| RelaySettles.WalkCovers | board-relay/internal/service.go:187-224 | A completed comment walk leaves a row for every active comment reached through active parents. |
| RelaySettles.PageCovers | board-relay/internal/service.go:189-223 | Handling each page and then the rest of the list handles the whole list. |
| RelayQuiescence.ExportPostsSettles | board-relay/internal/service.go:116-185 | A completed undisturbed export leaves every active post of the project, and every due comment below it, with a row. |
| RelayQuiescence.ImportCommentsTaken | board-relay/internal/service.go:226-274 | A completed undisturbed comment import leaves a row for every comment of every mapped listed issue, and maps what it adds to the board. |
| RelayQuiescence.SyncSettles | board-relay/internal/service.go:35-56 | An undisturbed attempt that returns no error leaves a settled world. |
| RelayQuiescence.Quiescence | board-relay/internal/service.go:35-300 | From any world reachable from nothing, after an undisturbed attempt without error the next undisturbed attempt changes nothing and imports, exports and recovers nothing. |
| RelayForest.SiblingsApart | board-relay/internal/service.go:187-224 | Different replies of one parent have no descendant in common: the walk meets no comment twice. |
| RelayForest.PageSplit | board-relay/internal/service.go:189-223 | The comments under one page of replies and those under the rest of the list together are no more than all of them. |
| RelayEnds.WalkEnds | board-relay/internal/service.go:187-224 | Undisturbed, the recursive comment walk halts nowhere, after at most five calls for each comment it can reach and one more. Its termination follows the forest, where replies are younger than what they answer, and the rising cursor, not the length of the script. The only comment rows it writes are for due comments. |
| RelayEnds.ExportPostsEnd | board-relay/internal/service.go:116-185 | Undisturbed, the export of all pages of posts with their comments halts nowhere, within a number of calls read off the board. |
| RelayEnds.ExportCallsBound | board-relay/internal/service.go:116-185 | That number is at most seven for each post, five for each comment, and one. |
| RelayCompletes.ImportCommentClear | board-relay/internal/service.go:226-300 | Undisturbed, the import of one GitHub comment stops exactly when the comment has no row and is refused: its board comment has another row; its marker names a comment and the post, or that comment of the post, is missing or purged; or the board refuses the reply, for its fields, its post or parent, or for want of an id. Otherwise the world it leaves is given. |
| RelayCompletes.CompletesExactly | board-relay/internal/service.go:35-57 | From any sound world, an undisturbed attempt with enough calls for the board and the listing returns no error exactly when the board accepts the posts to import, has ids for them, and refuses no listed comment on its turn, purged posts and comments included; the world it then leaves is given. |
| RelayCompletes.RelayedCompletesExactly | board-relay/internal/service.go:35-57 | When issues, posts and due comments have their rows already, that condition is read off the world before the attempt. |
| RelayTracks.SyncTracks | board-relay/internal/service.go:187-300 | One attempt, whatever happens to its calls and whatever users do: it creates a GitHub comment only for a board comment without a row, at most one for each and with its text, every comment row it adds is for a comment it created or found, and unless it was stopped every comment it created has its row. |
| RelayOnce.CompletedRunsExportOnce | board-relay/internal/service.go:187-224 | As long as every attempt returned no error, and however the last one is stopped, no board comment has two relay-created GitHub comments. |
| RelayOnce.MappedOrDue | board-relay/internal/service.go:187-224 | After the export phase of an undisturbed attempt the comments with rows are those that had one and those that were due. |
| RelayOnce.ExportedOnceExactly | board-relay/internal/service.go:187-224 | From any sound world without duplicates, an undisturbed attempt creates no second GitHub comment for a board comment exactly when, before it, no due comment of the project has a relay-created GitHub comment but no row (or the import of issues stops first). `RelayObserved` reads this off what is listed. |
| RelayObserved.RunTold | board-relay/internal/service.go:187-224 | Over every run, whatever users write and wherever attempts stop, a GitHub comment the relay created has the text of its board comment, until that is purged. |
| RelayObserved.TextNames | board-relay/internal/marker.go:20-57 | That text, for a body without a marker, parses back to the board comment it was written for. |
| RelayObserved.ExportedOnceByText | board-relay/internal/service.go:187-224 | Read off GitHub before the attempt, whatever comments hold: if no listed comment is, word for word, the export of a due comment without a row, nothing is exported twice; and exactly then, if nobody else wrote such texts and the import of issues goes through. |
| RelayObserved.ExportedOnceByMarker | board-relay/internal/service.go:187-224 | The same read off the markers, when the due comments without a row hold no marker of their own: if no listed comment names one of them, nothing is exported twice; and exactly then, if only the relay writes such markers. |
| RelayObserved.SentBackExactly | board-relay/internal/service.go:187-265 | From any sound world, an undisturbed attempt exports a comment that came from GitHub exactly when a due comment held by a replay key of the relay has no row (and the import of issues goes through). |
| RelayJams.CutAfterImport | board-relay/internal/service.go:252-265 | A process that dies between the import of a GitHub comment and its row leaves a due comment, held by the replay key, without a row. |
| RelayJams.LostJams | board-relay/internal/service.go:187-300 | After the row of a comment was lost, exported or imported, the next undisturbed attempt exports the board comment, a second time if it was exported, returns an error, and leaves a world in which no attempt completes. |
| RelayJams.NeverCompletes | board-relay/internal/service.go:276-300 | Once a GitHub comment without a row stands for a board comment that has another row, every later attempt returns an error, after any attempts and user actions and however it goes. |
| RelayJams.TwoAttemptsJam | board-relay/internal/service.go:187-300 | The concrete run from nothing: a post and a reply are written, an attempt dies right after the GitHub comment was created, the next creates a second one and fails, and none after it completes. |
| RelayBarred.RefusedExactly | board-relay/internal/service.go:226-300 | A GitHub comment without a row is refused exactly when its board comment has another row, when it is barred for good (its post was purged, the comment or parent its marker names was purged or is another post's, its fields are refused), or while what its marker names, or an id, is missing. |
| RelayBarred.ImportBarred | board-relay/internal/service.go:245-300 | The import of a barred comment stops and writes nothing, whatever its calls answer and whatever users do. |
| RelayBarred.BarredNeverCompletes | board-relay/internal/service.go:226-300 | Once a comment without a row is barred, every later attempt of the project returns an error, after any attempts of any project and user actions and however it goes. |
| RelayBarred.PurgedReplyStops | board-relay/internal/service.go:276-300 | The concrete run: an attempt dies right after it created a reply's GitHub comment, a user purges the reply, and no attempt after that completes. |
| RelayService.FindRow | board-relay/internal/store.go:75-79 | Scanning the table by board item finds the one row it has, or none. |
| RelayService.Refuses | board-relay/internal/store.go:81-93 | A write is refused exactly when another GitHub item holds the same board item. |
| RelayService.MarkersOf | board-relay/internal/service.go:117-123 | The loop builds the marker table; the last listed issue wins. |
| RelayService.Service.Save | board-relay/internal/store.go:43-52 | The row is written under its GitHub key, or refused, or lost with its answer. |
| RelayService.Service.AddItemUrl | board-relay/internal/service.go:67-73 | Links beyond the limit are only counted, and the count of shown and omitted links matches the items. |
| RelayService.Service.ImportIssues | board-relay/internal/service.go:83-114 | The loop does what the specification says and keeps the receipt accounted. |
| RelayService.Service.EnsureMapping | board-relay/internal/service.go:143-173 | The row answered is the row the table holds for the post. In a sound export phase the invariant is kept wherever it stops, and it goes on only with such a row. |
| RelayService.Service.ExportComments | board-relay/internal/service.go:187-224 | The paged recursive walk does what the specification says, whatever its calls answer; `RelayEnds.WalkEnds` bounds its calls. |
| RelayService.Service.ExportPosts | board-relay/internal/service.go:116-185 | The paged loop does what the specification says. |
| RelayService.Service.ImportComments | board-relay/internal/service.go:226-274 | The loop over issues does what the specification says. |
| RelayService.Service.Sync | board-relay/internal/service.go:35-56 | One attempt as specified, with its receipt accounted wherever it stops. |
| RelayService.SyncReceipt | board-relay/internal/service.go:35-73 | The receipt of any attempt shows at most the limit of links, and shown plus omitted links equal the imported and exported items. |
| Ops.FileGone | cmd/den-tool/ops.go:192-203 | Removing the oldest spooled file keeps the agreement of every path, unless it was the last word on its path and did not reach the server. |
| Ops.ReplayKeeps | cmd/den-tool/ops.go:168-205 | Replay keeps the agreement wherever it stops; if it reports no error the spool is empty. |
| Ops.AddKeeps | cmd/den-tool/ops.go:135-156 | A file added now is the newest of its path and replaces no other path. |
| Ops.LostKeeps | cmd/den-tool/ops_collect.go:356-367 | A request that may have reached the server is spooled, and the spool then says the same. |
| Ops.DeliverAllKeeps | cmd/den-tool/ops_collect.go:336-368 | The delivery loop keeps the agreement, and while it is online nothing waits in the spool. |
| Ops.CacheAgrees | cmd/den-tool/ops_collect.go:329-370 | After any run of collections with an advancing clock over slug-distinct paths, whatever the server answered, draining the spool leaves the server, for every cached path whose newest file was not rejected, with a body that hashes to the cached value. |
| Ops.SkipIsSafe | cmd/den-tool/ops_collect.go:338-342 | A write skipped as unchanged loses nothing: the drained server holds exactly the body that was not sent. |
| Ops.CollectionAddsUp | cmd/den-tool/ops_collect.go:329-370 | Delivered, spooled, unchanged, rejected and failed writes of a collection add up to its writes. |
| Ops.CollisionLosesAReport | cmd/den-tool/ops.go:146-155 | When two paths share a slug, one collection while the server is down loses the first report although the cache calls it sent. |
| Ops.SlugsCollide | cmd/den-tool/ops.go:232-247 | Distinct paths with one slug exist. |
| OpsCollector.Pending | cmd/den-tool/ops.go:207-223 | The listing holds every file once, sorted by name: by time, and within one collection by slug. |
| OpsCollector.Collector.Replay | cmd/den-tool/ops.go:168-205 | The loop over files does what the specification says. |
| OpsCollector.Collector.DeliverWrite | cmd/den-tool/ops_collect.go:337-367 | One write is counted exactly once, touches no other path in the cache, sends nothing once the server is unreachable, records the hash of its body when it was delivered or spooled, and keeps cache, spool and server in agreement. |
| OpsCollector.Collector.DeliverOpsWrites | cmd/den-tool/ops_collect.go:329-370 | Replay and loop as specified, with a summary that adds up. |
| OpsCollector.RegisterKeeps | cmd/den-tool/ops_collect.go:312-318 | A registration replaces the earlier one of its path where it stands, or goes to the end; no other registration moves and paths stay distinct. |
| OpsCollector.GatherKeeps | cmd/den-tool/ops_collect.go:279-325 | Every path is registered once and always sent, and evidence keeps its order. |
| OpsCollector.CollectEvidence | cmd/den-tool/ops_collect.go:309-324 | The slice edited in place equals the specified registrations followed by the evidence. |
| Delivery.CreateStep | delivery/internal/store.go:239-244 | Creating keeps the table valid and answers with the row that holds the key. |
| Delivery.ClaimStep | delivery/internal/store.go:268-276 | The guarded claim is right although the row was judged on an earlier read. |
| Delivery.ExpireStep | delivery/internal/store.go:278-283 | Only a pending row expires, and only to expired. |
| Delivery.ExpireAllStep | delivery/internal/store.go:296-301 | The bulk expiry changes only overdue pending rows, or nothing. |
| Delivery.ReportStep | delivery/internal/store.go:104-146 | A report moves a claimed or running row as allowed and appends its event, or changes nothing. |
| Delivery.FailStep | delivery/internal/store.go:310-315 | Only a running row is failed by the reaper. |
| Delivery.ActKeeps | delivery/internal/service.go:66-151 | Every step of every client keeps the invariant, what other clients read included, and moves rows only as allowed. |
| Delivery.Lifecycle | delivery/internal/service.go:66-151 | Over every interleaving, between any two points of a run a row only moves forward, a terminal row never changes, and a claim keeps its token, holder and time. |
| Delivery.ClaimedOnceByTarget | delivery/internal/service.go:66-91 | At most one claim of an intent ever succeeds, exactly when the intent is past pending and not expired, by its target and before it expires, despite the stale read. |
| Delivery.LogTellsState | delivery/internal/state.go:21-41 | The event log of any reachable row fits its state: it is empty, running, or an optional running and one completed or failed, a running row has exactly one running event, empty means pending, claimed or expired, ending in completed means completed and conversely; completion time is set exactly on terminal states. |
| Delivery.CreateIsIdempotent | delivery/internal/store.go:239-244 | A repeated create answers with the first row of its key after any interleaving. |
| DeliveryService.IntentStore.Insert | delivery/internal/store.go:24-42 | The insert answers with the row that holds the key, or adds one. |
| DeliveryService.IntentStore.ClaimIfPending | delivery/internal/store.go:82-95 | The guarded claim and its conflict answer. |
| DeliveryService.IntentStore.Report | delivery/internal/store.go:104-146 | Accepted exactly from the holder of the token while the row is claimed, or running and the event is not running again, and not completing before creation. Then this row alone changes and this event alone is appended; otherwise nothing changes. The table stays sound and rows only move forward. |
| DeliveryService.IntentStore.ExpireOverdue | delivery/internal/store.go:148-154 | Expires every overdue row and counts them, or fails as a whole. |
| DeliveryService.IntentStore.FailIfRunning | delivery/internal/store.go:177-182 | A running row becomes failed at that time and keeps its token, every other row and all logs stay, and it reports failure exactly when the time is before the creation of a running row. The table stays sound. |
| DeliveryService.IntentService.CreateIntent | delivery/internal/service.go:48-64 | Succeeds exactly when target and key are valid, a given lifetime is positive, and the lifetime in wrapped 64-bit nanoseconds lies between one and the maximum; a refusal changes nothing. The answer is the row of the key: the earlier one unchanged, or a new pending one with exactly that lifetime. |
| DeliveryService.OverlongAccepted | delivery/internal/service.go:53-57 | A lifetime of 18446744074 seconds, beyond 64 bits of nanoseconds, wraps to 290448384 nanoseconds and passes both checks for every maximum from that on. |
| DeliveryService.LifetimeRefusedExactly | delivery/internal/service.go:53-59 | Exactly which lifetimes are refused: those whose nanoseconds modulo 2^64 are zero or more than the maximum; below 2^63 nanoseconds that is those above the maximum. |
| DeliveryService.IntentService.Claim | delivery/internal/service.go:66-91 | Exactly the run of one claim in the interleaved system with no other step in between. It succeeds exactly for the target of a pending, unexpired intent whose runtime is alive and whose token is free; an expired intent is left expired. |
| DeliveryService.IntentService.Reap | delivery/internal/service.go:118-151 | Undisturbed, a completed sweep expires every overdue row, fails every stale row of a dead runtime, and leaves all others alone. |
| DeliveryService.SweepIsReaped | delivery/internal/service.go:118-151 | Expiring in bulk, listing, and failing one by one amounts to one fate per row. |
| DeliveryService.UndisturbedSweep | delivery/internal/service.go:118-151 | The run of one sweep in the interleaved system with no other step in between gives every row that same fate. |
| GuidanceCap.SortSorted | guidance/internal/bindings.go:431-451 | The sort orders by specificity, policy, priority, sort order, target and id. |
| GuidanceCap.SortForgetsOrder | guidance/internal/bindings.go:409-451 | Items the comparison tells apart sort to one arrangement whatever order they came in. |
| GuidanceCap.SortStable | guidance/internal/bindings.go:409-429 | The sort is stable: items the comparison does not tell apart keep their order. |
| GuidanceCap.Cap | guidance/internal/bindings.go:274-295 | The backward in-place replacement keeps exactly the first `limit` of all must-read items followed by the others; it leaves the arrangement in which must-read items beyond the limit fill, from the back, the places of the others, and sorts it. |
| GuidanceCap.MidwayReplaces | guidance/internal/bindings.go:284-291 | Overwriting from the back displaces exactly the last kept item that is not must-read. |
| GuidanceCap.CapSize | guidance/internal/bindings.go:340-358 | The cap keeps as many items as fit, all from the input. |
| GuidanceCap.MustReadRescued | guidance/internal/bindings.go:274-295 | No must-read item is dropped while an item that is not must-read is kept. |
| GuidanceBindings.MatchAudience | guidance/internal/service.go:268-288 | An empty list matches, "all" on the entry matches, otherwise a shared trimmed value. |
| GuidanceBindings.CollectShadowed | guidance/internal/bindings.go:393-407 | A target is shadowed exactly when a global and a shadowing local binding both name it. |
| GuidanceBindings.ListingOrderIsIrrelevant | guidance/internal/bindings.go:219-271 | The resolution is the same however the store lists its rows. |
| GuidanceBindings.ResolutionMeaning | guidance/internal/bindings.go:230-271 | The answer splits the capped list exactly into selections and exclusions, spends the inline budget greedily (used equals the admitted bytes, stays within budget, no refused summary would still fit), and is truncated exactly when something was cut. |
| GuidanceBindings.ShadowedExactly | guidance/internal/bindings.go:235-238 | An exclusion is marked shadowed exactly when it is global and an applicable local binding shadows its target. |
| GuidanceBindings.ResolveKnowledgeBindings | guidance/internal/bindings.go:201-272 | The loops with the metadata cache compute the specified resolution, and budgets out of range are refused. |
| GuidanceBindings.ResolveBinding | guidance/internal/bindings.go:234-267 | One binding with the cache gives what it gives without it. |
| GuidanceBindings.ResolveContext | guidance/internal/bindings.go:300-338 | Knowledge selections and matching legacy entries are merged and sorted stably; beyond the limit they are the cap's arrangement, sorted stably; truncated exactly when something was cut. |
| Utf8.BoundaryNear | guidance/internal/service.go:202-205 | In well-formed UTF-8 every window of four bytes holds a character boundary. |
| Utf8.TruncateBytes | guidance/internal/service.go:195-207 | The cut is the longest well-formed prefix within the limit; a well-formed text loses at most three bytes beyond it. |
| GuidancePacket.PacketMeaning | guidance/internal/service.go:118-193 | The packet stays within the byte limit, is the preamble and the sections of its sources in order, places or skips every matching entry exactly once, and is incomplete exactly when something was skipped or the preamble cut. |
| GuidancePacket.RequiredIndependent | guidance/internal/service.go:142-188 | The required sources are those of a packet built from the required entries alone, and come first. |
| GuidancePacket.RunPass | guidance/internal/service.go:143-187 | One pass of the loop as specified. |
| GuidancePacket.Resolve | guidance/internal/service.go:118-193 | Limit choice, preamble cut and both passes, within the configured limit. |
| Migrations.FlatIsAll | migration/migrations.go:107-113 | For a sorted list, the groups in schema order are the list. |
| Migrations.GroupAdvances | migration/runner.go:63-76 | Within a schema the version read once stays good enough: a prefix of what is pending is committed, in order. |
| Migrations.UpAdvances | migration/runner.go:52-79 | One attempt commits a prefix of the pending migrations, in order, and all of them if it reports success. |
| Migrations.CommittedInOrder | migration/runner.go:52-164 | Over any number of attempts failing at any call, what was committed is a prefix of the pending migrations in (schema, version) order; a successful attempt completes it, leaves nothing pending, and a further attempt commits nothing. |
| Migrations.StatusIsClear | migration/runner.go:81-109 | After a successful attempt the status of every schema shows nothing pending. |
| Migrations.AllAppliedExactly | migration/migrations.go:18 | From an empty database an attempt that reports success has applied every migration exactly when all versions are positive; a file numbered 0 is never applied. |
| Migrations.UnsortedLosesAMigration | migration/migrations.go:57-62 | Without the sort a migration can be lost for good while the runner reports success. |
| MigrationRunner.Validate | migration/migrations.go:95-105 | Accepts exactly the lists without a repeated schema and version. |
| MigrationRunner.Discover | migration/migrations.go:32-64 | Whatever order files were walked in, the result is sorted and complete; duplicates are refused. |
| MigrationRunner.GroupBySchema | migration/migrations.go:107-113 | Each schema gets its migrations in list order. |
| MigrationRunner.SortedNames | migration/runner.go:166-173 | The schema names in strictly increasing order. |
| MigrationRunner.Runner.Up | migration/runner.go:52-79 | The loops do what the specification says. |
| MigrationRunner.CountPending | migration/runner.go:92-101 | The loop counts what is pending. |
| MigrationRunner.DiscoverAndUp | migration/runner.go:44-79 | From files found in any order, an attempt commits in (schema, version) order, and everything pending if it succeeds. |
| Slugs.SlugifyMakesSlug | doc-publish/internal/service.go:322-334 | Every slug has at most eighty characters from a-z, 0-9 and single inner dashes. |
| Slugs.SlugifyIdempotent | doc-publish/internal/service.go:322-334 | Slugging is idempotent, and its fixed points are exactly the slugs. |
| Publish.RenderedOk | doc-publish/internal/service.go:227-240 | A wiki page published before renders to its saved slug, path and URL whatever the request asks for. |
| Publish.PublishKeeps | doc-publish/internal/service.go:83-122 | A publish, failed or not, keeps one record per source and every saved identity. |
| Publish.WikiPageKeepsItsPost | doc-publish/internal/service.go:83-240 | Over any run each wiki page has at most one record, whose id, slug, path, URL and creation time never change. |
| Publish.PublicationStore.FindBySource | doc-publish/internal/store.go:27-57 | The loop finds the one record of the source, or none. |
| Publish.Service.PublishPost | doc-publish/internal/service.go:83-122 | Publishing as specified, keeping every saved identity. |
| Vzdump.ParseMeaning | cmd/den-tool/ops_collect_proxmox.go:317-412 | One run per start line in order; the state of a run depends only on the lines up to the next start and, for a last run without a result, on whether the task ended; failed runs have an error; a finish time is present exactly when a run is not running. |
| Vzdump.StartsCounted | cmd/den-tool/ops_collect_proxmox.go:344-354 | Segments and start lines correspond one to one. |
| Vzdump.ParseVzdumpTask | cmd/den-tool/ops_collect_proxmox.go:342-412 | The loop computes the parse, with one run per start line. |
| Markdown.LinesTile | knowledge/internal/navigation.go:297-328 | Lines tile the text and every offset starts a line. |
| Markdown.HeadingsMeaning | knowledge/internal/navigation.go:296-331 | Headings have strictly increasing offsets and are exactly the lines outside any open fence that match the heading rule. |
| Markdown.SectionsNest | knowledge/internal/navigation.go:276-286 | The ranges of two sections are nested or disjoint. |
| Markdown.EndMeaning | knowledge/internal/navigation.go:280-286 | A section ends at the first later heading of equal or higher rank, or with the text. |
| Markdown.IdsDistinctExactly | knowledge/internal/navigation.go:319-324 | For every text the heading ids are pairwise distinct exactly when no heading has the base b-n for a base b that occurs n times or more, n at least two. |
| MarkdownTitles.TextRepeats | knowledge/internal/navigation.go:315-324 | In the text "# a", "# a", "# a 2" two headings have one id. |
| MarkdownTitles.HeadingIdShape | knowledge/internal/navigation.go:349-368 | A base id is letters and digits with single inner dashes, unless the title has no letter or digit; then it is made of the digest. |
| MarkdownTitles.HeadingIdOf | knowledge/internal/navigation.go:349-368 | The loop with its pending dash computes the base id. |
| Markdown.MarkdownHeadings | knowledge/internal/navigation.go:296-331 | The loop with fence state, offset and counts computes the headings. |
| Markdown.SelectSection | knowledge/internal/navigation.go:270-294 | Selects the first heading with the trimmed id and the trimmed text of its range; refused as too large exactly when that text is over the limit, not found exactly when the id is empty or no heading has it. |

## Left out

- HTTP handlers, clients, configuration, clocks, random ids, SSH and terminals: replaced by parameters and scripts.
- Concurrent `Sync` calls on one project: the relay has no lock, so attempts are sequential.
- Relay: users write GitHub comments with any text, but edit or delete none.
- Relay: the bound on calls is for undisturbed attempts; users who keep writing can keep a walk going.
- Relay: users may edit an issue only without changing what its marker says, and write marker-free post bodies; GitHub
  comments and new issues are unrestricted.  Replay keys of the relay's form are left to the relay.
- Relay: GitHub logins, metadata and links beyond their number are not modelled; which issues and comments the board
  refuses for their fields is left open.  The listing of posts and the project registry refuse nothing of themselves;
  that they do is a failed turn.
- RelayQuiescence.Quiescence: assumes nobody acts during the two attempts; what users add in between is new work.
- Board: one key table serves posts and comments in SQL, two in memory; the model follows the memory store.
- Board: project checks, page limits and purge audits of board/internal/service.go only refuse calls; field checks do
  so in the relay.
- Board: full-text ranking and snippets; matching is an arbitrary predicate on the text.
- Ops: the cache file and the spool directory are written without failure, and the process is not stopped inside a
  collection; a failed cache save would let the cache lag behind what was sent.
- Ops.SkipIsSafe: a body is compared as the value sent; the spool compacts and escapes the JSON it stores, so a
  replayed body can differ from the hashed one in bytes while it is the same JSON.
- Ops: the replay specification takes any order of files within one collection; `OpsCollector.Pending` gives the order
  by name.
- Ops: corrupt spool files, and other writers of the same spool.
- DeliveryService.IntentService.CreateIntent: the form of the target and of the key, and that they name one profile,
  are the parameter `valid`.
- Delivery: otherwise identities are validated before the model's operations; display-only and cancelled rows come
  from elsewhere and do not arise.
- Delivery: the reaper's count of failed intents counts attempts and is not related to rows changed by others.
- Guidance: the text of a section and the digest of a packet are functions the model does not look into.
- Migrations: the SQL of a migration is one atomic step with its row; version numbers that do not parse are refused
  before the model.
- Publish: git, assets, front matter and the formatting of dates; a new id is fresh.
- Publish: letters outside ASCII are lowered only as far as the result can be an ASCII letter.
- Vzdump: the patterns that recognise lines, archive names and sizes.
- Markdown: the digest behind the id of a title without letters or digits is a function; a text is a sequence of
  characters, so offsets count characters, and the size of a section in bytes is a function the model does not look
  into.
- Marker: which characters beyond ASCII are printable is left open; the theorems hold whichever they are.
- Snapraid, Restic and GitHub-ZIP reports, librarian ranking, gateway routing, artifacts, handoff and document
  services: easier members of the same kinds.
