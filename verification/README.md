# RSS-Lance: a verified model of the write-behind layer, the log pipeline and the migrations

RSS-Lance keeps feeds, articles, settings and logs in Lance tables, which are slow to write and not
always reachable. This project models the parts of the program that stand between the user and those
tables, and proves what they keep.

- **User writes.** A write goes to an in-memory overlay, to an ordered log of pending changes, and to
  local copies used offline (`Store.dfy`, `OfflineCache.dfy`). A flush collapses the log and carries it to
  Lance, marks first (`OfflineCache.Replay`), through a writer that groups updates by payload and builds
  their filters as text (`LanceWriter.dfy`, `Sql.dfy`), or through a Python process that may die between
  command and answer (`Sidecar.dfy`); `Writers.dfy` gives both one contract. `PendingLog.dfy` compares the three meanings of one log for all logs
  and tables; `Server.dfy` and `ServerRuns.dfy` follow them over whole runs of a server;
  `ReplayInterleaving.dfy` and `OverlayClearing.dfy` take a replay apart into its separately locked steps
  with writers in between.
- **Logs.** Entries wait in a buffer, are written to Lance or else to a local table, and are drained from
  there later (`LogBuffer.dfy`, `LogPipeline.dfy`); `LogBufferRuns.dfy`, `LogRuns.dfy` and `LogPlaces.dfy` say
  what every run keeps. `LogPage.dfy` has the merged page and the trimming, `InfraRing.dfy` the ring of storage events.
- **The query process.** `JsonFraming.dfy` cuts the output of the DuckDB process into JSON texts;
  `DuckProcess.dfy` pairs replies with requests through crashes, restarts and retries.
- **Migrations.** `CategoryGraph.dfy`, `OpmlImport.dfy`, `OpmlExport.dfy`, `OpmlOrder.dfy`, `OpmlVisits.dfy`
  and `OpmlRoundTrip.dfy` model the subscription list of OPML 2.0 in both directions, `FreshRssImport.dfy` the
  labels with slashes. A category whose parents lead to no root is never exported, nor are its feeds
  (`OpmlVisits.VisitedOnce`, `FeedsExported`).
- **The fetcher.** `FeedTiers.dfy` has the feed tiers and the batched cycle.

The classes have the fields of the program's objects, and each of their methods is proved against a
function on values (`Apply`, `Replayed`, `Step`, `Frames`, `Export`, …); the lemmas are about those functions.
A Lance table is a map or a sequence, an update is one step that works or fails, and a field `fails`
decides which; new ids, the clock and the fate of a process are parameters. The build with cgo and the
build over the DuckDB command line have the same algorithms; the table cites the first.

Where the code and its own documents differ, the model follows the code:

- `docs/offline.md:36` lets pending changes survive until they are flushed. A write whose row is inserted
  while a replay runs is deleted unread (`ReplayInterleaving.GapWriteIsLost`), and of the rows that no later
  write replaced exactly those are (`OnlyGapRowsAreLost`). After a replay that found the log empty nothing is
  deleted.
- `docs/offline.md:145` promises that the last write wins. A mark after an unflushed `unread` is undone by
  the flush (`ServerRuns.MarkAfterUnreadIsLost`); `PendingLog` has the exact condition for each pair of views.
- `server/db/cache.go:3-5` says that reads are always up to date. They are exactly while every event is
  orderly (`ServerRuns.RunsFollowWrites`); the exact conditions are `RestartShows` for a restart with pending
  rows, `FailedReconnectShows` for a reconnect whose flush stopped and `FailedMarkQueryShows` for a mark whose
  query fails, each with a run in which reads show the old state (`RestartHidesUnflushed`,
  `FailedReconnectFlushShows`, `FailedMarkQueryIsCached`). An article added by the fetcher after a pending mark
  of its feed is read by the replay (`AddExact`, `MarkReadsLaterArticle`), and a snapshot leaves stale copies of
  exactly the articles that change between its read and its write (`PageExact`, `StaleCopies`). Between the
  clear of the log and the clear of the overlay, pending stars, read states and marks are hidden as
  `OverlayClearing.HiddenStars`, `HiddenReads` and `HiddenMarks` say.
- `docs/logging.md:30` says that log entries are never lost. `LogRuns.StepLoses` and `KeptUnlessLost` have
  exactly the events that lose one: a flush while the log table is absent, which is reported done
  (`AbsentTableLoses`); the delete of a drain whose insert met an absent table (`AbsentTableDrainLoses`); and a
  flush to the cache or a delete that meets another entry with the same id (`SharedIdReplaces`,
  `DeleteTakesUnread`), as all entries written without an id have. Entries can also be stored twice, exactly
  when an append stores what Lance has or stores it twice (`LogPlaces.TwiceExactlyWhenRepeated`): the background
  drain and the drain of a reconnect can overlap (`OverlappingDrainsDuplicate`), and through the Python process
  an append can land although it is reported failed, or be repeated after a lost answer
  (`LandedFlushDuplicates`, `LanceSidecar.SidecarWriter.InsertLogs`).
- The query process pairs replies with statements by their order only. A second attempt that hangs leaves a
  reply unread, and until the process is replaced every answer is an earlier statement's (`QueryProcess.InStepExactly`,
  `BehindStays`, `UnparsedTextShifts`); and so does a start that is not clean (`StartExact`, `RestartExact`).
- `docs/logging.md:71` gives the ring of storage events 64 places; the code makes it with one hundred.
- After a failed flush the timer of the log buffer is not armed again (`LogBufferRuns.TimerOffExactly`).

## Model

| member | source | states |
|---|---|---|
| `PendingLog.ThreeMeanings` | server/db/offline_cache.go:1001-1061 | for every table, log and article: plain application, overlay and replay agree on star always, and on read unless a mark of the feed follows a last explicit `unread`; then plain is read, the replay is unread, and the overlay shows the opposite of what Lance stores |
| `PendingLog.OverlayAgreesWithReplay` | server/db/lance_cgo.go:869-928 | the overlay shows the read state the replay leaves if and only if it is not so that the article is unread in Lance, its last explicit operation is `unread`, and a mark of its feed comes later (condition by positions in the log); star always |
| `PendingLog.ReplayAgreesWithPlain` | server/db/offline_cache.go:1042-1061 | marks before explicit sets: the replayed article equals plain application if and only if no mark follows a last `unread` |
| `PendingLog.OverlayAgreesWithPlain` | server/db/lance_cgo.go:904-928 | the mark query ignores the overlay: what is shown equals plain application if and only if the article is not already read in Lance with a mark after a last `unread` |
| `PendingLog.StaleUnreadPositions` | server/db/offline_cache.go:1012-1040 | the recursive scan of the log and the condition by positions are the same |
| `PendingLog.LastReadPosition` | server/db/offline_cache.go:1018-1025 | the collapsed read state is the value of the last explicit row of the article, by position |
| `PendingLog.SettingsReplayIsPlain` | server/db/offline_cache.go:1062-1072 | collapsing settings to the last value per key is plain application |
| `PendingLog.ReplayAbsorbs` | server/db/offline_cache.go:1042-1077 | a replay stopped after any marks, override groups or settings groups, then any further operations, then a complete replay leaves exactly what one complete replay of the longer log leaves |
| `PendingLog.RetriesAbsorb` | server/db/lance_cgo.go:384-402 | the same for any number of failed attempts with writes arriving between them |
| `PendingLog.MarksInOrder` | server/db/offline_cache.go:1034-1047 | the marks are replayed in the order of the log, each as often as it was made |
| `PendingLog.CompleteReplay` | server/db/offline_cache.go:1042-1072 | a replay that has passed every mark, every explicit article and every put key is the complete replay |
| `OfflineCaching.OfflineCache.AddPendingChange` | server/db/offline_cache.go:687-700 | the row gets the next id at the end of the log; ids stay increasing and settings stay unique |
| `OfflineCaching.OfflineCache.AddPendingSettingChange` | server/db/offline_cache.go:703-721 | deletes the pending row of the key and appends the new one |
| `OfflineCaching.OfflineCache.UpdateCachedArticle` | server/db/offline_cache.go:724-746 | changes the given fields of that article only, and only if it is cached |
| `OfflineCaching.OfflineCache.MarkAllReadCached` | server/db/offline_cache.go:749-760 | is plain application of the mark to the cached copies |
| `OfflineCaching.OfflineCache.UpdateCachedSetting` | server/db/offline_cache.go:763-779 | both copies of the setting get the value |
| `OfflineCaching.OfflineCache.SnapshotArticles` | server/db/offline_cache.go:317-354 | upserts: snapshotted articles win, the others stay |
| `OfflineCaching.OfflineCache.SnapshotSettings` | server/db/offline_cache.go:441-482 | replaces both copies of the settings |
| `OfflineCaching.OfflineCache.Replay` | server/db/offline_cache.go:1001-1089 | on success Lance is the complete replay of the log and the log is empty; if there was anything to replay and the eviction succeeds, an article stays cached if and only if it was cached and unread, and no cached row changes; on failure Lance is a partial replay in the order marks, overrides, settings, the log is kept, and an update, an answer of the Python process or the clear has failed; for the writer of either build |
| `OfflineCaching.Carry` | server/db/offline_cache.go:1042-1072 | marks, overrides, settings, in this order, each stage only after the one before it |
| `OfflineCaching.ReplayMarks` | server/db/offline_cache.go:1042-1047 | stops at the first failing mark, with the earlier marks applied and perhaps the failing one |
| `OfflineCaching.ReplayOverrides` | server/db/offline_cache.go:1049-1061 | a failure leaves whole payload groups applied |
| `OfflineCaching.ReplaySettings` | server/db/offline_cache.go:1063-1072 | the last value of each key is written to the keys that exist |
| `OfflineCaching.Collapse` | server/db/offline_cache.go:1012-1040 | the collapsed states are the last explicit read and star of each article, the marks in order, the setting rows in order |
| `OfflineCaching.SettingsMap` | server/db/offline_cache.go:1064-1067 | later setting rows of a key win |
| `OfflineCaching.LoggedReplays` | server/db/offline_cache.go:703-721 | deleting the earlier setting row of the key does not change what the log replays to |
| `OfflineCaching.LoggedKeeps` | server/db/offline_cache.go:703-721 | no two setting rows for one key, ids increasing |
| `ArticleStore.WriteCache.SetRead` | server/db/cache.go:44-56 | sets the read override and keeps the star override of the article |
| `ArticleStore.WriteCache.SetStarred` | server/db/cache.go:59-71 | sets the star override and keeps the read override |
| `ArticleStore.WriteCache.Clear` | server/db/cache.go:84-88 | the overlay is empty |
| `ArticleStore.Store.SetArticleRead` | server/db/lance_cgo.go:869-885 | overlay, log and cached copy change together as the write step of the server says |
| `ArticleStore.Store.SetArticleStarred` | server/db/lance_cgo.go:887-902 | the same for star |
| `ArticleStore.Store.MarkAllRead` | server/db/lance_cgo.go:904-928 | the overlay marks what Lance without the overlay has unread; a failing query leaves the overlay alone, and the log and the copies change all the same |
| `ArticleStore.Store.PutSetting` | server/db/lance_cgo.go:1034-1042 | memory, cache file and log get the value |
| `ArticleStore.Store.GetArticle` | server/db/lance_cgo.go:762-806 | offline exactly the cached copy; online exactly the articles of Lance, each field overridden where an override is pending; a failing query switches to offline |
| `ArticleStore.Store.GetSettings` | server/db/lance_cgo.go:966-1001 | online and reachable, a key is returned if and only if it is remembered or in Lance, with the remembered value if there is one and Lance's otherwise; offline or after a failing query exactly the remembered ones |
| `ArticleStore.Store.GetSetting` | server/db/lance_cgo.go:1003-1032 | the remembered value, or else Lance's when online and reachable, or else none; agrees with GetSettings on every key, and asks Lance only for a key that is not remembered |
| `ArticleStore.Store.Snapshot` | server/db/offline_cache.go:883-989 | an undisturbed snapshot copies exactly the shown articles of the window and leaves the other copies, and then replaces the settings by the shown ones; it stops at the first part that fails; disturbed ones are in ServerRuns.PageExact and SnapshotOverwrites |
| `ArticleStore.Store.FlushPendingChanges` | server/db/lance_cgo.go:384-402 | a complete flush or one stopped at a given place; it stops only when an update, an answer or the clear fails; the overlay is cleared only after a replay of something |
| `ArticleStore.Store.HandleReconnect` | server/db/lance_cgo.go:406-427 | goes online whatever became of the flush |
| `ArticleStore.Store.GoOffline` | server/db/lance_cgo.go:240-255 | changes the mode and nothing else |
| `ServerRuns.RunsFollowWrites` | server/db/lance_cgo.go:384-427 | over every run of a fresh server, with articles that the fetcher adds and snapshots taken apart into reads and writes: after each event the next complete flush leaves the plain state in Lance, the cached copies are the plain state and online reads show it, if and only if each event is orderly: a mark comes when no article of its feed has `unread` as last pending state, and with a working query, offline, or when all of the feed is shown read already; nothing pending would change an added article; no article a snapshot writes has changed since it was read; a flush that stops stops harmlessly; a restart finds nothing pending that changes anything |
| `ServerRuns.RightExactlyWhenOrderly` | server/db/lance_cgo.go:869-928 | the same from any consistent state |
| `ServerRuns.OrderlyRunsShowWrites` | server/db/lance_cgo.go:384-427 | so at the end of an orderly run every cached copy and every shown article is the plain state, and the next complete flush leaves exactly it in Lance |
| `ServerRuns.OfflineShowsUnread` | server/db/offline_cache.go:846-850 | at the end of an orderly run, after a complete flush of something and the loss of Lance, the articles shown are exactly the cached ones that the writes leave unread, as the writes leave them; all cached ones when the eviction fails |
| `ServerRuns.WriteExact` | server/db/lance_cgo.go:869-928 | after a write everything is right if and only if the write is orderly |
| `ServerRuns.AddExact` | server/db/lance_cgo.go:384-402 | after the fetcher has added an article everything is right if and only if nothing pending, such as a mark of its feed, changes it |
| `ServerRuns.PageExact` | server/db/offline_cache.go:883-951 | after a snapshot has written the articles it read, everything is right if and only if none of them has been overtaken since |
| `ServerRuns.StaleCopies` | server/db/offline_cache.go:883-951 | one snapshot with any orderly events between its read and its write: the copy of an article goes stale if and only if those events changed its plain state |
| `ServerRuns.FailedMarkQueryShows` | server/db/lance_cgo.go:911-921 | online, from any consistent state, a mark whose query fails is shown if and only if every article of its feed was read already |
| `ServerRuns.FailedReconnectShows` | server/db/lance_cgo.go:412-419 | after a reconnect whose flush stopped, reads show the plain state if and only if, for each article unread in Lance, not overlaid and of a marked feed, the mark was applied, or a later pending `unread` was applied with it or not overtaken by it |
| `ServerRuns.RestartShows` | server/db/lance_cgo.go:63-157 | after a restart, reads show the plain state if and only if the pending rows repeat what Lance has |
| `ServerRuns.StoppedExact` | server/db/offline_cache.go:1042-1072 | a flush stopped anywhere leaves everything right if and only if it stops harmlessly |
| `ServerRuns.MarkAfterUnreadIsLost` | server/db/offline_cache.go:1042-1061 | a run in which a mark after an unflushed `unread` is undone by the flush |
| `ServerRuns.FailedMarkQueryIsCached` | server/db/lance_cgo.go:911-921 | a run in which a mark whose query fails online is undone in the cache by the next snapshot; FailedMarkQueryShows has the exact condition |
| `ServerRuns.FailedReconnectFlushShows` | server/db/lance_cgo.go:412-419 | a run in which online reads show the old state after a failed reconnect flush; FailedReconnectShows has the exact condition |
| `ServerRuns.RestartHidesUnflushed` | server/db/cache.go:37-41 | a run in which a restart hides an unflushed write; RestartShows has the exact condition |
| `ServerRuns.MarkReadsLaterArticle` | server/db/lance_writer.go:262-273 | a run in which a replayed mark also reads an article that the fetcher added after the mark; AddExact has the exact condition |
| `ServerRuns.LastPutIsReturned` | server/db/lance_cgo.go:966-1042 | over every run of one process with undisturbed settings snapshots, both getters return the last value put, online or offline |
| `ServerRuns.SnapshotOverwrites` | server/db/offline_cache.go:971-978 | a put between the read and the write of a settings snapshot survives in memory if and only if the snapshot had read that same value |
| `ServerRuns.UnputReadsLance` | server/db/lance_cgo.go:966-1032 | over every run, restarts, snapshots and failures included: a setting never put, and of which nothing but Lance's value is remembered, reads back online exactly as Lance has it |
| `ServerRuns.RestartForgetsPut` | server/db/offline_cache.go:75-90 | after a restart exactly Lance's settings are shown, whatever is pending |
| `ServerRuns.LogKeepsOnePutPerKey` | server/db/offline_cache.go:703-721 | over every run the log has at most one setting row per key |
| `ServerRuns.FlushedSettingNeedsRow` | server/db/lance_writer.go:197-230 | a flush updates existing settings and creates none |
| `ReplayInterleaving.OnlyGapRowsAreLost` | server/db/offline_cache.go:793-841 | writers interleaved freely with the steps of replays: every row is pending, replayed, replaced, or was inserted between the read and the clear of a completed replay; of the rows not replaced exactly those are lost |
| `ReplayInterleaving.LanceIsTheCompletedReplays` | server/db/offline_cache.go:1001-1077 | with nothing pending Lance is exactly the completed replays in order; leftovers of failed replays change nothing after the next completed one |
| `ReplayInterleaving.FoldedIsPlain` | server/db/offline_cache.go:1042-1061 | the completed replays equal plain application of their rows: star always, and read if and only if no batch has a mark after a last `unread` of the article without a later batch that has an explicit read state of it or a mark of its feed |
| `ReplayInterleaving.FoldedSettingsArePlain` | server/db/offline_cache.go:1062-1072 | settings always |
| `ReplayInterleaving.GapWriteIsLost` | server/db/offline_cache.go:835-841 | a run in which a write inserted during the replay is deleted unread |
| `OverlayClearing.ShownExactly` | server/db/lance_cgo.go:388-402 | over every interleaving: each article is shown with the last read state that the writes since the shown point put into the overlay for it, marks included, and as Lance has it when there is none |
| `OverlayClearing.HiddenStars` | server/db/lance_cgo.go:388-402 | over every interleaving: the last pending star of an article is shown if and only if its row was not inserted between the clear of the log and the clear of the overlay; if it was, Lance is shown |
| `OverlayClearing.HiddenReads` | server/db/lance_cgo.go:388-402 | the last pending read state of an article is shown if its row is outside that window and no later write, a mark that found the article unread included, has replaced it; if it is inside, what a later visible write put there is shown, or else Lance |
| `OverlayClearing.HiddenMarks` | server/db/lance_cgo.go:388-402 | a pending mark outside the window shows each article its query found unread as read until a later write; one inside shows a later visible write or Lance |
| `OverlayClearing.HiddenWrite` | server/db/lance_cgo.go:388-402 | a run in which a pending write is hidden |
| `OverlayClearing.HiddenMark` | server/db/lance_cgo.go:388-398 | a run in which a pending mark is hidden |
| `Sql.ReadQuoted` | server/db/store.go:250-260 | a quoted string is read back as itself, whatever quotes it contains |
| `Sql.EscapeSQ` | server/db/store.go:250-260 | the loop computes the doubling of quotes that ReadQuoted undoes |
| `Sql.JoinStrings` | server/db/lance_writer.go:343-359 | the buffer loop gives the strings with the separator between them |
| `Sql.ReadJoined` | server/db/lance_writer.go:331-340 | a joined list of quoted ids is read back as the ids |
| `Sql.QuotedList` | server/db/offline_cache.go:249-257 | the id list of a statement is read back as exactly those ids |
| `Sql.MembershipFilter` | server/db/lance_writer.go:331-340 | the filter text, read back as SQL, denotes exactly the group, for one id and for many |
| `Sql.UnreadFilter` | server/db/lance_writer.go:262-273 | the filter text denotes the unread articles of the feed |
| `LanceWriting.LanceWriter.FlushOverrides` | server/db/lance_writer.go:277-328 | one update per distinct payload in any order equals applying each override on its own; a failure leaves whole groups and happens only when an update fails |
| `LanceWriting.LanceWriter.PutSettingsBatch` | server/db/lance_writer.go:197-232 | one update per distinct value in any order equals setting each existing key on its own |
| `LanceWriting.LanceWriter.MarkAllRead` | server/db/lance_writer.go:262-273 | exactly the unread articles of the feed become read |
| `LanceSidecar.EscapeIsEscaped` | tools/lance_writer.py:39-46 | leaving plain ids unescaped changes nothing |
| `LanceSidecar.Membership` | tools/lance_writer.py:228-240 | the second implementation of the filter denotes exactly the group too |
| `LanceSidecar.Sidecar.CmdFlushOverrides` | tools/lance_writer.py:210-241 | grouping with empty overrides left out equals applying each override on its own, however far the process gets |
| `LanceSidecar.Sidecar.CmdPutSettingsBatch` | tools/lance_writer.py:129-146 | grouping by value equals setting each existing key on its own |
| `LanceSidecar.Sidecar.CmdMarkAllRead` | tools/lance_writer.py:201-208 | exactly the unread articles of the feed become read |
| `LanceSidecar.Sidecar.CmdInsertLogs` | tools/lance_writer.py:264-295 | one append, whether or not the answer gets back |
| `LanceSidecar.TwiceIsOnce` | server/db/lance_process.go:228-242 | carrying a command out in two parts is carrying it out once on both |
| `LanceSidecar.SidecarWriter.SendCmd` | server/db/lance_process.go:220-249 | through any death, restart and retry: success means the whole command as if once, failure a part of it; failure needs a missing answer or a failed update |
| `LanceSidecar.SidecarWriter.FlushOverrides` | server/db/lance_process.go:471-494 | the conversion loses nothing, and a failure leaves whole payload groups: the contract of the native writer |
| `LanceSidecar.SidecarWriter.MarkAllRead` | server/db/lance_process.go:462-468 | the mark is carried out on success, and may be on failure |
| `LanceSidecar.SidecarWriter.PutSettingsBatch` | server/db/lance_process.go:401-407 | the contract of the native writer |
| `LanceSidecar.SidecarWriter.InsertLogs` | server/db/lance_process.go:532-561 | entries are stored once for each attempt that reaches the table, so twice exactly when only the first answer is lost; an absent table is a success |
| `Writers.Writer.MarkAllRead` | server/db/lance_process.go:462-468 | one contract for both builds: a failing mark may have been carried out |
| `Writers.Writer.FlushOverrides` | server/db/lance_process.go:471-494 | one contract for both builds: each override on its own, whole groups on failure |
| `Writers.Writer.PutSettingsBatch` | server/db/lance_process.go:401-407 | one contract for both builds |
| `QueryProcess.EveryQueryGetsItsOwnRows` | server/db/duckdb_process.go:305-344 | in every run of queries, crashes, timeouts, texts that do not parse, restarts and upgrades, with no row equal to the sentinel, clean starts and no second attempt that hangs: a successful query returns the engine's answer to its own statement, or none when the engine rejects it, and nothing is unread afterwards if and only if its own second attempt does not hang |
| `QueryProcess.InStepExactly` | server/db/duckdb_process.go:305-344 | over every run with clean starts: nothing is unread of a process believed alive after each event if and only if no query has a second attempt that hangs, that is a text that does not parse or no answer in time from a living process |
| `QueryProcess.QueryExact` | server/db/duckdb_process.go:305-344 | one query over clean starts: own rows, and in step afterwards if and only if its last attempt is not a second one that hangs |
| `QueryProcess.ExchangeExact` | server/db/duckdb_process.go:390-433 | one statement with its sentinel: everything is read if and only if the answer parses and arrives in time or the process dies; the result is the statement's own |
| `QueryProcess.BehindStays` | server/db/duckdb_process.go:390-433 | a living process that is behind stays behind, and every answer taken from it was printed for an earlier statement |
| `QueryProcess.UpgradeRestarts` | server/db/duckdb_process.go:495-537 | whatever the process was doing, a graceful restart, and a start after a stop for an upgrade during which every query fails, leave a new process with nothing unread if its start works |
| `QueryProcess.QuerySucceeds` | server/db/duckdb_process.go:305-344 | with working starts a query succeeds if and only if its first attempt does or its second one does not hang |
| `QueryProcess.StartExact` | server/db/duckdb_process.go:101-192 | after a start the process owes nothing if the start is clean, and is behind if it is not: clean means that the process dies on the way, or no late reply passes for the answer of the bootstrap and, if the bootstrap is answered, both version queries are answered in time with text that parses |
| `QueryProcess.RestartExact` | server/db/duckdb_process.go:436-465 | after any run a restart leaves nothing unread if and only if its start is clean; if it is not, the next statement is answered, if at all, by what was printed for an earlier one |
| `QueryProcess.LeakFailsStart` | server/db/duckdb_process.go:122-160 | a late reply of the old reader in the emptied channel fails the start unless it passes for the answer of the bootstrap |
| `QueryProcess.StartSucceeds` | server/db/duckdb_process.go:145-160 | without a late reply a start succeeds if and only if the answer to the bootstrap comes in time and its first row names the extension |
| `QueryProcess.UnparsedTextShifts` | server/db/duckdb_process.go:308-340 | a run in which two texts that do not parse shift every later answer by one statement |
| `QueryProcess.LateVersionIsTaken` | server/db/duckdb_process.go:162-180 | a run in which a version query that times out during the start answers the first query |
| `QueryProcess.LateReplyIsMistaken` | server/db/duckdb_process.go:120-124 | a run in which a late reply survives the emptying of the channel and the next query is answered by the bootstrap |
| `QueryProcess.DuckDBProcess.SendAndRead` | server/db/duckdb_process.go:390-433 | the method is the exchange that the theorems are about |
| `QueryProcess.DuckDBProcess.Start` | server/db/duckdb_process.go:101-192 | empties the channel; the bootstrap must name the extension in time; the version queries may fail unnoticed |
| `QueryProcess.DuckDBProcess.Restart` | server/db/duckdb_process.go:436-465 | does nothing to a process believed alive |
| `QueryProcess.DuckDBProcess.Query` | server/db/duckdb_process.go:305-344 | restart before, one retry after a restart |
| `QueryProcess.DuckDBProcess.GracefulRestart` | server/db/duckdb_process.go:495-507 | clears the upgrade stop and restarts |
| `QueryProcess.DuckDBProcess.StopForUpgrade` | server/db/duckdb_process.go:510-522 | kills the process and refuses queries |
| `QueryProcess.DuckDBProcess.StartAfterUpgrade` | server/db/duckdb_process.go:525-537 | starts only a process that was stopped |
| `JsonFraming.ReadLoop` | server/db/duckdb_process.go:196-262 | the line loop hands on what the framing function says |
| `JsonFraming.ScanLine` | server/db/duckdb_process.go:205-230 | the character loop over depth, string and escape state |
| `JsonFraming.FramingUndoesPrinting` | server/db/duckdb_process.go:196-262 | for any framed texts, each ended by a newline and spread over lines in any way, the reader hands on exactly those texts in order; a text cut off by the end is handed on last and never accepted |
| `JsonFraming.ReaderReturnsValues` | server/db/duckdb_process.go:196-262 | the same for JSON arrays (sections 2 to 7 of RFC 8259) with any white space, nesting, quotes, brackets and backslashes |
| `JsonFraming.ArrayFramed` | server/db/duckdb_process.go:218-246 | a printed array closes its first bracket at its end and not before, whatever its strings contain |
| `JsonFraming.CutTrims` | server/db/duckdb_process.go:249-261 | a proper prefix of a framed text is neither empty nor accepted by the parser |
| `JsonFraming.TrimExact` | server/db/duckdb_process.go:249-261 | what is cut off a text at both ends is white space, and what is kept has none there |
| `JsonFraming.BlankLinesSkipped` | server/db/duckdb_process.go:249-261 | white space up to the end of a line is read and not handed on |
| `JsonFraming.QuirkFramed` | server/db/duckdb_process.go:266-283 | the malformed text for zero rows is framed as well |
| `LogBuffering.LogBuffer.Add` | server/db/logbuffer.go:65-82 | accepted unless closed; asks for a flush at the threshold |
| `LogBuffering.LogBuffer.StartTimerLocked` | server/db/logbuffer.go:85-92 | arms the timer when the first entry arrives |
| `LogBuffering.LogBuffer.TakeBatch` | server/db/logbuffer.go:95-112 | empties the buffer and stops the timer |
| `LogBuffering.LogBuffer.PutBack` | server/db/logbuffer.go:113-136 | the failed batch goes in front, and of all that is then there exactly the newest up to the cap are kept |
| `LogBuffering.LogBuffer.Close` | server/db/logbuffer.go:142-152 | the second close does nothing |
| `LogBufferRuns.BufferHoldsSuffix` | server/db/logbuffer.go:65-139 | with one flush at a time, over every run: the buffer is, in order, a suffix of the unflushed entries; its length at rest is bounded; until a flush fails nothing is dropped and the buffer is non-empty if and only if the timer is armed |
| `LogBufferRuns.TimerOffExactly` | server/db/logbuffer.go:113-136 | entries wait without a timer if and only if the last flush to start or fail is a failure during which nothing was accepted |
| `LogBufferRuns.WrittenBatch` | server/db/logbuffer.go:95-139 | writing a batch from the middle takes exactly the batch out of the unflushed entries |
| `LogPipeline.CachedLogs.InsertLogs` | server/db/offline_cache.go:185-216 | all entries or none, later ones replacing earlier ones of the same id |
| `LogPipeline.CachedLogs.DrainLogs` | server/db/offline_cache.go:219-241 | the oldest entries by creation time, oldest first, each from the table; entries without a time come last |
| `LogPipeline.CachedLogs.DeleteLogs` | server/db/offline_cache.go:244-260 | removes exactly the given ids |
| `LogPipeline.LogStore.InsertLogs` | server/db/lance_writer.go:572-580 | success without writing when the table is absent |
| `LogPipeline.LogStore.FlushLogs3Tier` | server/db/lance_cgo.go:433-473 | Lance, then the cache, then the caller: the entries reach exactly one of them |
| `LogPipeline.LogStore.Flush` | server/db/logbuffer.go:95-139 | a whole flush through the tiers |
| `LogPipeline.LogStore.DrainCachedLogs` | server/db/lance_cgo.go:492-527 | drained entries leave the cache only after Lance has taken them |
| `LogRuns.KeptUnlessLost` | server/db/lance_cgo.go:433-527 | over every run of adds, overlapping flushes, tier failures, overlapping drains and appends that land although they are reported failed, whatever the ids and with a table that comes and goes: an accepted entry stays somewhere throughout if and only if no event loses it |
| `LogRuns.StepLoses` | server/db/lance_cgo.go:433-527 | an event loses an entry exactly when it is a flush reported done that stored nothing, a flush to the cache with a later entry of the same id, or the delete of a drained id, and the entry is nowhere else |
| `LogRuns.CacheAfterFlush` | server/db/offline_cache.go:185-216 | after a diverted batch, whatever was cached: an entry is cached if and only if it is the last of the batch with its id, or was cached and the batch has none |
| `LogRuns.CacheAfterDelete` | server/db/offline_cache.go:244-260 | the delete of a drain removes exactly the cached entries whose ids were drained, read or not |
| `LogRuns.DivertedBatchKept` | server/db/offline_cache.go:155-156 | a batch diverted into any table keeps all its entries and all rows there if and only if no two different ones share an id |
| `LogRuns.NoEntryDisappears` | server/db/lance_cgo.go:433-527 | while what is reported done is done, over every run: every accepted entry whose id no different accepted entry has is in the buffer, in flight, cached, in Lance, or was dropped by the cap |
| `LogRuns.SharedIdReplaces` | server/db/offline_cache.go:1106-1111 | of any two different entries with one id, as entries without an id are, diverted one after the other, the first is lost |
| `LogRuns.DeleteTakesUnread` | server/db/lance_cgo.go:492-527 | a drain that has read the first of them deletes the second, which it never read |
| `LogRuns.AbsentTableLoses` | server/db/lance_writer.go:573-575 | a flush while there is no table reports success and the entry is nowhere |
| `LogRuns.AbsentTableDrainLoses` | server/db/lance_cgo.go:492-527 | a drain while there is no table inserts nothing, deletes the entry, and the entry is nowhere although no other has its id |
| `LogPlaces.InMemoryOrStored` | server/db/lance_cgo.go:433-527 | over every run: an entry accepted once under an id of its own is in memory, dropped or cached at most once; it is never in memory beside Lance if and only if no flush puts it back although its append has landed; and then, while what is reported done is done, it is in memory or dropped exactly once and not stored, or stored and not in memory |
| `LogPlaces.TwiceExactlyWhenRepeated` | server/db/lance_cgo.go:433-527 | over every run, appends that land although they are reported failed or that a retry repeats included: Lance never has such an entry twice if and only if no append of a flush or drain stores it while Lance has it, or stores it twice |
| `LogPlaces.LanceHasEachOnce` | server/db/lance_cgo.go:492-527 | the same for every entry of a run with distinct ids |
| `LogPlaces.EveryEntryInOnePlace` | server/db/lance_cgo.go:433-527 | while appends do what is reported, no delete fails and drains do not overlap, no entry is repeated, and each is in exactly one place exactly once |
| `LogPlaces.OverlappingDrainsDuplicate` | server/db/lance_cgo.go:406-417 | two drains can read one entry before either deletes it: Lance has it twice though no delete failed |
| `LogPlaces.LandedFlushDuplicates` | server/db/lance_process.go:220-249 | a flush whose append landed though it was reported failed puts the entry back, and the next flush stores it again |
| `LogPaging.MergedPageExact` | server/db/lance_cgo.go:1299-1345 | the newest offset+limit entries of Lance with all cached ones, sorted and cut, have the timestamps of the page of the sorted union however ties fall, and are its entries when timestamps are distinct |
| `LogPaging.LogTables.GetLogs` | server/db/lance_cgo.go:1209-1346 | every entry of the page has the level, category and service asked for and, unless it is cached, lies inside the time bounds; the page is the part from the offset on, at most the limit or one hundred, of the selected entries from the newest to the oldest, each as often as it is stored, and the total counts these |
| `LogPaging.MergedResult` | server/db/lance_cgo.go:1275-1345 | whichever way ties fall in the two sorts, the page cut from the newest entries of Lance merged with the cached ones is cut from all selected rows in some order from the newest to the oldest |
| `LogPaging.PageShows` | server/db/lance_cgo.go:1253-1265 | when everything fits on the first page, it has exactly the selected entries, each as often as it is stored |
| `LogPaging.MergedAnswers` | server/db/lance_cgo.go:1318-1345 | whatever the order of ties, the cut of the merged sort answers for the union of Lance and cache |
| `LogPaging.TotalExact` | server/db/offline_cache.go:275-289 | the total is exact if and only if no wanted cached row lies outside the time bounds |
| `LogPaging.PageOfUnion` | server/db/offline_cache.go:275-289 | when they all lie inside, the answer is that of one table holding both |
| `LogPaging.TrimKeepsNewest` | server/db/lance_cgo.go:1348-1374 | keeps exactly what is not older than the maxEntries-th newest; keeps at least maxEntries, and exactly that many if and only if all beyond are older; nothing kept is older than anything deleted |
| `LogPaging.LogTables.TrimLogs` | server/db/lance_cgo.go:1348-1374 | the deletion, and the error when the cutoff has no timestamp |
| `LogPaging.LogTables.TrimFetcherLogs` | fetcher/db.py:537-570 | the same deletion; the reported number is what lies beyond the limit |
| `LogPaging.SortsAgree` | server/db/lance_cgo.go:1318-1326 | two sorts of the same entries have the same timestamp at every position |
| `InfraRinging.InfraRing.constructor` | server/db/infra_events.go:30-38 | a non-positive capacity becomes one hundred |
| `InfraRinging.InfraRing.Add` | server/db/infra_events.go:41-55 | for any capacity the array holds the last events added since the last drain |
| `InfraRinging.InfraRing.Drain` | server/db/infra_events.go:58-92 | returns exactly the last min(n, cap) of the n events added since the previous drain, oldest first, and empties the ring |
| `OpmlImport.WalkListsParents` | migrate/import_opml.py:51-72 | for any outline tree every folder is listed after its parent |
| `OpmlImport.ParseOpml` | migrate/import_opml.py:75-100 | the rows are the first folder of each name and all feeds, in order |
| `OpmlImport.FirstFoldersAre` | migrate/import_opml.py:88-98 | the category rows are made of the first folder of each name, in the order of the folders |
| `OpmlImport.FeedsOfParts` | migrate/import_opml.py:99-100 | every feed gives its row, in the order of the feeds |
| `OpmlImport.TitleBeforeText` | migrate/import_opml.py:56 | a title hides the text, and a text stands in for a missing title |
| `OpmlImport.NamelessIsTransparent` | migrate/import_opml.py:58-72 | a folder without a name is as good as what is in it, and what is inside a feed is not read |
| `OpmlImport.StripExact` | migrate/import_opml.py:56 | what is cut off at both ends is white space, and what is kept has none there |
| `OpmlImport.FoldersFirst` | migrate/import_opml.py:88-100 | the rows have distinct names, parents first |
| `OpmlImport.Db.WriteCategories` | migrate/common.py:154-200 | the loop adds each row with a new name under the id of its parent's name; a forest stays a forest, and every name that is returned has its category |
| `OpmlImport.Db.LoadExisting` | migrate/common.py:120-126 | the ids by name; a later category of the same name wins |
| `OpmlImport.Db.WriteFeeds` | migrate/common.py:203-261 | adds the first row of each address that is not there yet |
| `OpmlImport.BatchIsNew` | migrate/common.py:225-255 | exactly the addresses that are not there yet are added, each from its first row, in order, under the category of the given name |
| `OpmlImport.LastOfName` | migrate/common.py:120-126 | of several categories with one name the last one keeps it |
| `OpmlImport.WritingKeepsForest` | migrate/common.py:181-200 | for any rows in any order, writing to a forest keeps it a forest: acyclic, with every parent present |
| `OpmlImport.RowsWritten` | migrate/common.py:171-200 | for any table and any rows in any order: the names known afterwards are those of the table and of the rows; a row is written if and only if its name is not known by then, and it then stands under the category with its parent's name if that is known by then, and otherwise is a root |
| `OpmlImport.ParentsFound` | migrate/common.py:171-200 | rows with parents first resolve beside whatever categories are there: every row and parent has an id, every written row stands under its parent, and one without a parent is a root if and only if no category without a name is known by then |
| `OpmlImport.ImportResolves` | migrate/import_opml.py:51-100 | so any outline tree imported into any table resolves |
| `OpmlImport.ParentsResolve` | migrate/common.py:181-200 | distinct names with parents first, written to an empty table: the table is the rows, in order, each under its parent |
| `CategoryGraph.DepthBound` | migrate/export_opml.py:95-111 | no chain of parents is longer than the table, which bounds the recursion |
| `CategoryGraph.ForestGrows` | migrate/common.py:186-200 | a new row under an existing parent keeps the forest |
| `OpmlExport.Exporter.IndexCategories` | migrate/export_opml.py:49-63 | children by parent and roots, in table order |
| `OpmlExport.Exporter.IndexFeeds` | migrate/export_opml.py:65-74 | feeds by category; those of no known category apart |
| `OpmlExport.Exporter.AddFeeds` | migrate/export_opml.py:84-93 | the outlines of the feeds by title |
| `OpmlExport.Exporter.AddCategory` | migrate/export_opml.py:95-111 | terminates for every category that leads to a root, and builds its folder: child folders by order, then feeds by title |
| `OpmlExport.Exporter.BuildOpml` | migrate/export_opml.py:42-117 | builds the exported body for any table with unique ids |
| `OpmlExport.ChildrenAre` | migrate/export_opml.py:95-101 | the children of a category, each exactly once |
| `OpmlVisits.VisitedOnce` | migrate/export_opml.py:95-111 | for any table with unique ids: the recursion visits a category exactly once if its parents lead to a root, and otherwise never |
| `OpmlVisits.ForestVisitedOnce` | migrate/export_opml.py:95-111 | in a forest every category is visited exactly once |
| `OpmlVisits.ExportWrites` | migrate/export_opml.py:42-117 | the body holds, as multisets, the folders and the feeds of the visited categories and the feeds of no known category, and nothing else |
| `OpmlVisits.FeedsExported` | migrate/export_opml.py:65-117 | for any table with unique ids: each feed is exported as often as it is in the table, except that the feeds of a category that leads to no root are never exported |
| `OpmlOrder.ExportInOrder` | migrate/export_opml.py:62-116 | for every table with unique ids, in every place of the exported tree: first the folders by sort order and then name, then the feeds by title, and ties in table order |
| `OpmlOrder.TextOrder` | migrate/export_opml.py:62 | the first difference decides between two texts, and a text comes before its extensions |
| `OpmlOrder.TextTotal` | migrate/export_opml.py:62 | of any two texts one comes first, and both only when they are equal |
| `OpmlOrder.TextTransitive` | migrate/export_opml.py:62 | the order of texts is transitive |
| `OpmlOrder.SortedInOrder` | migrate/export_opml.py:106 | the sort by a total order is in order |
| `OpmlOrder.SortedStable` | migrate/export_opml.py:106 | elements that tie keep their order |
| `OpmlRoundTrip.ExportListsOnce` | migrate/export_opml.py:95-117 | walking the export of a well-formed list yields every category under its parent's name and every feed under its category's, each exactly once, and nothing else |
| `OpmlRoundTrip.CategoriesReturn` | migrate/common.py:154-200 | importing the categories of the export gives a forest of the same size with every category under the same parent |
| `OpmlRoundTrip.FeedsReturn` | migrate/common.py:203-261 | the import adds exactly as many feeds as there were |
| `OpmlRoundTrip.FeedReturns` | migrate/common.py:203-261 | every feed comes back with its address and site, under the category of the same name |
| `OpmlRoundTrip.RoundTrip` | migrate/export_opml.py:42-117 | export, then import into an empty database, rebuilds the forest and the place of every feed, each exactly once, up to ids, order and trimmed titles |
| `FreshRssImport.BuildCategories` | migrate/import_freshrss.py:178-214 | for any labels: every row comes after the row of the path above it, no name occurs twice, the path of every label is listed, and every row is a path down some label |
| `FreshRssImport.LabelNameExact` | migrate/import_freshrss.py:164-175 | a label is what follows the first marker of a tag, and a tag without the marker is none |
| `FreshRssImport.AddPaths` | migrate/import_freshrss.py:199-212 | every prefix of a label becomes a row unless it is there |
| `FreshRssImport.PathParent` | migrate/import_freshrss.py:199-212 | the path of all but the last piece is the parent of the path |
| `FreshRssImport.PartsOfPath` | migrate/import_freshrss.py:199-200 | splitting a path gives back its pieces |
| `FreshRssImport.AllParentsResolve` | migrate/import_freshrss.py:178-214 | so all parents resolve beside whatever categories are there; a row without a parent is a root if and only if none of those has an empty name; an empty table becomes the rows |
| `FeedTiers.ComputeNewTier` | fetcher/main.py:74-106 | the loop over the tiers is the decision that the lemmas are about, with the failing look-up of an unknown tier |
| `FeedTiers.OneTierAtATime` | fetcher/main.py:98-106 | no quiet fetch skips a tier if and only if the thresholds never decrease |
| `FeedTiers.QuietStep` | fetcher/main.py:98-106 | then a quiet fetch moves a feed one tier down exactly when its own tier's threshold is reached |
| `FeedTiers.QuietFetchExact` | fetcher/main.py:91-106 | a fetch without new articles, by the clock: which rows stay as they are, and to which tier and interval a feed moves by the days since its last article, whatever the thresholds |
| `FeedTiers.NewArticlesActivate` | fetcher/main.py:84-89 | a fetch with new articles makes a feed active, with the interval of that tier, unless it is active already |
| `FeedTiers.QuietDescent` | fetcher/main.py:170-206 | in a run without new articles, quiet for the dormant threshold, the feed sinks exactly one tier per successful fetch, whatever fails in between |
| `FeedTiers.QuietFeedDies` | fetcher/main.py:170-206 | so it is dead if and only if it had exactly as many successful fetches as tiers remained, and it never has more |
| `FeedTiers.DeadStaysDead` | fetcher/db.py:375-377 | no cycle fetches or changes a dead feed |
| `FeedTiers.QuietNeverLifts` | fetcher/main.py:98-106 | no run without new articles lifts a feed, whatever the thresholds |
| `FeedTiers.IntervalFollowsTier` | fetcher/main.py:183-199 | from the first change of tier on, the interval is the configured one of the tier |
| `FeedTiers.UnknownTierSticks` | fetcher/main.py:98-106 | a feed with an unknown tier that is quiet for a threshold records nothing |
| `FeedTiers.DB.GetFeedsDue` | fetcher/db.py:367-388 | a row is returned if and only if its tier is not dead and it was never fetched or the seconds since are at least sixty times its interval, a missing or zero interval counting as thirty |
| `FeedTiers.DueInTableOrder` | fetcher/db.py:373-388 | the due rows are in table order, each as often as it is in the table |
| `FeedTiers.FetchedWhenDue` | fetcher/db.py:384-387 | the cycles before a live feed's interval has passed leave its row alone, and the first one at or after that fetches it |
| `FeedTiers.FetchedAgain` | fetcher/db.py:373-388 | so a feed fetched at one cycle is not fetched again before the interval it then has has passed, and is fetched by the first cycle after that, unless it has died |
| `FeedTiers.DB.UpdateFeedAfterFetch` | fetcher/db.py:406-438 | queued while batching, written at once otherwise; a failure counts on the stored count |
| `FeedTiers.DB.FetchOne` | fetcher/main.py:109-206 | the same updates reach the queue or the table |
| `FeedTiers.DB.BeginBatch` | fetcher/db.py:334-338 | an empty queue |
| `FeedTiers.DB.FlushBatch` | fetcher/db.py:340-360 | every queued update in order, then an empty queue |
| `FeedTiers.DB.RunOnce` | fetcher/main.py:221-260 | a cycle changes each due row as its own fetch says and leaves the others |
| `FeedTiers.CycleIsRowByRow` | fetcher/main.py:221-260 | a batched cycle treats each feed as if it were alone |
| `FeedTiers.InterleavingIsIrrelevant` | fetcher/main.py:240-260 | however concurrent fetches interleave in the queue, the flush writes the same table |

## Left out

- Errors of the local cache file: the callers ignore them, and the model lets those writes succeed, except for the clear and the eviction after a replay and the inserts, deletes and drains of logs.
- Servers without a cache file or without a writer, and errors when opening a table.
- `updated_at` and other clock columns; content, titles and the other columns of articles; the snapshot's fetch of missing content.
- A mark's query that breaks off after some rows: in the model it finds all of them or none.
- A write whose overlay entry and whose row are made before and after the overlay is cleared: in `OverlayClearing` they are made in one step. In `ServerRuns` a flush clears the log and the overlay in one step.
- ArticleStore.Store.Snapshot: its pages are one read with nothing in between; in `ServerRuns` a snapshot reads its articles in any number of pieces and writes them later.
- `clearFeed`, which nothing calls, and the text of the overlay's SQL clause; its meaning is the function `View`.
- PutSettings of several keys: it is PutSetting for each.
- ServerRuns.RunsFollowWrites: says nothing of feeds, categories and the unread filter of the article list.
- QueryProcess.EveryQueryGetsItsOwnRows: late replies of a killed process come before those of the new one; statements without rows take the same path as queries; the capacity of the channel is left out.
- JsonFraming.ReaderReturnsValues: the parser is the predicate `Accepted`; numbers and the three names are any text of their characters.
- LogPaging.LogTables.GetLogs: both log tables are one sequence that the query can read, and the flush before the query is not part of it; it leaves out errors of the query and the cut of time bounds to whole seconds.
- LogPaging.LogTables.TrimFetcherLogs: trimming by age is one comparison with a clock value.
- Storage events: the log entries made of them are lost when the insert after a drain of the ring fails.
- LanceSidecar.SidecarWriter.SendCmd: start-up of the process, its ready line and malformed answers are one failed attempt.
- Articles that the fetcher removes or changes.
- OpmlRoundTrip.RoundTrip: starts from parsed outlines; the XML text, lower-case spellings of attributes, the title of the list and the report of a dry run are left out. Titles come back trimmed.
- OpmlImport.Db.WriteFeeds: columns other than address, title, site and category; existing addresses are a set.
- Articles of the importers, their API clients and database queries.
- FeedTiers.DB.FetchOne: fetching, parsing, articles and log events; the title of a feed that had none. A missing interval reads as thirty minutes also where a table column has turned it into a not-a-number value; only rows of dead feeds have one.
- FeedTiers.DB.RunOnce: fetches feed after feed; `InterleavingIsIrrelevant` covers the threads.
- HTTP handlers, the user interface, status and upgrade endpoints, compaction.
