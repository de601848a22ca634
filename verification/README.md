# Verification of the Jiku client

A Dafny model of the hardest logic of this repository, with proofs of what it promises. The models follow
the source's branches, constants and error paths; each module's header names the file it follows.

- **The two-way sync engine** (`DocModel`, `StateDb`, `Files`, `Remote`, `SyncEngine`, `DocRuns`, `SyncLives`,
  `SyncEdges`, `SyncSession`, `SyncFailures`, `OnlineLoop`). The synced folder, the state database, the module with
  every version it ever held, and the person's edits are one world. Each atomic change by the daemon, the person
  or anyone else is a step, and a run is a sequence of steps. The engine's methods keep a trace of their steps
  and prove that it is a run; the person, other writers, faults and lost answers interleave at every request, and
  a crash may come after any step. `DocRuns` states what holds in every run, and `SyncLives` composes the two:
  any lives of the engine, cut anywhere, from any beginning. `SyncFailures` runs the engine into the two cases
  that the conditions of those theorems leave out.
- **Refresh-token rotation shared by processes** (`RefreshProtocol`): the lock, the re-read, the exchange and
  the save of any number of processes against the refresh grant of section 6 of RFC 6749, with processes that
  die, saves that fail and answers that are lost.
- **Algorithms**: `EditDistance`, `Ulid`, `Filter`, `Frontmatter` and `FrontmatterReading`, `Pages`, `Subjects`.
- **Two monitors**: `Permissions`, the waiters woken by a permissions violation, and `Alerts`, the spacing
  of desktop notices, against what its calls alone ask for.

`Text` holds the string functions the others share and `Common` the option type. `dafny verify dfyconfig.toml`
verifies the project.

Where the code falls short of what its comments say, the model keeps the code and states the exact condition:
`SyncEdges` and `SyncFailures` for the sync engine, `RefreshProtocol.AcceptedUnlessLost` and
`WithoutRotationSpendsAgain` for the session, `SyncEngine.Engine.ApplyChange` for entries that are idempotent only
under a condition, `Filter.SplitRecovers`, `Subjects.TypeRoundTrip` and `Frontmatter.YamlEndsInNewline`.

Requests are answered by `Remote` from the module's state, unless the plan of faults says otherwise. What the daemon
is told is part of a run: an answer about a document, a listing under a prefix, news of a deletion, the feed entry it
takes up. Each operation of the engine answers that the module is unreachable exactly when one of its requests was lost
(`LostIn`); clauses without a condition hold whatever happens meanwhile, and `Quiet()` in a contract means that from
there on nothing else happens and every request succeeds.

## Model

| member | source | states |
|---|---|---|
| DocRuns.EveryStepKeepsWork | internal/docsync/engine.go:955-1109 | in every run, no step but the person's own loses what a file that is not ignored holds: it stays, goes on under `.sin-acceso` or to the file of a path the module had its document at, or is a version the module held of that document |
| DocRuns.NoWorkLost | internal/docsync/engine.go:955-1109 | in every run, content that is safe at one moment is safe at every later one, whatever others do and wherever the daemon crashes, unless the person removes it, as long as no document of the module was ever at a path whose file has a conflict copy's name |
| SyncFailures.CopyOverwritesMovedEdit | internal/docsync/engine.go:1036-1060 | that condition is needed: a run of the engine in which two synced files are edited, the first's document is moved onto the name of the second's conflict copy, the second gets a new version, and following both leaves the edit nowhere |
| DocRuns.NoUnseenOverwrite | internal/docsync/engine.go:1288-1322 | in every run, an update that leaves with base version v is of a record not marked read-only, and finds v's content already shown: it was in the document's own file as of v, in the tracked `.remoto-v` copy of v that is gone since, or in the file the document was created from; unless a copy of v was written at a name that `remotePath` refuses; nothing waits for a merge at that moment |
| SyncFailures.UnseenVersionIsOverwritten | internal/docsync/engine.go:1004-1015 | that exception is real: a run of the engine in which the copy beside a file such as `/..a.md` is not remembered, the document moves to a plain path, and an update replaces a version that was never shown |
| DocRuns.NotNamedIsDotted | internal/docsync/files.go:61-68 | such a name is one whose first segment starts with `..` |
| DocRuns.CursorSafety | internal/docsync/engine.go:1111-1170 | in every run whose feed's start did not move under a reading or before the first, each feed entry at or before the stored `lastSeq` was taken up and done with — it needed no answer, or the module answered about its document in between, which a lost request does not — or had left the feed before a full reconciliation that finished |
| DocRuns.CursorNeverGoesBack | internal/docsync/engine.go:1144-1152 | the stored `lastSeq` never decreases along a run, restarts included |
| DocRuns.ForgottenOnTheWord | internal/docsync/engine.go:865-876 | in every run a record is forgotten only when the module's last word was that its document is gone, or not among what it lists under any synced prefix, or another document is recorded at its path: never because a request was lost or refused |
| DocRuns.FilesLeaveOnTheWord | internal/docsync/engine.go:1062-1109 | in every run no file leaves its name, unless the person takes it away, but as that of such a document, or to where its document went |
| DocRuns.SeenIsNotForgotten | internal/docsync/engine.go:844-876 | a document that the module shows all along, in scope and under a synced prefix, is not forgotten, whatever is lost, refused or listed meanwhile, unless another is recorded at its path |
| DocRuns.UnseenWasTold | internal/docsync/engine.go:964-992 | what the history calls gone was told to be by an answer or a deletion at an earlier event, and was not shown since |
| DocRuns.UnlistedWasNotListed | internal/docsync/engine.go:844-853 | what the history calls unlisted was not in the module's answer for the prefix at an event of the listing at hand |
| DocRuns.RunsKeepAll | internal/docsync/engine.go:613-735 | a run keeps all five: work at every step, work over the whole run, seen overwrites, the cursor, and what leaves on the module's word only |
| SyncLives.RunLives | internal/docsync/engine.go:481-501 | from any folder, module and empty state, any list of lives of the engine, each with any configuration, requests, faults and interference and cut short anywhere, leaves events that keep all five; nothing is assumed of them |
| SyncLives.RunLife | internal/docsync/engine.go:210-240 | a life starts on what the events before it left and goes on with them up to where it is cut; one that ends well has reconciled in full |
| DocRuns.HeldWasOnDisk | internal/docsync/state.go:34-43 | what the history says the disk held was on the disk at an earlier event of the run, so the theorems above speak of events |
| DocRuns.PastWasRecorded | internal/docsync/state.go:34-43 | what the history says was recorded was in the table at an earlier event |
| DocRuns.ResolvedWasGone | internal/docsync/state.go:41-43 | what the history calls merged was, at an earlier event, a record whose conflict copy was gone |
| DocRuns.FiledWasFiled | internal/docsync/engine.go:1391-1401 | what the history says a document was created from was answered at an earlier event |
| DocRuns.UnnamedWasUnnamed | internal/docsync/engine.go:1010-1014 | a copy the history calls unnamed was written, and could not be named, at an earlier event |
| DocRuns.HandedWasHanded | internal/docsync/engine.go:1159-1170 | what the history says was done with was so at an earlier event |
| DocRuns.HandedIsDone | internal/docsync/engine.go:1136-1170 | an entry that was done with was taken up before, and since then either the state came to need nothing of it or the module answered about its document |
| DocRuns.TakenWasTaken | internal/docsync/engine.go:1136-1144 | the entry the history says is at hand was taken up at an earlier event, with no other and no restart since |
| DocRuns.AnsweredWasAnswered | internal/docsync/engine.go:964-974 | what the history says was answered about since was, at an event since the entry was taken up |
| DocRuns.ReconciledWasReconciled | internal/docsync/engine.go:879-880 | the reconciled mark comes from the end of an earlier full reconciliation |
| DocRuns.TrimmedWasTrimmed | internal/docsync/engine.go:1118-1131 | the mark that the feed's start moved comes from an earlier event in which it did |
| DocModel.InvAfter | internal/docsync/state.go:34-43 | the invariant of every reachable world survives any step whose new records are true of the module and based on what the person was shown |
| DocModel.RunGrows | internal/docsync/remote.go:34-53 | from any event to the end of a run, the module and the history have only grown |
| DocModel.CrashAnywhere | internal/docsync/engine.go:1004-1033 | whatever has happened when a crash comes is itself a run, so every theorem about runs holds between the write to disk and the record |
| SyncEdges.ConflictIsRememberedIff | internal/docsync/engine.go:1004-1015 | a conflict is remembered, with its copy's path, exactly when the file's first segment does not start with `..` |
| SyncEdges.OutdatedEditStays | internal/docsync/engine.go:1004-1033 | an edit on an outdated version stays where it is, the module's version goes beside it, and the record waits for that copy |
| SyncEdges.CopyKeepsWorkIff | internal/docsync/engine.go:1007-1010 | writing a version beside an edited file keeps everything the folder held exactly when a file that already stands at the copy's name holds nothing that is only there |
| SyncEdges.FiledAtItsFileIff | internal/docsync/engine.go:1391-1401 | a document filed by its folder is recorded at the file it was made from exactly when the folder's own path is the file's directory |
| SyncEdges.FiledUnderAnotherCase | internal/docsync/engine.go:443-451 | folders are found without regard to case: a new file in `/Infra/` is filed in `/infra/`, and its record is not at the file's path |
| SyncEdges.TrimmedBeforeFirstRead | internal/docsync/engine.go:1111-1155 | the condition on the feed's start is needed: after a full reconciliation and before the first read, any unread entry that leaves the feed is passed over by whatever page is answered first |
| SyncEngine.Engine.constructor | internal/docsync/engine.go:210-240 | a daemon starts on what any earlier run left, with its memory empty, and goes on with that run |
| SyncEngine.Engine.Fetch | internal/docsync/engine.go:955-992 | whatever happens meanwhile: a request or a reply that is lost, or a refusal for another reason than that the document is not found, is answered as such, and until then the daemon only asked and no record changed; only a document that is not found is moved aside and forgotten; an answer is followed on the folder of that moment |
| SyncEngine.Engine.Follow | internal/docsync/engine.go:976-1033 | for every answer, folder and record: one deleted or out of scope never writes; a move that cannot be followed stops before any change; otherwise the move is followed and the version is in place at the file its path names, and a crash on the way leaves a disk and records of that path |
| SyncEngine.Engine.Place | internal/docsync/engine.go:993-1033 | an equal file is adopted, one with changes of its own is left and the version goes beside it, any other becomes the version; the record says which |
| SyncEngine.Engine.PlaceFile | internal/docsync/engine.go:1016-1026 | a file is overwritten only when it equals its record, so that what it held is a version of the module |
| SyncEngine.Engine.PlaceCopy | internal/docsync/engine.go:1007-1015 | the conflict copy holds the version, and the record waits for it when it can be named |
| SyncEngine.Engine.MoveLocal | internal/docsync/engine.go:1036-1060 | a move is followed, file and record, exactly when both paths are plain and not both files exist; otherwise nothing changes |
| SyncEngine.Engine.NoLongerReadable | internal/docsync/engine.go:1062-1075 | the document is forgotten and its file, if any, is at a name under `.sin-acceso` that was free |
| SyncEngine.Engine.RemoteDeleted | internal/docsync/engine.go:1077-1109 | a record past the deleted version is left alone; otherwise it goes, with an unchanged file, or with a changed one moved aside |
| SyncEngine.Engine.MoveAside | internal/docsync/files.go:120-138 | the file's content is at a name under `.sin-acceso` that was free; nothing else changes |
| SyncEngine.Engine.Update | internal/docsync/engine.go:1288-1292 | an update leaves first, and only when the base is what the record says, the record is not marked read-only, nothing waits, and the base was shown or its copy could not be named; the answered version holds the content sent, and the answer is the module's unless it is lost |
| SyncEngine.Engine.LocalChanged | internal/docsync/engine.go:1262-1284 | a file equal to its record, or waiting for a merge, changes nothing and sends nothing, whatever else happens; one of a record marked read-only sends nothing and changes no file, checksum or version; any other edit leaves at once over the version its record says; undisturbed it becomes the module's version and its record's, or the version it was not made on is fetched, or the file of a document that is gone is moved aside; a new file is created in its folder unless that is read-only |
| SyncEngine.Engine.TrackedChanged | internal/docsync/engine.go:1277-1312 | for the file of a record all of it: a copy that waits stops everything, one that is gone is forgotten and the record kept otherwise, and an edit is sent exactly when the record is not read-only and differs from it |
| SyncEngine.Engine.Upload | internal/docsync/engine.go:1288-1340 | undisturbed, a save on the current version or of its content leaves file, record and module equal and every other document as it was, an outdated one is fetched and a missing one moved aside; whatever happens, a conflict is answered about, a locked document waits for its unlocking, and a refusal only the person can lift changes no record |
| SyncEngine.Engine.CreateLocal | internal/docsync/engine.go:1358-1413 | a folder known to be read-only costs nothing and any other a request; undisturbed, the document is created in the known folder, or in one the module lists under that name, under the path's name and reserved id, unless that folder is read-only; without a folder nothing is asked for |
| SyncEngine.Engine.CreateIn | internal/docsync/engine.go:1385-1413 | the creation is asked for under the id reserved for the path, and undisturbed it is the module's answer to that; the id outlives a lost answer and is freed by a final one, and a made document is recorded with the content sent |
| SyncEngine.Engine.FolderFor | internal/docsync/engine.go:1363-1375 | a known folder costs no request; otherwise the answer is a folder the module lists under that directory with that key, and none exactly when it lists none |
| SyncEngine.Engine.LearnFolders | internal/docsync/engine.go:475-480 | every listed folder is known by its path and its permission, and everything else is as it was |
| SyncEngine.LearnedMore | internal/docsync/engine.go:882-911 | what is learned list after list is exactly what is learned from all of them |
| SyncEngine.Engine.LearnFromDocument | internal/docsync/engine.go:455-469 | a document's folder, and no other, is learned, only where the module's list said nothing, and without a permission |
| SyncEngine.Engine.Created | internal/docsync/engine.go:1399-1413 | the new record is true of the module's version wherever the module filed the document, and the disk is not touched |
| SyncEngine.Engine.ReconcileDoc | internal/docsync/engine.go:912-953 | unless a request is lost, the daemon asked the module for the document, or found its version recorded at its place with its file there or waiting, or its file unable to go where it went; undisturbed, a new document or a newer version is fetched, and so is a file the person removed; one that was only moved takes its file along, whatever it holds |
| SyncEngine.Engine.Refresh | internal/docsync/engine.go:931-953 | a record at its place whose file is there, or waits for a merge, costs no request unless there is a newer version; otherwise it is fetched, over an unedited file or beside an edited one |
| SyncEngine.Engine.RefreshFolders | internal/docsync/engine.go:882-911 | undisturbed, exactly the folders listed under the prefixes are known, with their permissions; a module that refuses the list is no failure and leaves none |
| SyncEngine.Engine.ListAll | internal/docsync/engine.go:844-853 | whatever happens meanwhile: it ends well exactly when every prefix's request was answered, and then holds, for each prefix, all the module listed under it at some moment since, and nothing else; a request lost or refused is answered as such, and the daemon only asked; undisturbed it is exactly the readable live documents under the prefixes |
| SyncEngine.LiveIsListed | internal/docsync/engine.go:844-853 | a document that stays live under a synced prefix while it is listed is in the listing |
| SyncEngine.Engine.ReconcileListed | internal/docsync/engine.go:855-863 | unless a request is lost, each listed document was seen to; undisturbed, in any visiting order, each ends in agreement but for the edits, which stay ready, and the folder stays tidy |
| SyncEngine.Engine.DropUnlisted | internal/docsync/engine.go:865-876 | exactly the records in scope that are not listed go, and the listed documents stay in agreement |
| SyncEngine.Engine.ScanLocal | internal/docsync/engine.go:1241-1260 | whatever happens meanwhile: it stops only at a lost request, and else each file there was is looked at, and what of it is ready to be sent at that moment is sent; a folder in which nothing differs from its record is left as it is; undisturbed, with no new files and no outdated edits, one scan sends every edit, changes no file and sends nothing else |
| SyncEngine.Engine.FullReconcile | internal/docsync/engine.go:832-911 | whatever happens meanwhile: a folder or document list that is lost, or refused but for folders listed to admins only, makes it fail with the records and `lastFull` as they were, the daemon having only asked; when it ends well each listed document was seen to, every record in scope that was not listed was dropped, and then each file was looked at; with everything accounted for and undisturbed, it ends with records exactly the listed documents and every file and the module's version equal, the person's edit where there was one; it never moves the cursor |
| SyncEngine.ScanConverges | internal/docsync/engine.go:865-880 | once everything listed is in line but for the edits, sending them brings file, record and module to agree, each version the person's edit or what it was |
| SyncEngine.Engine.RemoteChanged | internal/docsync/engine.go:1172-1185 | a version already held at that path, or a path out of scope, costs no request, and anything else one, about which the module answered unless it is lost; undisturbed the answer is followed; where everything is in step nothing changes |
| SyncEngine.Engine.ApplyChange | internal/docsync/engine.go:1157-1170 | an entry is done with unless its request was lost, and then no record changed; a deletion is followed, a change already held costs no request and any other is fetched; where everything is in step an entry changes nothing; for a deletion of a tracked document exactly when it carries a version the record has passed |
| SyncEngine.Engine.ApplyPage | internal/docsync/engine.go:1136-1144 | entries are taken up in their order, and it answers that the module is unreachable exactly when one of the requests since was lost; otherwise each was done with; where everything is in step, past entries in any order and number change no file and no record |
| SyncEngine.Engine.CatchUp | internal/docsync/engine.go:1111-1155 | it ends, restart after `invalid_cursor` included, well unless a request is lost or refused; when it ends well the cursor is at or past all the feed held when it began; the stored cursor never decreases; undisturbed it reaches the end of the feed |
| SyncEngine.Engine.NextPage | internal/docsync/engine.go:1118-1155 | a page or a reconciliation that fails leaves the cursor as it was; the last page ends at or past all the feed held; each turn of the loop uses a request, and undisturbed it uses the one restart or moves forward in the feed |
| SyncEngine.Engine.Restart | internal/docsync/engine.go:1120-1131 | after the full reconciliation the feed is read from its start, with every entry it no longer keeps accounted for |
| SyncEngine.Engine.ReadPage | internal/docsync/engine.go:1136-1152 | the cursor moves past a page only once every entry of it was done with, stays where it was when a request for one of them is lost, and never goes back |
| SyncEngine.Engine.ApplyNotification | internal/docsync/engine.go:1187-1233 | no notification moves the stored cursor; what it says already known costs nothing, a change not known is answered about unless the request is lost and is followed, a deletion is followed, a change of access is reconciled in full, and an unlocking sends the edit that waited for it, once |
| SyncEngine.Engine.RunOnce | internal/docsync/engine.go:481-501 | one reconciliation that finishes and one reading of the feed, to the end of what it held; it fails only when a request is lost or refused |
| SyncEngine.Engine.Online | internal/docsync/engine.go:613-735 | any session, with notifications, debounced edits, reconnects and ticks in any order: each input is handled in its turn, until a request is lost and not before; a debounced edit that is ready is sent, a change or deletion told of is followed, a reconnect reads the feed and looks at every file, a tick catches up or reconciles |
| SyncEngine.PageCovers | internal/docsync/engine.go:1136-1152 | once a page is handed over, every entry up to its `nextSeq` is covered |
| SyncEngine.SettledKeepsTidy | internal/docsync/engine.go:855-863 | bringing one document in line disturbs no other, and no edit |
| SyncEngine.SendingKeepsOthers | internal/docsync/engine.go:1241-1260 | an edit that is sent leaves every other edit as ready as it was, and every saved one saved |
| SyncEngine.CopyGiven | internal/docsync/engine.go:1007-1033 | the record written with a conflict copy has its base in that copy |
| SyncEngine.ResolvedBase | internal/docsync/engine.go:1277-1287 | once the copy is gone, the version it held has been shown |
| SyncSession.EditReachesModule | internal/docsync/engine.go:832-880 | a first reconciliation into an empty folder, an edit and its upload end with file, record and module equal to the edit, the first version kept: a run in which an update leaves |
| Remote.UpdateGrows | modules/docs/documents.go:186-215 | a save only adds a version, and the answered version holds the content |
| Remote.CreateGrows | modules/docs/documents.go:140-175 | a creation only adds; repeating it with the same id and content is the same creation |
| Remote.RetryIsSame | modules/docs/documents.go:140-175 | a creation repeated under its id with its content, whatever happened to the module in between, answers the same document and makes no second one |
| Remote.SavedOnCurrent | modules/docs/documents.go:186-215 | a save on the current version, or of its content, is accepted, is the current version and touches no other document |
| Remote.ChangesContract | modules/docs/documents.go:515-531 | every answer to a read of the feed is the next stretch of it, or refuses a cursor older than what it keeps |
| StateDb.PutKeepsUnique | internal/docsync/state.go:228-256 | records stay unique by id and by path: the stale record of another document at that path goes, and no other |
| StateDb.State.PutDoc | internal/docsync/state.go:235-256 | the table becomes that one |
| StateDb.State.DocByPath | internal/docsync/state.go:211-213 | the record at a path, or none when there is none |
| StateDb.State.PendingID | internal/docsync/state.go:264-279 | asking again for a path answers the id reserved first |
| StateDb.State.DeleteDoc | internal/docsync/state.go:259-262 | exactly that record goes |
| Files.ConflictNameIsCopy | internal/docsync/files.go:15-24 | what `conflictName` names matches the pattern of conflict copies |
| Files.CopiesAreHidden | internal/docsync/files.go:28-43 | a conflict copy's path is hidden, so it is never uploaded |
| Files.LocalPathIsPlain | internal/docsync/files.go:45-59 | the file of a module path, read back as a path, is its own file |
| Files.ConflictNameIsPlain | internal/docsync/files.go:20-24 | the copy of a plain file is a plain file |
| Files.CopyIsTracked | internal/docsync/files.go:61-68 | `remotePath` can name the copy exactly when the first segment does not start with `..` |
| Files.AsideKeepsName | internal/docsync/files.go:120-123 | moving aside does not turn a file into a conflict copy |
| Files.StampedKeepsName | internal/docsync/files.go:124-127 | neither does appending the time |
| Files.StampedInjective | internal/docsync/files.go:124-127 | different times give different names, so one of them is free |
| Files.NoAccessIsHidden | internal/docsync/files.go:71-78 | everything under `.sin-acceso` is hidden |
| OnlineLoop.Loop.Schedule | internal/docsync/engine.go:806-812 | a disk event arms the path's timer, the one it had if it had one, and no other path's entry changes |
| OnlineLoop.Loop.HandleNext | internal/docsync/engine.go:708-711 | the front of the queue is handled and its timer's entry goes |
| OnlineLoop.Loop.Do | internal/docsync/engine.go:703-711 | every step, a timer fired twice included, keeps each path that waits in `timers`, and takes or handles exactly what it says |
| OnlineLoop.Loop.Flush | internal/docsync/engine.go:736-760 | a stop collects every path that waits |
| OnlineLoop.RunThenStop | internal/docsync/engine.go:736-760 | after any run of the loop, every path whose event came after it was last handled is among those uploaded at the stop |
| OnlineLoop.WaitsMeans | internal/docsync/engine.go:703-711 | a path waits exactly when some event of it has no later handling |
| RefreshProtocol.AcceptedUnlessLost | auth/device.go:324-382 | for any number of processes in any interleaving, deaths, failed saves and lost answers included, an exchange presents the server's latest refresh token exactly when no new one was lost before |
| RefreshProtocol.SoundUntilLost | auth/device.go:345-382 | the file holds the latest refresh token, or an answer with it is about to be saved, until a new one is lost; afterwards it never does again |
| RefreshProtocol.ExchangedOnlyWhenExpired | auth/device.go:332-343 | when the server rotates every time, a refresh token is spent only once the stored access token is no longer valid |
| RefreshProtocol.WithoutRotationSpendsAgain | auth/device.go:337-339 | without rotation it is not so: the second of two waiting processes exchanges over a valid stored token |
| RefreshProtocol.NeverTwoInside | auth/store_lock_unix.go:26-56 | no two processes are between taking and releasing the lock |
| RefreshProtocol.StepKeepsInv | auth/device.go:328-382 | every step keeps mutual exclusion, and every token a process remembers is an answer of the server it may still wait for |
| RefreshProtocol.StepKeepsSound | auth/device.go:354-382 | a step strands the session exactly when it loses a new refresh token |
| RefreshProtocol.StepKeepsStranded | auth/device.go:345-353 | a stranded session stays stranded |
| RefreshProtocol.Drive | auth/device.go:324-382 | any possible sequence of the processes' steps, run through the methods, ends in the system the steps say |
| RefreshProtocol.Host.Token | auth/device.go:121-149 | the head of `Token` is the protocol's first step: load once, answer what is valid, ask otherwise |
| RefreshProtocol.Host.TryLock | auth/store_lock_unix.go:36-52 | one turn of the polling loop takes the lock exactly when it is free |
| RefreshProtocol.Host.RereadStore | auth/device.go:335-343 | what another process saved wins, and a valid one ends the refresh |
| RefreshProtocol.Host.PostRefresh | auth/device.go:354-378 | the exchange, its refusal, and the refresh token kept when the answer carries none |
| RefreshProtocol.Host.KeepAnswer | auth/device.go:376-382 | the answer is kept in memory, and in the file when the save succeeds |
| EditDistance.Compute | describe.go:446-469 | the two swapped rows compute the least number of single-character edits, at any places and in any order, that turn one string into the other |
| EditDistance.DistanceIsLeast | describe.go:446-469 | the recurrence of the table is that least number: some edits reach it and none are fewer |
| EditDistance.DistanceSymmetric | describe.go:446-469 | symmetry |
| EditDistance.Triangle | describe.go:446-469 | the triangle inequality |
| EditDistance.ZeroOnlyWhenEqual | describe.go:447-450 | zero exactly for equal strings |
| EditDistance.FillRow | describe.go:458-465 | one row of the table from the row above it |
| EditDistance.Suggest | describe.go:429-444 | the first of the closest candidates when it is within the limit, otherwise nothing |
| EditDistance.SuggestedUnique | describe.go:434-439 | there is one such candidate |
| Ulid.Encode | modules/docs/ids.go:42-54 | shifting two words five bits at a time writes the 26 base-32 digits of the 128-bit value |
| Ulid.IdOfValue | modules/docs/ids.go:42-68 | the encoding of every 128-bit value is a string `ValidID` accepts, and gives the value back |
| Ulid.ValueOfId | modules/docs/ids.go:56-68 | every string `ValidID` accepts is the encoding of one 128-bit value |
| Ulid.IdsSortAsValues | modules/docs/ids.go:42-54 | the order of ids is the order of their values |
| Ulid.NewId | modules/docs/ids.go:25-40 | a new id is the low 48 bits of the clock followed by the random bytes |
| Ulid.NewIdsSort | modules/docs/ids.go:25-40 | new ids sort by the 48 bits of their millisecond, then by their random bytes, and not otherwise |
| Ulid.EarlierSortsFirst | modules/docs/ids.go:18-40 | ids of different milliseconds sort by time whatever the random bytes |
| Ulid.ValidID | modules/docs/ids.go:56-68 | 26 digits of the alphabet, the first at most 7 |
| Filter.ParseFilter | filter.go:31-101 | a list is accepted exactly when every expression stands for a condition and no two clash, which is so exactly when each splits at its operator, writes values its field takes and is the only one of its field but for comparisons by other operators; the filter then accepts a row exactly when each expression holds of it, read by its operator |
| Filter.FilterMeans | filter.go:74-101 | the condition of an expression holds of a row exactly when the field compares with the value as the operator written says: `>=` at least, `>` above, `<=` at most, `<` below, `=` the value or one of the list, `!=` none of them or no such field, and a name with a colon the pair under what stands before it |
| Filter.AcceptableIff | filter.go:31-72 | expressions that split stand together exactly when each one's values are those its field takes, and no two are of one field, unless they compare it by different operators |
| Filter.WrittenSplits | filter.go:134-166 | expressions written from names, operators and values that can be recovered split into those |
| Filter.OrderIndependent | filter.go:16-101 | a list is accepted exactly when every permutation of it is, with the same filter |
| Filter.Conserves | filter.go:16-27 | an accepted list has as many conditions as expressions |
| Filter.ConditionsDetermine | filter.go:94-101 | the conditions determine the filter |
| Filter.SplitExpr | filter.go:134-166 | the leftmost operator, the longest there, splits the expression; none means no expression |
| Filter.SplitRecovers | filter.go:134-166 | a name, an operator and a value written together are recovered exactly when both sides are trimmed and not empty, no operator begins in the name and the value lengthens none |
| Filter.CoerceList | filter.go:103-128 | a list's values in order, empty places skipped, each coerced; no value is an error |
| Filter.Merge | filter.go:94-100 | the ranges join the filter in any order, exactly when no name also has a whole condition |
| Frontmatter.FindSplit | internal/frontmatter/frontmatter.go:18-38 | the split found is one, and when none is found there is none |
| Frontmatter.SplitUnique | internal/frontmatter/frontmatter.go:18-38 | there is at most one way to split a document into opening line, YAML without a closing line, and the rest from the closing line |
| Frontmatter.Add | internal/frontmatter/frontmatter.go:88-117 | on the text paths everything outside the YAML is kept byte for byte and splitting the result gives the YAML with exactly the block added |
| Frontmatter.BlockHolds | internal/frontmatter/frontmatter.go:191-216 | the block is whole lines and holds no closing line, whatever the topics |
| Frontmatter.Block | internal/frontmatter/frontmatter.go:191-216 | the block's lines: keys in order, each with its distinct values, which `FrontmatterReading.BlockRead` reads back |
| FrontmatterReading.BlockRead | internal/frontmatter/frontmatter.go:191-229 | what is added is read back: each list of clients, projects and topics under its own key, without repetitions and in order, whatever the topics contain |
| FrontmatterReading.QuotedRead | internal/frontmatter/frontmatter.go:205-216 | a quoted topic is read back as it was, whatever counts as printable |
| FrontmatterReading.IdsRead | internal/frontmatter/frontmatter.go:218-229 | a list of numbers is read back as its distinct values |
| Frontmatter.List | internal/frontmatter/frontmatter.go:218-229 | each distinct value once, in order of first appearance |
| Frontmatter.DistinctKeepsEach | internal/frontmatter/frontmatter.go:218-229 | no value is dropped and none is repeated |
| Frontmatter.YamlEndsInNewline | internal/frontmatter/frontmatter.go:112-114 | the newline put after YAML that lacks one is never needed |
| Pages.Iterator.Next | iter.go:66-96 | it answers whether one more item is left of the pages' concatenation and steps to exactly that item; at the end the error, the requests made and the page count are those of the whole walk, and it stays there |
| Pages.Iterator.Fetch | iter.go:98-121 | one request, with the previous page's cursor; an empty page ends the walk only without a cursor |
| Pages.WalksEveryPage | iter.go:98-121 | the walk goes through every page with a cursor, empty or not, up to the first page without one or the first failure |
| Pages.All | iter.go:153-164 | every item in one array, or the error that stopped the walk |
| Pages.JoinRawArray | iter.go:166-189 | the items joined by commas in brackets, in a buffer of exactly the size computed first |
| Subjects.SubjectMatches | kv_test.go:347-358 | the matching loop is NATS's matching, token by token |
| Subjects.FilterSubject | events/subject.go:42-63 | the pattern of a filter, or none for a filter that is refused |
| Subjects.ValidFilter | events/subject.go:65-92 | accepted exactly when no token is empty, `>` is only last and wildcards are whole tokens |
| Subjects.FilterStaysInStream | events/subject.go:31-63 | every accepted filter matches only what the stream's subject matches |
| Subjects.StreamLeavesOutAuth | events/subject.go:27-40 | the stream's subject leaves out `{instance}.events.auth` exactly when no token of the instance is a full wildcard |
| Subjects.NoFilterReachesAuth | events/subject.go:27-63 | and then no accepted filter matches it either |
| Subjects.FilterMatchesTypes | events/subject.go:42-63 | a filter matches the subject of an event exactly when it matches the event's type |
| Subjects.TypeRoundTrip | events/subject.go:94-106 | the type is read back from a subject exactly when the instance is a single token |
| Subjects.GrantedOnlyOwn | kv.go:262-273 | the grants of an identity match a key's read or write subject exactly when instance and identity are its own |
| Subjects.GrantAndSubject | kv.go:262-273 | grant by grant: no write grant covers a read, nor the other way round |
| Subjects.DottedIdentityIsInside | kv.go:52-66 | an identity of two tokens would lie inside the space of its first |
| Subjects.ValidKVKey | kv.go:68-92 | accepted exactly when no segment is empty and every character is allowed |
| Permissions.NoLostWakeUp | client.go:183-210 | in every interleaving, a waiter still registered on a subject with a recorded violation is cancelled or a running call will cancel it |
| Permissions.OnlyItsOwnSubject | client.go:197-210 | a waiter that was not registered when a violation without a subject came is cancelled only for a violation of its own subject, which it finds when it unregisters |
| Permissions.EmptyOnceAllGone | client.go:240-247 | the table is empty exactly when every waiter has unregistered |
| Permissions.StepKeeps | client.go:183-248 | every critical section and every cancel keeps the three |
| Permissions.Drive | client.go:183-248 | any possible sequence of calls' steps, run through the methods, ends in the state the steps say |
| Permissions.Client.NotePermissionError | client.go:183-204 | a violation is recorded and wakes the waiters of its subject, or all when it names none |
| Permissions.Client.WatchPermission | client.go:226-239 | a waiter is registered under a new number, and a violation already recorded counts |
| Permissions.Client.Done | client.go:240-247 | unregistering answers the violation seen, if any |
| Permissions.QuotedSubject | client.go:212-224 | the subject of a message is what it quotes first |
| Alerts.Run | internal/docsync/alerts.go:16-107 | in every run, grouped notices of a kind are at least `Every` apart, each path is named once in a notice, and every added path is pending or in a notice sent less than `Every` before or later; and the notices are the ones the calls alone ask for: an event is taken unless its path was told of less than `Every` before or waits, a notice speaks of all taken since the last of its kind, it is sent when nothing was taken for `Quiet` or the first was taken `MaxGather` ago, and after a `Flush` no such kind is left |
| Alerts.Alerts.Add | internal/docsync/alerts.go:53-83 | the group becomes exactly what the event asks for; the path is pending or was told less than `Every` ago; other kinds are said at once |
| Alerts.Alerts.Flush | internal/docsync/alerts.go:85-107 | exactly the due kinds are sent, whole; one past both its gathering time and its spacing is always due |
| Alerts.DueIff | internal/docsync/alerts.go:90-95 | a group is due exactly when what was taken of its kind, and when, and its last notice say so |
| Alerts.SendKeeps | internal/docsync/alerts.go:90-101 | sending a due group keeps its kind spaced and loses nothing |

## Left out

- Lists in pages: a listing, a walk of the folder and the state's `Docs` are each read at one moment.
- Disk errors, half-readable files and file modes: a file is readable or absent, and marking files read-only on disk is not modelled.
- The status report, log lines, events, heartbeats and `warned`, which decide nothing about files or records.
- The desktop notices' wording, and `Thousands`.
- SHA-256 is an injective function of the content.
- Letter case is folded on ASCII letters only in the sync engine; `suggest` takes the lower-casing function as a parameter.
- `moveAside`'s time is a number whose stamped name is free when the clock is read, written in digits alone.
- Symbolic links and `path.Clean` on unusual roots: a local file is its path under the synced folder.
- A refusal for reasons of the module's own never says that the document is not found: the module says so of a document exactly when it does not show it. A feed read after a cursor refuses it as invalid only when it is.
- DocRuns.CursorSafety: supposes that the feed's start does not move while it is being read, nor between a full reconciliation and the first read after it; `SyncEdges.TrimmedBeforeFirstRead` shows why.
- DocRuns.NoUnseenOverwrite: leaves out versions whose conflict copy got a name that `remotePath` refuses; `SyncFailures.UnseenVersionIsOverwritten` shows why.
- DocRuns.NoWorkLost: supposes that the module never had a document at the name of a conflict copy; `SyncFailures.CopyOverwritesMovedEdit` shows why.
- SyncEngine.Engine.CreateIn: the reserved ids are not part of a world, so a crash between freeing one and storing the record, after which the file is created again under a new id, is not stated over runs.
- The registry watch, the identity check at start and backing off while the module is down.
- Logging in while another process refreshes: `Login` does not take the refresh lock.
- An unreadable token file under the lock.
- A refresh under a store without a lock, and the platforms where `lockRefresh` is not this file's.
- Invalid UTF-8: strings are sequences of characters.
- `Filter`: values are typed by an unspecified `Coerce` and compared by an unspecified order; the wording of errors, and which of several errors is reported first.
- The branch of frontmatter `Add` that re-encodes YAML, and the YAML parser, which is a parameter; `FrontmatterReading` reads only what the block can hold.
- Decoding items into values in `All`; a walk makes finitely many requests before its context ends.
- NATS itself: subjects are matched as kv_test.go:347-358 does.
- Permissions: a violation is a message; nats.go's other asynchronous errors are not part of this model.
- Alerts: the clock is read inside the critical section, so that calls see it in order.
- Message builders, hints, the commands, tracing and configuration, which would add only easy members.
