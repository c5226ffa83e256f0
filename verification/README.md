# Replication of projects, files and metadata: a verified model

This project models the server synchronisation of ThreadDesk and proves what it keeps.
It covers five layers.

* **The versioned store** (`paths`, `store_model`, `store_invariant`, `store_history`,
  `store_answers`, `store`, `readiness`, `verdicts`): one tenant's tables as fields of a
  class, each method one transaction, proved equal to a specification function; when each
  succeeds, what it writes and what it refuses, said of the tables themselves; invariants
  and history over all runs of transactions. `inventory` is discovery's incremental copy
  of the path rules.
* **The file replica protocol** (`replication`, `replication_results`, `pending_rows`,
  `world`, `client`, `install`): a state machine of store, replicas, users, other clients
  and a network that loses, delays, reorders and repeats messages. The client class runs
  against the store class inside a schedule it does not know; everything it does is a
  behaviour of that machine. Behind the end of the schedule nothing is lost and nobody
  else acts: `quiet_server`, `quiet_paths`, `quiet_upload` and `quiet_round` say what the
  client then achieves. `install` models the rename and exclusive-link sequence at the
  level of inodes.
* **The metadata merge** (`documents`, `lifecycle`, `merge`, `merge_results`, `adoption`):
  leaf paths, validation, the three-way merge, lifecycle generations, convergence, and
  the retention that later adoption needs.
* **The metadata replica** (`metadata_core`, `metadata_answers`, `metadata_replica`,
  `metadata_client`): two journals and one checkpoint, with crashes between any two
  persisted steps.
* **Side cores**: the snapshot archive (`archive`, `archive_format`), its database checks
  (`snapshot_check`), and the dependency search of the knowledge graph with its trash
  (`dependencies`).

A behaviour is a list of actions of any length; an action that is not possible does
nothing, so a theorem about every list is about every run. A crash loses only what is not
in the state, and is either no action or one that drops the volatile part.

## What the code does not quite do

* The search of `connect` sees only relations out of the trash whose endpoints are too. A
  restore brings relations back, of a node or a whole thread at once, and an import
  stores one, without a search: a cycle can close (`RestoredRelation`, `RestoredNode`,
  `ImportedRelation`). `StepKeepsAcyclic` and `RunAcyclic` state exactly when.
* Leaves are compared as Python compares them, so `1`, `1.0` and `true` are equal: a change
  of one into another is lost without a conflict (`SpellingLost`; `ChangeLost` states
  exactly when), and two sides can end a round with documents that only Python finds equal
  (`ExactConvergence` states exactly when they are the same).
* Absence is represented by the JSON value `{"$missing": true}`, and so by every value
  equal to it (`StandIns`). Node metadata may hold such a value; the merge then takes the
  leaf for absent and overwrites it silently (`StandInOverwritten`). `NoSilentOverwrite`
  states exactly when.
* A leaf deleted at home while an operation is pending comes back, without a conflict, when
  the answer changed it (`DeletionsSurvive` states exactly when), and so do file references
  the answer has (`FileEditsUnite`).
* Replacing a file: if flushing the directory fails after the link, the new content is
  already published and stays although the call fails (`FlushFails`); and if dropping the
  temporary name or linking the old file back fails, an untouched pathname stays empty,
  the old file being in the recovery area (`DropFails`, `LinkBackFails`). The contract of
  `Install` tells these exits apart by the calls that fail.
* An object whose restored history was refused cannot be adopted while an object it leads
  to, still missing, has restored history of its own; that must be adopted first
  (`CompanyFirst`, `CompanyFirstRun`). `ResolveDocument` states exactly what can be adopted.

## Assumptions

* SHA-256 is taken to be injective; identifiers drawn at random are new. Where the code
  would notice a repetition, the model refuses too.
* Normalisation and case folding act on single path segments and make no `/`
  (`JoinedKeysAgree` shows that this is enough for joined text). They are a parameter.
* A project document is the state of a metadata core: what a merge returns is what the
  next export shows.
* The size limit of documents, the screen for secrets and the portability of file
  references are one parameter, the validator, of which only the structural checks are
  written out.
* The header and JSON encodings of the archive are parameters that read back what they
  wrote: headers, which take 512 bytes, are not all zero and hold a size of eleven octal
  digits, and the manifest at hand, which with such sizes and with paths within 4096
  encoded bytes takes at most a kilobyte and sixteen more for each entry.
  `BackupOneFile` meets all of this at once.
* A number of a document is its value and the way it is written; values are reals.

## Model

| member | source | states |
|---|---|---|
| `Paths.CollisionMeaning` | src/threaddesk/server_sync/store.py:60-70 | the zip loop rejects a pair exactly when the paths differ and one is a directory of the other, or some common prefix is spelled differently but folds alike |
| `Paths.CollisionSymmetric` | src/threaddesk/server_sync/store.py:60-70 | the verdict does not depend on the order of the pair |
| `Paths.IndexDecides` | src/threaddesk/server_sync/store.py:80-97 | an index holding exactly the prefixes of a set of paths admits a new path exactly when the pairwise rule clears it against every one of them |
| `Paths.EnteringIndexes` | src/threaddesk/server_sync/store.py:80-97 | entering an admitted path leaves an index of exactly the enlarged set |
| `Paths.CheckManifestPaths` | src/threaddesk/server_sync/store.py:80-97 | a list passes, in whatever order it is given, exactly when it has no duplicate and no two of its paths collide pairwise |
| `Paths.JoinedKeysAgree` | src/threaddesk/server_sync/store.py:80-97 | looking a prefix up by its folded, joined text finds the same entries as folding segment by segment, if folding acts per segment and makes no '/' |
| `Inventory.Inventory.PrefixesFree` | src/threaddesk/server_sync/discovery.py:301-333 | the incremental look-up is false exactly when the path collides pairwise with an accepted one |
| `Inventory.Inventory.AddFile` | src/threaddesk/server_sync/discovery.py:290-341 | a file enters exactly when its source is safe and new, its path collides with no accepted path, and both budgets allow it; otherwise the inventory keeps its content |
| `Inventory.Inventory.Admission` | src/threaddesk/server_sync/discovery.py:301-333 | an admitted path keeps the maps an index of the accepted set, which stays pairwise collision-free |
| `DependencyGraph.KnowledgeGraph.ListRelations` | src/threaddesk/storage/json_store.py:700-709 | lists exactly the relations whose own entry and endpoints are out of the trash, an endpoint being hidden with its thread |
| `DependencyGraph.KnowledgeGraph.CreatesDependencyCycle` | src/threaddesk/api/service.py:250-269 | the worklist search ends on every finite relation set and answers true exactly when what is listed leads from the target to the source |
| `DependencyGraph.KnowledgeGraph.Connect` | src/threaddesk/api/service.py:205-248 | each check answers in its turn; a dependency is stored exactly when nothing listed leads back, an acyclic graph stays acyclic, and a refusal for a cycle means one would have arisen |
| `DependencyGraph.ConnectIsExact` | src/threaddesk/api/service.py:205-248 | on an acyclic graph a relation is stored exactly if its kind is one of the nine, it has an origin, both nodes are there and out of the trash, its identifier is not in the trash and it leaves the graph acyclic; what else it is refused for |
| `DependencyGraph.ListedIs` | src/threaddesk/storage/json_store.py:700-709 | a relation is listed exactly if it is out of the trash and so is each of its known ends, with its thread |
| `DependencyGraph.AcyclicExtension` | src/threaddesk/api/service.py:226-240 | one more relation keeps an acyclic graph acyclic exactly when it is no dependency or its target does not reach its source |
| `DependencyGraph.AcyclicChange` | src/threaddesk/storage/json_store.py:700-709 | whatever comes into view at once keeps an acyclic graph acyclic exactly when no dependency among it leads back to its own source over all that is then in view |
| `DependencyGraph.StepKeepsAcyclic` | src/threaddesk/services/trash.py:254-260 | for every request on graph and trash: the listed relations stay acyclic exactly under that condition, which only restores and imports can break |
| `DependencyGraph.RestoreBrings` | src/threaddesk/storage/lifecycle.py:35-46 | a restore brings into view only the relation itself, those of the node, or those of the nodes the thread owns |
| `DependencyGraph.RunAcyclic` | src/threaddesk/services/trash.py:204-260 | over every history from an acyclic graph: no cycle is ever in view exactly if every restore and import found no dependency leading back at its time |
| `DependencyGraph.ConnectingIsAcyclic` | src/threaddesk/api/service.py:226-240 | without restores and imports no history ever shows a cycle |
| `DependencyGraph.KnowledgeGraph.RestoreObject` | src/threaddesk/services/trash.py:254-260 | the restore, which runs no search, is that request, and keeps acyclicity exactly under the condition |
| `DependencyGraph.KnowledgeGraph.ImportRelation` | src/threaddesk/server_sync/metadata.py:417-431 | so is the write of an imported relation |
| `DependencyGraph.AddIsExact` | src/threaddesk/storage/json_store.py:652-658 | a thread or node is stored, with its owner, exactly if neither it nor the owner is in the trash and a node's identifier is new |
| `DependencyGraph.TrashIsExact` | src/threaddesk/services/trash.py:204-260 | the trash gains and loses exactly the named object, exactly if it exists, is on the other side and is current; an import is stored exactly if it and its known ends are out of the trash |
| `DependencyGraph.RestoredRelation` | src/threaddesk/services/trash.py:254-260 | a history that closes a cycle: connect a to b, trash the relation, connect b to a, restore it |
| `DependencyGraph.RestoredNode` | src/threaddesk/storage/lifecycle.py:35-46 | another, in which no relation is trashed: connect a to b and b to c, trash b, connect c to a, restore b |
| `DependencyGraph.ImportedRelation` | src/threaddesk/server_sync/metadata.py:417-431 | another, in which nothing is trashed: connect a to b, import b to a |
| `Store.SyncStore.DeclareManifest` | src/threaddesk/server_sync/store.py:170-200 | the declaration transaction is the specified one (`DeclareExact` says what that stores) and keeps every store invariant |
| `Store.SyncStore.StartUpload` | src/threaddesk/server_sync/store.py:300-335 | begin: idempotent repetition, base, path and quota checks, then a reservation; keeps every invariant |
| `Store.SyncStore.AppendChunk` | src/threaddesk/server_sync/store.py:362-380 | an accepted chunk extends the journal at its end; repetition is answered, anything else refused; keeps every invariant |
| `Store.SyncStore.JoinChunks` | src/threaddesk/server_sync/store.py:390-399 | the rows in offset order, concatenated, or nothing as soon as a row is out of place |
| `Store.SyncStore.FinishUpload` | src/threaddesk/server_sync/store.py:382-412 | commit: verified concatenation becomes a version and a head, its base stops being one, the row is closed and the chunks go; keeps every invariant |
| `Store.SyncStore.AbortUpload` | src/threaddesk/server_sync/store.py:347-360 | abort of a receiving or unknown transfer closes it; repeated abort and abort after commit change nothing |
| `Store.SyncStore.Resolve` | src/threaddesk/server_sync/store.py:422-438 | the expected heads must be exactly the current ones; the chosen one remains; keeps every invariant |
| `Store.SyncStore.ReadRevision` | src/threaddesk/server_sync/store.py:414-420 | in a valid store a read succeeds exactly for a version of the project |
| `StoreAnswers.CreateExact` | src/threaddesk/server_sync/store.py:144-152 | a project is created exactly if its title is not blank, has at most 500 characters and its identifier is new, and then with copies disabled |
| `StoreAnswers.DeclareExact` | src/threaddesk/server_sync/store.py:170-200 | a declaration is accepted exactly if list, issues and sizes are within bounds, the paths distinct and pairwise clear and the project there; the device's row then holds exactly the declared entries, for the browser the files with one head, and exactly the issues, and every other row is as before |
| `StoreAnswers.BeginExact` | src/threaddesk/server_sync/store.py:300-335 | a begin under a new identifier is accepted exactly if size, project, switch and base are in order, no version, live transfer or declared file of the project has a colliding path, and there is room; it opens one row, and the refusals come in the order of the code |
| `StoreAnswers.BeginAgainExact` | src/threaddesk/server_sync/store.py:308-318 | a begin under a known identifier changes nothing: it reports the row if that is aborted or for the same file, else it is refused |
| `StoreAnswers.AppendExact` | src/threaddesk/server_sync/store.py:362-380 | a chunk is acknowledged exactly if it is legal and the next of an open transfer, or a repetition; what each other chunk is refused for |
| `StoreAnswers.AppendWrites` | src/threaddesk/server_sync/store.py:374-380 | an appended chunk lengthens what was received by exactly its bytes and touches no other transfer, version or head |
| `StoreAnswers.CommitExact` | src/threaddesk/server_sync/store.py:382-412 | a commit of what was received succeeds exactly if copies are enabled, everything announced is there with the announced digest and the revision is new; one version of exactly these bytes replaces the transfer's base among the heads, and nothing else changes |
| `StoreAnswers.CommitAgainExact` | src/threaddesk/server_sync/store.py:386-389 | a commit of a closed transfer brings its receipt again, or the refusal of an aborted one, and changes nothing |
| `StoreAnswers.AbortExact` | src/threaddesk/server_sync/store.py:347-360 | an abort is accepted exactly if the project exists; a receiving transfer becomes aborted without chunks, an unknown identifier is closed for good, a closed one is reported |
| `StoreAnswers.ResolveExact` | src/threaddesk/server_sync/store.py:422-438 | a choice is accepted exactly if the heads are listed as they are, each once; the chosen one is then the only head of its path and all other heads are as before |
| `StoreAnswers.ReadExact` | src/threaddesk/server_sync/store.py:414-420 | every version of a project, and nothing else, can be read, as the bytes of its digest and size |
| `StoreInvariant.RunKeeps` | src/threaddesk/server_sync/store.py:121-136 | every list of transactions keeps verified versions, live heads, chunk journals, quota, unambiguous paths and one version per transfer |
| `StoreInvariant.ReachableIsValid` | src/threaddesk/server_sync/store.py:121-136 | so every store reached from the empty one has them all |
| `StoreInvariant.VersionPathsApart` | src/threaddesk/server_sync/store.py:60-70 | in every reachable store no two versions of a project, and no version and no file being received, have paths that collide |
| `StoreInvariant.CommitMovesBytes` | src/threaddesk/server_sync/store.py:403-411 | a commit moves the transfer's size from reserved to committed, the sum unchanged, and frees its slot |
| `StoreInvariant.AbortFrees` | src/threaddesk/server_sync/store.py:347-360 | an abort frees exactly the transfer's own reservation and leaves it closed |
| `StoreInvariant.CommitOutcome` | src/threaddesk/server_sync/store.py:382-399 | in a reachable store a complete transfer never meets a corrupt journal; what is stored is the concatenation of its acknowledged chunks |
| `StoreInvariant.AssembleAppend` | src/threaddesk/server_sync/store.py:374-380 | a chunk put at the end of a gapless journal is appended to what it assembles to |
| `StoreHistory.RunLater` | src/threaddesk/server_sync/store.py:121-136 | no run removes or changes a version, removes a transfer row, or touches a closed one |
| `StoreHistory.TerminalForever` | src/threaddesk/server_sync/store.py:308-318 | once committed or aborted, no later request of any kind changes the row or reserves a byte for it |
| `StoreHistory.ReceiptStable` | src/threaddesk/server_sync/store.py:386-389 | a commit answered once is answered with the same receipt after any later run |
| `StoreHistory.HeadStructure` | src/threaddesk/server_sync/store.py:403-407 | over every run: heads are exactly the versions no committed transfer names as base and no resolution dropped, every path with a version has a head, every head's version has its project and path |
| `StoreHistory.ResolveDropsListed` | src/threaddesk/server_sync/store.py:422-438 | a resolution drops only heads its caller listed, all of one path, and no version |
| `Readiness.ReadyIsExact` | src/threaddesk/server_sync/store.py:234-282 | `ready` holds exactly when copies are enabled, some device declared, none reported an issue, nothing is receiving, every path has one verified head and the declarations together are precisely those heads |
| `Readiness.ReadyWhenReachable` | src/threaddesk/server_sync/store.py:234-282 | in a reachable store verification is never what withholds it |
| `Readiness.BrowserNeverBlocks` | src/threaddesk/server_sync/store.py:202-205 | with unique heads the browser's own declaration wants exactly the current files |
| `Readiness.Status` | src/threaddesk/server_sync/store.py:234-282 | the status method computes verdict, missing files with their bytes, conflicts, issues and transfers as defined |
| `Readiness.Shortfall` | src/threaddesk/server_sync/store.py:246-262 | the missing files are exactly the wanted ones no verified head provides, and the bytes their sum |
| `Verdicts.VerdictIsExact` | src/threaddesk/server_sync/store.py:276-277 | each of the five verdicts, said of the tables: without copies metadata only, else a forked path is a conflict, else an issue blocks, else what is undeclared, missing or receiving is pending, else ready |
| `Verdicts.ReportIsExact` | src/threaddesk/server_sync/store.py:234-282 | the report lists exactly the declared issues, disagreements, undeclared and corrupt files, the declared files no sound head provides, the forked paths and the receiving transfers |
| `Verdicts.DeclaredIssueWithholds` | src/threaddesk/server_sync/store.py:238-241 | over every run: while a device's latest accepted declaration has an issue the report lists it and the project is never ready |
| `Replication.ExecKeeps` | src/threaddesk/server_sync/client.py:213-287 | the replica protocol's invariant holds after every list of actions: lost, repeated, reordered and late messages, other users, edits, crashes |
| `ReplicationResults.TransferClosure` | src/threaddesk/server_sync/client.py:369-422 | a transfer id of a replica that the server holds as receiving is in that replica's durable table; one no longer there is committed or aborted |
| `ReplicationResults.ForgottenForever` | src/threaddesk/server_sync/client.py:213-236 | whatever arrives after a replica forgot an id, in any order, its server row never changes and never reserves again |
| `ReplicationResults.OneVersionEach` | src/threaddesk/server_sync/store.py:382-412 | a transfer publishes at most one version, however often its requests arrive, and a version comes from one transfer |
| `ReplicationResults.BaseIsHeldVersion` | src/threaddesk/server_sync/client.py:264-271 | a base row always names a retained version of its path, with its digest, whose bytes this replica once held there |
| `ReplicationResults.InstallReplacesRetained` | src/threaddesk/server_sync/client.py:595-647 | an install replaces only bytes the server retains as a version of that path |
| `ReplicationResults.CommitSparesUnseen` | src/threaddesk/server_sync/store.py:403-407 | a request that removes a head removes the base of the committed transfer, and a replica that authored it had held that version |
| `PendingRows.PendingIsTheServers` | src/threaddesk/server_sync/client.py:369-422 | in every behaviour the server's row under a pending transfer, and its receipt once committed, is for that very row: path, content, base; no other row of any replica has the identifier, and its base is the replica's common version |
| `Client.SyncClient.TerminalTransfer` | src/threaddesk/server_sync/client.py:213-236 | its success is proof that the transfer is over, with a receipt for these very bytes if it was committed; where nothing interferes it always succeeds for a row of the table, and closes exactly that transfer |
| `Client.SyncClient.RememberHead` | src/threaddesk/server_sync/client.py:264-271 | a base row is written, and the pending row dropped, only after the pending transfer is over; on any doubt nothing is written; where nothing interferes it is always written |
| `Client.SyncClient.ReconcilePending` | src/threaddesk/server_sync/client.py:273-287 | afterwards the pending rows are exactly those whose file still has the content that was being sent; where nothing interferes it succeeds, and each dropped row's transfer is closed, its receipt, if any, the base, and no other transfer, version or head touched |
| `Client.SyncClient.ClaimRow` | src/threaddesk/server_sync/client.py:369-395 | before anything is sent there is a durable row for these bytes and the current base; any other row of the path was closed first |
| `Client.SyncClient.BeginTransfer` | src/threaddesk/server_sync/client.py:395-408 | an id found aborted is replaced, for the same bytes and base, by at most one durable write made after that answer; the attempt is given up only when the new one is aborted too; where nothing interferes the transfer opens exactly if it goes on or is admitted |
| `Client.SyncClient.SendBytes` | src/threaddesk/server_sync/client.py:409-420 | where nothing interferes and the received bytes are a prefix of the file, all of it is received in the end, and nothing but that transfer changes |
| `Client.SyncClient.Upload` | src/threaddesk/server_sync/client.py:369-422 | a receipt returned is the server's, published by the row's own transfer, and the server retains a version of this path with these bytes; where nothing interferes it succeeds when the file has the content and can be sent, without a row to resume only then, and one version of exactly its bytes replaces its base among the heads |
| `Client.SyncClient.UploadOne` | src/threaddesk/server_sync/client.py:595-606 | a file is skipped exactly if a head has its content, or it is the common version and there is a head; any other is uploaded where nothing interferes and it can be sent |
| `QuietUpload.SendableReady` | src/threaddesk/server_sync/store.py:330-333 | files that are each admissible room aside, pairwise clear, and together within what may be stored, can each be sent |
| `QuietUpload.SendableStays` | src/threaddesk/server_sync/store.py:403-411 | and after any one was sent the others still can: its bytes moved from reserved or wanted to stored |
| `Client.SyncClient.UploadPass` | src/threaddesk/server_sync/client.py:595-606 | a pass without an issue leaves the content of every inventoried file retained at the server as a version of its path; where nothing interferes and the files can be sent there is none, and each is published in place of its base, all else unchanged |
| `Client.SyncClient.InstallPass` | src/threaddesk/server_sync/client.py:607-647 | a pass without an issue leaves every listed path at its single head; where nothing interferes every listed path is brought to its end, and there is no issue exactly if every one takes its head |
| `Client.SyncClient.Download` | src/threaddesk/server_sync/client.py:424-431 | a body is accepted only with the listed digest and size; where nothing interferes a listed head is always fetched |
| `Client.SyncClient.InstallOne` | src/threaddesk/server_sync/client.py:602-647 | the only writes one remote path leads to are recording one of its heads as common, or, with a single head, replacing a file that at that moment is still what the inventory found: nothing, or the base content; of several heads none is installed; where nothing interferes it succeeds exactly if there is one head, the file is as inventoried and is absent, has the head's content or has the base's, and then file and base are the head's; among several a local one is recorded; else nothing changes; the heads that are neither taken nor here are fetched |
| `Client.SyncClient.SyncOnce` | src/threaddesk/server_sync/client.py:562-658 | however the round ends, only protocol steps were taken; if it completes, no pending row is for content the inventory did not find; without an issue, every inventoried content is retained at the server and every path of the last listing is at its one head; where nothing interferes it first closes out exactly the rows for other content, and if then the files to send can be sent, it completes, brings every path to the end `RoundEnds` states, and is without an issue exactly if every path is fine |
| `QuietRound.FineRound` | src/threaddesk/server_sync/client.py:595-647 | after such a round without an issue folder and server agree on every inventoried and every remote path: one head, its bytes at the path, its revision the base, nothing pending; what was sent is the file's own content |
| `QuietRound.FineTakes` | src/threaddesk/server_sync/client.py:607-647 | after the uploads every listed path takes its head exactly if, before the round, every path had one head that it could take or was to be sent over its base only |
| `QuietRound.FirstRound` | src/threaddesk/server_sync/client.py:625-627 | a replica that has nothing takes everything: its first round is without an issue exactly if every remote path has one head |
| `SyncWorld.World.Act` | src/threaddesk/server_sync/client.py:199-207 | every move of the surroundings, performed on the real store object, is exactly one step of the protocol |
| `Installation.MoveSound` | src/threaddesk/server_sync/client.py:451-516 | no move of the user loses a file of the user or reaches the private names |
| `Installation.Folder.Install` | src/threaddesk/server_sync/client.py:451-516 | under arbitrary user moves and failures between any two calls: no user file is lost or altered, the displaced one is in recovery, new content is published only over nothing or over the expected digest; how the body ended fixes which calls it made; without publication an untouched pathname has the old file back exactly if neither call of the clean-up, at its known place in the schedule, fails |
| `Installation.Folder.TakeAway` | src/threaddesk/server_sync/client.py:472-478 | the rename takes whatever is at the pathname into recovery and leaves the pathname free |
| `Installation.Folder.SetAside` | src/threaddesk/server_sync/client.py:472-494 | going on means the displaced file was read back with the expected digest |
| `Installation.Folder.Publish` | src/threaddesk/server_sync/client.py:460-499 | each way of stopping has its place among the calls; with nobody about it is refused exactly if the pathname was not as expected, and else stopped only by a failing call |
| `Installation.InstalledExactly` | src/threaddesk/server_sync/client.py:451-516 | with nobody about, an installation succeeds exactly if the pathname is as expected and none of its six or ten calls fails |
| `Installation.FlushFails` | src/threaddesk/server_sync/client.py:495-500 | a schedule in which only the flush after the link fails: the caller hears of a failure, the new content is published |
| `Installation.DropFails` | src/threaddesk/server_sync/client.py:500-516 | a schedule in which reading back and then dropping the temporary name fail: the pathname stays empty, the old file is in recovery |
| `Installation.LinkBackFails` | src/threaddesk/server_sync/client.py:500-516 | the same with linking back: the temporary name is gone and the pathname empty |
| `Documents.ParseRender` | src/threaddesk/server_sync/metadata.py:249-273 | a rendered leaf key is taken apart into the same path exactly if no origin or key in it contains the separator |
| `Documents.RenderInjective` | src/threaddesk/server_sync/metadata.py:249-260 | leaf keys never collide |
| `Documents.AssembleLeaves` | src/threaddesk/server_sync/metadata.py:249-273 | a document comes back from its leaves, format tag included, exactly if every item has a field and the tag says whether there is a lifecycle |
| `Documents.LeavesAssemble` | src/threaddesk/server_sync/metadata.py:249-273 | leaves come back from the document built of them |
| `Documents.ValidRoundTrip` | src/threaddesk/server_sync/metadata.py:65-121 | the two undo each other on every document validation lets in, whose keys are separable and distinct |
| `Documents.LeavesDetermine` | src/threaddesk/server_sync/metadata.py:262-273 | a tidy document is determined by its leaves |
| `Documents.AlikeAt` | src/threaddesk/server_sync/metadata.py:281-300 | documents equal to Python have, at every path, leaves equal to Python |
| `Documents.AlikeLeavesAlike` | src/threaddesk/server_sync/metadata.py:281-300 | and tidy documents with such leaves are equal to Python |
| `Documents.Flatten` | src/threaddesk/server_sync/metadata.py:249-260 | the loops yield every leaf and nothing else |
| `Documents.Unflatten` | src/threaddesk/server_sync/metadata.py:262-273 | the loop builds the one tidy document with these leaves, in whatever order they come |
| `LifecycleGuard.GuardMerge` | src/threaddesk/server_sync/lifecycle.py:63-100 | the loop collects the conflict of every scope, with base, incoming and current state |
| `LifecycleGuard.GuardPasses` | src/threaddesk/server_sync/lifecycle.py:63-100 | no conflict exactly if every scope keeps its state, nothing trashed or purged edited, or makes a legal move while its content is what the writer saw |
| `LifecycleGuard.GuardIsExact` | src/threaddesk/server_sync/lifecycle.py:63-100 | the conflicts are one for each scope that does not pass, with exactly the three documents' states of that scope and the one reason that holds of states and contents |
| `LifecycleGuard.ReasonIs` | src/threaddesk/server_sync/lifecycle.py:70-99 | what each of the eight reasons means, and that exactly one is given |
| `LifecycleGuard.ContentLeaves` | src/threaddesk/server_sync/lifecycle.py:54-60 | two documents say the same about a scope exactly if Python finds each of its leaves the same, for the whole thread everything but the lifecycle |
| `LifecycleGuard.MoveAdvances` | src/threaddesk/server_sync/lifecycle.py:75-93 | a legal move is one stage forward, lexicographically forward in generation and revision, never from or into a purge |
| `LifecycleGuard.FirstTombstoneRevisionUnchecked` | src/threaddesk/server_sync/lifecycle.py:80-82 | the guard accepts a first tombstone with any revision; the check is left to the trash service (lines 235-236) |
| `Merge.MergeDocuments` | src/threaddesk/server_sync/metadata.py:276-301 | guard, flatten, three-way loop, unflatten and validation compute the specified outcome, which `MergeIsExact` says of documents and leaves |
| `Merge.MergeIsExact` | src/threaddesk/server_sync/metadata.py:276-301 | the whole outcome: if some scope does not pass, the current document and exactly those scopes' conflicts; else the one document with current's leaves, incoming's where they give way and all file references, and exactly the contested changes; rejected exactly if that document is not valid |
| `Merge.MergeLeaves` | src/threaddesk/server_sync/metadata.py:282-300 | the loop over all paths yields exactly the merged leaves and the clashes, comparing as Python does: booleans are the numbers 0 and 1, and a number counts by its value |
| `Merge.FlatConservation` | src/threaddesk/server_sync/metadata.py:282-300 | the same on leaf maps, for any three of them |
| `Merge.LeafConservation` | src/threaddesk/server_sync/metadata.py:282-300 | per leaf, comparing as Python does: merged is incoming's or current's value; current gives way exactly if incoming changed it to something and current still has the base value or what stands for nothing; every other incoming change is journaled with its three values |
| `Merge.ConflictsAreContests` | src/threaddesk/server_sync/metadata.py:291-299 | every journaled conflict has the exact base, incoming and current value of its path, one per path, and current's value stays |
| `Merge.FilesUnite` | src/threaddesk/server_sync/metadata.py:285-287 | file references of the result are exactly the union |
| `Merge.AbsenceNeverDeletes` | src/threaddesk/server_sync/metadata.py:276-301 | no current leaf disappears and every new incoming leaf appears |
| `Merge.AbsentStaysAway` | src/threaddesk/server_sync/metadata.py:288-297 | a leaf current does not have appears exactly if incoming has it and Python tells its value from the base's; no conflict is journaled for it unless incoming has none |
| `Merge.NoSilentOverwrite` | src/threaddesk/server_sync/metadata.py:288-297 | a current value not written as in the base survives, unless Python finds it equal to the base value or to what stands for an absent leaf; then it survives exactly if incoming did not change the leaf, deleted it, agrees, or the entry is a whiteboard's |
| `Merge.ChangeLost` | src/threaddesk/server_sync/metadata.py:288-297 | an incoming change is neither in the result nor journaled exactly if the current value is written differently while Python finds the incoming value equal to it or to the base value |
| `Merge.SpellingLost` | src/threaddesk/server_sync/metadata.py:288-297 | so it happens to a change of 1 to true, between valid documents |
| `Merge.StandIns` | src/threaddesk/server_sync/metadata.py:23-23 | what stands for an absent leaf: an object of the one key, with true, 1 or any other spelling of 1 |
| `Merge.StandInOverwritten` | src/threaddesk/server_sync/metadata.py:23-23 | for every one of these spellings: a valid document with node metadata of that value, overwritten with no conflict |
| `MergeResults.MergeMoves` | src/threaddesk/server_sync/lifecycle.py:63-100 | a merge leaves the state of a scope or makes one legal move, with its content as the writer saw it |
| `MergeResults.StatesOfOneSide` | src/threaddesk/server_sync/metadata.py:276-301 | a merge takes the states of one side as a whole |
| `MergeResults.LifeGoesForward` | src/threaddesk/server_sync/lifecycle.py:63-100 | along any run of merges states only go forward, purged is final and never adopted, no generation is skipped and none used twice |
| `MergeResults.FlatConvergence` | src/threaddesk/server_sync/metadata.py:276-301 | on leaf maps: pulling the merged leaves home meets no conflict exactly under the condition of Convergence; then every leaf ends up equal to Python, and all the same exactly if none was equal and written differently |
| `MergeResults.Convergence` | src/threaddesk/server_sync/metadata.py:586-622 | after one round without server conflict or edit the pull meets no conflict exactly if what only the server changed it still has and is no whiteboard entry the replica already had, the server kept the replica's lifecycle states, and, when the thread is in the trash, has no file reference the replica lacks; then the two sides are equal to Python |
| `MergeResults.PullGuard` | src/threaddesk/server_sync/lifecycle.py:63-100 | whatever states the two sides had: the guard of the pull finds nothing exactly under the last two of these conditions |
| `MergeResults.ExactConvergence` | src/threaddesk/server_sync/metadata.py:586-622 | they are the very same document exactly if besides no leaf was equal and written differently |
| `MergeResults.KeptBasePulls` | src/threaddesk/server_sync/metadata.py:586-622 | the pull is clean of leaves when the server dropped no base leaf and rewrote no whiteboard entry |
| `MergeResults.ConvergedDomain` | src/threaddesk/server_sync/metadata.py:586-622 | and the server's document then has exactly the leaves of both sides |
| `Adoption.RestoredHistoryPayloads` | src/threaddesk/server_sync/metadata.py:308-348 | the worklist terminates and retains exactly the missing part of the least set around the refused objects that is closed under owners and endpoints, copied from incoming |
| `Adoption.MissingPayloads` | src/threaddesk/server_sync/lifecycle.py:128-158 | filling terminates and succeeds exactly if every missing object in the least closed set around the adopted one has an intact payload that contradicts no recorded state; it then adds exactly these, and leaves what is present |
| `Adoption.RetentionSuffices` | src/threaddesk/server_sync/lifecycle.py:128-158 | what was retained at the merge suffices in every later document that still has the objects present then |
| `Adoption.ResolveDocument` | src/threaddesk/server_sync/lifecycle.py:161-189 | a choice is taken only as a legal move or as the adoption of one whole generation; nothing present is replaced, other states change only by legal moves. For a missing object only its first restored generation can be taken, exactly if what it leads to is available, its company has no history but first tombstones, and the thread is not in the trash; for anything else exactly a move or an adoption, and then nothing but that state differs |
| `Adoption.CompanyFirst` | src/threaddesk/server_sync/lifecycle.py:161-189 | company with restored history of its own stands in the way; after its adoption the object can be adopted exactly if the rest it leads to is usable and plain |
| `Adoption.CompanyFirstRun` | src/threaddesk/server_sync/lifecycle.py:161-189 | for every node and relation at it retained with restored history: the relation is refused, the node adopted, then the relation too |
| `Adoption.RetainedAdoptable` | src/threaddesk/server_sync/lifecycle.py:161-189 | from refusal to adoption: in a later document that kept the origins a refused object can be adopted exactly if the thread is not in the trash and what it still leads to has no history but first tombstones |
| `Adoption.ValidLinked` | src/threaddesk/server_sync/metadata.py:103-119 | validated documents keep relations and owners inside themselves |
| `MetadataCore.Core.Synchronize` | src/threaddesk/server_sync/metadata.py:469-488 | one transaction: replay, refusal of a reused id, or a merge recorded with its conflicts; refused restored history is retained with the receipt |
| `MetadataAnswers.SyncIsExact` | src/threaddesk/server_sync/metadata.py:469-488 | a merge request is answered exactly if both documents are valid and the merge can be made, or the identifier is on record for this very request; with which document, conflicts and record, and what it is refused for |
| `MetadataAnswers.ReplayIsExact` | src/threaddesk/server_sync/metadata.py:460-467 | an identifier on record is answered as it was for the same request, refused for any other, and changes nothing |
| `MetadataCore.AtMostOnce` | src/threaddesk/server_sync/metadata.py:460-477 | asking again, after anything else happened, changes nothing and brings the first answer |
| `MetadataCore.JournalExtends` | src/threaddesk/server_sync/metadata.py:451-457 | receipts are never changed or removed |
| `MetadataCore.Core.ListConflicts` | src/threaddesk/server_sync/metadata.py:491-495 | the two passes list exactly the journaled conflicts no resolution names |
| `MetadataAnswers.OpenIs` | src/threaddesk/server_sync/metadata.py:491-495 | a conflict is open exactly if an operation met it and no resolution names it |
| `MetadataCore.SyncConserves` | src/threaddesk/server_sync/metadata.py:469-495 | a merge closes no listed conflict and opens exactly its own |
| `MetadataCore.ResolutionConserves` | src/threaddesk/server_sync/metadata.py:504-537 | a leaf resolution closes no conflict but its own |
| `MetadataCore.AdoptionConserves` | src/threaddesk/server_sync/metadata.py:521-529 | neither does the choice of a lifecycle state, which closes its own and opens none |
| `MetadataCore.ConflictsAreKept` | src/threaddesk/server_sync/metadata.py:491-495 | a journaled conflict is, after any run, still listed or named by the record of a resolution |
| `MetadataCore.ResolutionChangesOneLeaf` | src/threaddesk/server_sync/metadata.py:504-537 | a leaf resolution takes a value Python finds equal to one of the two journaled ones at a path it found as expected, puts it there unless Python finds it there already, moves no other leaf and closes its conflict; a whiteboard entry it cannot change |
| `MetadataCore.Core.ResolveLeaf` | src/threaddesk/server_sync/metadata.py:504-537 | the method for leaf conflicts is that transaction, and `LeafIsExact` says when it succeeds |
| `MetadataAnswers.LeafIsExact` | src/threaddesk/server_sync/metadata.py:504-537 | a new resolution of a leaf is carried out exactly if the conflict is open, the leaf is as expected, the choice is one of the two journaled values and stands for nothing missing, no whiteboard entry is changed, and the document with that one leaf replaced is valid; that document is the answer, and exactly this conflict is closed |
| `MetadataAnswers.LeafRefusals` | src/threaddesk/server_sync/metadata.py:509-534 | which refusal each failing condition gives, in the order of the code |
| `MetadataCore.Core.ResolveState` | src/threaddesk/server_sync/metadata.py:521-529 | the method for lifecycle conflicts: bound to the whole document seen; it has a result for the validator exactly if the conflict is open, state and document are as seen, the choice is one of its two and can be taken; what the result is, and for a missing object exactly if it is adoptable from what the conflict's own operation retained |
| `MetadataAnswers.StateIsExact` | src/threaddesk/server_sync/metadata.py:511-529 | a new resolution of a state is carried out exactly if it has a result that is valid, closes exactly its conflict, and which refusal each failing condition gives |
| `MetadataAnswers.KeepingResolves` | src/threaddesk/server_sync/metadata.py:511-529 | a guarded merge changes nothing, and choosing the journaled current state then closes the conflict and changes nothing either |
| `MetadataCore.RetainedResolvable` | src/threaddesk/server_sync/metadata.py:521-529 | what a merge retained decides that: while the objects present at the merge stay, exactly if the thread is not in the trash and what the object still leads to has no history but first tombstones |
| `MetadataCore.MergeIsApplied` | src/threaddesk/server_sync/metadata.py:351-355 | skipping the write when Python finds the merged document equal to the current one loses nothing: they are then the same |
| `MetadataReplication.ExecKeeps` | src/threaddesk/server_sync/metadata.py:586-622 | the exchange's invariant holds after every list of actions, crashes, lost and repeated messages and foreign work included |
| `MetadataReplication.ExactlyOnce` | src/threaddesk/server_sync/metadata.py:586-622 | every operation is merged at most once at each side, at the server first, and exactly once at both when no longer pending |
| `MetadataReplication.MergesAreTheRecorded` | src/threaddesk/server_sync/metadata.py:460-488 | each such merge was of the prepared document against the prepared base, or at home of the server's recorded document against the prepared one, and its result is what the journal holds |
| `MetadataReplication.BaseIsRecorded` | src/threaddesk/server_sync/metadata.py:618-620 | the base is empty, seeded, or the server's recorded document of an operation, and changes only to that of the pending one |
| `MetadataReplication.EditsSurvive` | src/threaddesk/server_sync/metadata.py:614-617 | a leaf edited after the snapshot keeps its value, unless Python finds the edit equal to the snapshot or to what stands for an absent leaf, and an incoming value Python tells apart is journaled against it or the answer refused whole |
| `MetadataReplication.DeletionsSurvive` | src/threaddesk/server_sync/metadata.py:614-617 | a leaf deleted at home since the snapshot stays away, unless the answer has it with a value Python tells from the snapshot's, which then appears without a conflict; or the answer is refused whole |
| `MetadataReplication.FileEditsUnite` | src/threaddesk/server_sync/metadata.py:614-617 | file references added at home stay, and removed ones return exactly if the answer has them; or the answer is refused whole |
| `MetadataReplication.RetryFinishes` | src/threaddesk/server_sync/metadata.py:586-622 | a pending operation both sides merged completes on the next attempt without touching either |
| `MetadataClient.MetadataReplica.SyncOnce` | src/threaddesk/server_sync/metadata.py:586-622 | whatever the schedule of other moves, losses and crashes, the call is a behaviour of the exchange; completed, the base is the server's record and both journals hold its conflicts; otherwise base and pending operation stand; with nothing interfering it skips the exchange exactly when both documents are the base, stops exactly at a taken identifier, and else is one merge at each side that ends refused exactly if one side does not answer, and synchronized exactly if neither answer has a conflict; from a quiet start one call ends synchronized exactly if the pull is quiet and valid, with nothing pending and both documents equal to Python |
| `MetadataClient.QuietRound` | src/threaddesk/server_sync/metadata.py:586-622 | such an exchange without server conflict ends with documents equal to Python at both sides and no conflict exactly if the pull is clean of leaves, states and a trashed thread's file references |
| `MetadataClient.QuietExchange` | src/threaddesk/server_sync/metadata.py:586-622 | the same of the exchange the method performs: how it ends and what both sides then hold |
| `MetadataClient.MetadataReplica.SeedBase` | src/threaddesk/server_sync/metadata.py:570-584 | only a pristine checkpoint is seeded, with a valid document |
| `Archive.ValidateManifest` | src/threaddesk/server_sync/backup.py:212-246 | a manifest passes exactly if bounded, its paths safe, unaliased, none inside a file, and its total the sum of its sizes |
| `Archive.Extract` | src/threaddesk/server_sync/backup.py:249-326 | the block reader computes the specified result on every byte string |
| `Archive.AcceptedIsExact` | src/threaddesk/server_sync/backup.py:249-326 | whatever is accepted yields each manifested path once, with its size and digest, and nothing else |
| `ArchiveFormat.ArchiveRead` | src/threaddesk/server_sync/backup.py:249-326 | every archive of the right form, members in any order, filled up with anything and closed by any number of zeros from 1024 on, is restored as its contents exactly if it is within the size bound, its manifest acceptable and its contents usable |
| `ArchiveFormat.RestoredIsArchive` | src/threaddesk/server_sync/backup.py:249-326 | and nothing else is restored |
| `Archive.RoundTrip` | src/threaddesk/server_sync/backup.py:188-200 | an archive written from a restorable manifest is read back as exactly its files, for all contents and sizes |
| `Archive.ArchiveFits` | src/threaddesk/server_sync/backup.py:249-251 | the reader's size bound never excludes such an archive, whatever the limits |
| `Archive.Write` | src/threaddesk/server_sync/backup.py:188-200 | the writer yields the archive exactly if names and sizes fit the headers and no file changed since the manifest |
| `Archive.Backup` | src/threaddesk/server_sync/backup.py:167-209 | an archive is published exactly if that holds and the snapshot may be restored, and a restore then yields the snapshot |
| `Archive.BackupOneFile` | src/threaddesk/server_sync/backup.py:167-209 | and none of it is about nothing: every snapshot of one file at a safe path, of any content a header can announce, is published and restored, at the tightest limits |
| `Archive.ReadBody` | src/threaddesk/server_sync/backup.py:304-318 | a member's content is read whole, block by block, with its padding, or not at all |
| `SnapshotCheck.Check` | src/threaddesk/server_sync/backup.py:140-160 | the checks pass exactly if versions are verified and bounded, chunks are of legal size and every open journal tiles up to its offset |
| `SnapshotCheck.ReachableIsSound` | src/threaddesk/server_sync/backup.py:140-160 | every reachable store passes them |

## Left out

- HTTP routing, authentication, cookies, TLS, body limits, user interface: plumbing around these calls.
- Symlinks, permissions, descriptors and flushing, except that any call of an installation may fail.
- Static parsing of source files in discovery, its issue texts and the approved-root grants: no specification to prove.
- Timestamps, titles of projects beyond blankness in ASCII, order of history rows and of conflict lists: a conflict is identified by its operation and path instead of operation and index.
- Format checks of identifiers, paths and digests at the store's entry: identifiers, paths and digests are typed here.
- File references and JSON lists of paths are sets: exported documents list them sorted and once.
- The end of a file round before its first listing when copies are disabled: the server's refusals then end it as an issue or failure.
- The last status report and manifest upload of a file round: they change no file, base or pending row.
- Retired transfers of a rebound project, root relocation and watch mode.
- The recovery sidecars and copies of competing versions are fetched and not interpreted.
- The mapping of documents to native objects (`_apply`, `_scoped_graph`, `_namespace`, `TrashService`): the storage modules behind them are not part of this model. A whole `lifecycle` leaf chosen in a leaf resolution is therefore not checked again by the trash service here.
- The byte limit on retained payloads and the derived local identifiers inside them.
- Project identity of a metadata checkpoint, and the entity-tag form of the conditional read: its answer is whether the server's document equals the base.
- Free-space checks and inventory of the source directory in the snapshot; credentials checks are a parameter.
- Purging an object: the trash service purges only what is in the trash, and a node only without relations, so nothing listed changes; revisions and digests of trash requests are one answer, whether they are current.
- The trash service as the part that carries out a merge's lifecycle moves: it refuses a first tombstone numbered other than 1, in the same transaction, where the model lets the merge through.
- Client.SyncClient.SyncOnce: where nothing interferes a file to send whose transfer was committed behind the replica's back, its version being no head any more, is not followed further.
- InstallFile: the round treats an installation as one step between two looks at the file; `Installation.Folder.Install` is the step-by-step account.
