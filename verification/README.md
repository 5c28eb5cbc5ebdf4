# Concord: verified model of the collaboration server

Concord is a single-process server for shared code editing, with one execution
worker. This project models its protocols in Dafny and proves what they promise.
`dafny verify dfyconfig.toml` checks everything.

## What is modelled

Three step systems share the runs of `Runs`, and each is described below.

**The live room of one session** (`LiveDocument`, `DocumentStorage`, `Membership`,
`RoomRegistry`, `RoomProtocol`, `RoomInvariants`, `RoomData`, `RoomTheorems`). One step system
in which every `await` is an interleaving point. WebSocket connections authenticate,
join, send frames and leave; saves, restores, snapshots and runs hold the room gate;
loads, saves and checkpoints run in separate steps with edits arriving in between;
maintenance evicts; owners change roles, remove members and close the session while
invitations take no gate. A Y.Doc is the set of operations it has integrated: merging
is union, an update is a set of operations, and the state hash identifies the set.
The fields `accepted`, `versions`, `commits`, `conjured` and `applied` record history
for the theorems and influence nothing.

**The objects of the source in their own form** (`DocumentManager`, `RoomHub`,
`SessionEndpoints`, `ExecutionBackend`, `AwarenessStore`, `EditorBinding`). Classes
with the source's fields, whose methods are proved against the functions used by the
step systems. `StoredSession` has the outcomes of the gated requests. A method is one
uninterrupted segment, or an operation that is given the edits arriving during its I/O.
`EndpointRuns` and `ConnectionRuns` show that uninterrupted endpoints, connections,
maintenance and membership changes are runs of the room protocol that end where the source
says, `ExecutionBackend` the same for the worker.

**The retiring guards** (`SessionGuard`). Guard objects with identities, tasks that
enter, wait, are cancelled and leave. Mutual exclusion is proved here, and it is why
`DocumentStorage` has a single operation in flight.

**The execution lifecycle** (`ExecutionStatus`, `ExecutionLifecycle`,
`ExecutionTheorems`, `ExecutionFaults`, `ExecutionBackend`, `OutputStream`). API calls, the two Redis
lists, cancellation keys and one worker that may die between any two steps, or be
interrupted so that its clean-up runs, and recovers when it boots. Cancelling a running execution is two steps, because the key
is visible before the commit.

**Awareness, wire format and editor** (`Awareness`, `AwarenessStore`, `VarUint`,
`WireProtocol`, `TextEdits`, `EditorBinding`). UTF-8 and JSON are uninterpreted partial
functions of the type `Text`. Editor texts are strings with plain offsets; the two
handlers call each other re-entrantly, as Monaco and Yjs make them.

## What was found

Six promises fail in cases the model names. The code is modelled as it is; the lemmas
state what it does.

- A Redis read that fails during a load is ignored
  (backend/app/collaboration/document.py:224-233). If Redis has something that PostgreSQL
  lacks, the load misses it and the next checkpoint overwrites it. `NothingIsEverLostIff`
  gives the exact condition over runs, `LoadKeepsEverythingIff` that of one load,
  `OutageLosesEdits` a run.
- An orderly interruption of the worker, such as a keyboard interrupt, is no `Exception`:
  the handler of `process` does not see it, but the clean-up of `run` removes the claimed
  job from the processing list (backend/app/execution/worker.py:437-440). A job that was
  not over then is lost, although a crash at the same point keeps it: `NoJobIsEverLostIff`,
  `InterruptLosesAJob`.
- A publish that raises right after a claim (backend/app/execution/worker.py:134-138) has
  the same effect. Some later run ends the job if and only if a duplicate of its identifier
  is still queued, or its creation fails yet: `PublishFaultStrandsJobIff`,
  `OnePublishFaultLosesAJob`.
- A publish that raises after the `_finish` of the body committed makes the exception
  handler attempt an illegal transition, unless the execution was cancelled:
  `FinishPublishFaultIsIllegalIff`, `FinishPublishFaultIsReached`. A publish that raises
  after the second transition only leads to FAILED, which is the step `Launch` followed by
  `Fails`.
- A push that raises may have reached Redis before, when its reply timed out
  (backend/app/execution/queue.py:35-48). The request is then answered with an error and the
  row deleted (backend/app/execution/service.py:52-59), but the worker may hold the job and
  run it. `RefusedJobRunsIff` gives the exact condition, `RefusedJobStillRuns` a run.
- In the same way a cancellation that was answered with an error may cancel:
  `RefusedCancellationStillCancels`. Nothing is ever cancelled that nobody asked to cancel:
  `CancelledOnlyIfAsked`.

Three guarantees rest on something other than the function that seems to give them.

- `apply_update` and `restore_text_from_state` rely on `get_or_create`, which makes a blank
  document for a session that is not loaded. No path through the room reaches that
  (`ConnectedRoomsStayLoaded`), because of the room gate and not of the manager.
- With one worker, the early return of `process` after its second transition
  (backend/app/execution/worker.py:307-314) is taken only for a row that such a refused
  creation deleted: `LaunchSucceedsIff`, `EarlyReturnIsTaken`.
- The activity check of a membership change may be answered by the session object that the
  permission dependency loaded before the gate (backend/app/sessions/service.py:28-34,
  backend/app/auth/dependencies.py:67-79), and a change to the role already held commits
  nothing. The protocol therefore does not assume that this check saw the latest row, and lets a role
  change end without writing; authorization is proved all the same.

## Model

| member | source | states |
|---|---|---|
| RoomTheorems.EveryAppliedUpdateWasAuthorized | backend/app/collaboration/websocket.py:524-552 | In every interleaving of authentication, joins, frames, HTTP requests, storage I/O and membership changes, each update that reached a document came from a user who, in the row PostgreSQL showed at that moment, was an editor or the owner of an active session; a session with exactly its one owner keeps it so |
| RoomTheorems.OwnerStaysSingle | backend/app/sessions/service.py:131-188 | Over every run from any state, no membership change makes a second owner or takes the owner's role away |
| RoomTheorems.FrameIsAppliedIff | backend/app/collaboration/websocket.py:524-545 | A decodable frame is applied exactly when its connection is not fenced and was not admitted as a viewer, which under the room lock is the same as PostgreSQL showing no viewer now; the document gains exactly its operations, or nothing |
| RoomTheorems.StaleFrameIsRefused | backend/app/collaboration/websocket.py:524-545 | A fenced frame is revoked with the fence's reason, one of a viewer is refused; both leave document and log alone |
| RoomTheorems.CurrentFrameIsApplied | backend/app/collaboration/websocket.py:524-545 | An unfenced frame of a connection that was not admitted as a viewer lands in document and log, and its role is the one PostgreSQL shows |
| ConnectionRuns.UninterruptedEdit | backend/app/collaboration/websocket.py:519-552 | From the wire: an update that an unfenced editor's connection receives is handled, waits for the room lock and is in the document |
| ConnectionRuns.UninterruptedDenial | backend/app/collaboration/websocket.py:558-562 | A viewer's update gets as far and changes nothing |
| ConnectionRuns.UninterruptedSync | backend/app/collaboration/websocket.py:502-517 | Asking for state is for everybody and changes nothing |
| ConnectionRuns.StaleConnectionsLeave | backend/app/collaboration/websocket.py:692-698 | A connection found stale after joining or on its next frame is revoked with the reason and on its way out |
| ConnectionRuns.RevokedFramesAreDropped | backend/app/collaboration/websocket.py:487-488 | A frame received before the revocation is dropped |
| ConnectionRuns.UninterruptedConnect | backend/app/collaboration/websocket.py:649-690 | A member of an active session gets to be served, in the room, with the role PostgreSQL shows, a current stamp and the whole document, in an empty room as in a populated one |
| ConnectionRuns.UninterruptedRejection | backend/app/collaboration/websocket.py:138-155 | A stranger, or anybody once the session is closed, leaves no trace |
| ConnectionRuns.FailedLoadDropsConnection | backend/app/collaboration/websocket.py:725-734 | A connection whose first load fails leaves neither stamp nor room entry nor loading mark |
| ConnectionRuns.UninterruptedLeave | backend/app/collaboration/websocket.py:612-629 | Leaving a room in which others stay takes out that connection and changes nothing else |
| ConnectionRuns.UninterruptedLastLeave | backend/app/collaboration/websocket.py:631-642 | The last one out checkpoints the document, and takes it out of memory if Redis accepts it |
| ConnectionRuns.UninterruptedMaintenance | backend/app/collaboration/websocket.py:443-454 | Maintenance evicts a document nobody is connected to, if Redis accepts it |
| ConnectionRuns.UninterruptedIdleMaintenance | backend/app/collaboration/websocket.py:443-454 | It has nothing to do for a session that is not loaded |
| ConnectionRuns.UninterruptedCheckpoint | backend/app/collaboration/websocket.py:456-458 | A periodic checkpoint keeps the document and records its generation if Redis accepts it |
| ConnectionRuns.UninterruptedMutation | backend/app/sessions/router.py:281-344 | A membership change runs to the row of its service call and to the fence with its reason, and touches no document |
| ConnectionRuns.FencesFollowCommits | backend/app/sessions/router.py:281-293 | Nothing is fenced before its commit, and only a change to the role already held commits without writing |
| ConnectionRuns.UninterruptedRefusedMutation | backend/app/sessions/router.py:284-285 | A refused one runs back to the very state it found |
| ConnectionRuns.EditorsShareADocument | backend/app/collaboration/websocket.py:649-707 | From every stored session: two editors connect one after the other, both edit, and the document holds what was stored and both edits |
| RoomTheorems.NothingIsKeptForGoneConnections | backend/app/collaboration/websocket.py:725-734 | Stamps, revocations and room entries exist only for connections that still exist, whatever path ended the others |
| RoomTheorems.ConnectedRoomsStayLoaded | backend/app/collaboration/websocket.py:443-458 | While a room has a connection its document is loaded, and `get_or_create` never makes a blank document over stored state in any run |
| RoomTheorems.DocumentsAppearByLoading | backend/app/collaboration/document.py:164-440 | After every run: a document appears only when a load publishes it, and goes only when an evicting checkpoint is recorded with nobody connected |
| RoomTheorems.NoAcceptedEditIsLost | backend/app/collaboration/document.py:415-440 | Over all runs whose failed Redis reads, if any, are harmless, the live document if there is one, otherwise PostgreSQL merged with Redis, is exactly what was stored at the start and every applied update; Redis writes may fail, edits may arrive during any I/O |
| RoomTheorems.NothingIsEverLostIff | backend/app/collaboration/document.py:224-233 | A run holds everything at each of its points iff each failed Redis read came while Redis had nothing that PostgreSQL lacks |
| RoomTheorems.ReadableRedisLosesNothing | backend/app/collaboration/document.py:415-440 | In particular, with a Redis that can be read throughout, nothing is missing at any point of any run |
| RoomTheorems.HarmfulOutageLoses | backend/app/collaboration/document.py:224-233 | A run with any other failed read is short of something right after the first of them |
| RoomTheorems.CrashLosesOnlyUncheckpointedEdits | backend/app/collaboration/document.py:345-367 | If `checkpointed_generation` is g, then g is at most the current generation and every later run of a server restarted after a crash at that point still holds the document as of generation g; without a live document a crash loses nothing that an outage had not lost |
| RoomTheorems.VersionsRecordTheDocument | backend/app/collaboration/document.py:287-294 | The recorded versions really are the document per generation: the last is the live document, and no step rewrites an earlier one |
| RoomTheorems.EvictionLeavesRedisEqual | backend/app/collaboration/document.py:428-440 | When `checkpoint_and_remove` finishes, the document goes away iff no edit arrived during the write, and then Redis equals it; otherwise it is kept unchanged; nobody is connected either way |
| RoomTheorems.CheckpointRecordsWhatItWrote | backend/app/collaboration/document.py:351-360 | A checkpoint that keeps the document records the generation it captured, and Redis holds exactly that version, though newer edits exist |
| RoomTheorems.CheckpointedDocumentsAreDurable | backend/app/collaboration/document.py:452-453 | A live document whose latest generation is checkpointed equals PostgreSQL merged with Redis, the condition on which `remove_doc` relies |
| RoomTheorems.SavesNeverGoBackwards | backend/app/collaboration/document.py:374-390 | Committed states form an ascending chain and the row is never behind any of them |
| RoomTheorems.DirtyIsTruthful | backend/app/collaboration/document.py:330-343 | Outside the window between a commit and its metadata write, `dirty` is true iff the live document differs from the PostgreSQL row |
| RoomTheorems.SavedUpdateReachesPostgres | backend/app/sessions/router.py:189-196 | A save that got past its commit has the caller's update in the PostgreSQL row, whatever ran in between |
| RoomTheorems.PublishNeverOverwrites | backend/app/collaboration/document.py:251-263 | In the room protocol, when a load reaches its publish step no document has appeared meanwhile and the row it read is still the row |
| RoomTheorems.LoadKeepsEverythingIff | backend/app/collaboration/document.py:224-233 | Finishing a load keeps everything iff the Redis read succeeds or the checkpoint is contained in the row, which can be read off the two stores before the load |
| RoomTheorems.OutageLosesEdits | backend/app/collaboration/document.py:224-233 | A concrete run: Redis cannot be read while a member joins, and the next background checkpoint overwrites unsaved edits for good |
| RoomData.RunKeepsRoom | backend/app/collaboration/document.py:188-263 | Every run, readable Redis or not, preserves the invariants of authorization, gate, document, row, checkpoint and operation in flight |
| RoomData.HarmlessRunKeepsLossless | backend/app/collaboration/document.py:188-263 | Every run whose outages are harmless keeps all content where readers look for it |
| RoomData.StepKeepsData | backend/app/collaboration/document.py:188-440 | One step of any event keeps the storage invariant, and loses content iff it is a harmful outage |
| RoomData.RunKeepsSave | backend/app/sessions/router.py:185-210 | Every run preserves: the update a save merged is in the live document, in the state being committed, then in the row |
| RoomData.OnlyFramesApply | backend/app/collaboration/websocket.py:477-517 | Of everything a connection does, only a frame applied under the room lock changes the document |
| RoomInvariants.AcceptedMeansCurrent | backend/app/collaboration/websocket.py:162-189 | With the gate free, a connection the version check accepts has exactly the role PostgreSQL shows, on an active session |
| RoomInvariants.ConnectedMeansLive | backend/app/collaboration/websocket.py:600-609 | A connection in the room implies a loaded document |
| RoomInvariants.ReadMemberKeepsAuth | backend/app/collaboration/websocket.py:133-159 | The role read after the stamp was taken is current as long as no fence has passed the stamp |
| RoomInvariants.RegisterKeepsAuth | backend/app/collaboration/websocket.py:658-667 | Registering the stamp, or refusing a stale one and forgetting it, keeps the invariant |
| RoomInvariants.ApplyFrameKeepsAuth | backend/app/collaboration/websocket.py:524-552 | Applying under the room lock logs only authorized updates |
| RoomInvariants.LeaveKeepsAuth | backend/app/collaboration/websocket.py:612-632 | Leaving removes exactly that connection from room, stamps and revocations |
| RoomInvariants.CommitKeepsAuth | backend/app/sessions/router.py:281-293 | A membership commit makes cached roles wrong only for the user it concerns, only until its fence |
| RoomInvariants.FenceKeepsAuth | backend/app/collaboration/websocket.py:231-260 | The fence leaves every earlier stamp behind, so no stale role is accepted after it |
| RoomInvariants.InviteKeepsAuth | backend/app/sessions/service.py:88-128 | Adding a member takes no gate and still cannot make a cached authorization wrong |
| RoomInvariants.ActKeepsAuth | backend/app/sessions/router.py:185-196 | Saves and restores write with an authority re-read under the gate that cannot change before they do |
| RoomInvariants.StepKeepsAuth | backend/app/collaboration/websocket.py:524-552 | Every step keeps the authorization invariant |
| RoomInvariants.StepKeepsControl | backend/app/collaboration/websocket.py:430-458 | Every step keeps storage operations matched to their gate holder and populated rooms loaded |
| RoomProtocol.MutationsAreTheService | backend/app/sessions/service.py:131-197 | On an active session the protocol's role change, removal and close are the service calls, with the same refusals |
| RoomProtocol.InvitationsAreTheService | backend/app/sessions/service.py:88-128 | So is an invitation: the protocol stores exactly the invited role |
| Membership.MayEditIff | backend/app/sessions/router.py:79-82 | May edit: exactly the editors and the owner of an active session |
| Membership.RolesAreOrdered | backend/app/models.py:88-92 | A role passes a minimum exactly when that is viewer, the role itself, or the role is owner |
| RoomRegistry.MemberFenceStopsMember | backend/app/collaboration/websocket.py:231-248 | A member fence stops every connection of that member whose stamp predates it, joined or not, and gives it the fence's own reason unless it was stopped before |
| RoomRegistry.MemberFenceSparesOthers | backend/app/collaboration/websocket.py:231-248 | It changes the verdict on no connection of any other user |
| RoomRegistry.SessionFenceStopsAll | backend/app/collaboration/websocket.py:303-322 | Closing a session stops every connection stamped before it, for every user, and tells it that the session is closed unless it was stopped before without being in the room |
| RoomRegistry.FreshStampPasses | backend/app/collaboration/websocket.py:124-131 | A stamp taken after a fence is accepted again |
| RoomRegistry.VerdictIs | backend/app/collaboration/websocket.py:162-189 | No verdict iff not revoked and neither version is ahead of the stamp; else the revocation's reason, then that of the session, then that of the member |
| RoomRegistry.WithoutKeepsOrder | backend/app/collaboration/websocket.py:625-627 | Taking a connection out keeps the order of the others |
| RoomHub.TargetsAreMembers | backend/app/collaboration/websocket.py:239-245 | The connections collected for a member fence are exactly those of that user in the room |
| RoomHub.TargetsAreAll | backend/app/collaboration/websocket.py:311-316 | The connections collected for a session fence are exactly the room |
| RoomHub.Hub.TakeStamp | backend/app/collaboration/websocket.py:124-131 | The stamp is the pair of current versions, zero where there was no invalidation, as `StampNow` says |
| RoomHub.Hub.AuthorizationFailure | backend/app/collaboration/websocket.py:162-189 | Answers as the registry says: revocation first, then the session version, then the member version; no stamp passes |
| RoomHub.Hub.CloseIfInvalidated | backend/app/collaboration/websocket.py:205-216 | Revokes the connection with the failure's reason and sends its close code iff there is one; other sessions are untouched |
| RoomHub.Hub.RevokeEach | backend/app/collaboration/websocket.py:246-247 | Marks exactly the targets revoked and keeps the other revocations |
| RoomHub.Hub.InvalidateMember | backend/app/collaboration/websocket.py:219-260 | Bumps one member's version by one, revokes exactly that member's connections in the room, and sends each the close code of the reason; other sessions are untouched |
| RoomHub.Hub.CloseSession | backend/app/collaboration/websocket.py:295-341 | Bumps the session version by one, revokes the whole room and sends each connection the close code; other sessions are untouched |
| RoomHub.Hub.RegisterStamp | backend/app/collaboration/websocket.py:663-663 | Records the stamp of one connection |
| RoomHub.Hub.Join | backend/app/collaboration/websocket.py:600-609 | Appends one connection to its room |
| RoomHub.Hub.Leave | backend/app/collaboration/websocket.py:619-632 | Removes one connection with its stamp and revocation, and says whether that emptied the room |
| RoomHub.Hub.RoomConnections | backend/app/collaboration/websocket.py:737-743 | Returns the room without the revoked connections, in order |
| DocumentStorage.PublishKeeps | backend/app/collaboration/document.py:224-263 | Publishing the merge of what was read keeps the storage invariant, and keeps all content iff the checkpoint was read or is contained in the row |
| DocumentStorage.CommitSaveKeeps | backend/app/collaboration/document.py:379-390 | Committing the captured state keeps row, commits and document in order although edits arrived since |
| DocumentStorage.RecordSavedKeeps | backend/app/collaboration/document.py:392-396 | The saved mark written after the commit is what PostgreSQL holds |
| DocumentStorage.WriteCheckpointKeeps | backend/app/collaboration/document.py:351-357 | Writing the captured version to Redis never takes back what Redis held |
| DocumentStorage.RecordCheckpointedKeeps | backend/app/collaboration/document.py:415-440 | Recording the captured generation, and evicting when it is still the latest, loses nothing |
| DocumentStorage.ApplyKeeps | backend/app/collaboration/document.py:287-294 | An edit at any point of any storage operation keeps all of its promises |
| DocumentStorage.FailCheckpointKeeps | backend/app/collaboration/document.py:353-357 | A Redis write that raised, with or without having taken effect, keeps the invariant |
| DocumentStorage.PeekCreates | backend/app/collaboration/document.py:164-174 | Reading through `get_or_create` keeps a document, leaves a load alone, and else makes a blank one |
| DocumentStorage.SaveLoadsFirst | backend/app/collaboration/document.py:374-379 | A save without a document loads it and then commits the merge of both stores |
| DocumentManager.Manager.GetOrCreate | backend/app/collaboration/document.py:164-174 | Returns the live document, refuses while loading, else makes a blank one of generation 0; other sessions untouched |
| DocumentManager.Manager.ApplyUpdate | backend/app/collaboration/document.py:287-294 | Merges the update and bumps the generation by one; a bad update or a load in progress raises |
| DocumentManager.Manager.RestoreText | backend/app/collaboration/document.py:309-328 | Afterwards the document shows the snapshot's text, by an edit and one generation more iff it did not already; an undecodable snapshot raises and changes nothing |
| DocumentManager.Manager.GetDocumentStatus | backend/app/collaboration/document.py:330-343 | Reports the saved state, whether the document differs from it, and both generations |
| DocumentManager.Manager.BeginLoad | backend/app/collaboration/document.py:188-195 | Marks the session as loading iff no document exists |
| DocumentManager.Manager.FinishLoad | backend/app/collaboration/document.py:206-263 | Publishes row merged with checkpoint, the saved mark taken before the checkpoint was applied |
| DocumentManager.Manager.AbortLoad | backend/app/collaboration/document.py:262-263 | Drops the loading mark of one session and changes nothing else |
| DocumentManager.Manager.CheckpointToRedis | backend/app/collaboration/document.py:345-367 | Writes the state captured before the I/O and records that generation, keeping every edit that arrived during it |
| DocumentManager.Manager.CheckpointAndRemove | backend/app/collaboration/document.py:415-440 | Removes the document iff the write succeeded and no edit arrived; what was written is what was captured; otherwise all edits stay |
| DocumentManager.Manager.PersistToDb | backend/app/collaboration/document.py:374-408 | Captures the live document, or the loaded one when there is none; `dirty` iff an edit during the commit added something; a commit that raises leaves the saved mark alone |
| DocumentManager.Manager.RemoveDoc | backend/app/collaboration/document.py:442-462 | Removes iff there is nothing to remove, or the latest generation is checkpointed and no task uses the guard |
| DocumentManager.Manager.EnterGuard | backend/app/collaboration/document.py:137-138 | Joins the registered guard, or registers a new one, and counts the user |
| DocumentManager.Manager.ExitGuard | backend/app/collaboration/document.py:143-149 | Uncounts the user and retires the guard when idle, without document and still registered |
| SessionGuard.MutualExclusion | backend/app/collaboration/document.py:134-149 | At most one task of a session is inside `_serialized` after every run, though guards are retired, recreated and waiters cancelled |
| SessionGuard.GuardAccounting | backend/app/collaboration/document.py:134-149 | Every waiter or holder uses the registered guard, `users` counts exactly those tasks, an idle guard remains only for a loaded document |
| SessionGuard.PublishOverwritesNothing | backend/app/collaboration/document.py:164-263 | After every run, edits and `remove_doc` at any moment included: a load in progress has no document to overwrite, such calls change nothing meanwhile, and nobody else holds the guard |
| SessionGuard.RemoveDocIff | backend/app/collaboration/document.py:442-462 | `remove_doc` removes exactly a document whose latest generation is checkpointed while no task uses its guard, and the guard with it |
| SessionGuard.UninterruptedLoad | backend/app/collaboration/document.py:265-273 | A newcomer enters, loads and leaves; an edit in the middle comes to nothing and the document is the merge of both stores |
| SessionGuard.UninterruptedAbort | backend/app/collaboration/document.py:262-263 | A load that fails leaves no document and no guard |
| SessionGuard.UninterruptedEviction | backend/app/collaboration/document.py:415-440 | Checkpointing and evicting an idle document takes it and its guard away |
| SessionGuard.RunKeepsInv | backend/app/collaboration/document.py:134-149 | All runs of entering, acquiring, leaving, loading in steps, checkpointing, evicting, editing and `remove_doc` keep the guard invariant |
| SessionEndpoints.SessionTable.AddMember | backend/app/sessions/service.py:88-128 | The conditions of each refusal, in the source's order, else exactly the invited role is stored; keeps the single owner |
| SessionEndpoints.SessionTable.UpdateMemberRole | backend/app/sessions/service.py:131-164 | Owner cannot be demoted nor anyone promoted to owner; else exactly that role changes |
| SessionEndpoints.SessionTable.RemoveMember | backend/app/sessions/service.py:167-188 | Removes exactly that membership, never the owner's |
| SessionEndpoints.SessionTable.CloseSession | backend/app/sessions/service.py:191-197 | Deactivates an active session, refuses a closed one |
| SessionEndpoints.Endpoints.CheckRole | backend/app/auth/dependencies.py:61-110 | Passes iff the session is active and the caller is a member who holds the role or a higher one, the owner role only as the canonical owner; 410 before 403 |
| SessionEndpoints.Endpoints.RequireCurrentEditor | backend/app/sessions/router.py:59-82 | Passes iff the session is active and the caller is an editor or the owner; 410 before 403 |
| SessionEndpoints.Endpoints.LoadFromStorage | backend/app/collaboration/document.py:265-273 | Leaves the live document as it is, or loads exactly row merged with checkpoint |
| SessionEndpoints.Endpoints.JoinRoom | backend/app/collaboration/websocket.py:600-609 | The first connection loads the document, every one finds all the session held, and it is appended to this room only |
| SessionEndpoints.Endpoints.LeaveRoom | backend/app/collaboration/websocket.py:612-642 | The connection is gone from room, stamps, revocations and awareness; the last one out sends the document back to Redis and clears the room's awareness; the content never changes |
| SessionEndpoints.Endpoints.SaveSessionDocument | backend/app/sessions/router.py:171-227 | Exact status of every case; an authorized save leaves the row with all the session held plus the caller's update, the outcome `AfterSave` in Redis and memory, and sends the room the update and the saved state; a commit that raises keeps the merge in memory; every other refusal leaves the content alone |
| SessionEndpoints.Endpoints.SaveUnderGate | backend/app/sessions/router.py:185-210 | The gated part of it, to one of the outcomes `AfterSave` and `AfterFailedSave` |
| SessionEndpoints.Endpoints.EvictIfEmpty | backend/app/snapshots/router.py:65-72 | Evicts iff nobody is connected and Redis accepts, without changing what the session holds |
| SessionEndpoints.Endpoints.CreateSnapshot | backend/app/snapshots/router.py:48-73 | Exact status of every case; stores all the session holds under a new identifier, changing none of it; one that is too large, or whose insert raises, leaves the document loaded |
| SessionEndpoints.Endpoints.RunDocument | backend/app/execution/router.py:41-84 | Exact status of every case; the queued execution has the text of all the session holds, live or stored, which stays as it was; a refused enqueue leaves no row |
| SessionEndpoints.Endpoints.RestoreSnapshot | backend/app/snapshots/router.py:107-149 | Exact status of every case; afterwards the session shows the snapshot's text, by an edit on top of what it held and only if it differed; Redis holds the result if it accepts, and the room is sent the edit |
| SessionEndpoints.Endpoints.RestoreLoaded | backend/app/snapshots/router.py:122-142 | The edit on the loaded document, made only if the text differs, and the outcome `AfterRestore` |
| SessionEndpoints.Endpoints.UpdateRole | backend/app/sessions/router.py:267-293 | Only a canonical owner with the owner role may; exact status of each refusal; every accepted change is stored, fenced and closes the member's connections with 4001, one to the role already held included; other sessions keep their registries |
| SessionEndpoints.Endpoints.Remove | backend/app/sessions/router.py:301-323 | Only a canonical owner with the owner role may; exact status of each refusal; the member is fenced and closed with 4403 iff the removal committed; other sessions keep their registries |
| SessionEndpoints.Endpoints.Close | backend/app/sessions/router.py:327-344 | Only a canonical owner with the owner role may; the session is fenced and everybody closed with 4410 iff it was closed just now, memberships stay, other sessions keep their registries |
| StoredSession.RequestsKeepContent | backend/app/sessions/router.py:185-210 | Whatever Redis answers, no outcome of a request loses anything the session held |
| EndpointRuns.UninterruptedSave | backend/app/sessions/router.py:185-210 | A save that nothing interrupts is a run of the room protocol to the outcome `AfterSave` that the endpoint promises, with one commit and one applied update more |
| EndpointRuns.UninterruptedFailedSave | backend/app/sessions/router.py:189-196 | One that does not decode, or whose commit raises, runs to `AfterFailedSave` |
| EndpointRuns.UninterruptedRestore | backend/app/snapshots/router.py:107-142 | A restore runs to `AfterRestore` |
| EndpointRuns.UninterruptedReading | backend/app/snapshots/router.py:48-72 | A snapshot and a run of the code run to `AfterReading` |
| EndpointRuns.UninterruptedRefusal | backend/app/sessions/router.py:186-186 | A request without the authority to edit runs back to the very state it found |
| EndpointRuns.UninterruptedRaise | backend/app/snapshots/router.py:48-57 | A request that raises after its load gives the gate back and leaves the document in memory |
| ExecutionTheorems.JobsSurviveCrashes | backend/app/execution/worker.py:412-440 | With a worker that may die between any two steps, and orderly interruptions that are harmless, every accepted QUEUED job is on one of the lists and every STARTING or RUNNING one on the processing list; a row whose creation replied never goes |
| ExecutionTheorems.NoJobIsEverLostIff | backend/app/execution/worker.py:346-440 | No job is missing at any point of a run iff each orderly interruption in it came with no unfinished job in hand, or with one that waits and is queued a second time |
| ExecutionTheorems.RecoveryReconciles | backend/app/execution/worker.py:379-410 | When recovery ends, the processing list is empty; unless an interruption lost a job before, nothing is STARTING or RUNNING and every accepted QUEUED job is in the queue |
| ExecutionTheorems.StartedAtMostOnce | backend/app/execution/worker.py:292-297 | No execution is claimed twice, although crashes and recovery leave duplicates in the queue |
| ExecutionTheorems.NoIllegalTransition | backend/app/models.py:219-230 | With publishes succeeding, neither the worker, nor recovery, nor a cancellation ever attempts an illegal transition |
| ExecutionTheorems.CreationTakesEffect | backend/app/execution/service.py:41-60 | A creation that replies has a QUEUED row and its job at the end of the queue |
| ExecutionTheorems.CancellationTakesEffect | backend/app/execution/service.py:118-133 | Over every run: a QUEUED job is CANCELLED at once, a RUNNING one by the commit that follows its key, and both then count as reported |
| ExecutionTheorems.StatusesOnlyAdvance | backend/app/models.py:72-86 | Over any continuation of any run statuses only move forward, terminal ones never change, rows whose creation replied never vanish and deleted ones never return |
| ExecutionTheorems.TerminalIsFinal | backend/app/models.py:81-85 | A terminal status survives every later crash, recovery and cancellation; the row itself can only go if its creation never replied |
| ExecutionTheorems.CancellationIsFinal | backend/app/execution/service.py:112-133 | A cancellation that reported success is final: the row stays CANCELLED through `_finish` and everything later, for as long as it exists, which is forever if its creation replied |
| ExecutionTheorems.CancelledOnlyIfAsked | backend/app/execution/service.py:105-133 | An execution is CANCELLED, or has a cancellation key, only if somebody asked for that in the run |
| ExecutionTheorems.NoCancellationKeySurvives | backend/app/execution/worker.py:346-347 | Once a `process` call that claimed a job returned, no cancellation key for it exists or can appear |
| ExecutionTheorems.EnvironmentIsFree | backend/app/execution/queue.py:50-55 | At any time a key may expire, and text that is no identifier may turn up in the queue |
| ExecutionTheorems.FinishRecordsTheOutcome | backend/app/execution/worker.py:149-165 | `_finish` records the observed outcome unless a cancellation committed first or the row is gone, which it is only if its creation never replied; it touches no other row |
| ExecutionTheorems.LaunchSucceedsIff | backend/app/execution/worker.py:307-314 | The second transition of `process` finds STARTING iff it finds the row at all, which it always does when the creation replied |
| ExecutionTheorems.RefusedJobRunsIff | backend/app/execution/service.py:52-59 | A creation whose push raised leaves no row, ever; its job is run all the same iff the worker had claimed it before the row was deleted, which the row's status told |
| ExecutionTheorems.StepAdvances | backend/app/models.py:219-230 | One step never moves a status back, and removes a row iff it is the deletion for a creation whose push raised |
| ExecutionFaults.ClaimSurvivesPublishFaultIff | backend/app/execution/worker.py:134-138 | If the publish after the claim raises, jobs survive iff there was no QUEUED row to claim |
| ExecutionFaults.PublishFaultStrandsJobIff | backend/app/execution/worker.py:437-440 | After that fault some later run ends the job iff a duplicate of its identifier is still queued or its creation has not replied; otherwise it stays STARTING in every later run |
| ExecutionFaults.OnePublishFaultLosesAJob | backend/app/execution/worker.py:134-138 | A concrete run in which one failing publish loses a job for good |
| ExecutionFaults.QueuedDuplicateEndsJob | backend/app/execution/worker.py:390-410 | With a duplicate still queued, a worker that takes it up and dies leaves the job to recovery, which fails it |
| ExecutionFaults.AbandonedForever | backend/app/execution/worker.py:379-410 | A claimed row on no list and in no worker's hands, whose creation replied, is never ended by a worker; RUNNING it can still be cancelled, STARTING not even that |
| ExecutionFaults.FinishPublishFaultIsIllegalIff | backend/app/execution/worker.py:336-345 | If the publish after `_finish` raises, the handler's second `_finish` is an illegal transition iff the body made the first, found its row, and neither that nor the outcome was CANCELLED; the row keeps its outcome either way |
| ExecutionFaults.FinishPublishFaultIsReached | backend/app/execution/worker.py:336-345 | A concrete run in which that illegal transition happens |
| ExecutionFaults.InterruptLosesAJob | backend/app/execution/worker.py:437-440 | A concrete run in which an orderly interruption loses for good a job that a crash at the same point keeps |
| ExecutionFaults.RefusedJobStillRuns | backend/app/execution/service.py:52-59 | A concrete run in which a job whose creation was answered with an error is being run, without a row |
| ExecutionFaults.EarlyReturnIsTaken | backend/app/execution/worker.py:307-314 | A concrete run in which the second transition of `process` misses the deleted row |
| ExecutionFaults.RefusedCancellationStillCancels | backend/app/execution/service.py:123-127 | A concrete run in which a cancellation answered with an error cancels all the same, because the worker had seen its key |
| ExecutionLifecycle.StepKeepsInv | backend/app/execution/worker.py:292-440 | Every API step, worker step, crash, interruption and recovery step keeps lists, rows, keys and locks consistent |
| ExecutionLifecycle.RunKeepsInv | backend/app/execution/worker.py:292-440 | So does every run |
| ExecutionLifecycle.WhatAStopLeaves | backend/app/execution/worker.py:346-440 | A crash touches nothing but the worker; an interruption takes the item in hand off the list and, inside the `try`, its key away |
| ExecutionLifecycle.InterruptSurvivesIff | backend/app/execution/worker.py:437-440 | An orderly interruption, whose clean-up removes the claimed item, keeps every job iff it is harmless |
| ExecutionLifecycle.StepSurvives | backend/app/execution/worker.py:292-440 | No other step of the API, the worker, a crash or a recovery loses a job |
| ExecutionLifecycle.CommitCancellationKeepsInv | backend/app/execution/service.py:123-133 | Committing a cancellation whose key the worker may already have seen keeps it |
| ExecutionLifecycle.RecoverRowKeepsInv | backend/app/execution/worker.py:390-410 | Settling one recovered row keeps it, also when the process then stops before the removal |
| ExecutionStatus.TransitionsMoveForward | backend/app/models.py:72-86 | Every allowed transition moves strictly forward, and terminal statuses are exactly the last ones |
| ExecutionStatus.AllowedIff | backend/app/models.py:72-86 | The whole table by target: who may become STARTING, RUNNING, CANCELLED, FAILED, COMPLETED and TIMEOUT |
| ExecutionStatus.Execution.TransitionTo | backend/app/models.py:219-230 | Moves iff the table allows it, else leaves the row; a terminal row never moves |
| ExecutionBackend.Backend.CreateQueuedExecution | backend/app/execution/service.py:31-60 | Row and queue item together on success; a push that raised leaves no row, and its item only if that had landed |
| ExecutionBackend.Backend.CancelExecution | backend/app/execution/service.py:105-133 | Exact results for missing, queued, running and other executions; the key is set iff a running one was signalled, also by a signal that raised after landing |
| ExecutionBackend.Backend.Transition | backend/app/execution/worker.py:121-138 | Moves iff the row is in the expected status, and only that row |
| ExecutionBackend.Backend.Finish | backend/app/execution/worker.py:140-165 | Stores the outputs also on a cancelled row, and is illegal exactly where the table says |
| ExecutionBackend.Backend.Process | backend/app/execution/worker.py:292-347 | A QUEUED execution ends with its sandbox's own outputs: FAILED if creation failed, else CANCELLED iff its key was set, else TIMEOUT, COMPLETED for exit code 0 and FAILED for any other; its key is gone; anything else is left alone |
| ExecutionBackend.Backend.RunOnce | backend/app/execution/worker.py:418-440 | One turn consumes the head of the queue, records the same outcomes for it, and acknowledges it |
| ExecutionBackend.Backend.RecoverProcessing | backend/app/execution/worker.py:379-410 | The list ends empty, waiting items are requeued in order, exactly the STARTING and RUNNING rows on it become FAILED with the restart message, keys untouched |
| ExecutionBackend.Backend.RecoverItem | backend/app/execution/worker.py:382-410 | The same for one item, text that is no identifier included |
| ExecutionBackend.RequeuedAre | backend/app/execution/worker.py:397-398 | Requeued are exactly the items whose rows are QUEUED |
| ExecutionBackend.UninterruptedTurn | backend/app/execution/worker.py:418-440 | A turn that nothing interrupts is a run of the lifecycle machine to the state `RunOnce` promises, without an illegal transition |
| ExecutionBackend.UninterruptedRecovery | backend/app/execution/worker.py:379-410 | A recovery that nothing interrupts is a run of the machine to the state `RecoverProcessing` promises |
| ExecutionBackend.ReconciledComposes | backend/app/execution/worker.py:382-410 | Recovering one part of the list after another is recovering the whole |
| OutputStream.Account | backend/app/execution/worker.py:258-275 | For every chunking, each stream shows exactly the first min(total, limit) bytes, and its marker once, after all its data, iff total exceeds the limit |
| OutputStream.Publish | backend/app/execution/worker.py:265-275 | One chunk extends its stream's account to the longer text and leaves the other stream's |
| OutputStream.PrefixGrows | backend/app/execution/worker.py:266-267 | Cutting a chunk to what remains extends the shown prefix to the prefix of the longer text |
| Awareness.PeersMirrorServer | backend/app/collaboration/presence.py:165-261 | A blank peer that receives every broadcast since its join and a snapshot taken later, in any order with duplicates, shows exactly the server's active entries |
| Awareness.MergeIsOrderIndependent | backend/app/collaboration/presence.py:178-196 | Any permutation or duplication of the same entries leaves each client with the same (clock, removed) pair |
| Awareness.ApplyAllTakesLargest | backend/app/collaboration/presence.py:178-196 | That pair is the largest among what was known and what arrived, starting from (0, removed) |
| Awareness.ShouldApplyIff | backend/app/collaboration/presence.py:180-187 | The acceptance test is "strictly ahead, a removal beating an active state of the same clock" |
| Awareness.MarksNeverDecrease | backend/app/collaboration/presence.py:165-261 | No operation but discarding the session takes that pair back |
| Awareness.AfterAllTrails | backend/app/collaboration/presence.py:165-261 | Over any operations, what was broadcast never runs ahead of the store and mentions each client by its latest entry |
| Awareness.CoveredPeerAgrees | backend/app/collaboration/presence.py:198-205 | A peer that heard all of it agrees with the active entries |
| Awareness.PeerHoldsLargest | backend/app/collaboration/presence.py:152-159 | A peer ends with the largest pair it received for each client, supplied by an entry it received |
| Awareness.DisconnectRemovesExactlyOwned | backend/app/collaboration/presence.py:207-231 | A disconnect silences exactly the live clients of that connection |
| Awareness.PruneRemovesExactlySilent | backend/app/collaboration/presence.py:244-249 | Pruning silences exactly the live clients whose last heartbeat is longer ago than the timeout; nobody else changes |
| Awareness.SilencedClientsAreRemoved | backend/app/collaboration/presence.py:220-229 | Whoever is silenced keeps its clock, loses its owner and is broadcast as a null state |
| Awareness.OnlySilencedAreBroadcast | backend/app/collaboration/presence.py:207-261 | A disconnect or a pruning broadcasts nothing else |
| Awareness.AcceptedStateIsStored | backend/app/collaboration/presence.py:189-193 | An accepted active state belongs to its sender and counts as a heartbeat, a removal belongs to nobody |
| Awareness.EntryIsBroadcastIff | backend/app/collaboration/presence.py:178-196 | Each entry of an update is broadcast and stored iff it is strictly ahead of what the entries before it left |
| AwarenessStore.Store.ApplyUpdate | backend/app/collaboration/presence.py:165-196 | The loop computes the merge and returns the accepted entries in order |
| AwarenessStore.Store.ActiveEntries | backend/app/collaboration/presence.py:198-205 | Exactly the active entries, in strictly ascending client order |
| AwarenessStore.Store.RemoveOwner | backend/app/collaboration/presence.py:207-231 | Marks exactly the owner's live clients removed at their clock and returns exactly one removal for each |
| AwarenessStore.Store.PruneStale | backend/app/collaboration/presence.py:233-261 | The same for exactly the live clients whose last heartbeat is longer ago than the timeout |
| AwarenessStore.Store.DiscardSession | backend/app/collaboration/presence.py:263-264 | Every client of the room is unknown again, none is active, and every other room keeps its states |
| VarUint.EncodeVarUint | backend/app/collaboration/protocol.py:82-94 | The loop emits the base-128 form of every value in range and refuses the others |
| VarUint.DecodeVarUint | backend/app/collaboration/protocol.py:97-118 | The loop with its offset, length and range errors decides as the recursive scan does |
| VarUint.EncodingFitsEightBytes | backend/app/collaboration/protocol.py:82-94 | Every value up to 2^53-1 takes 1 to 8 bytes |
| VarUint.DecodeEncoded | backend/app/collaboration/protocol.py:97-118 | Decoding an encoded value inside any surrounding bytes returns it and the next offset |
| VarUint.DecodeIsExact | backend/app/collaboration/protocol.py:97-118 | For arbitrary bytes, an accepted value is in range, and re-encoding gives the consumed bytes iff one byte was consumed or the last is not zero |
| VarUint.DecodeExtends | backend/app/collaboration/protocol.py:97-118 | A decoded number depends only on the bytes it consumed |
| VarUint.EncodingIsLittleEndian | backend/app/collaboration/protocol.py:82-94 | Byte k carries the k-th group of seven bits, and the continuation bit unless it is the last |
| WireProtocol.DecodeAwarenessEntries | backend/app/collaboration/protocol.py:155-183 | Accepts exactly the entry lists the grammar describes, with its count limit and no trailing bytes |
| WireProtocol.EncodeAwarenessMessage | backend/app/collaboration/protocol.py:243-250 | Builds exactly the frame of the entries, and fails exactly when some integer is out of range |
| WireProtocol.ParseUndoesEncode | backend/app/collaboration/protocol.py:186-262 | Parsing any encoded sync, awareness, query or permission-denied message within the limits returns it |
| WireProtocol.EncodingIsInjective | backend/app/collaboration/protocol.py:222-262 | Different messages within the limits have different frames |
| WireProtocol.FramesArePrefixFree | backend/app/collaboration/protocol.py:186-220 | If a frame is accepted, no strict prefix of it and no extension of it is, non-minimal varUints included |
| WireProtocol.ExtensionIsRejected | backend/app/collaboration/protocol.py:147-149 | An accepted frame followed by anything is rejected |
| WireProtocol.AcceptedMessages | backend/app/collaboration/protocol.py:186-219 | Nothing but the known kinds and subtypes is accepted, within the size and count limits |
| WireProtocol.EncodableIff | backend/app/collaboration/protocol.py:222-262 | The messages of the round trip are exactly those of a known kind within the limits, whose text the foreign codecs give back |
| WireProtocol.FrameLayout | backend/app/collaboration/protocol.py:222-262 | The bytes of one message of each kind |
| EditorBinding.Binding.OnModelChanged | frontend/src/components/Editor/YMonacoBinding.ts:54-66 | Brings the document level with Monaco in one transaction whose own event is ignored; does nothing inside the mutex |
| EditorBinding.Binding.OnTextChanged | frontend/src/components/Editor/YMonacoBinding.ts:132-164 | The running-index loop brings Monaco level with the document; none of its edits makes a transaction; does nothing inside the mutex |
| EditorBinding.Binding.Replay | frontend/src/components/Editor/YMonacoBinding.ts:135-163 | One delta operation at the running index keeps the model equal to the rebuilt part followed by the old rest |
| EditorBinding.Binding.ApplyModelEdit | frontend/src/components/Editor/YMonacoBinding.ts:141-162 | An edit in Monaco re-enters the content handler, which must ignore it |
| EditorBinding.Binding.Live | frontend/src/components/Editor/YMonacoBinding.ts:95-103 | After any run of local events and remote deltas both texts equal the outcome of all of them, with one transaction for each local event and none for remote ones |
| EditorBinding.ReplayStep | frontend/src/components/Editor/YMonacoBinding.ts:134-163 | Each delta operation at the running index keeps the model equal to the rebuilt part followed by the old rest |
| TextEdits.DescendingEqualsSimultaneous | frontend/src/components/Editor/YMonacoBinding.ts:58-63 | Applying disjoint changes in descending order equals replacing all ranges at once |
| TextEdits.EventOrderIsIrrelevant | frontend/src/components/Editor/YMonacoBinding.ts:58-59 | Any listing of ascending changes is an event, and means the same as the ascending one |
| TextEdits.ValidEventIff | frontend/src/components/Editor/YMonacoBinding.ts:58-63 | The handler's sort succeeds on exactly the events with disjoint ranges and different offsets inside the text, whatever their order |
| TextEdits.SortDescends | frontend/src/components/Editor/YMonacoBinding.ts:58-59 | The sort puts larger offsets first and keeps every change |
| TextEdits.FitsIff | frontend/src/components/Editor/YMonacoBinding.ts:134-163 | A delta applies exactly to the texts that are as long as what it retains and deletes |
| TextEdits.LastFirst | frontend/src/components/Editor/YMonacoBinding.ts:58-63 | Replacing the last range first leaves the other offsets meaning what they did |
| TextEdits.DeltaOfMeansReplacement | frontend/src/components/Editor/YMonacoBinding.ts:132-164 | The delta of an edit means the same replacement, so peers end with the author's text |

## Left out

Assumptions of the theorems:

- Redis read outages: every theorem about the room allows them, except that keeping all content needs them to be harmless (`NoAcceptedEditIsLost`, and the restarted run of `CrashLosesOnlyUncheckpointedEdits`); `NothingIsEverLostIff` shows that this is exact.
- Orderly interruptions of the worker: every theorem about execution allows them, except that keeping all jobs needs them to be harmless; `NoJobIsEverLostIff` shows that this is exact.
- Stored bytes that do not decode, and checkpoints that expire: the load skips them as best effort; the model reads what was written.
- A Redis write that raises has taken effect by then or never will: a timed-out checkpoint does not land after a later one, nor a cancellation key after its row was released. Only the push of a job may land later.
- A PostgreSQL commit either takes effect and returns or raises without effect; there is no lost acknowledgement.
- A failure between a membership commit and its fence: the fence follows in the same segment of the gate.
- Publishes and PostgreSQL or Redis calls inside worker steps succeed, apart from the publish faults stated above and a push or cancellation key that raises. A refresh that finds its row deleted after the commit has the effect of the steps `EnqueueFails` and `Interrupt`, or `Fails`.
- Several backend processes or several workers: the design has one of each (docs/horizontal-scaling.md).
- The room lock is one mutex per session; the `WeakValueDictionary` that holds the lock objects is not modelled, and every coroutine keeps its lock alive while it uses it.
- A Y.Doc is a set of operations: text integration, state vectors, update encoding and collisions of the state hash belong to the CRDT library. Its clear-and-insert transaction is assumed only to make the document show the new text.

Weaker or narrower than the code:

- SessionEndpoints.Endpoints.SaveSessionDocument: runs without interruption; overlapping edits and storage steps are in RoomProtocol. The permission dependency before the body is `CheckRole`; `saved_at`, the state vector and the hash in the response are omitted.
- RoomHub.Hub.InvalidateMember: keys of (session, user) are nested one level at a time, and close frames are counted as sent although a transport may be gone.
- RoomHub.Hub.CloseSession: close frames are counted as sent although a transport may be gone.
- RoomHub.Hub.Leave: the registry's part of leaving; `SessionEndpoints.Endpoints.LeaveRoom` adds the awareness and the eviction.
- ExecutionBackend.Backend.Process: the sandbox is a parameter that says what it does; containers, volumes, images and output bounds are omitted.
- OutputStream.Account: counts bytes; decoding a chunk to text may replace a character cut in two.
- EditorBinding.Binding.OnTextChanged: restoring selections and redrawing decorations is omitted, and offsets are not converted to lines and columns.
- Awareness.PeersMirrorServer: within one lifetime of the room and for a peer other than the author of an entry; a client's own renewal timer is not modelled.
- RoomProtocol.MutationsAreTheService: for an active session, because the activity check may be answered from a cached row.

Not modelled, because they are thin, foreign or would only add easy members:

- JWT and password checks, user accounts and session listing.
- `PresenceManager`, cursor colours and the payloads of status and execution events.
- The builders of query-awareness, document-saved and execution-event frames, which the server's parser does not read.
- Which broadcasts reach their transports, and the broadcasts of frames and awareness.
- Periodic scheduling, key expiry times, timestamps, logging and pagination.
- Docker details: image pulls, archives, resource limits and orphan cleanup.
- React pages, ANSI rendering, cursor decorations and benchmark scripts.
