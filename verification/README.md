# Life OS protocol models

Dafny models of the parts of Life OS whose correctness is a protocol or an
algorithm rather than a page or a route, with proofs of what each promises over
every input or every run. `dafny verify dfyconfig.toml` checks everything.

How the modules read:

- **`Crdt`, `CrdtNetwork`** — the column last-writer-wins replica. `Crdt` has the
  merge core, a replica as a value (`State`, `SetOp`, `MergeOp`, `IsDelta`) and the
  `Replica` class proved against it. `CrdtNetwork` runs any number of replicas over
  a network that delays, repeats, reorders and drops deltas; a delta is delivered
  only to the replica whose vector it was computed from. `writes` (every write ever
  made) and `known` (a replica's causal past) are recorded for the statements; no
  step reads them. `Covers(store, w)` says that a store holds write `w` or one that
  beats it; `Reflects(store, ws)` that every cell of the store is the greatest write
  of `ws` to it, and no cell is there without one.
- **`Approvals`, `PendingList`** — approve and deny handlers as program counters,
  interleaved at every `await` over one database, any of them stopping for good at
  any point (`Advance` is the code between two awaits). The `WorkerDb` class holds the
  handlers as methods on mutable state, proved equal to `Advance` run without
  interference (`Alone`). `PendingList` has the two limited queries and their merge.
- **`Undo`** — agent actions with their reverse patches, the undo of one action and
  of a plan. The server is an oracle (`Env`): it may refuse any call. What an accepted
  PATCH does with a null is a parameter: `NullKeeps` is the entity route
  (services/lifeos-api/src/routes/entity.rs:183-204), which updates five columns and keeps
  one whose new value is null; `NullClears` is plain assignment, which the client's
  reverse patches are written for.
- **`ActivityFeed`** — the frame loop and frame parser of the event stream.
- **`TimeTravel`** — snapshots and restores, with the log inside the storage it
  restores. `tracked` is any set of keys without the log's own; `LogIsNotTracked`
  says the program's list is one.
- **`AgentTurn`** — one bounded turn: step budget, recovery budget, one replan, one
  refine, circuit breaker. What the model and the HTTP calls answer is an oracle
  (`Turn`); tool calls run one after the other.
- **`Migration`** — the quote-aware statement splitter and the schema comparison.
- **`MemVec`** — the vector index of two tables and the two-layer completion cache.
  The SQL engine chooses fresh row ids and answers nearest-neighbour queries
  (`Nearest`: the five nearest vectors in order); a process may die between commits.

Where the code and its own words differ, the model follows the code:

- Version vectors need not become equal after a sync, although both sides then hold
  everything: an overwritten cell's db_version is never sent. `VectorsMayDiffer` is a
  run that shows it and `VectorsAgreeIff` says exactly when the vectors do agree.
- `ensureBaseline` replaces a non-empty log that has no baseline entry
  (`BaselineKeepsHistoryIff`, `CommitBeforeBaselineIsLost`), so history is append-only for
  runs that start with it.
- A replan checks the shared recovery budget before its inner execute pass and is
  recorded after it, so a turn can record five recoveries, not four: exactly when the
  replan was admitted and its own pass used up the budget (`TurnFifthIff`,
  `FiveRecoveriesHappen`).
- A field comes back under undo exactly when its old value is the one shown before the
  first step whose stored reverse writes it, or, if there is no such step, the final value
  (`UndoInvertsPlan`). Three ways it does not: an update whose image could not be read is
  logged without a reverse (`UnreadImageIsNotRestored`); a lost event leaves nothing to undo,
  and a created entity not `undone` (`LostEventIsNotUndone`); and a reverse patch carries null
  for a field that was empty, while the entity route keeps a column whose new value is null
  (`NullIsNotRestored`). When every step was recorded in full, only the last remains
  (`RecordedPlanRestoredIff`).
- Undo sorts by time stamp with a stable sort. With equal time stamps the undo order is
  last-first exactly when the events of each time stamp were listed newest first
  (`UndoOrderIff`); `TiesCanBreakUndo` is a plan it does not restore otherwise, and
  `AnyListingRestoresIff` says exactly when it does, whatever the order.
- Commit ids come from the clock, and a restore finds the first entry with an id, so the
  round trip holds exactly when the id was new or its first entry held the same state
  (`TimeTravelRoundTrips`, `SecondCommitOfOneTickIsLost`).
- A semantic lookup looks at the five nearest rows of the whole index, so nearer rows of
  other entities can crowd out a cached prompt within the threshold (`CrowdedOut`);
  `SemanticMissIff` says exactly when a lookup misses.
- `embed` and rebuilds accept ids with the cache prefix, which can leave cache vectors
  without cache rows (`ForeignIdLeavesOrphan`); `OrphanIff` says exactly when. Hits stay
  correct even then (`HitsAreNeverStale`, `SemanticHitIsNearest`).
- A typed-confirm gate whose phrase has outer white space can never be confirmed, and
  one whose phrase is empty is confirmed by a bare tap (`ConfirmableIff`).

## Model

| member | source | states |
|---|---|---|
| Crdt.ApplyAllReflects | prototypes/collab/crr_attrs.js:26-49 | merging any changes, in any order and with any repetition, into a store that holds the greatest write of each cell of a set leaves the greatest write of each cell of the enlarged set, and no cell without a write |
| Crdt.ReflectsDetermines | prototypes/collab/crr_attrs.js:34-49 | the set of writes merged determines the store completely: two stores that hold its greatest writes are equal |
| Crdt.MergeClocks | prototypes/collab/crr_attrs.js:62-64 | over a whole merge the clock and the version vector never go back, pass every change absorbed, and rise only to a db_version that was absorbed; the log gains exactly the changes |
| Crdt.SortKeepsDistinct | prototypes/collab/crr_attrs.js:97 | sorting a delta neither repeats nor loses a change |
| Crdt.Replica.constructor | prototypes/collab/crr_attrs.js:54-60 | a new replica has clock zero, an empty store, an empty log and an empty vector |
| Crdt.Replica.TrackPeer | prototypes/collab/crr_attrs.js:62-64 | only the named site's entry changes, to the greater of what it was and the given version |
| Crdt.Replica.Set | prototypes/collab/crr_attrs.js:74-84 | a local write takes the next clock value and the next version of its cell, wins its cell, is counted in the own vector entry and is appended to the log |
| Crdt.Replica.ChangesFor | prototypes/collab/crr_attrs.js:87-98 | the answer lists each live cell that the peer's vector has not seen exactly once, nothing else, by db_version |
| Crdt.Replica.Merge | prototypes/collab/crr_attrs.js:101-112 | merging a changeset in place has the effect of absorbing its changes one by one on store, clock, vector and log |
| Crdt.ReconcileFromEvents | prototypes/collab/crr_attrs.js:124-138 | the replay of the logs gives, for each entity, the attributes of the store that merging all their events in turn gives |
| CrdtNetwork.NewWriteStamp | prototypes/collab/crr_attrs.js:74-84 | a new write beats every write to its cell in its replica's causal past, has a db_version above every one absorbed and every earlier one of its site, and shares its stamp with no write ever made |
| CrdtNetwork.AnsweredDeltaOk | prototypes/collab/crr_attrs.js:87-98 | a delta leaves out a write its sender knew, or passes one over, only if the asker already covers it |
| CrdtNetwork.MergeAbsorbs | prototypes/collab/crr_attrs.js:101-112 | after a delivery, however late or repeated, the receiver covers all it covered before and all its sender knew, and holds the greatest write of each cell of the two pasts together |
| CrdtNetwork.NextKeepsInv | prototypes/collab/crr_attrs.js:53-118 | every step — write, vector request, answer, delivery — keeps the protocol's invariant |
| CrdtNetwork.VectorsNeverHideWrites | prototypes/collab/crr_attrs.js:62-112 | in every reachable state a write at or below a replica's vector entry for its site is held by that replica or beaten by what it holds |
| CrdtNetwork.StampsAreUnique | prototypes/collab/crr_attrs.js:26-32 | two distinct writes of a run never share entity, column, version and site |
| CrdtNetwork.WritesRespectCausality | prototypes/collab/crr_attrs.js:74-84 | in every reachable state a local write is new, takes the next clock value and the version after the greatest known, shows its value in the entity's attributes, beats everything its replica had absorbed on the cell, and has a db_version above everything in the log |
| CrdtNetwork.VectorIsHighestAbsorbed | prototypes/collab/crr_attrs.js:59-71 | in every reachable state a version vector's entry for a site is exactly the highest db_version of that site in the replica's log, zero if there is none, so overwritten cells still count |
| CrdtNetwork.AttrsAreGreatestWrites | prototypes/collab/crr_attrs.js:114-117 | in every reachable state an entity has an attribute if and only if the replica's past has a write to it, and its value is that of the greatest such write |
| CrdtNetwork.LogsAreAppendOnly | prototypes/collab/crr_attrs.js:81-109 | over every run a replica's log is only appended to |
| CrdtNetwork.EqualPastsEqualStores | prototypes/collab/crr_attrs.js:101-112 | in every reachable state a replica's store is the greatest write of each cell of its causal past, so replicas with equal pasts have equal stores |
| CrdtNetwork.DeliverySpreadsPast | prototypes/collab/crr_attrs.js:87-112 | once an answer given at or after a state has been delivered, at any later time, the asker's past includes what the sender had in that state |
| CrdtNetwork.StrongConvergence | prototypes/collab/crr_attrs.js:87-112 | when by chains of answers and deliveries every replica has received, directly or through others, what every replica had after the last write, all stores are equal and each cell is the greatest write ever made to it, whatever the deliveries were |
| CrdtNetwork.ReceiversKnow | prototypes/collab/crr_attrs.js:87-112 | every site that a chain of answers and deliveries reaches has in its past whatever the chain's start had |
| CrdtNetwork.EqualKnowledgeConverges | prototypes/collab/crr_attrs.js:87-112 | once every replica's past includes every past of the last write's state, all stores are equal and each cell is the greatest write ever made to it |
| CrdtNetwork.DeltaMergeIsJoin | prototypes/collab/crr_attrs.js:68-112 | merging any delta computed from the receiver's own vector gives exactly the cell-by-cell join of the two old stores |
| CrdtNetwork.ExchangeConverges | prototypes/collab/crr_attrs.js:87-117 | two replicas that exchange deltas computed before either merges end with equal stores and equal attributes of every entity |
| CrdtNetwork.VectorsAgreeIff | prototypes/collab/crr_attrs.js:66-98 | after such an exchange the vectors agree if and only if, for each site on which one side was ahead, that side still held a live cell with the newest db_version it had seen of that site |
| CrdtNetwork.VectorsMayDiffer | prototypes/collab/crr_attrs.js:66-98 | a run after which neither side owes the other anything, the stores are equal and the vectors are not |
| CrdtNetwork.OwnLogRebuildsStore | prototypes/collab/crr_attrs.js:120-138 | in every reachable state replaying a replica's own log from nothing rebuilds its store |
| CrdtNetwork.LogsReplayToJoin | prototypes/collab/crr_attrs.js:120-138 | in every reachable state replaying the logs of any replicas gives the join of their stores, synced or not |
| CrdtNetwork.OwnLogGivesAttrs | prototypes/collab/crr_attrs.js:114-138 | in every reachable state the replay of a replica's own log answers with the replica's attributes, for exactly the entities it holds |
| CrdtNetwork.LogsGiveJoinedAttrs | prototypes/collab/crr_attrs.js:120-138 | in every reachable state the replay of any replicas' logs has an attribute if and only if the join of their stores has the cell, with that cell's value |
| CrdtNetwork.ReplayOrderIsIrrelevant | prototypes/collab/crr_attrs.js:124-138 | reordering or repeating the events of a replay leaves its result alone |
| Approvals.ConfirmableIff | worker/src/approvals.ts:53-63 | some typed text confirms a typed-confirm gate if and only if its phrase has no outer white space; a bare tap does if and only if the phrase is empty |
| Approvals.GateDemands | worker/src/approvals.ts:53-63 | the phrase is the build node if it names one, else the title, else the id; a gate with the flag is confirmed exactly by a text whose trim is the phrase, and one without by any |
| Approvals.RefusalNamesThePhrase | worker/src/approvals.ts:102-108 | when a handler was refused with a phrase in any run and the entity is still pending, a new approval without interference succeeds if and only if its trimmed text is that phrase, so typing the phrase back succeeds if and only if it has no outer white space |
| Approvals.AloneDecides | worker/src/approvals.ts:93-127 | without interference: unknown, already resolved and unconfirmed requests are told so and write nothing; every other one sets the status, records one event and, if it approves, enqueues one job |
| Approvals.OutcomesAreTrue | worker/src/approvals.ts:70-127 | whatever happened around it, a finished handler's answer is true: not found means no such entity, approved and denied that it now has that status, already resolved that it is not pending, a demanded phrase that it was pending and unconfirmed |
| Approvals.NextKeepsInv | worker/src/approvals.ts:70-127 | every step of every handler, and a handler's death at any await, keeps the table, the events, the jobs and all program counters consistent |
| Approvals.AtMostOneResolution | worker/src/approvals.ts:70-127 | under every interleaving and any deaths an entity is untouched or went from pending to one outcome; it has at most one new event, of the matching kind, and at most one new job, only if approved; a typed-confirm gate is approved only if some handler gave its phrase |
| Approvals.NothingElseWritten | worker/src/approvals.ts:110-126 | every event and job a run adds names an entity the run resolved, in the handlers' own form |
| Approvals.QuiescentIsExact | worker/src/approvals.ts:93-127 | when all handlers have finished and none died, approved means one approved event and one job, rejected means one rejected event and no job, untouched means none; an entity is still pending only if every handler for it was refused for want of its typed phrase |
| Approvals.ResolutionIsFinal | worker/src/approvals.ts:85-90 | over any run an entity that is no longer pending never changes again |
| Approvals.WorkerDb.TransitionEntityStatus | worker/src/entities.ts:159-174 | the update hits if and only if the row has the expected status at that moment; it then changes status and time stamp of that row only, and otherwise nothing |
| Approvals.WorkerDb.ResolveOrAlreadyResolved | worker/src/approvals.ts:70-91 | without interference the read, the guard and the conditional update do what the interleaved handler does from its resolve point to its write |
| Approvals.WorkerDb.ApproveEntity | worker/src/approvals.ts:93-117 | without interference the whole approve handler leaves the database and gives the answer that the interleaved handler's steps do, hence those that `AloneDecides` states |
| Approvals.WorkerDb.DenyEntity | worker/src/approvals.ts:119-127 | without interference the deny handler leaves the database and gives the answer that the interleaved handler's steps do, hence those that `AloneDecides` states |
| PendingList.MergedIsTop | worker/src/approvals.ts:24-28 | merging the newest `limit` rows of each pending status, sorting and cutting gives the newest `limit` pending rows: as many as there are up to the limit, newest first, none left out that is newer than one included, for any table and any order of ties |
| PendingList.ListEntities | worker/src/entities.ts:33-51 | the query returns the newest rows of the workspace that pass every filter given (an empty text filters nothing), up to the limit or fifty |
| PendingList.FiltersMean | worker/src/entities.ts:38-41 | a row passes if and only if it is the workspace's and has the value of every filter that is given and not empty |
| PendingList.QueryPendingApprovals | worker/src/approvals.ts:19-29 | the list of pending approvals is the newest `limit` pending rows of the workspace |
| Undo.UndoOneUpdate | frontend/src/lib/agentActions.js:127-135 | one update and its reverse patch: the field shows its old value again if and only if nulls clear, or it held a value, or the update gave it none |
| Undo.UndoOneStep | frontend/src/lib/agentActions.js:173-200 | undoing one step, whatever it recorded, on a store that shows its result in a field shows its start there if and only if its stored reverse writes the field or the step left it as it was |
| Undo.SortReversesHistory | frontend/src/lib/agentActions.js:221 | with strictly increasing time stamps the undo order is the application order backwards, in whatever order the events were listed |
| Undo.UndoOrderIff | frontend/src/lib/agentActions.js:221 | with ties, the undo order is the application order backwards if and only if each group of equal time stamps was listed newest first |
| Undo.NoTiesAnyListing | frontend/src/lib/agentActions.js:221 | without equal time stamps any listing of the plan's events meets that condition |
| Undo.UndoInvertsPlan | frontend/src/lib/agentActions.js:218-227 | after any plan — overlapping updates, failed steps, unread images, lost events — undo by an answering server adds or removes no entity; a field of an earlier entity shows its old value if and only if that is the value shown before the first step whose stored reverse writes it, or the final value if there is none; a created entity whose event was stored ends `undone`, and unless an action asked for that status only such a one does |
| Undo.UndoneBackwards | frontend/src/lib/agentActions.js:218-227 | after any plan at all undo shows in every field what the first stored reverse that writes it gives back, or the final value |
| Undo.KeptIsGivenBack | frontend/src/lib/agentActions.js:183-200 | what that reverse gives back is the value shown just before its step |
| Undo.RecordedPlanRestoredIff | frontend/src/lib/agentActions.js:218-227 | after a plan whose every step was logged with its reverse, every created entity ends `undone`, and an earlier field shows its old value if and only if nulls clear, or it held a value before the plan, or no step gave it one |
| Undo.UnreadImageIsNotRestored | frontend/src/lib/agentActions.js:183-195 | an update whose image could not be read is logged without a reverse, its undo answers that it is not reversible, and the new value stays |
| Undo.LostEventIsNotUndone | frontend/src/lib/agentActions.js:149-156 | after a lost event write there is nothing to undo: an update stays and a created entity does not end `undone` |
| Undo.NullIsNotRestored | services/lifeos-api/src/routes/entity.rs:177-204 | where nulls keep, the reverse of an update of an empty status is accepted and reported undone, and the new status stays |
| Undo.AnyListingRestoresIff | frontend/src/lib/agentActions.js:218-227 | for any plan, any listing of any events and any refused calls, a field is restored if and only if the last accepted reverse that writes it carries the old value, or there is none and the final value is the old one |
| Undo.NullAfterPlanIff | services/lifeos-api/src/routes/entity.rs:177-204 | where nulls keep, a field is empty after a recorded plan if and only if it was before and no step gave it a value, and no stored reverse carries a null |
| Undo.StoredCreationIsGivenBack | frontend/src/lib/agentActions.js:137-142 | a creation whose event is stored makes `undone` the value that undo leaves in the status, whatever later steps did |
| Undo.UnstoredCreation | frontend/src/lib/agentActions.js:137-156 | an entity whose creation was not stored shows `undone` neither in the store nor in any stored reverse, unless an action asked for it |
| Undo.UndoOnlyAppends | frontend/src/lib/agentActions.js:202-216 | undo never rewrites history: the old log is a prefix of the new one and each new entry is for an event reported undone, whatever calls the server refuses |
| Undo.UndoReports | frontend/src/lib/agentActions.js:207-227 | each report can be read off beforehand: not reversible without a reverse, undone if the server accepts and the entity is there, else failed; and the log gains exactly one event for each success, in order, unless it is lost |
| Undo.GateHolds | frontend/src/lib/agentActions.js:95-181 | a tool outside the closed set is refused, approved or not, with the refusal logged and no other effect; an unapproved draft waits without any effect; a refused call changes nothing and logs nothing |
| Undo.AppliedMeans | frontend/src/lib/agentActions.js:30-54 | a successful update shows exactly the values it wrote; a creation stores its fields under the new id, a draft with a status to approve; and one event is logged with the reverse, unless it is lost |
| Undo.TiesCanBreakUndo | frontend/src/lib/agentActions.js:221 | two updates of one field with one time stamp, listed oldest first, leave the field at the middle value, whatever nulls do |
| Undo.Control.ComputeReversePatch | frontend/src/lib/agentActions.js:127-135 | the reverse patch has the keys of the patch, each with its earlier value or null |
| Undo.Control.LogEvent | frontend/src/lib/agentActions.js:149-156 | at most one event is appended, and the store is left alone |
| Undo.Control.ExecuteAction | frontend/src/lib/agentActions.js:173-200 | a forbidden tool only logs its refusal, an unapproved gated one does nothing, a failing one logs nothing, and a successful one is logged with the reverse of the image captured before it |
| Undo.Control.UndoAction | frontend/src/lib/agentActions.js:207-216 | an event without a reverse or a refused call changes nothing; otherwise the reverse patch is applied and one event recorded |
| Undo.Control.UndoPlan | frontend/src/lib/agentActions.js:220-227 | the events are undone newest first, each result reported in that order, whichever calls the server refuses |
| ActivityFeed.FirstBreakIsLeftmost | frontend/src/components/ActivityFeed.jsx:86 | the search finds the leftmost blank line, and finds none if and only if there is none |
| ActivityFeed.FramesIsCut | frontend/src/components/ActivityFeed.jsx:85-90 | the frames and the leftover put together again are the buffer; no frame reaches past its first blank line and the leftover has none |
| ActivityFeed.CutIsUnique | frontend/src/components/ActivityFeed.jsx:85-90 | there is only one such cut of a string |
| ActivityFeed.ReceiveTwice | frontend/src/components/ActivityFeed.jsx:84-90 | two chunks received one after the other leave the feed as one chunk of both |
| ActivityFeed.ChunkingIsInvisible | frontend/src/components/ActivityFeed.jsx:79-91 | however a stream is cut into chunks, the feed ends with the same events, the same last id and the same leftover as receiving it whole |
| ActivityFeed.ParseFrame | frontend/src/components/ActivityFeed.jsx:30-45 | a frame gives its data lines joined by newlines and parsed, with its last id line; no data or no valid JSON gives nothing |
| ActivityFeed.ParsePrint | frontend/src/components/ActivityFeed.jsx:30-45 | a message printed with `id:`, `event:` and `data:` lines parses back to its id and payload event, and a comment to nothing |
| ActivityFeed.StreamRoundTrips | frontend/src/components/ActivityFeed.jsx:79-91 | a printed stream of messages, with or without id and event type, and comments, cut into chunks anywhere, is handled as its messages one by one, with nothing left over |
| ActivityFeed.FeedShowsStream | frontend/src/components/ActivityFeed.jsx:57-91 | after any stream in any chunks the feed shows the events of the frames that parse, newest first, before what it showed already, at most a hundred of them all; its last id is the last non-empty one, of each event the frame's own before the event's, or the one before |
| ActivityFeed.FeedShowsPrinted | frontend/src/components/ActivityFeed.jsx:57-91 | after a printed stream in any chunks the feed so shows the events sent, and nothing is left over |
| ActivityFeed.FieldValues | frontend/src/components/ActivityFeed.jsx:36-37 | a data field loses one leading space and no more, and of several ids the last counts |
| ActivityFeed.PayloadRecoveredIff | frontend/src/components/ActivityFeed.jsx:31 | the payload text comes back unchanged if and only if it has no CR LF pair |
| ActivityFeed.Reader.PushEvent | frontend/src/components/ActivityFeed.jsx:57-62 | the method changes rows and last id as `Push` does, hence as `FeedShowsStream` states for whole streams |
| ActivityFeed.Reader.OnChunk | frontend/src/components/ActivityFeed.jsx:84-90 | one turn of the read loop handles exactly the frames completed by the chunk, in order, and keeps exactly the leftover |
| TimeTravel.LogIsNotTracked | frontend/src/lib/vcs.js:11-31 | the log key is not one of the tracked keys |
| TimeTravel.CleanIff | frontend/src/lib/vcs.js:166-173 | no key is dirty if and only if the tracked state is the latest snapshot |
| TimeTravel.DirtyIff | frontend/src/lib/vcs.js:166-173 | a key is dirty if and only if its tracked text differs from that of the latest entry; without history, if and only if it is tracked and has a text |
| TimeTravel.CommitDoes | frontend/src/lib/vcs.js:89-108 | a commit is refused if and only if its author is the AI; any other appends one entry with the text of every tracked key, the entry before as parent and a trimmed message that is never empty, touches no other key, and leaves nothing dirty |
| TimeTravel.BaselineCanBeRestored | frontend/src/lib/vcs.js:70-86 | the first baseline call records the tracked state and touches nothing else, and whatever is done later, restoring the baseline brings exactly that state back |
| TimeTravel.RestoreSnapshotRestores | frontend/src/lib/vcs.js:122-140 | after a restore the tracked state is the commit's snapshot, nothing is dirty, no untracked key but the log has changed, and the log has one more entry, which points back |
| TimeTravel.RestoreFileChangesOneKey | frontend/src/lib/vcs.js:144-163 | restoring a file changes that key and the log only, to the commit's value or absence, and leaves nothing dirty |
| TimeTravel.BaselineKeepsHistoryIff | frontend/src/lib/vcs.js:70-86 | the baseline call keeps the history it finds if and only if that is empty or has a baseline |
| TimeTravel.CommitBeforeBaselineIsLost | frontend/src/lib/vcs.js:70-86 | a commit made on an empty log before the first baseline call is gone after it |
| TimeTravel.NextExtendsHistory | frontend/src/lib/vcs.js:70-163 | every operation extends the log and keeps it well formed: one baseline, first; each parent the entry before; snapshots of tracked keys only |
| TimeTravel.HistoryIsAppendOnly | frontend/src/lib/vcs.js:70-163 | over any run of writes, commits, restores and baseline calls that starts with the baseline call, on any storage, the log at an earlier point is a prefix of the log at a later one |
| TimeTravel.HistoryStaysWellFormedIff | frontend/src/lib/vcs.js:70-163 | over such a run entry 0 is the only baseline, every parent is the entry before and every snapshot holds only tracked keys, if and only if the storage had no baseline or a history of that form |
| TimeTravel.TimeTravelRoundTrips | frontend/src/lib/vcs.js:89-140 | commit the state, do anything, and restoring that commit's id leaves nothing dirty and brings back exactly the tracked state that was left, if and only if the id was new or its first commit held that state |
| TimeTravel.SecondCommitOfOneTickIsLost | frontend/src/lib/vcs.js:97-126 | of two commits of different states under one clock id, restoring brings back the first |
| TimeTravel.Vcs.SnapshotNow | frontend/src/lib/vcs.js:43-50 | the snapshot is the stored part of the tracked keys |
| TimeTravel.Vcs.ApplySnapshot | frontend/src/lib/vcs.js:110-118 | of the given keys, those in the snapshot are set, tracked ones absent from it are removed, and all other keys stay |
| TimeTravel.Vcs.EnsureBaselineCommit | frontend/src/lib/vcs.js:70-86 | a log with a baseline stays; otherwise the log becomes the one baseline entry |
| TimeTravel.Vcs.CommitState | frontend/src/lib/vcs.js:89-108 | the AI's commits are refused without effect; any other appends the current snapshot, with the last entry as parent and the trimmed message or a default |
| TimeTravel.Vcs.RestoreTo | frontend/src/lib/vcs.js:122-140 | an unknown commit is refused without effect; a known one is applied to all tracked keys and the move appended |
| TimeTravel.Vcs.RestoreFileTo | frontend/src/lib/vcs.js:144-163 | likewise for one key, with a fresh snapshot appended |
| AgentTurn.ToolKeepsInv | server/agent/executor.js:203-247 | one tool call, whatever it is and however it fails, keeps the step, recovery, HTTP and breaker bookkeeping |
| AgentTurn.QueryKeepsInv | server/agent/recovery.js:98-114 | one model call with its tool calls keeps the bookkeeping, reaches the provider once, and not at all when the breaker is open |
| AgentTurn.StepsAreBounded | server/agent/executor.js:203-247 | in every turn the calls that act are the first eight; every call is in the ledger or threw; the budget is flagged exhausted if and only if there were more than eight; tool HTTP calls are at most one per acting call and one per retry; a dry run makes none |
| AgentTurn.GatedCallsAreQueued | server/agent/executor.js:81-103 | outside a dry run the pending approvals are exactly the ledger's gated entries, a turn that reaches its conclusion awaits approval if and only if it has one, and no forbidden entry is ok |
| AgentTurn.ToolCallDoes | server/agent/executor.js:203-247 | one tool call is counted first and past eight only noted; a forbidden or role-blocked one runs nothing; a gated one is sent at most once, as a draft, and queues an approval if answered; an allowed one queues nothing, is as ok as its last reply, and is not sent outside its route or in a dry run; one that throws leaves no entry |
| AgentTurn.QueryDoes | server/agent/recovery.js:98-114 | a model call does nothing behind an open breaker; else it makes all its tool calls, reaches the provider once, and opens the breaker exactly on the second failure in a row |
| AgentTurn.RecoverDoes | server/agent/loop.js:146-176 | recovery does nothing unless a replan is possible; else it makes the planning call, a whole execute pass exactly if that gives a valid plan, and records the replan last with its own success |
| AgentTurn.VerifyDoes | server/agent/loop.js:341-389 | no critique with an approval pending; the refine pass runs exactly when the critique finds a fixable fault; a critique or refine that cannot be had fails the turn; else the outcome is awaiting approval, abstained or completed by what is pending and what succeeded; one distilling call exactly for a completed turn that wants one and is not dry |
| AgentTurn.TurnDoes | server/agent/loop.js:210-389 | a turn is refused exactly at a closed gate, before anything else; served from the cache exactly outside a dry run, before any tool call; failed without the plan it needs; degraded exactly when neither execute nor recovery succeeds; out of steps exactly when they ran out; else verified |
| AgentTurn.StartDoes | server/agent/loop.js:210-292 | a turn reaches its execute pass exactly past gate and cache and with the plan it needs, having made its rewriting and planning calls and no tool call |
| AgentTurn.RecoveriesAreBounded | server/agent/recovery.js:62-73 | recoveries and remaining budget always make four; at most four are not the replan and at most one is; there are five if and only if an admitted replan's own pass used up the budget, and then the replan is the last; no tool's arguments are repaired twice |
| AgentTurn.FifthRecoveryIff | server/agent/loop.js:146-172 | from any consistent state without a replan, recovery records a fifth entry if and only if the replan is admitted (breaker closed, a plan, budget left) and no budget is left where it is recorded |
| AgentTurn.TurnFifthIff | server/agent/loop.js:146-172 | a whole turn records five recoveries if and only if it reached its execute pass, the pass failed, the replan was admitted, and the replanned pass used up the budget |
| AgentTurn.FiveRecoveriesHappen | server/agent/loop.js:146-176 | five do happen: a failed first pass, a replanned pass with four retries, and the replan recorded after them |
| AgentTurn.RetryPrecedesSubstitute | server/agent/recovery.js:41-54 | over a whole turn a substitute is only ever recorded right after a failed retry of the same tool, and only for a tool that has one |
| AgentTurn.RecoveriesOfOneCall | server/agent/executor.js:121-199 | all that one allowed call records: a retry if and only if its first attempt failed in transit or at the server and budget is left, so never for a client error; then, with budget left, a repair for a first client error of the tool or a substitute for a server error of one of the three tools that have one |
| AgentTurn.BreakerHolds | server/agent/recovery.js:98-114 | over a whole turn nothing reaches the provider after two consecutive failed calls, the breaker is open at the end if and only if the last two failed, and at most eight calls reach the provider |
| AgentTurn.OutcomesAreHonest | server/agent/loop.js:313-389 | a turn awaits approval only with approvals pending and not in a dry run; one that completes or abstains has none pending; one that abstains executed no tool successfully; one that is degraded had tried its replan unless no plan, an open breaker or a spent budget forbade it |
| AgentTurn.TurnContext.constructor | server/agent/loop.js:182-207 | a turn starts with no steps, an empty ledger, a full recovery budget and a closed breaker |
| AgentTurn.TurnContext.RecordRecovery | server/agent/recovery.js:69-73 | one recovery is appended and one unit of budget spent |
| AgentTurn.TurnContext.CallWithRetry | server/agent/executor.js:121-134 | only a throw or a 5xx reply is retried, once, while budget remains; the retry is recorded with its own success |
| AgentTurn.TurnContext.ApplyArgRepairHint | server/agent/executor.js:139-145 | a repair is recorded at most once per tool, while budget remains |
| AgentTurn.TurnContext.ApplySubstituteHint | server/agent/executor.js:150-155 | a substitute is recorded only for the three read tools that have one, while budget remains |
| AgentTurn.TurnContext.DoAllowed | server/agent/executor.js:173-199 | an allowed call throws, is refused for its route, is skipped in a dry run, or is sent with retry and then repaired or substituted by the status of its last reply |
| AgentTurn.TurnContext.DoGated | server/agent/executor.js:81-103 | a gated call becomes one pending approval, whether or not the draft was stored, unless the request throws or the run is dry |
| AgentTurn.TurnContext.DoTool | server/agent/executor.js:203-247 | the step is counted first; past the budget the call is only noted; otherwise it acts and enters the ledger unless it threw |
| AgentTurn.TurnContext.DoCalls | server/agent/executor.js:258-267 | the tool calls of one session act in turn on one context |
| AgentTurn.TurnContext.DoQuery | server/agent/recovery.js:98-114 | an open breaker fails the call at once; otherwise the result reaches the failure count, and the second failure in a row opens the breaker |
| AgentTurn.TurnContext.RecoverExecuteFailure | server/agent/loop.js:146-176 | one replan, only with a closed breaker, a plan, budget and none before; recorded after its own execute pass, failed or not |
| AgentTurn.TurnContext.Verify | server/agent/loop.js:341-389 | critique and at most one refine, only with nothing pending; then the outcome |
| AgentTurn.TurnContext.RunAgentTurn | server/agent/loop.js:179-411 | the whole turn, stage by stage in place on one context, does what `RunTurn` says for every oracle, so the bounds above are bounds on it |
| Migration.SplitGivesStatements | server/validators/t4Migration.js:68-86 | on any input every statement returned is non-empty, trimmed and without a semicolon outside quotes |
| Migration.SplitInvertsJoin | server/validators/t4Migration.js:61-86 | trimmed non-empty statements with balanced quotes but for the last, no semicolon outside them and no comment marker come back exactly from their `;`-join |
| Migration.SplitIsTrimmedPieces | server/validators/t4Migration.js:68-86 | text without comment markers is split into exactly its pieces between semicolons outside quotes, trimmed, blank ones left out |
| Migration.EveryTextHasPieces | server/validators/t4Migration.js:68-86 | every text is the join of such pieces |
| Migration.LineCommentsDoNotMatter | server/validators/t4Migration.js:61-86 | the statements of a text with a line comment are those of the text without it |
| Migration.BlockCommentsDoNotMatter | server/validators/t4Migration.js:61-86 | the statements of a text with a block comment and no line comment are those of the text without it |
| Migration.LineCommentVanishes | server/validators/t4Migration.js:62 | a `--` comment after text without markers disappears up to its newline, which stays |
| Migration.BlockCommentVanishes | server/validators/t4Migration.js:62 | a block comment after text without markers disappears up to its first closing mark |
| Migration.Split | server/validators/t4Migration.js:68-86 | the scanning loop returns what the scanner's specification collects |
| Migration.AdditiveIffNoProblem | server/validators/t4Migration.js:252-263 | a change is additive — every table survives with its columns as a prefix, every other object in both keeps its sql — if and only if no object is rewritten, no table dropped and no column changed |
| Migration.AdditiveMeans | server/validators/t4Migration.js:252-274 | in terms of the rows: additive if and only if every table survives with its columns as a prefix and no other object of one type and name has different sql before and after |
| Migration.DiffColumns | server/validators/t4Migration.js:279-285 | a column is reported if and only if it is missing or differs in name or type at its position |
| Migration.DiffSnapshots | server/validators/t4Migration.js:264-289 | the comparison reports exactly the problems there are, and accepts if and only if the change is additive |
| Migration.ChainsKeepColumns | server/validators/t4Migration.js:264-289 | over any chain of accepted migrations every original table survives with its original columns as a prefix |
| Migration.ChainsKeepObjects | server/validators/t4Migration.js:266-274 | an object that a chain never drops keeps its sql |
| Migration.DroppedObjectsMayChange | server/validators/t4Migration.js:266-274 | an object dropped and created anew over two accepted steps may end with other sql |
| MemVec.UpsertSetsOneEntry | server/memvec.py:92-111 | on the pair of tables an upsert is the update of one entry of a map from ids: rows stay paired, ids unique, every other entry as it was |
| MemVec.TablesAlwaysAgree | server/memvec.py:92-178 | in every run the vector and meta rows pair up with unique ids, and the cache table is the map of latest puts |
| MemVec.IndexHoldsLastStored | server/memvec.py:92-178 | in every run the index holds under each id exactly the text and workspace last stored there by a put, an embed or a rebuilt row and not cleared since |
| MemVec.OrphanIff | server/memvec.py:134-178 | over every run a cache id has a vector without a cache row if and only if something was stored under it and not cleared since, and its key was never put |
| MemVec.PutsStorePrompts | server/memvec.py:161-178 | when only puts use cache ids, what is stored under one is the prompt of the latest put whose vector was stored and not cleared |
| MemVec.IndexHoldsIndexedPuts | server/memvec.py:139-178 | in every run where only puts use cache ids, the index holds under each cache id the prompt and workspace of the latest put whose vector was stored since the last rebuild, and none is an orphan |
| MemVec.RebuildIndexesEveryRow | server/memvec.py:139-158 | embedding rows one after the other keeps the tables paired and the cache as it was, and leaves under each id the last row given for it, or what was there |
| MemVec.SelectedRows | server/memvec.py:148-154 | a rebuild reads every row if no workspace is named, else exactly the workspace's |
| MemVec.RebuiltRowIsFound | server/memvec.py:148-157 | after a rebuild of rows with distinct ids each embedded one is found under its id, with its workspace and the stripped text of title and attributes |
| MemVec.StripCutsSpace | server/memvec.py:155 | stripping cuts white space off both ends and nothing else |
| MemVec.ExactHitIsLatestPut | server/memvec.py:181-186 | an exact hit happens if and only if the latest put of the key was for the workspace, and returns its completion |
| MemVec.SemanticHitIsNearest | server/memvec.py:189-212 | in every run a semantic hit returns the latest completion of a key cached for the asking workspace, at the distance of the text stored for it, within the threshold; no key cached for the workspace is nearer, listed by the query or not |
| MemVec.SemanticMissMeans | server/memvec.py:189-212 | in every run a key cached for the workspace within the threshold is missed only if the query returned all its five rows, each at least as near |
| MemVec.SemanticMissIff | server/memvec.py:189-212 | in every run a semantic lookup misses if and only if no key cached for the workspace within the threshold has its row among those the query returned |
| MemVec.CrowdedOut | server/memvec.py:189-212 | a run of five nearer entities and a put within the threshold, for the asking workspace, that the lookup misses |
| MemVec.IndexedPromptIsLatest | server/memvec.py:167-178 | when a key fixes its prompt, the prompt indexed for it is that of its latest put, even if a put died between its commits |
| MemVec.StoredPromptIsLatest | server/memvec.py:167-178 | then, when only puts use cache ids, a hit's distance is to the very prompt its completion answers |
| MemVec.HitsAreNeverStale | server/memvec.py:215-229 | in every run at all, every hit returns the completion of the latest put of its key, for the asking workspace, within the threshold |
| MemVec.GetAnswers | server/memvec.py:215-229 | over every run a get is an exact hit if and only if the latest put of the key is the workspace's; a miss if and only if it is not and the semantic layer is off or no key cached for the workspace within the threshold is listed; and else the completion of the nearest key cached for the workspace |
| MemVec.ForeignIdLeavesOrphan | server/memvec.py:134-136 | embedding under a cache id leaves a cache vector without a cache row |
| MemVec.Derived.constructor | server/memvec.py:77-89 | a new derived database has three empty tables |
| MemVec.Derived.Upsert | server/memvec.py:92-111 | an id already stored keeps its row and gets the new vector and workspace; a new one gets the engine's fresh row in both tables |
| MemVec.Derived.CmdEmbed | server/memvec.py:134-136 | one entity's vector is stored, the cache left alone |
| MemVec.Derived.CmdRebuild | server/memvec.py:139-158 | the index is cleared for all workspaces and filled with the selected rows, each under its stripped title and attributes, as many as were embedded before the process ended; the cache stays |
| MemVec.Derived.CmdCachePut | server/memvec.py:161-178 | the cache row is stored, and then its vector if the process lives on |
| MemVec.Derived.ExactCacheHit | server/memvec.py:181-186 | the completion of the key's row if it is the workspace's, else none |
| MemVec.Derived.SemanticCacheHit | server/memvec.py:189-212 | the first row near enough, with a cache id of the workspace and an answering cache row, or a miss |
| MemVec.Derived.CmdCacheGet | server/memvec.py:215-229 | the command answers as `Lookup` does, hence as `GetAnswers` states |

## Left out

- JSON, hashing, UTF-8 decoding, embeddings and vector distances are parameters or abstract texts; a clock reading is a parameter.
- Numbers are unbounded, as for JavaScript numbers below 2^53; a site id is a number, since the code only compares ids.
- Property names inherited from `Object.prototype` (an entity or column called `constructor`) are not special in the model.
- Approvals: other writers of the `entities` table, an `attrs` text that is the JSON `null`, and negative limits. The two list queries read one state of the table.
- The tools `edge.create`, `view.configure`, `pipeline.run` and the like record no reverse; a plan with one that changes entities itself is covered by `Undo.UndoneBackwards`, not by `Undo.UndoInvertsPlan`.
- The cancelled flag, reconnection and status display of the feed, frames delimited by CR LF CR LF, and a JSON `null` payload without an id, which makes the source throw.
- Commits carry no hash or creation time, which no operation here reads.
- The `updated_at` column of an entity, which every PATCH sets and no undo brings back: the fields of `Undo` are the others.
- The id and defaults a server gives a created entity beyond the fields sent; undo only sets its status.
- Agent turns: tool calls made in parallel, where the recovery budget is checked and spent across an await; prompts, tokens, usage, stored events, and the contents of plans and verdicts.
- Agent turns: helpers that catch their own errors and never change the context (world snapshot, memory, tool retrieval, escalation, persistence).
- The regular-expression classification of single migration statements, file discipline and the scratch database of the migration validator.
- Migration.DiffSnapshots: keys objects by the pair of type and name where the source joins them with a colon; the order of the reported problems is not stated.
- `cmd_query` of `memvec.py`, a read with the same row lookup and no invariant of its own.
- The Yjs document bodies, whose convergence is that library's own; the other Rust services; the user interface.
