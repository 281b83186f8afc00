# Verification of the Ramose client and its replicated session

Ramose keeps a local database follower in the client, lets it run ahead of the
server with optimistic writes, and answers live queries and shaped pulls from
it. This project models that machinery in Dafny and proves that each fast form
agrees with the simple thing it stands for.

`dafny verify dfyconfig.toml` checks everything.

**The replicated session.**

- `Datoms`, `Collapse`, `SessionSync`: facts, the present-tense view of a history
  and the pass that computes it, and the sieve that decides what one principal
  hears about one commit.
- `Session`, `LogWindow`, `Frames`, `Served`, `CatchUp`: the server's walk over
  the log, as steps between awaits, so that a `sync` frame may overwrite the
  shared cursor while a job waits; what it must not claim and what it must send;
  and the same job as the methods of a class.
- `Follower`: facts painted by their `t`, in any order, with a cursor apart.
- `ReplicatedLog`, `Pipeline`, `ServerHalf`, `ClientHalf`, `Replication`,
  `Arrival`: log, replica, server session, wire, acks and follower in one state,
  the end-to-end theorem over every run, and how a commit gets there.
- `ApplyQueue`, `Rewrite`, `Overlay`, `PendingWrites`, `Ranks`: the client's
  queue of jobs, the renaming of local ids, the optimistic layers, and which
  write decides.
- `Pointers`, `Following`, `Posting`: what points at a write that has not been
  acked, where it points over whole runs, and what is posted.
- `Live`, `OpPrefix`, `Requests`, `Token`, `Base64Url`: the standing query, the
  optimistic prefix of an operation, the request table, the token cache and its
  decoder.

**Select shapes compiled two ways.**

- `Shapes`, `Pull`: shapes as a datatype, and the pull that answers them.
- `Clauses`, `FilterPull`, `Selected`, `Agreement`, `Conformity`: the required
  fields as query clauses, the client's filter and what it answers, and how far
  the two agree.
- `Redaction`, `OrderPath`: the pull check of a policy, and sort keys that drop
  no rows.

## What the theorems take for granted

- The log is dense, every datom carries its commit's `t`, and every commit
  stamps an instant on an entity of its own, which every principal may read.
- A current view is the op of the highest `t` per entity, attribute and value;
  at one `t` an assertion follows a retraction.
- A commit the sieve does not answer with a dump leaves the visibility of older
  facts as it was. The policy evaluator is an arbitrary rule otherwise.
- One replica whose basis does not go back serves a client, a socket is first
  in first out, and a dropped one delivers nothing more. The principal of a
  socket does not change.
- An ack with datoms carries facts of its own commit, and no fewer than its
  writer may read there.
- A card-one attribute has at most one value per entity, a component at most one
  owner, and a reference attribute holds references only.
- The clock of the token source does not go back, and its margin is not
  negative.

## Where the code does not do what it promises

Each of these is a lemma, and each has the exact condition under which the
promise holds.

- The clauses and the filter disagree on a required reference whose target
  shows nothing of its shape (`Agreement.NothingToShowIsDropped`) or is gone
  (`Agreement.GhostOwnerIsKept`); `Agreement.ClausesAndFilterAgree` says when.
  A card-one recursion edge that is not optional is required by the clauses
  only.
- A row whose one key is `:db/id` is taken for the engine's stub
  (`Agreement.IdKeyedRowIsTakenForAStub`); the same theorem covers it.
- A shape the policy check accepts can still lose a row when the database is
  redacted (`Redaction.RedactionCanDropARow`), and a result when all that is
  left of it is a number keyed `:db/id` (`Redaction.NamelessStubIsDropped`).
- A stub kept under its id alias does not survive a second filtering
  (`Conformity.RenamedStubIsDropped`, `Conformity.FilterTwice`).
- Two payloads of one `t`, a sieved frame and a wider ack, do not commute
  (`Follower.NarrowAndWideDoNotCommute`, `Follower.CommuteIff`).
- A late ack wider than the frame painted first is not heard
  (`PendingWrites.FirstPayloadDecides`), so a narrowed echo loses the facts it
  lacks (`PendingWrites.NarrowEchoLosesAFact`).
- An echo before the ack renames an entity by the facts it shares with the
  layer: with none of them, references stay at a local id that nothing renames
  again; with a fact two entities share, they land on the wrong one
  (`Pointers.EchoFirst`, `Posting.SilentEchoPostsTheLocalId`,
  `Pointers.EqualFactsCollide`).
- A queued transaction that names a local entity by its number is posted on that
  number (`Posting.NumberedSubjectStays`, `Posting.PostedOnTheServersEntityIff`),
  while a datom's plain number that equals a renamed id is rewritten
  (`Following.CountIsRenamed`, `Following.NumbersSurviveIff`).
- Local and server ids are the same numbers. When a server id is also the local
  id of a layer acked later, that ack moves what already pointed at the server's
  entity: the operation queued on it is posted on another entity
  (`Following.LaterAckStealsThePointer`). `Following.PointersFollowTheServer` has
  the condition, `Following.UnheldIsKept` a guard that implies it, and
  `Following.EntitiesStayApartIff` says what one ack does to one layer.
- A write still queued behind another when a dump arrives is posted with its
  tempids unresolved (`Posting.PostedResolvedIff`, `Posting.PostedInvocationIff`).
- The `t` made up for a pending write counts the queue: after a rejection two
  writes share one, and a later retraction is hidden by an earlier assertion
  (`Ranks.RejectionTiesTwoWrites`, `Ranks.TiedRetractionIsUnseen`); and a commit
  painted meanwhile outranks it (`Ranks.LaterCommitOutranks`). `Ranks.RunRanksIff`
  says exactly when pending writes decide.
- Tempids are plain strings shared by all layers: the first ack or echo that
  names one resolves it (`Posting.PostedNamesFollow`).
- A name a body chooses can be one the builder makes
  (`OpPrefix.ChosenNameClashes`, `OpPrefix.ChosenNamesClashIff`).
- An ack with a count instead of datoms loses the write
  (`PendingWrites.CountOnlyAckLosesTheWrite`).
- A job run on the spot that enqueues another and returns a promise overlaps
  with it (`ApplyQueue.ReentrantPromiseOverlaps`).
- A dump that cannot be built is silent (`Live.FailedResyncIsSilent`).

## Model

| member | source | states |
|---|---|---|
| SessionSync.DecideSessionTx | packages/ramose/src/worker/session-sync.ts:161-193 | the sieve: everything for an unrestricted reader, a dump when access to older facts moves, silence when no user fact is visible, otherwise exactly the visible facts |
| SessionSync.Kept | packages/ramose/src/worker/session-sync.ts:174-188 | a datom is kept if and only if it was committed and is a bootstrap fact or readable |
| SessionSync.DecideIff | packages/ramose/src/worker/session-sync.ts:161-193 | who gets which of the four answers: silence exactly when the reader may see nothing but bootstrap facts, and otherwise the visible facts, in order |
| Session.CursorIsHonest | packages/ramose/src/worker/session.ts:302-411 | every run, with `sync` landing in the middle of a job and hibernation at any point: a live cursor claims no `t` that was not sent, sieved, dumped or named by the client, and between two dumps or named cursors `tx` frames strictly ascend |
| Session.StepKeeps | packages/ramose/src/worker/session.ts:302-476 | each step of the session — push, `sync`, job start, sieve answer, dump, write, close, hibernation — keeps the cursor honest |
| Frames.FramesAreTruthful | packages/ramose/src/worker/session.ts:298-380 | every run: a frame carries a writer's id only on the `t` this socket's own write was acknowledged at, and `lastT` of a live session is the highest `t` its client was told |
| Session.SyncKeeps | packages/ramose/src/worker/session.ts:457-476 | a `sync` overwrites the cursor while a job waits; the job goes on from its own, and both stay honest |
| Served.PushIsServed | packages/ramose/src/worker/session.ts:344-411 | a push that fits a live session is sent, with the writer's id on the writer's own `t`, or passed over in silence, or answered with a dump, or it ends the session, exactly as the sieve says |
| Served.RawPushIsServed | packages/ramose/src/worker/session.ts:329-343 | without a sieve it goes out as it is |
| Served.UnfitPushIsServed | packages/ramose/src/worker/session.ts:323-411 | a push at or below the cursor is not sent again; past a hole, or below the root, it is a dump where there is one to give, and else the cursor is held, or the client told |
| Served.JobCatchesUp | packages/ramose/src/worker/session.ts:323-383 | with a sieve and dumps, a session still live after a job has its cursor at or past the log's `t`, however torn the log |
| Served.SyncsAreAnswered | packages/ramose/src/worker/session.ts:457-476 | in every run without a hibernation, the `sync`s a live session has answered and those it still will are all it was sent, in order and once each |
| Served.SyncIsHeard | packages/ramose/src/worker/session.ts:457-476 | a `sync` moves the cursor at once, whatever is under way, and its job waits behind the others |
| Served.CaughtUpIsAnswered | packages/ramose/src/worker/session.ts:457-476 | one that names the log's end is answered with it and with nothing else |
| Served.FailedSyncIsTold | packages/ramose/src/worker/session.ts:457-476 | when the sieve fails under a `sync` the client is told, and the session is over |
| Served.ClosedIsSilent | packages/ramose/src/worker/session.ts:280-295 | in every run after a close nothing more is sent |
| Served.HibernateForgets | packages/ramose/src/worker/session.ts:254-261 | hibernation keeps the cursor, and forgets the running job and the queue |
| Served.FirstPush | packages/ramose/src/worker/session.ts:344-411 | a fresh socket is live and sends the first commit |
| LogWindow.PendingSorted | packages/ramose/src/worker/session.ts:344 | what is walked is exactly the entries newer than the cursor, in ascending `t` |
| Session.ServerSession.SendFrame | packages/ramose/src/worker/session.ts:280-295 | a refused send ends the session and a dead one sends nothing |
| Session.ServerSession.SeeT | packages/ramose/src/worker/session.ts:298-300 | `lastT` becomes the larger of itself and `t` |
| Session.ServerSession.SendResync | packages/ramose/src/worker/session.ts:302-314 | a dump is sent, seen, and becomes the cursor, even on a dead socket |
| Session.ServerSession.SendTx | packages/ramose/src/worker/session.ts:369-380 | the writer's own id goes out on its own `t` only, once |
| Session.ServerSession.WalkUnsieved | packages/ramose/src/worker/session.ts:329-343 | the loop of a session without a sieve takes the steps the step functions describe |
| Session.ServerSession.WalkSieved | packages/ramose/src/worker/session.ts:344-383 | the sieved loop takes the steps the step functions describe, torn windows and failures included |
| Session.ServerSession.ConsiderLog | packages/ramose/src/worker/session.ts:323-383 | one whole job, from any cursor, with or without sieve and dump |
| CatchUp.CatchUpIsPushIsResume | packages/ramose/src/worker/session.ts:254-261 | with a sieve that does not resync, or without a sieve: however a dense log is cut into jobs, hibernating and resuming before each, the same frames leave and a live socket ends in the same resumable state |
| CatchUp.OverlappingPushes | packages/ramose/src/worker/session.ts:395-411 | any run of pushes on an idle session leaves a job each, and draining them does what pushes delivered one by one do: over a dense log, feed the session the entries |
| CatchUp.CatchUpIsPush | packages/ramose/src/worker/session.ts:323-411 | one catch-up over a window is one push per entry, drained |
| CatchUp.FramesSnoc | packages/ramose/src/worker/session.ts:280-295 | the frames that left are the sends, in their order, and nothing else |
| Follower.ConfirmedFollower.PaintFacts | packages/ramose/src/db/overlay.ts:387-393 | facts whose `t` is new are added and their `t` remembered, the rest is ignored, and the cursor does not move |
| Follower.ConfirmedFollower.ReplaceConfirmed | packages/ramose/src/db/overlay.ts:406-416 | a dump replaces the facts, their `t`, and the cursor |
| Follower.ConfirmedFollower.StampSync | packages/ramose/src/db/overlay.ts:539-542 | a walked reply moves the cursor forward, never back |
| Follower.PaintAllIsUnion | packages/ramose/src/db/overlay.ts:387-393 | with one payload per `t`, any deliveries add up to the union of what was not painted before |
| Follower.PaintingIsOrderFree | packages/ramose/src/db/overlay.ts:387-416 | between two dumps the follower depends on what arrived, not on order or repeats |
| Follower.PaintedOnce | packages/ramose/src/db/overlay.ts:312-315 | once a `t` is painted nothing more is heard about it |
| Follower.CommuteIff | packages/ramose/src/db/overlay.ts:387-393 | two deliveries commute if and only if they agree on every unpainted `t` they share |
| Follower.NarrowAndWideDoNotCommute | packages/ramose/src/db/overlay.ts:387-393 | a frame without a private fact and the ack that has it: what is painted depends on which came first |
| Collapse.IsPlainChunk | packages/ramose/src/internal/core/novelty.ts:248-259 | the fast path is taken exactly when every datom is a visible assertion and no two neighbours are one fact |
| Collapse.CollapseCurrent | packages/ramose/src/internal/core/novelty.ts:265-283 | one pass over an ordered run leaves exactly the last visible datom of each fact, if it is an assertion, once each |
| Collapse.CollapsedIsCurrent | packages/ramose/src/internal/core/novelty.ts:265-283 | what the pass leaves is the current view, as of a `t` or of all there is: the op of the highest `t`, an assertion winning a tie |
| Collapse.SeekIsEnough | packages/ramose/src/internal/core/novelty.ts:261-264 | collapsing a seek of one entity gives its current facts in the whole database, as of a `t` or of all there is |
| ReplicatedLog.DumpCovers | packages/ramose/src/worker/session-sync.ts:196-202 | a dump has a fact of every `t` up to its own, because each commit's instant is always visible |
| ReplicatedLog.VisibilityHolds | packages/ramose/src/worker/session-sync.ts:118-193 | along commits the sieve does not answer with a dump, an older fact stays as visible as it was |
| Pipeline.StampWaits | packages/ramose/src/db/overlay.ts:526-543 | a cursor stamp may be applied after the item behind it instead of before: same end, nothing unaccounted |
| Pipeline.HeldAlong | packages/ramose/src/db/overlay.ts:387-416 | what is accounted for stays accounted for as more arrives |
| ServerHalf.JudgeOk | packages/ramose/src/worker/session.ts:351-381 | after each sieve answer everything sent was owed and nothing owed was skipped |
| ServerHalf.LandOk | packages/ramose/src/worker/session.ts:457-476 | a `sync` naming a cursor the client can vouch for breaks nothing, mid-job or not |
| ServerHalf.DumpOk | packages/ramose/src/worker/session.ts:302-309 | a dump taken at any basis the replica has had since it was asked for covers everything the client was told |
| ClientHalf.PaintOk | packages/ramose/src/db/overlay.ts:387-393 | a frame or an ack leaves the follower holding, at its `t`, all its reader may see and at most its own ack besides |
| ClientHalf.ApplyOk | packages/ramose/src/db/overlay.ts:406-416 | each item the client applies moves it where the wire said it would |
| Replication.StepKeepsInv | packages/ramose/src/db/overlay.ts:526-543 | commits, replica frames, pushes that reach the socket late and in any order, index roots, asks, landings, walks, dumps, deliveries, acks, deferred stamps and lost sockets all keep the end-to-end invariant |
| Replication.FollowerAgreesWithLog | packages/ramose/src/db/overlay.ts:386-416 | in every reachable state, up to the follow cursor and on what the reader may see, the follower's current view is the log's, and anything else it holds there came in the caller's own acks |
| Replication.BootstrapFactsAreThoseHeard | packages/ramose/src/worker/session-sync.ts:161-193 | on bootstrap attributes the follower's current view is that of the log less the commits since its last dump that it heard nothing of; the sieve kept each of those silent, and a silent one is heard of only through an ack |
| Arrival.CommitArrives | packages/ramose/src/internal/replica/replica-do.ts:139-400 | a commit the reader may hear of, on a quiet session: it is replicated, pushed, sieved, sent, read and painted, every step enabled and its whole effect stated |
| Arrival.SyncArrives | packages/ramose/src/worker/session.ts:457-476 | a follower one commit behind asks, and ends with that commit painted and its cursor at the log's end |
| Arrival.DumpIsSent | packages/ramose/src/worker/session.ts:302-309 | the dump a session waits for leaves as a frame, at any basis since the ask |
| Arrival.NextArrives | packages/ramose/src/db/overlay.ts:870-891 | what is next on the wire is read and done to the follower: painted, replaced or stamped |
| Arrival.AckArrives | packages/ramose/src/db/overlay.ts:668-673 | an ack is painted, whatever the socket does |
| Arrival.ResyncIsAsked | packages/ramose/src/worker/session.ts:302-309 | a resync is dumped for at a basis no older than the one it was decided at |
| Arrival.SessionSteps | packages/ramose/src/worker/session.ts:254-295 | what a write, a close and a hibernation do to the socket's session |
| Arrival.WorldSteps | packages/ramose/src/internal/replica/replica-do.ts:145-160 | an index root moves the basis up and never down, a lost socket is followed by a fresh one, and a stamp may wait |
| Arrival.SuchAWorldIs | packages/ramose/src/worker/session-sync.ts:161-202 | what the theorems take for granted holds of a concrete log, reader and ack |
| Arrival.OneCommitIsHeard | packages/ramose/src/worker/session-sync.ts:161-193 | and there the sieve lets the commit through whole |
| ApplyQueue.Applies.EnqueueApply | packages/ramose/src/db/overlay.ts:329-349 | an idle queue starts the job on the spot, a busy one chains it to the tail |
| ApplyQueue.Applies.JobReturned | packages/ramose/src/db/overlay.ts:332-344 | a job run on the spot counts down at once, or becomes the tail |
| ApplyQueue.FirstInFirstOut | packages/ramose/src/db/overlay.ts:329-354 | jobs start in the order they were enqueued, one runs at a time, and the counter is the number of unfinished ones |
| ApplyQueue.FastPathWaitsForAll | packages/ramose/src/db/overlay.ts:330-344 | a job starts on enqueuing only when every earlier one is done |
| ApplyQueue.EveryJobIsThere | packages/ramose/src/db/overlay.ts:329-354 | in every run there are as many jobs as were enqueued |
| ApplyQueue.NeverStuck | packages/ramose/src/db/overlay.ts:329-354 | with a job unfinished, the one whose turn it is can return, end or start |
| ApplyQueue.EveryJobFinishes | packages/ramose/src/db/overlay.ts:329-354 | so every job enqueued can run in its turn to the end |
| ApplyQueue.ReentrantPromiseOverlaps | packages/ramose/src/db/overlay.ts:338-342 | the exception, in full: a job started on the spot that enqueues another and then returns a promise lets the other start while it runs |
| Rewrite.RewriteComposes | packages/ramose/src/db/overlay.ts:146-224 | rewriting twice is rewriting once with both maps, the earlier one winning |
| Rewrite.RewriteIsIdempotent | packages/ramose/src/db/overlay.ts:146-224 | rewriting again changes nothing |
| Rewrite.DisjointRewritesCommute | packages/ramose/src/db/overlay.ts:146-224 | over disjoint maps the order does not matter |
| Rewrite.RewrittenIff | packages/ramose/src/db/overlay.ts:146-224 | form by form, without the walk: an item keeps its op, its attribute and a plain value, a map its keys and plain entries, anything else is unchanged, and a name with an id becomes it |
| Rewrite.RefAttrIff | packages/ramose/src/db/overlay.ts:153-168 | which attributes are references: by id, or by ident, read forward from `ns/_name` |
| Rewrite.PairIsLookupOrList | packages/ramose/src/db/overlay.ts:148-152 | behind a reference a pair that begins with an attribute is one entity and stays, any other is a list of two |
| Rewrite.RewriteTouchesOnlyNames | packages/ramose/src/db/overlay.ts:170-224 | scalars, attributes, lookup refs and structure are the same after a rewrite, whatever the ids |
| Rewrite.NamesLeft | packages/ramose/src/db/overlay.ts:146-224 | exactly the tempids there are ids for are resolved; every other one is still there |
| Rewrite.NamesBecomeTheirIds | packages/ramose/src/db/overlay.ts:146-224 | position by position: a name there is an id for becomes that id, and any other name, number, list or scalar stays as it was |
| Overlay.OverlayClient.RemapQueued | packages/ramose/src/db/overlay.ts:418-451 | every queued layer has its foreign tempids, entity, datoms and own tempids renamed at once |
| Overlay.OverlayClient.DropLayer | packages/ramose/src/db/overlay.ts:453-457 | the first layer of that id leaves, if there is one |
| Overlay.OverlayClient.RemapDropped | packages/ramose/src/db/overlay.ts:459-475 | an echo renames by matching attribute, value and direction |
| Overlay.OverlayClient.PushLayer | packages/ramose/src/db/overlay.ts:638-644 | a submitted write is a layer and an epoch in one step |
| Overlay.OverlayClient.HandleAck | packages/ramose/src/db/overlay.ts:668-673 | an ack drops its layer, paints its datoms, renames what is queued, and moves the epoch |
| Overlay.OverlayClient.HandleReject | packages/ramose/src/db/overlay.ts:692-696 | a rejection drops its layer and moves the epoch |
| Overlay.OverlayClient.ApplyTx | packages/ramose/src/db/overlay.ts:870-878 | a frame paints, drops the layer it echoes, and moves the epoch |
| Overlay.OverlayClient.LandResync | packages/ramose/src/db/overlay.ts:884-890 | the dump replaces the follower, then the epoch moves |
| Overlay.OverlayClient.NextEid | packages/ramose/src/db/overlay.ts:376-384 | a new local id is past every id a pending layer uses |
| PendingWrites.StepSparesIff | packages/ramose/src/db/overlay.ts:453-490 | exact, step by step: a write that shows, as its layer or with all its facts painted, still shows if and only if the step does not drop its layer without bringing those facts in time |
| PendingWrites.WriteNeverVanishes | packages/ramose/src/db/overlay.ts:654-705 | from submit to rejection or dump, acked or echoed any number of times: a write is in a layer, or every fact that all payloads of its commit carry is painted |
| PendingWrites.FirstPayloadDecides | packages/ramose/src/db/overlay.ts:387-393 | between two dumps a fact of a new commit is painted if and only if the first payload that speaks of the commit has it |
| PendingWrites.NarrowEchoLosesAFact | packages/ramose/src/db/overlay.ts:870-878 | a narrowed echo takes the layer along, and the wider ack that follows is not heard |
| PendingWrites.CountOnlyAckLosesTheWrite | packages/ramose/src/db/overlay.ts:658-673 | an ack that carries a count instead of datoms loses the write |
| PendingWrites.StampMovesTheCursor | packages/ramose/src/db/overlay.ts:526-543 | a stamp moves the cursor forward and nothing else, a dump sets it |
| Ranks.PendingDecides | packages/ramose/src/db/overlay.ts:624-631 | while every layer has its own `t`, past what is painted and past the layers before it, a fact is current exactly as the last pending write that touches it says |
| Ranks.StepRanksIff | packages/ramose/src/db/overlay.ts:618-644 | exact, step by step: the queue stays so ranked if and only if a submitted layer finds no queued `t` past its own made-up one, and nothing is painted at or past a layer left queued |
| Ranks.RunRanksIff | packages/ramose/src/db/overlay.ts:618-705 | over any run: pending writes are ranked at every point if and only if every step is such |
| Ranks.RejectionTiesTwoWrites | packages/ramose/src/db/overlay.ts:626-631 | after a rejection the next write gets the `t` of the one before it |
| Ranks.TiedRetractionIsUnseen | packages/ramose/src/db/overlay.ts:626-631 | and at one `t` the earlier write's assertion hides the later one's retraction |
| Ranks.LaterCommitOutranks | packages/ramose/src/db/overlay.ts:387-393 | a commit of another client painted while a write waits decides over it |
| Pointers.OwnNamesStay | packages/ramose/src/db/overlay.ts:426-439 | a layer loses exactly the acked names it did not mint itself |
| Pointers.PointerResolves | packages/ramose/src/db/overlay.ts:418-451 | a datom that named the acked layer's local entity, as its subject or as its value, names the server's, in one simultaneous substitution |
| Pointers.InvocationResolves | packages/ramose/src/db/overlay.ts:129-139 | the ack of the entity's maker moves an operation queued on it, by name or by local id, to the server's id; what later acks make of it is the next rows' to say |
| Following.StepRenames | packages/ramose/src/db/overlay.ts:418-490 | whatever a step is, a layer it leaves queued has exactly what the step announces renamed in it |
| Following.LayerFollows | packages/ramose/src/db/overlay.ts:418-451 | over any run in which a layer stays queued, each id in it, and the entity its operation is to be posted on, is the fold of the renames of the run |
| Following.DatomsStay | packages/ramose/src/db/overlay.ts:231-239 | and the layer's datoms stay as many, in order, each with its attribute, `t` and direction, strings as they are, and every entity id, and every plain number, where the renames take it |
| Following.PointersFollowTheServer | packages/ramose/src/db/overlay.ts:418-490 | whether the maker is acked or its echo comes first: every place that meant its entity, in a queued layer's datoms or as the entity of its operation, names the server's, moves as the later renames move that id, and names it at every later point if and only if no layer acked or echoed later had made another entity under that number |
| Following.UnheldIsKept | packages/ramose/src/db/overlay.ts:376-426 | a guard on the queue: no layer holds the server's id as a local one, and none is submitted with it or moved there; then every later step keeps it |
| Following.LaterAckStealsThePointer | packages/ramose/src/db/overlay.ts:418-451 | three layers and two acks: the first brings the number the second layer made, and the second takes the operation and the datom meant for the first entity to the other one |
| Posting.PostedNamesFollow | packages/ramose/src/db/overlay.ts:434-436 | over any run, position by position of the transaction that is posted: a foreign name is the id of the first ack or echo that named it, and everything else is as it was queued |
| Posting.PostedForms | packages/ramose/src/db/overlay.ts:434-436 | form by form, what is posted is what was queued, rewritten once with the first id each foreign name was given, or the very same transaction if none was |
| Posting.PostedOnTheServersEntityIff | packages/ramose/src/db/overlay.ts:434-436 | the transaction is posted on the server's entity wherever it means it if and only if it never means it by the local number |
| Posting.NumberedSubjectStays | packages/ramose/src/db/overlay.ts:170-180 | a subject written as a number is posted as it was, whatever is acked |
| Posting.PostedResolvedIff | packages/ramose/src/db/overlay.ts:650-656 | a foreign name that was acked is posted as its id if and only if the layer is still queued: a dump before its turn sends out the transaction as it was submitted |
| Posting.PostedInvocationIff | packages/ramose/src/db/overlay.ts:815-820 | an operation whose entity was renamed is posted on the renamed one if and only if its layer is still queued |
| Following.NumbersSurviveIff | packages/ramose/src/db/overlay.ts:231-239 | plain numbers survive a rename if and only if none of them is a renamed id |
| Following.CountIsRenamed | packages/ramose/src/db/overlay.ts:231-239 | a count of 1000 becomes 5000 when the entity 1000 does |
| Following.EntitiesStayApartIff | packages/ramose/src/db/overlay.ts:422-449 | an ack keeps apart the entities a queued layer names, in its datoms and as its operation's, if and only if it gives no two of them one id and none of them the id of one it leaves alone |
| Pointers.EchoFirst | packages/ramose/src/db/overlay.ts:459-490 | when the echo comes before the ack, a reference names the server's entity if and only if the last of that entity's facts which the echo holds on another entity, it holds last on the server's |
| Pointers.EchoAnnounces | packages/ramose/src/db/overlay.ts:459-475 | an echo announces for a tempid the entity it tells about, or the local id again |
| Posting.SilentEchoPostsTheLocalId | packages/ramose/src/db/overlay.ts:471-475 | an echo that tells nothing of an entity gives its name the local number, and what was queued by name is posted on it |
| Pointers.EqualFactsCollide | packages/ramose/src/db/overlay.ts:460-469 | two new entities that share a fact: a reference to the first lands on the second |
| Pointers.LateAckRenamesNothing | packages/ramose/src/db/overlay.ts:668-673 | the ack after such an echo renames nothing |
| Live.StandingLoop.PassReturned | packages/ramose/src/db/Db.ts:578-592 | a result is emitted only if its digest moved, and the loop sleeps only without news |
| Live.StandingLoop.AwaitOverlay | packages/ramose/src/db/Db.ts:691-723 | registered first, then looked at once more |
| Live.ParkedIsNeverStale | packages/ramose/src/db/Db.ts:569-600 | whenever the loop sleeps, its last emission is the query's answer on the overlay as it is, except while a dump is under way and between a failed dump and the next move of the epoch |
| Live.EmissionsDiffer | packages/ramose/src/db/Db.ts:579-584 | no two consecutive emissions are the same |
| Live.WokenIff | packages/ramose/src/db/Db.ts:691-723 | a sleeping loop is woken exactly by a notice that finds the epoch or the generation moved |
| Live.LossAndMovesWake | packages/ramose/src/db/Db.ts:691-723 | so a lost socket wakes it, and every write, ack, rejection and frame |
| Live.PassAnswers | packages/ramose/src/db/Db.ts:569-600 | an undisturbed pass emits the answer on the overlay as it is, if it differs, and goes to sleep |
| Live.DisturbedPassRunsAgain | packages/ramose/src/db/Db.ts:578-600 | a pass the overlay or the socket moved under does not sleep on it |
| Live.SubmittedIsSeen | packages/ramose/src/db/overlay.ts:361-374 | a query sees the painted facts and every pending layer's, in the order of the queue |
| Live.SettledAgain | packages/ramose/src/db/overlay.ts:884-891 | when a dump is under way, when one has failed unsaid, and what counts a generation |
| Live.FailedResyncIsSilent | packages/ramose/src/db/overlay.ts:884-891 | the exception: a dump that cannot be built leaves a sleeping loop stale if and only if the cleared layers mattered to its query |
| FilterPull.FilterPull | packages/ramose/src/db/Pull.ts:1299-1379 | the walk with its loops computes the filter the theorems are about |
| FilterPull.FilterEach | packages/ramose/src/db/Pull.ts:1326-1335 | a lone value is a collection of one, and the elements that fail are left out |
| Selected.FilterIff | packages/ramose/src/db/Pull.ts:1299-1379 | what the filter answers, said without it: a stub under the id alias; and else, for every key of the shape and no other, the default, nothing, no elements for what the result lacks, and the value, the row, or in order the rows that fit, for what it has |
| Clauses.Lowering.LowerRequired | packages/ramose/src/db/shapes.ts:687-716 | the pass with its counter computes the clauses the theorems are about |
| Clauses.ClausesMeanDemands | packages/ramose/src/db/shapes.ts:687-716 | the flat conjunction, with the variables the pass made, holds at an entity if and only if the entity has what the shape demands, nested shapes and backlinks included |
| Pull.ReferrersAreFacts | packages/ramose/src/internal/core/query/pull.ts:144-149 | a backlink finds exactly the entities with a fact that points here |
| Pull.FieldShows | packages/ramose/src/internal/core/query/pull.ts:84-186 | a card-many field, or a backlink nobody owns, shows an array of those chosen of its elements that show, any other one of its own; with none the default, or nothing |
| Pull.ReferenceShows | packages/ramose/src/internal/core/query/pull.ts:120-186 | a reference shows what is found at the other end; of nothing, a stub forward and nothing backward |
| Agreement.RowKept | packages/ramose/src/db/Pull.ts:1299-1379 | the filter keeps a pulled row if and only if its required fields are there, each required reference leading to a kept row or a nameable stub |
| Agreement.ClausesAndFilterAgree | packages/ramose/src/db/shapes.ts:670-716 | for every accepted shape, recursion and a `:db/id` key included: a row the clauses keep is kept by the filter exactly when it is anchored, and a row the filter keeps satisfies the clauses exactly when it is rooted |
| Agreement.IdentifiedShapesAgree | packages/ramose/src/db/Pull.ts:1291-1298 | with ids selected and nothing dangling, satisfied implies kept, and without required recursion the two agree |
| Agreement.NothingToShowIsDropped | packages/ramose/src/internal/core/query/pull.ts:175-183 | a required reference whose shape is all optional drops a row the clauses keep |
| Agreement.GhostOwnerIsKept | packages/ramose/src/internal/core/query/pull.ts:320-335 | a required reference to an entity that is gone is kept by the filter and dropped by the clauses |
| Agreement.IdKeyedRowIsTakenForAStub | packages/ramose/src/db/Pull.ts:1270-1289 | a field keyed `:db/id` makes a row look like the engine's stub |
| Conformity.FilterConforms | packages/ramose/src/db/Pull.ts:1299-1379 | every filtered row conforms to its shape: required fields there, many fields arrays, defaults filled, stubs under the shape's id alias |
| Conformity.FieldsAreTheResults | packages/ramose/src/db/Pull.ts:1311-1378 | key by key: the shape's keys and no other, scalars as they came, nested rows filtered, and of a collection the elements that pass, in order |
| Conformity.FilterTwice | packages/ramose/src/db/Pull.ts:1270-1379 | filtering a filtered row changes nothing if and only if no stub was renamed in it and no row of it looks like one |
| Conformity.RenamedStubIsDropped | packages/ramose/src/db/Pull.ts:1270-1289 | a stub kept under its id alias lacks a required name the second time |
| Redaction.AcceptedIff | packages/ramose/src/db/Policy.ts:595-627 | a shape passes exactly when every masked field in it, at any depth, is optional or card-many |
| Redaction.StripIff | packages/ramose/src/db/Policy.ts:584-594 | what redaction leaves of a result, said without the walk: its masked keys are gone at every depth the shape reaches, and everything else is as it was |
| Redaction.RedactedResultKeptIff | packages/ramose/src/db/Policy.ts:595-627 | a result an accepted shape keeps is kept with its masked attributes removed at every depth, under recursion too, if and only if no required row is left with `:db/id` alone and no id to be named by |
| Redaction.RedactedResultIsKept | packages/ramose/src/db/Policy.ts:595-627 | so it is kept wherever rows carry the stub's key only with an id beside it |
| Redaction.NamelessStubIsDropped | packages/ramose/src/db/Pull.ts:1270-1289 | a number keyed `:db/id`, no id and everything else hidden: the redacted row is dropped |
| Redaction.RedactedPullKeptIff | packages/ramose/src/db/Policy.ts:584-627 | a pulled row that is kept is kept redacted if and only if, along its required references in the data, no row that shows only a number keyed `:db/id` is without an id to be named by |
| Redaction.RedactedDemands | packages/ramose/src/db/Policy.ts:608-621 | an accepted shape demands nothing masked: redacting the database changes no row's demands |
| Redaction.RedactionKeepsRows | packages/ramose/src/db/Policy.ts:584-627 | over a redacted database the clauses keep exactly the same rows, and the filter keeps one exactly when it is anchored in what is left |
| Redaction.RedactionCanDropARow | packages/ramose/src/db/Policy.ts:584-594 | an accepted shape whose required reference selects only masked optional fields does lose its row |
| OrderPath.HopClauses | packages/ramose/src/db/shapes.ts:620-638 | the loop builds the chain, one fresh variable a hop |
| OrderPath.LowerOrder | packages/ramose/src/db/shapes.ts:646-668 | one branch that walks the path, one that denies it |
| OrderPath.OrderingKeepsTheRows | packages/ramose/src/db/shapes.ts:640-668 | a key by a path, or by the entity itself: the branches are exclusive and exhaustive, and give one binding per root if and only if the path leads to at most one value |
| OrderPath.SingleValuedKeysGiveOneRow | packages/ramose/src/db/shapes.ts:291-309 | a key of single-valued hops gives every root exactly one row |
| Base64Url.Base64UrlBytes | packages/ramose/src/db/token.ts:64-81 | the 32-bit loop decodes exactly what section 5 of RFC 4648 says, fills its array exactly, and refuses any other character |
| Base64Url.SextetIff | packages/ramose/src/db/token.ts:54-62 | exactly the 64 characters are read, each as its place in the alphabet |
| Base64Url.FedIsDecoded | packages/ramose/src/db/token.ts:67-78 | the accumulator stays in 32 bits and nothing it drops was needed |
| Base64Url.RoundTrip | packages/ramose/src/db/token.ts:64-81 | decoding inverts the encoder of section 5 of RFC 4648, with any padding |
| Token.TokenSource.ReadCurrent | packages/ramose/src/db/token.ts:187-196 | the cache answers while it is usable, otherwise the attempt in flight or a new one |
| Token.TokenSource.BeginMint | packages/ramose/src/db/token.ts:159-185 | one attempt at a time, under the epoch it began in |
| Token.TokenSource.MintResolved | packages/ramose/src/db/token.ts:165-175 | a minted token is cached only under its own epoch |
| Token.TokensAreCurrent | packages/ramose/src/db/token.ts:137-210 | at most one attempt of the current epoch, a cache of the current epoch, and no cached answer at or past its `exp` |
| Token.NoMintLoop | packages/ramose/src/db/token.ts:143-156 | a token is usable when minted exactly if it has not expired, is given up its margin before `exp`, and under the margin lives half its life |
| Token.StaleMintsStayOut | packages/ramose/src/db/token.ts:139-141 | an attempt that began before an `invalidate` never reaches the cache |
| Token.MintIsServed | packages/ramose/src/db/token.ts:165-196 | what an attempt of the current epoch brings is cached and answers every read until its refresh instant; an older one changes nothing |
| Token.ReadBeginsOne | packages/ramose/src/db/token.ts:159-205 | a read with nothing usable, or a look at the claims with no cache, waits on the current attempt or begins one |
| Token.InvalidateBeginsAnew | packages/ramose/src/db/token.ts:198-215 | after an `invalidate` the next read begins a new attempt; a settled one is not shared again |
| Token.FirstToken | packages/ramose/src/db/token.ts:159-196 | from the start: read, mint, settle, and the token is served |
| Requests.RequestTable.Drop | packages/ramose/src/db/session.ts:206-215 | a lost socket rejects everything that waits and counts a generation |
| Requests.RequestTable.DispatchFrame | packages/ramose/src/db/session.ts:297-312 | an id is used once, and a send that throws is rejected on the spot |
| Requests.RequestTable.OnReply | packages/ramose/src/db/session.ts:228-245 | a reply settles the id that waits for it or nothing |
| Requests.RequestTable.CloseForGood | packages/ramose/src/db/session.ts:365-378 | closing drops once |
| Requests.RequestsAreConserved | packages/ramose/src/db/session.ts:187-312 | every id is in exactly one of waiting, resolved and rejected, stays settled, is never given out again, and time and generation never go back |
| Requests.BasisIsHighest | packages/ramose/src/db/session.ts:187-192 | the basis is the highest `t` a push, a local write or a settling reply told, and nothing else moves it |
| Requests.OldRepliesSettleNothing | packages/ramose/src/db/session.ts:217-247 | a reply on a socket since replaced, or to an id never sent, settles nothing |
| Requests.SettledIff | packages/ramose/src/db/session.ts:206-312 | a request is resolved by the reply to its id and by nothing else, and rejected when its socket goes, the session closes or it could not be sent |
| Requests.SocketIff | packages/ramose/src/db/session.ts:187-378 | when there is a socket, what each opening, loss and close does to the generation, and that a closed session opens none |
| Requests.AnsweredIsResolved | packages/ramose/src/db/session.ts:228-245 | answered before its socket goes, a request is resolved, whatever else happens |
| Requests.FirstRequest | packages/ramose/src/db/session.ts:187-312 | from the start: open, send, hear of a commit, be answered |
| OpPrefix.TxBuilder.RunBody | packages/ramose/src/db/op-handle.ts:137-149 | running a body against the builder collects the ops the step function says |
| OpPrefix.TempidsAreFresh | packages/ramose/src/db/Tx.ts:206-219 | a body never gets the same made name twice |
| OpPrefix.ChosenNamesClashIff | packages/ramose/src/db/Tx.ts:206-219 | a made name is one the body chose itself if and only if the body chose `tmp-k` for a `k` the builder got to |
| OpPrefix.ChosenNameClashes | packages/ramose/src/db/Tx.ts:206-219 | a body that calls an entity `tmp-1` and asks for a fresh one gets the same name twice |
| OpPrefix.OptimisticPrefix | packages/ramose/src/db/op-handle.ts:90-149 | the ops collected up to the first effect are a prefix of those of the full run, and all of them when there is no effect |
| OpPrefix.OpsAreThePushes | packages/ramose/src/db/op-handle.ts:90-149 | a run takes one action after the other, answers each as asked, collects exactly the ops pushed, and ends only where the body returns, fails, or an effect halts it |

## Left out

- HTTP routing, headers, CORS, analytics, Durable Object stubs and storage: I/O.
- JWT verification and the policy evaluator: the sieve is an arbitrary rule under the stability hypothesis above.
- `auth` frames: the principal of a socket is fixed for a run.
- A dump that throws on the server: it ends the session like a failing sieve, which is modelled.
- `processTx`, the datalog engine and the segment trees: a current view, a pull and the satisfaction of clauses are small specifications instead.
- The schema transaction the client applies after building a follower: it adds bootstrap facts only.
- `Agreement.ClausesAndFilterAgree`: what recursion, a wildcard and a collection's own `where`, `order`, `offset` and `limit` answer is arbitrary, because no row depends on it; ident-keyed array patterns and attributes unknown to the schema are not modelled.
- `Redaction.RedactedResultKeptIff`: a wildcard's row is not looked into, because the filter never drops one.
- `Clauses.ClausesMeanDemands`: multi-hop fields are rejected by the builders, so a field is one attribute.
- `OrderPath.OrderingKeepsTheRows`: a path that ends in a backlink is not modelled, because the engine refuses its second branch.
- `Rewrite.RewriteTx`: names inherited from the JavaScript object prototype are not modelled.
- `Overlay.OverlayClient.HandleAck`: the outbox that posts one write at a time and the reply's own fields are not modelled.
- `PendingWrites.WriteNeverVanishes`: says a write is there; whether it decides is the `Ranks` rows', and what a dump leaves of it is the end-to-end theorem's.
- `Live.ParkedIsNeverStale`: one loop and one query; retry pauses and failures that end the loop are not modelled.
- `OpPrefix.OptimisticPrefix`: a body that catches the halting defect itself, and a body that reads a clock or randomness, are not modelled.
- `Requests.RequestsAreConserved`: the promise of a socket that is still opening and the one retry after a refused credential are not modelled.
- `Base64Url.Base64UrlBytes`: characters outside the basic plane are one character here and are refused either way.
- React hooks, Alchemy resources, release scripts, examples and the website.
