# Verified model of the note transport node

The note transport node stores private notes in SQLite and hands them to clients by note
tag, either when a client pulls (`FetchNotes` with a cursor) or through a live stream
(`StreamNotes`). Everything rests on one number, the `seq` key of a stored row, being a
safe watermark: a client that remembers the largest `seq` it was answered must never be
leapt over. This project models the node's two coupled halves and proves what they promise.

**The table and the pull protocol.** A table is a sequence of rows in `seq` order with its
AUTOINCREMENT counter (`Store.dfy`, `Paging.dfy`). Writers work in transactions beside a
committed table (`Transactions.dfy`); the server answers from the committed table, and the
network delays, drops, duplicates and reorders what it carries (`Pull.dfy`,
`Sequential.dfy`). `SqliteBackend.dfy` and `GrpcHandler.dfy` are the objects with their
loops, proved against these values; `Migrations.dfy` and `Retention.dfy` cover what happens
to a table over its life, `Notes.dfy` the conversions of one note.

**The streamer.** `Streamer.dfy` says what each operation of the streaming manager does to
tags, wakers and channels; `StreamerActor.dfy` and `Subscription.dfy` are the manager, the
actor and the subscriber as mutable objects, proved to do just that. `StreamWorld.dfy` runs
the actor together with the database and any number of subscribers, one step at a time; a
round's queries are separate steps, so commits, polls and control messages fall between
them. `Accounting.dfy`, `Credit.dfy`, `Refinement.dfy`, `StreamOrder.dfy`,
`StreamCompleteness.dfy`, `ControlQueue.dfy` and `Departure.dfy` hold the laws of every run.
`StreamRuntime.dfy` puts the objects together, database, actor, control queue and
subscribers' ends, and proves that whatever happens next they go along with the runs
(`ActorRefinement.dfy` compares the rounds), so the laws of the runs are laws of the objects.

A run is a finite list of actions folded over a start state; a law of every run is a lemma
about every such list. An action that is not enabled leaves the state as it is.

## Assumptions

- SQLite: writers are serialized, a reader sees one committed table, AUTOINCREMENT hands out
  keys above every key ever committed and its counter rolls back with its transaction.
- The header serialization of `miden_protocol` reads back what it wrote (`Notes.RoundTrips`,
  a hypothesis of the lemmas that need it).
- Subscription ids are fresh. They are random 64-bit numbers in the program.
- The clock is an input. Cleanup cutoffs are arbitrary numbers, so every clock is covered.

## What holds only under a condition, and the condition

- Pull safety (`Pull.NoLoss`) needs no bound on cursors or keys. Freshness does: a batch
  brings only rows above its cursor if and only if the cursor is at most 10^12 or nothing
  live and matching lies at or below it (`Store.FreshIff`). Draining, exactly-once and
  stream order are stated below that threshold for this reason; above it a client is stuck
  on its first batch (`Paging.LegacyCursorIsStuck`).
- Block-context rollback keeps cursors safe for later notes if and only if the row with the
  highest key ever issued is still live (`Migrations.RollbackKeepsCursorsSafeIff`).
- Order and repetition of request tags do not matter if and only if both raw lists are on
  the same side of the cap of 128 (`GrpcHandler.TagOrderAndRepetitionIff`).
- A subscriber that goes away is gone in every run by the time the control messages then
  queued are taken, if and only if the control queue had room at that moment or one of those
  messages ends the streamer (`Departure.DropIsRemovedIff`). With a full queue it is stranded:
  it stays listed until a round reaches its closed channel, which needs a waker of it that is
  registered or queued (`Departure.StrandedUntilReached`). Without one it stays listed as long
  as the streamer runs (`Departure.DropForgetsIff`, `Departure.ForgottenStays`). Such runs
  exist from every database, whether its AddSub has been handled or not
  (`Departure.LeakIsReachable`).
- "Active = added - removed" holds while the streamer runs; shutting down logs no removals.

## Where code and documentation differ

The model follows the code.

- `docs/external/src/users.md:73` calls the response cursor the highest `seq` returned. The
  code starts the maximum at the request cursor (`crates/node/src/node/grpc/mod.rs:261`), so
  an empty batch echoes it. For a batch that is not empty the documentation is right if and
  only if the request cursor is at most 10^12 or not above the batch's last key
  (`Paging.CursorIsLastKeyIff`).
- `docs/external/src/users.md:46` and `:156` apply the size limit to the details. The code
  counts header and details (`crates/node/src/node/grpc/mod.rs:161`).
- `docs/external/src/users.md:100` says that a subscriber that cannot keep up is dropped. The
  code first skips it silently while its waker is not registered
  (`crates/node/src/node/grpc/streaming.rs:129`) and drops it only when a send fails
  (`Streamer.ForwardFates`). Notes of the rounds that skipped it are all that a stream can
  miss besides what cleanup removed (`StreamCompleteness.StreamIsComplete`).

## Model

| member | source | states |
|---|---|---|
| `Notes.Micros` | crates/node/src/database/sqlite/models.rs:42 | stored time is the instant floored to microseconds, also before the epoch, and stays in the date range |
| `Notes.RowRoundTrip` | crates/node/src/database/sqlite/models.rs:35-77 | a stored note decodes to itself but for the assigned key and the floored time |
| `Notes.DecodesIff` | crates/node/src/database/sqlite/models.rs:48-77 | a row decodes exactly when time, header and block number are in range, else which error; a decoded note has the row's columns |
| `Notes.WellFormedDecodes` | crates/node/src/database/sqlite/models.rs:35-77 | rows written by `store_note` always decode and re-encode to the same columns |
| `Notes.WireRoundTrip` | crates/node/src/types.rs:38-46 | the wire note a client gets back equals the one sent iff the header bytes are canonical |
| `Store.Insert` | crates/node/src/database/sqlite/migrations/20260422000000_add_seq_cursor/up.sql:14-21 | an accepted insert keeps keys ascending, ids unique, and moves the counter up |
| `Store.CleanupKeepsValid` | crates/node/src/database/sqlite/mod.rs:234-248 | cleanup keeps the table valid, keeps the counter, and splits the rows into kept and deleted |
| `Store.RowsWithinCounter` | crates/node/src/database/sqlite/mod.rs:243-247 | the deleted count always fits the integer conversions |
| `Store.PageCharacterised` | crates/node/src/database/sqlite/mod.rs:186-200 | the page is the one ascending sequence of the smallest wanted keys, cut only when 500 are in it |
| `Store.AdvanceIsMaximum` | crates/node/src/node/grpc/mod.rs:261-268 | the cursor loop yields an attained upper bound of request cursor and keys |
| `Store.PageCovers` | crates/node/src/database/sqlite/mod.rs:149-214 | every live wanted row between request and response cursor is in the batch, for every cursor |
| `Store.AdvanceWithinCounter` | crates/node/src/node/grpc/mod.rs:261-268 | a response cursor never runs ahead of the keys issued |
| `Store.CursorConversionsNeverFail` | crates/node/src/database/sqlite/mod.rs:168-170 | neither the cursor nor the key conversion of a fetch can fail |
| `Store.LegacyReset` | crates/node/src/database/sqlite/mod.rs:160-166 | above 10^12 the page of cursor 0, at or below it only rows above the cursor and each up to the response cursor |
| `Store.FreshIff` | crates/node/src/database/sqlite/mod.rs:160-166 | a batch brings only rows above the cursor iff the cursor is not legacy or nothing lies at or below it |
| `Store.DecodeAllIff` | crates/node/src/database/sqlite/mod.rs:202-208 | a page decodes iff each row does, and then row by row in order; else the first bad row gives the error |
| `Paging.SelectAbove` | crates/node/src/database/sqlite/mod.rs:190-192 | above the k-th wanted key lies exactly the rest of the wanted rows |
| `Paging.CursorIsLastKeyIff` | docs/external/src/users.md:73 | the response cursor of a batch is its last and highest key iff the request cursor is not legacy or not above it |
| `Paging.Drain` | docs/external/src/users.md:65-75 | re-calling until a short batch gives every wanted row once, in order, in floor(n/500)+1 calls |
| `Paging.LegacyCursorIsStuck` | crates/node/src/database/sqlite/mod.rs:156-166 | a legacy cursor is a fixed point under any number of calls; all rows are seen iff one batch holds them |
| `Paging.FirstOfMerge` | crates/node/src/database/sqlite/mod.rs:193 | limiting the operands of a seq-ordered merge does not change its first rows |
| `Paging.MultiTagIsMerge` | crates/node/src/database/sqlite/mod.rs:135-141 | the multi-tag page is the first 500 of the merge of the single-tag pages |
| `Paging.PerTagLoopLosesANote` | crates/node/src/database/mod.rs:342-444 | the per-tag loop loses a note for every caught-up client, the single query returns it |
| `Transactions.OnlyCommitPublishes` | crates/node/src/database/sqlite/mod.rs:42-59 | before commit, and on rollback, nothing of the committed table or history changes |
| `Transactions.AllOrNothing` | crates/node/src/database/sqlite/mod.rs:42-59 | a transaction does its statements in order, or nothing at all if one of them is refused or it is rolled back |
| `Transactions.DbStepKeepsInv` | crates/node/src/database/sqlite/mod.rs:42-59 | every transaction step keeps table and history consistent and stores only above the counter |
| `Transactions.CommitOrder` | crates/node/src/database/sqlite/migrations/20260422000000_add_seq_cursor/up.sql:10-16 | seq order is commit order over every run, despite cleanup of top rows and reissued keys |
| `Transactions.ReachableHistory` | crates/node/src/database/sqlite/migrations/20260422000000_add_seq_cursor/up.sql:15-16 | live rows are those stored and not removed, counts balance, an id returns only after removal |
| `Pull.AnswerAccounts` | crates/node/src/node/grpc/mod.rs:250-268 | one answer accounts for every note it passes: in the batch or removed before its snapshot |
| `Pull.StepKeepsInv` | crates/node/src/node/grpc/mod.rs:213-284 | each step of writers, server, network and client keeps coverage, and the cursor never falls |
| `Pull.NoLoss` | crates/node/src/database/sqlite/mod.rs:149-214 | every committed wanted note at or below the client's cursor was delivered or removed before it was passed |
| `Pull.LiveNotesAreDeliveredOrAhead` | docs/external/src/users.md:124-133 | a live wanted note is delivered already or lies above the cursor |
| `Pull.OnlyCommittedNotesAreDelivered` | crates/node/src/database/sqlite/mod.rs:186-200 | a client gets only notes committed under its tags |
| `Pull.ArrivalDelivers` | docs/external/src/users.md:124-133 | a response that arrives is handled in full; the cursor moves to it unless the client stops in between |
| `Pull.CrashedNotesComeAgain` | docs/external/src/users.md:124-133 | a live note the client crashed on comes with the first answer that passes it |
| `Sequential.ExactlyOnce` | crates/node/src/node/grpc/mod.rs:213-284 | delivered keys strictly increase; an id comes twice only if removed and stored again between |
| `Sequential.CatchesUp` | docs/external/src/users.md:65-75 | undisturbed fetches bring every live wanted row above the cursor, once, in order, 500 at a time, after whatever was outstanding |
| `Retention.StoresAreLiveOrCleaned` | crates/node/src/database/sqlite/mod.rs:234-248 | successful stores = live rows + sum of cleanup return values, over every run |
| `Retention.SurvivorsOfARun` | crates/node/src/database/sqlite/mod.rs:234-248 | cleanups compose to one at the largest cutoff; survivors keep keys and order |
| `Retention.LaterFetchIsOldFetchByAge` | crates/node/src/database/sqlite/mod.rs:186-200 | a later unlimited fetch shows of the old rows the old fetch filtered by age |
| `SqliteBackend.SqliteDatabase.StoreNote` | crates/node/src/database/sqlite/mod.rs:119-133 | all or nothing: the row under the next key, or an error and no change |
| `SqliteBackend.SqliteDatabase.CleanupOldNotes` | crates/node/src/database/sqlite/mod.rs:234-248 | exactly the rows older than that many days of 24 hours go, and their number is returned |
| `SqliteBackend.SqliteDatabase.FetchNotesByTags` | crates/node/src/database/sqlite/mod.rs:149-214 | the decoded page, or the first row's error that does not decode |
| `SqliteBackend.SqliteDatabase.ExecuteInsert` | crates/node/src/database/sqlite/mod.rs:125-128 | the insert statement is the insert step of the open transaction, or refuses and changes nothing |
| `SqliteBackend.SqliteDatabase.ExecuteDelete` | crates/node/src/database/sqlite/mod.rs:239-244 | the delete statement is the delete step of the open transaction and counts its rows |
| `GrpcHandler.GrpcServer.SendNote` | crates/node/src/node/grpc/mod.rs:151-204 | the handler does what `HandleSend` says; a rejection leaves database and history as they were |
| `GrpcHandler.GrpcServer.DedupTags` | crates/node/src/node/grpc/mod.rs:240-243 | the tag list is strictly ascending and has exactly the request's tags |
| `GrpcHandler.GrpcServer.FetchNotes` | crates/node/src/node/grpc/mod.rs:213-284 | the handler answers what `HandleFetch` says of the raw request |
| `GrpcHandler.GrpcServer.ResponseCursor` | crates/node/src/node/grpc/mod.rs:261-268 | the loop computes the running maximum over the batch's keys |
| `GrpcHandler.FetchFailsOnlyOnTooManyTags` | crates/node/src/node/grpc/mod.rs:226-238 | on rows the service wrote, a fetch fails iff more than 128 raw tags are sent |
| `GrpcHandler.FetchStatusIff` | crates/node/src/node/grpc/mod.rs:226-238 | on any table: InvalidArgument iff more than 128 raw tags are sent, Internal iff not and a row of the page does not decode |
| `GrpcHandler.TagOrderAndRepetitionIff` | crates/node/src/node/grpc/mod.rs:226-259 | requests with the same tag set get the same response iff both are within or both beyond the cap |
| `GrpcHandler.ResponseIsThePage` | crates/node/src/node/grpc/mod.rs:255-283 | the response is the wire form of the page, row by row; its cursor is the request cursor or the page's last key, whichever is larger |
| `GrpcHandler.SendAcceptsIff` | crates/node/src/node/grpc/mod.rs:155-203 | when a note is accepted, with which status it is refused otherwise, and the row it becomes, column by column |
| `GrpcHandler.SentNoteIsKeptIff` | crates/node/src/node/grpc/mod.rs:183-190 | an accepted note is stored with the time of the call: a cleanup keeps it iff the cutoff is not after that time |
| `GrpcHandler.SentNoteIsFetched` | crates/node/src/node/grpc/mod.rs:151-284 | an accepted note is the next and only note a caught-up client of its tag gets |
| `GrpcHandler.DuplicateIsRefused` | docs/external/src/users.md:146-148 | sending a live note again is refused and leaves the first copy |
| `GrpcHandler.SendAndCleanupKeepWellFormed` | crates/node/src/database/sqlite/models.rs:35-46 | every row of a table stays one that `store_note` wrote |
| `Migrations.AddSeqCursor` | crates/node/src/database/sqlite/migrations/20260422000000_add_seq_cursor/up.sql:14-28 | old rows map one to one, column by column, onto keys 1..n in time order, whatever the order of ties |
| `Migrations.RewriteIsValid` | crates/node/src/database/sqlite/migrations/20260422000000_add_seq_cursor/up.sql:14-21 | the rewritten table meets the table invariant |
| `Migrations.RewriteDrainsInTimeOrder` | crates/node/src/database/sqlite/migrations/20260422000000_add_seq_cursor/up.sql:23-25 | draining from 0 yields each matching old row once, unchanged, in time order |
| `Migrations.RemoveSeqCursor` | crates/node/src/database/sqlite/migrations/20260422000000_add_seq_cursor/down.sql:9-13 | the inverse rewrite has exactly the ids of the table, each with its columns one by one |
| `Migrations.UpThenDown` | crates/node/src/database/sqlite/migrations/20260422000000_add_seq_cursor/down.sql:1-13 | adding and removing the key gives back the same id-keyed table |
| `Migrations.DropBlockContext` | crates/node/src/database/sqlite/migrations/20260423000000_add_block_context/down.sql:1-11 | the copy keeps order, keys and every column but the dropped one; its counter is the largest key copied |
| `Migrations.RollbackKeepsPages` | crates/node/src/database/sqlite/migrations/20260423000000_add_block_context/down.sql:9-11 | for all tags and cursors the page has the same columns but the dropped one, and the response cursor is the same |
| `Migrations.RollbackKeepsValid` | crates/node/src/database/sqlite/migrations/20260423000000_add_block_context/down.sql:1-11 | the rebuilt table is valid and its counter does not exceed the old one |
| `Migrations.RollbackKeepsCursorsSafeIff` | crates/node/src/database/sqlite/migrations/20260423000000_add_block_context/down.sql:1-11 | later notes lie above every old cursor iff the row with the highest key ever issued is live |
| `Streamer.ForwardFates` | crates/node/src/node/grpc/streaming.rs:122-143 | the three fates of a subscriber of an updated tag, and that all others are untouched |
| `Streamer.ForwardUntracksIff` | crates/node/src/node/grpc/streaming.rs:170-179 | a round untracks a tag iff every subscriber of it was reached in vain |
| `Streamer.DropSubsEffect` | crates/node/src/node/grpc/streaming.rs:139-142 | removing subscribers removes just them, and tags vanish exactly when emptied |
| `Streamer.ForwardOneMore` | crates/node/src/node/grpc/streaming.rs:125-138 | one more tag of the outer loop extends the outcome of the earlier ones |
| `StreamerActor.Mpsc.TrySend` | crates/node/src/node/grpc/mod.rs:304 | a bounded channel takes a value iff its receiver lives and it is not full |
| `StreamerActor.CountSubs` | crates/node/src/node/grpc/streaming.rs:161 | the summed map sizes are the number of distinct active ids |
| `StreamerActor.NoteStreamerManager.AddSub` | crates/node/src/node/grpc/streaming.rs:158-163 | joins the tag at its present cursor, or at 0 if untracked, and logs the new count |
| `StreamerActor.NoteStreamerManager.RemoveSub` | crates/node/src/node/grpc/streaming.rs:165-190 | removes and logs only a present subscription, and the tag with its last one |
| `StreamerActor.NoteStreamerManager.UpdateWaker` | crates/node/src/node/grpc/streaming.rs:154-156 | registers or replaces one waker and changes nothing else |
| `StreamerActor.NoteStreamerManager.QueryUpdates` | crates/node/src/node/grpc/streaming.rs:91-120 | one failed query fails the round; else the updates are the non-empty pages above the tag cursors |
| `StreamerActor.NoteStreamerManager.UpdateTimestamps` | crates/node/src/node/grpc/streaming.rs:145-152 | sets the cursor of each updated tag that is still tracked, and no other |
| `StreamerActor.NoteStreamerManager.ForwardToTag` | crates/node/src/node/grpc/streaming.rs:126-137 | the inner loop takes the wakers of the tag's subscribers and sends each the batch once |
| `StreamerActor.NoteStreamerManager.ForwardUpdates` | crates/node/src/node/grpc/streaming.rs:122-143 | the nested loops and deferred removals, in any map order, have the specified effect and log |
| `StreamerActor.NoteStreamer.TakeMessage` | crates/node/src/node/grpc/streaming.rs:227-237 | takes the oldest control message, does and logs what it says, and only Shutdown ends the loop |
| `StreamerActor.NoteStreamer.FinishRound` | crates/node/src/node/grpc/streaming.rs:216-226 | a round is all or nothing: on a failed query cursors, channels, subscribers and log stay |
| `Subscription.StreamNotes` | crates/node/src/node/grpc/mod.rs:291-311 | a fresh 32-place channel, and one AddSub if the queue takes it; a refused end is still to be let go |
| `Subscription.Sub.PollNext` | crates/node/src/node/grpc/streaming.rs:270-294 | batch first, then end of stream, and Pending exactly when one waker message was queued |
| `Subscription.Sub.Drop` | crates/node/src/node/grpc/streaming.rs:297-309 | closes the channel and queues one removal unless the queue refuses |
| `Accounting.SubscriptionAccounting` | crates/node/src/node/grpc/streaming.rs:158-190 | over every run: one tag per id, one added and at most one removed event each, active = added - removed |
| `Credit.CreditConservation` | crates/node/src/node/grpc/streaming.rs:270-294 | sends + registered waker + queued wakers never exceed Pending polls, which bounds the channel |
| `Credit.NoEvictionWithinCredit` | crates/node/src/node/grpc/streaming.rs:129-134 | no step ends the subscription of a live subscriber with at most 32 Pending polls beyond its receives while the streamer runs |
| `Credit.ExactDelivery` | crates/node/src/node/grpc/streaming.rs:122-138 | what a subscriber was sent is its tag's batches of the rounds it took part in, in order, no more, no less |
| `Credit.UnfinishedRoundsChangeNothing` | crates/node/src/node/grpc/streaming.rs:216-228 | until a round finishes or a message is taken nothing of the manager changes, however much was queried |
| `ControlQueue.RunStopsAtShutdown` | crates/node/src/node/grpc/streaming.rs:206-240 | over every run messages are taken in order, none lost or made up; the loop ends exactly at a Shutdown or an abort |
| `ControlQueue.PendingsArePosted` | crates/node/src/node/grpc/streaming.rs:285-293 | over every run the Pending polls of a subscriber are exactly the Waker messages it posted |
| `Departure.RunLeaves` | crates/node/src/node/grpc/streaming.rs:297-309 | a queued removal takes effect after the messages before it, and nothing brings the subscriber back |
| `Departure.DropIsRemovedIff` | crates/node/src/node/grpc/streaming.rs:297-309 | from every reachable state a subscriber that drops is removed in time iff the queue had room or ends the streamer |
| `Departure.DropForgetsIff` | crates/node/src/node/grpc/streaming.rs:297-309 | from every reachable state a drop leads to removal, stranding or being forgotten, each under its exact condition |
| `Departure.StrandedUntilReached` | crates/node/src/node/grpc/streaming.rs:129-134 | a stranded subscriber leaves only in a round that reaches it, which takes a waker of it |
| `Departure.ForgottenStays` | crates/node/src/node/grpc/streaming.rs:122-143 | a forgotten subscriber stays listed for as long as the streamer runs |
| `Departure.LeakIsReachable` | crates/node/src/node/grpc/streaming.rs:297-309 | a forgotten subscriber is reachable from every database, its AddSub handled or still queued |
| `Refinement.StepSimulates` | crates/node/src/node/grpc/streaming.rs:91-120 | while a tag is tracked every streamer step is a script of pull-client steps for it |
| `Refinement.NewTagIsFresh` | crates/node/src/node/grpc/streaming.rs:158-160 | a newly tracked tag starts as a fresh pull client with cursor 0 |
| `Refinement.TrackedTagsLoseNothing` | crates/node/src/node/grpc/streaming.rs:145-152 | every note of a tracked tag at or below its cursor was forwarded or removed before it was passed |
| `Refinement.CursorOnlyGrows` | crates/node/src/node/grpc/streaming.rs:145-152 | while a tag stays tracked its cursor never falls |
| `StreamOrder.StreamIsInOrder` | crates/node/src/node/grpc/streaming.rs:91-152 | a stream has strictly increasing keys, one tag, and nothing at or below the cursor at joining |
| `StreamOrder.BatchesAreGood` | crates/node/src/node/grpc/streaming.rs:96-118 | each batch sent holds 1 to 500 notes of the tag in key order, and its cursor is its last key |
| `StreamCompleteness.StreamIsComplete` | crates/node/src/node/grpc/streaming.rs:91-152 | every note of its tag between joining and the tag's cursor is in the stream, was removed first, or came in a round without its waker |
| `ActorRefinement.EveryRoundIsAnActorRound` | crates/node/src/node/grpc/streaming.rs:222-226 | each round that finishes in a run is the actor's round on committed tables of that run |
| `StreamRuntime.StreamingNode.OpenStream` | crates/node/src/node/grpc/mod.rs:291-311 | opening a stream takes the objects along with the runs, whether the queue takes the AddSub or not |
| `StreamRuntime.StreamingNode.PollSub` | crates/node/src/node/grpc/streaming.rs:270-294 | so does a poll, through the subscriber's own object and its channel |
| `StreamRuntime.StreamingNode.LetGo` | crates/node/src/node/grpc/streaming.rs:297-309 | so does letting a subscriber go |
| `StreamRuntime.StreamingNode.DropNode` | crates/node/src/node/grpc/mod.rs:334-341 | so does the server going away, by Shutdown or by abort |
| `StreamRuntime.StreamingNode.TakeControl` | crates/node/src/node/grpc/streaming.rs:227-237 | so does a control message, log included |
| `StreamRuntime.StreamingNode.FinishRound` | crates/node/src/node/grpc/streaming.rs:216-226 | so does a round, on all clients' channels, on the tables its queries have met |
| `StreamRuntime.StreamingNode.Stream` | crates/node/src/node/grpc/streaming.rs:202-240 | for every interleaving of the loop with writers, arrivals, polls and departures the objects end in the state of the run |

## Left out

- Wire conversion inside the streamer: batches carry table rows; their wire form is the row-by-row conversion proved for fetches, and a row that does not decode counts as a failed query.
- The runtime's cooperative budget: a poll of a channel that holds a batch always takes it, although the runtime may make it wait.
- Waking a task: a waker is a token; that `wake()` is called after a successful send is not recorded.
- Real time and starvation: the 500 ms pause, the cleanup interval, and a stream of control messages that keeps cancelling rounds. Steps come in any order, nothing is said about when.
- StreamRuntime.StreamingNode.Stream: a tag's page is computed when its round ends, from the table that was committed when the tag's turn came; the page is the one its query would have read.
- Interleaving inside one forwarding pass: in the runs a finished round is one step, although a subscriber may poll while later subscribers are being served; each channel is touched once per round.
- Walking order of maps: loops over maps take the keys in any order, so the order of log lines within one round is left open.
- The source's error branches that cannot be reached (cursor too large for SQLite, negative `seq`): shown unreachable instead of being written out.
- SqliteBackend.SqliteDatabase.CleanupOldNotes: requires that `now` less the retention period is a date; the program panics otherwise.
- Failures of the connection pool and of the disk: a failed query of the streamer is modelled, a failed pool checkout of a handler is not.
- The previous schema's rollback after new notes were stored: keys are renumbered by age, so old cursors mean nothing afterwards; only up followed by down is treated.
- SQLite internals, pragmas, indexes, the maintenance task's loop, statistics, `note_exists`, metrics, tracing, gRPC and HTTP plumbing, configuration: no effect on the results modelled here, or easy members only.
- `NoteHeader` parsing and note ids: `miden_protocol` is not part of this model; a header has an id, a tag and the rest.
