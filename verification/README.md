# OpenCortex verification

A Dafny model of the parts of OpenCortex whose correctness is hardest to see: the session log
pipeline, the store-event protocol, the markdown chunker with the document tree writer, fusion
ranking with reranking, and reason-tree flattening. `dafny verify dfyconfig.toml` checks the
whole project.

## What is modelled

**Session log.** A message is written as an immediate record and appended to an in-memory
buffer. Chunks within a token budget are frozen, taken by the merger and written as merged
records named by their index range; a later event deletes the immediate records.
`Segmentation` has the greedy cut and its optimality, `SessionLog` the life of one session
between two drops, `SessionBuffer` and `SessionFlow` the objects as the source runs them, proved
against those functions. `SessionPipeline` is the transition system over sessions, merges in
flight, the vector store and published events, in which writes fail with or without having
landed and cleanups come late, repeat or reorder. `SessionSimulation` shows that the flows are
runs of that system, call after call. `SessionFacts` has what holds in every run, `SessionReuse`
what runs without links need when they use a dropped key again, and `SessionLossless` the exact
condition for all runs. `SessionHazards` has the two ways to break the guarantee, and
`SessionLossRuns` builds runs that do.

**Store events.** `CfsQueue` is the queue table with one function per transaction, `WaitTracker`
the request tracker. `EventProtocol` is the transition system: everything between two awaits is
one step, every transaction is one step, and publishers, workers, routes, timeouts, stale
recoveries, retention and crashes interleave freely. `EventReadiness` proves what the route
may answer, `EventEarly` exactly when ready can come early. `EventClasses` and `EventExactness`
say for every kind of step, and for whole runs, exactly when the tracker refines the queue, and
`EventAccounting` proves it for timely runs and bounds handler starts. `EventHazards` builds the
states in which things fail, and `EventWorker.dfy` ties the worker's and the route's own calls to
the steps.

**Markdown and document tree.** Headings are a sorted list of ranges, titles and levels whose
lines read as their marks and titles. Text equality is equality of non-whitespace characters in
order, because the code strips and rejoins everywhere (`Text`). `MarkdownSections` proves that
section ranges tile, `MarkdownTree` what a growing chunk list stands for, `Markdown` the parser
itself, `DocumentTree` the filter and the writer. `Document` is what all chunks stand for: a
directory counts as no text, since its own text is repeated by its first child; a directory
without own text shows its bare title, which stands for the heading line. `LeafText` is what the
leaves hold by themselves. `BlankDirectory` is a family of documents whose directory is blank.

**Recall.** `Fusion` specifies the score of a URI over exact reals, `Ranker` computes it,
`Recall` has reranking for an arbitrary scorer and the search sequence.

**Reason tree.** `ReasonTree` has flattening, node URIs and the cut.

## Assumptions

- Session, tenant, user and project ids are given as slugs, and distinct sessions have distinct
  slugs. Ids from `uuid4` are fresh 32-character hexadecimal strings; digests contain no dash.
- All records of the session model are in one collection. Writing a message and appending it
  are one step, with or without the append, as the session lock guarantees between two drops;
  merges in flight may overlap with anything.
- `estimate_tokens` of the session buffer is at least 1, as its code guarantees; confluence
  needs that. The parser's estimate is computed in exact tenths, and the parser's maximum
  section size is at least 1 (for 0 the source raises while cutting a paragraph).
- `now` is a parameter and does not go backwards inside the event protocol.
- Bonuses of a ranking plan are non-negative where score bounds are stated. A search plan's
  limit is at least 1, as the request schema demands.

## Runs

A run is any sequence of steps; a step that cannot happen is skipped. Some results hold for all
runs, others for these:

- *careful* (session pipeline): no message is appended to a key after its state was dropped, and
  no message metadata links into an immediate record.
- *clear* (session pipeline): no stored message carries a link that a published URI covers; a
  landing merged write overwrites only messages that still have a safe record of their own; and
  the sources of a successful one cover no own record of a message that is in no other merged
  record. `SessionLossless.LosslessRunIff` shows that this is exactly what losing nothing needs;
  careful runs are clear.
- *prompt* (events): stale recovery runs only while no live worker has held its claim past the
  limit. `EventProtocol.RecoveryKeepsOwnershipIff` shows that this is exactly what single
  ownership needs.
- *serving*: prompt, and retention forgets a request that is still being served only if its
  messages are done, or if none of its events can be published any more: its route is no longer
  open and awaits none that is scheduled. `EventEarly.NeverEarlyRunIff` shows that, without
  explicit requeues, this is exactly what keeps ready from coming early.
- *orderly* for a request (events): a mark reports the class its message is in, a worker does not
  settle what is settled already, an explicit requeue finds no failure of the request, and a
  request is registered anew only if it has no rows. `EventExactness.ExactThroughoutIff` shows
  that this is exactly what the tracker needs.
- *timely*: prompt, without explicit requeues; a message is not claimed again before its requeue
  mark arrived, and a request is not forgotten before its events are queued. Timely runs are
  orderly for every request.
- *plain*: without stale recovery and without explicit requeues; crashes may happen.

## What the proofs found

- A key used again after its drop numbers its messages from 0 again, so a merged write can
  overwrite an older merged record, and the cleanup of the older chunk then loses its messages.
  A write that raises after its record landed does the same.
- Message metadata is copied into the record, so a caller can set `source_uri` or `tree_uri` to
  another message's URI; the cleanup of that other message then deletes this record, and its text
  is lost unless it has been merged. `SessionLossless.LosslessRunIff` gives the exact condition for both.
- `ack` and `fail` do not look at the row's status. If stale recovery hits a worker that is still
  alive, two workers own the message, and a request already reported ready can fail.
- A worker that releases or retries a message tells the tracker after the queue. If it resumes
  so late that the message was claimed, handled and marked done in between, the late mark makes
  it pending for good.
- An explicit requeue gives a failed message a new chance, but the tracker has counted the
  failure: when the retry succeeds, the request still reads as failed.
- A request that failed, and is then forgotten by retention while it still publishes, can read
  as ready. `EventEarly.ForgetComesEarlyIff` gives the exact condition.
- `from_parsed` turns parent index 0 into none, so children of the first chunk hang from the
  root. The blank-chunk filter does not renumber, so a blank directory shifts every later
  parent link; a child can become its own parent. An oversized section whose heading has marks
  but no title, with children and no text of its own, produces such a directory.
- A directory without own text shows its title without the heading marks, and its heading line
  is in no leaf.
- Text between the first heading and the first heading of smallest level is in no chunk, while
  the preamble stops at the first heading.

## Model

| member | source | states |
|---|---|---|
| Segmentation.GreedyIsSplit | src/opencortex/store/session/buffer.py:133-138 | One greedy pass over a log splits it in order, loses nothing, and every chunk is within the token budget or a single message. |
| Segmentation.GreedyFewest | src/opencortex/store/session/buffer.py:133-189 | No in-order split whose chunks are within the budget or single messages has fewer chunks than the greedy one. |
| Segmentation.GreedyNeighbours | src/opencortex/store/session/buffer.py:133-189 | Two neighbouring greedy chunks together exceed the budget; already the first message of the next chunk would not have fitted. |
| Segmentation.FirstChunkStable | src/opencortex/store/session/buffer.py:126-131 | Once a log has reached the budget, its first greedy chunk is the first greedy chunk of every extension. |
| Segmentation.FirstCutStableIff | src/opencortex/store/session/buffer.py:140-149 | Cutting the first chunk now agrees with a greedy pass over every continuation if and only if the log has reached the budget: the guard of the unforced freeze. |
| SessionLog.RunConserves | src/opencortex/store/session/buffer.py:95-199 | In every run of appends, freezes, takes and forced cuts between two drops, taken, waiting and active messages concatenate to exactly the appended log, with adjoining index ranges and non-empty chunks that are within budget or single messages. |
| SessionLog.MergedRangesDisjoint | src/opencortex/store/session/merger.py:53-62 | The index ranges that name merged records are pairwise disjoint, in order. |
| SessionLog.FrozenMatchesOnePass | src/opencortex/store/session/buffer.py:126-131 | In every run without a forced cut, the chunks frozen so far are the first chunks of one greedy pass over the whole log. |
| SessionLog.Confluent | src/opencortex/store/session/buffer.py:126-189 | Two runs over the same log, however grouped into requests and however late the merges, freeze the same chunks with the same ranges: the greedy chunks that are final. |
| SessionLog.EndIsGreedyAndFewest | src/opencortex/store/session/buffer.py:133-138 | The one freeze of everything at session end completes the greedy pass over the whole log, so a session leaves behind as few chunks as any bounded split. |
| SessionLog.FreezeBetweenAppends | src/opencortex/store/session/store.py:67-87 | Freezing after each message of a turn gives the state that one freeze after the whole turn gives. |
| SessionBuffer.SessionBuffer.Append | src/opencortex/store/session/buffer.py:95-108 | Text, URI and tool calls join the active tail of this key together; no other key changes; the token counter grows by a quarter of the length rounded down, at least one. |
| SessionBuffer.SessionBuffer.ShouldMerge | src/opencortex/store/session/buffer.py:110-115 | True exactly if the active messages count at least the budget. |
| SessionBuffer.SessionBuffer.MergeChunkSize | src/opencortex/store/session/buffer.py:176-189 | The size found is the greedy chunk length of the active messages, forced or not: force decides whether to cut, never where. |
| SessionBuffer.SessionBuffer.FreezeMergeChunk | src/opencortex/store/session/buffer.py:140-174 | A freeze happens exactly if there are active messages and either force or the budget is reached; it moves the greedy head to the waiting chunks, keeping lists aligned and counters exact. |
| SessionBuffer.SessionBuffer.FreezeReadyChunks | src/opencortex/store/session/buffer.py:126-131 | All chunks that are ready are frozen, and their number is returned. |
| SessionBuffer.SessionBuffer.FreezeAllChunks | src/opencortex/store/session/buffer.py:133-138 | Every active message is frozen, and the number of new chunks is returned. |
| SessionBuffer.SessionBuffer.PopMergeChunk | src/opencortex/store/session/buffer.py:191-199 | The oldest waiting chunk is detached, or nothing happens if none waits. |
| SessionBuffer.SessionBuffer.TakeSnapshot | src/opencortex/store/session/buffer.py:117-124 | The oldest waiting chunk, else a forced cut of the active tail, is detached. |
| SessionBuffer.SessionBuffer.Drop | src/opencortex/store/session/buffer.py:217-223 | One key loses all state and starts again at index 0; no other key changes. |
| SessionBuffer.SessionBuffer.PruneIdle | src/opencortex/store/session/buffer.py:205-215 | Exactly the keys idle for at least the limit lose their state, and they are counted. |
| SessionFlow.SessionFlow.MergeUnmerged | src/opencortex/store/session/merger.py:41-71 | A chunk is taken before its write; the record stored is named by the session and the indexes of its first and last message, lists their URIs, and its content is their texts in order with exactly two line feeds between neighbours and nothing else; the event is published only if the write did not raise; a failed write costs the buffer the chunk. |
| SessionFlow.RecordTells | src/opencortex/store/session/merger.py:72-98 | The record built for a chunk says just that, field by field. |
| SessionFlow.JoinSpells | src/opencortex/store/session/merger.py:52 | Each text stands at the offset given by the lengths of the texts before it and two characters for each of them. |
| SessionFlow.ImmediateTells | src/opencortex/store/session/store.py:103-150 | The record of one message is named by its session and id and holds its text, with whatever links its metadata carries. |
| SessionFlow.SessionFlow.Drain | src/opencortex/store/event/actions.py:164-168 | Draining takes only waiting chunks and never cuts the active tail, stops at the first write that raises, writes exactly the chunks before it (and that one if it landed) and publishes exactly their sources, in order. |
| SessionFlow.SessionFlow.MergeAction | src/opencortex/store/event/actions.py:159-168 | The session-merge action leaves session, store and events as a freeze of what is ready followed by a drain does, raising or not. |
| SessionFlow.SessionFlow.StoreTurn | src/opencortex/store/session/store.py:57-101 | A turn writes and buffers its messages up to the first write that raises, whose record may have landed, and publishes nothing; a merge is requested exactly if chunks were frozen or the budget is reached. |
| SessionFlow.SessionFlow.End | src/opencortex/store/session/ender.py:54-90 | Session end leaves session, store and events as a freeze of everything followed by a drain does; the state is dropped unless a write raised. |
| SessionFlow.RemoveAllExact | src/opencortex/store/writer/session_cleanup_writer.py:18-23 | Cleaning up a list of sources removes exactly the points that some named source covers, in whatever order. |
| SessionPipeline.NoMessageLost | src/opencortex/store/session/merger.py:48-71 | In every careful run of stores, freezes, failing merges, session ends, drops and late, repeated or reordered cleanups, the text of every accepted message is in its own record or inside a merged record that names it. |
| SessionSimulation.TurnIsARun | src/opencortex/store/session/store.py:57-101 | What a turn does to session, store and accepted messages is a run of pipeline steps, whichever write raises. |
| SessionSimulation.DrainIsARun | src/opencortex/store/event/actions.py:164-168 | What a drain does to session, store and events is a run of takes and writes. |
| SessionSimulation.CallsAreARun | src/opencortex/store/session/ender.py:54-90 | Every sequence of turns, merge actions, session ends, cleanups and prunings, over any keys and with any writes raising, is a run of the pipeline, and a careful one if the calls are. |
| SessionSimulation.NoCallLosesAMessage | src/opencortex/store/session/merger.py:41-71 | So no sequence of careful calls loses an accepted message. |
| SessionSimulation.PlayAll | src/opencortex/store/event/actions.py:159-168 | The objects themselves, serving such a sequence call by call, hold every message whose record landed. |
| SessionReuse.ProtectedRunIff | src/opencortex/store/session/merger.py:48-71 | In every run without foreign links, however keys are reused: all messages are protected against all later cleanups after every step if and only if no merged write lands on the URI of another written merged record. |
| SessionReuse.NoMessageLostUnderReuse | src/opencortex/store/session/merger.py:48-71 | Under that condition no accepted message is lost, key reuse included. |
| SessionReuse.OverwriteLoses | src/opencortex/store/session/buffer.py:217-223 | Where a write breaks the condition, some accepted message is lost by a cleanup that is already published. |
| SessionReuse.CarefulRunsMeetIt | src/opencortex/store/session/merger.py:53-62 | Careful runs meet the condition. |
| SessionLossless.LosesNothingIff | src/opencortex/store/writer/session_cleanup_writer.py:18-23 | After any run at all: no sequence of published cleanups can cost an accepted message its text if and only if each message is in a landed merged record, or has its own record and no published URI covers that record or one of its links. |
| SessionLossless.LosslessRunIff | src/opencortex/store/session/merger.py:41-71 | In every run at all, whatever links messages carry, however keys are reused and whichever writes fail: at no point can cleanups cost a message its text if and only if every step is clear. |
| SessionLossless.StoreKeepsIff | src/opencortex/store/session/store.py:57-101 | Storing a message keeps all messages secure if and only if no published URI covers one of its links. |
| SessionLossless.WriteKeepsIff | src/opencortex/store/session/merger.py:62-71 | A merged write, succeeding or raising, keeps all messages secure if and only if those whose record it overwrites still have a safe record of their own, and its sources cover no own record of a message that is in no other merged record. |
| SessionLossless.CleanupKeepsSecure | src/opencortex/store/writer/session_cleanup_writer.py:18-23 | A cleanup, however late or repeated, never costs a secure message its security. |
| SessionLossless.UnclearLoses | src/opencortex/store/session/merger.py:62-71 | A step that is not clear loses a message at once, or by a single cleanup that is published. |
| SessionLossless.LinkFreeClearIff | src/opencortex/store/session/merger.py:48-71 | Without links into immediate records, every step is clear if and only if no merged write lands on the URI of another written merged record. |
| SessionLossless.CarefulRunsAreLossless | src/opencortex/store/session/merger.py:48-71 | Careful runs lose nothing at any point. |
| SessionPipeline.CleanupRemovesOne | src/opencortex/store/writer/session_cleanup_writer.py:18-23 | With no foreign links, a cleanup of an immediate URI deletes exactly the record with that URI. |
| SessionHazards.WriteKeepsProtectedIff | src/opencortex/store/session/merger.py:62-71 | In every run, reuse of dropped keys included: a merged write, whether it succeeds or raises, keeps every message protected against all later cleanups if and only if its record does not land or no other written merged record has its URI. |
| SessionHazards.OverwriteThenCleanupLoses | src/opencortex/store/session/buffer.py:217-223 | In every run, overwriting a merged record, by a write that succeeds or one that lands and raises, and then cleaning up after the older chunk loses the older messages. |
| SessionLossRuns.ReuseLosesAMessage | src/opencortex/store/session/buffer.py:217-223 | A concrete run in which a key is used again after its drop loses its first accepted message, with a second write that succeeds and with one that lands and raises. |
| SessionHazards.CleanupTakesForeignIff | src/opencortex/vector/qdrant_store.py:380-393 | A cleanup of one immediate record takes another message's record exactly if the source or tree link in that message's metadata lies under it. |
| SessionLossRuns.ForgedLinkLosesAMessage | src/opencortex/store/session/store.py:212-236 | A concrete run in which a stored and buffered message whose metadata links to another message is lost by the cleanup of the other one. |
| VectorStore.UnderIsSegmentPrefix | src/opencortex/vector/qdrant_store.py:380-393 | For a URI without trailing slash, being covered by it means that its slash-separated segments begin the link's; sibling prefixes are never covered. |
| VectorStore.QdrantVectorStore.RemoveByUri | src/opencortex/vector/qdrant_store.py:240-272 | For any split into pages, exactly the listed points that match the URI are deleted, all others stay untouched, and the result tells whether anything was. |
| Namespace.MergedUriInjective | src/opencortex/storage/namespace.py:34-58 | Merged URIs of valid scopes are equal only for the same session path and the same index range. |
| Namespace.ImmediateUriInjective | src/opencortex/storage/namespace.py:43-46 | Immediate URIs are equal only for the same session path and the same id. |
| Namespace.ImmediateIsNotMerged | src/opencortex/storage/namespace.py:43-58 | No immediate URI is a merged URI. |
| CfsQueue.AttemptsCoveredByRequeues | src/opencortex/storage/cfs_queue.py:123-311 | In every sequence of transactions, by owners and stale workers alike, attempts never exceed the requeue count by more than one, and not at all while pending. |
| CfsQueue.AttemptsBounded | src/opencortex/storage/cfs_queue.py:123-311 | With resetting requeues, attempts never exceed the maximum by more than the number of stale recoveries of that message. |
| CfsQueue.AttemptsBoundIsSharp | src/opencortex/storage/cfs_queue.py:252-280 | For every number of recoveries there is a run that reaches the bound. |
| CfsQueue.StatusPartition | src/opencortex/storage/cfs_queue.py:313-362 | The rows in the four statuses make up the queue. |
| CfsQueue.CFSQueue.EnqueueMessage | src/opencortex/storage/cfs_queue.py:56-85 | The row is new, pending, due at once, without attempts and with at least one allowed. |
| CfsQueue.CFSQueue.Dequeue | src/opencortex/storage/cfs_queue.py:102-141 | After recovering stale rows the oldest claimable row is claimed; what is settled, of another queue or not yet due stays as it is and is not returned; a pending message that is due and older than all unsettled ones of its queue is returned; the copy shows the row after the claim. |
| CfsQueue.GivenBackIsDelayed | src/opencortex/storage/cfs_queue.py:166-233 | A release, or a failure that is retried, makes the message pending and due only after the delay, negative delays counting as none. |
| CfsQueue.DelayedStays | src/opencortex/storage/cfs_queue.py:102-141 | Whatever other transactions happen, a message that waits stays exactly as it is while nobody settles it and nobody claims it before it is due. |
| CfsQueue.CFSQueue.AckMessage | src/opencortex/storage/cfs_queue.py:147-160 | The row becomes done whatever its status was; unknown ids change nothing. |
| CfsQueue.CFSQueue.ReleaseMessage | src/opencortex/storage/cfs_queue.py:166-182 | Only a processing row is given back, with its attempt, due after the delay. |
| CfsQueue.CFSQueue.FailMessage | src/opencortex/storage/cfs_queue.py:188-233 | The row is retried, due after the delay, exactly if a retry was asked for and attempts remain, else it fails for good; its status before is not looked at. |
| CfsQueue.CFSQueue.RecoverStale | src/opencortex/storage/cfs_queue.py:252-280 | Exactly the expired processing rows return to pending, their attempts unchanged. |
| CfsQueue.CFSQueue.RequeueFailedMessages | src/opencortex/storage/cfs_queue.py:282-311 | Exactly the failed rows of the queue return to pending; afterwards none is failed. |
| CfsQueue.CFSQueue.CountStatus | src/opencortex/storage/cfs_queue.py:313-362 | The counters are the numbers of rows in each status and add up to the queue; the requeue total is the sum over its rows. |
| WaitTracker.KnownUnderMarks | src/opencortex/store/event/wait.py:72-127 | Pending plus done plus failed: registering adds one for a new message, a done mark keeps the sum, a requeue or failure mark keeps it exactly if the message is still pending. |
| WaitTracker.StoreWaitTracker.RegisterRequest | src/opencortex/store/event/wait.py:64-70 | After forgetting expired requests, the request exists: new with nothing counted, or untouched if something of it is pending. |
| WaitTracker.StoreWaitTracker.RegisterMessageNowait | src/opencortex/store/event/wait.py:72-79 | The message is pending for its request, which is created with nothing counted if it was forgotten. |
| WaitTracker.StoreWaitTracker.Done | src/opencortex/store/event/wait.py:85-96 | Only a pending message moves to done; an unknown request stays unknown. |
| WaitTracker.StoreWaitTracker.Requeued | src/opencortex/store/event/wait.py:98-108 | The message is pending again, whether or not it was. |
| WaitTracker.StoreWaitTracker.Failed | src/opencortex/store/event/wait.py:110-127 | The message is no longer pending and a failure is counted, whether or not it was pending. |
| WaitTracker.StoreWaitTracker.IsComplete | src/opencortex/store/event/wait.py:145-153 | For a known request without failures complete means the status ready; a failed request is complete once nothing is pending; without a request, or for an unknown one, there is nothing to wait for. |
| WaitTracker.StoreWaitTracker.GetStatus | src/opencortex/store/event/wait.py:155-180 | Expired requests are forgotten first; failed means a failure is counted, ready that none is and nothing is pending, unknown that the request is not known. |
| WaitTracker.StoreWaitTracker.CleanupLocked | src/opencortex/store/event/wait.py:182-190 | Exactly the requests with nothing pending that were not touched for longer than the retention are forgotten; the others stay as they are. |
| EventProtocol.MutualExclusion | src/opencortex/store/event/worker.py:184-198 | In every interleaving, stale recoveries and crashes included, no two running handlers share an ordering key. |
| EventProtocol.HandledApart | src/opencortex/store/event/worker.py:184-205 | So no two running handlers deal with the same session, or with the same record, of one project. |
| EventProtocol.SameKeyIff | src/opencortex/store/event/worker.py:250-267 | Two events share an ordering key exactly if both concern one session, or both one record, of the same tenant, user and project; a record event without a URI goes by its record id. |
| EventProtocol.WorkersNeverBlock | src/opencortex/store/event/worker.py:188-198 | Whatever the other workers hold, a worker that is not idle can take its next step, and the step moves no other worker. |
| EventProtocol.NothingIsExcluded | src/opencortex/store/event/worker.py:174-223 | The transition system excludes no interleaving: whatever can happen next in the code is an enabled step. |
| EventProtocol.RouteLife | src/opencortex/store/routes.py:232-262 | Closing awaits the events scheduled so far, a timeout withholds ready, and the answer is what the tracker says. |
| EventProtocol.RecoveryKeepsOwnershipIff | src/opencortex/storage/cfs_queue.py:252-280 | A stale recovery keeps single ownership if and only if no live claim is past the limit. |
| EventProtocol.SingleOwner | src/opencortex/store/event/worker.py:174-223 | In every prompt run each message has at most one live holder, whose row is processing and whose copy is current. |
| EventProtocol.TerminalForever | src/opencortex/storage/cfs_queue.py:147-311 | In every prompt run a done row never changes again, whatever follows, and a failed row not before an explicit requeue. |
| EventProtocol.VerdictAgrees | src/opencortex/store/event/worker.py:204-211 | In every prompt run the requeued-or-failed choice a worker makes from its claimed copy is the choice the queue makes from the row. |
| EventReadiness.ReadyIsNeverEarly | src/opencortex/store/routes.py:244-262 | In every serving run, whatever the interleaving of publishers, workers, timeouts, crashes and requeues: once the route answered ready, an event of the request is done in the queue if and only if its enqueue did not fail. |
| EventEarly.ForgetComesEarlyIff | src/opencortex/store/event/wait.py:182-190 | In serving runs without explicit requeues: after retention forgets a request that is being served, some way to go on with serving steps answers ready with an unfinished message if and only if a failure was counted and the route is open or awaits an event still scheduled. |
| EventEarly.ReadyFollows | src/opencortex/store/routes.py:244-262 | Once a failure is forgotten and an event of the request may still come, there is a way to go on that answers ready although a message of the request failed. |
| EventEarly.NeverEarlyRunIff | src/opencortex/store/routes.py:244-262 | In every prompt run without explicit requeues: ready can come early at no point, however the run might go on with serving steps, if and only if the run is serving. |
| EventReadiness.AnswerStep | src/opencortex/store/routes.py:248-259 | Answering keeps the routes sound: ready is answered only with publishing complete and every row of the request done. |
| EventReadiness.ForgetIsServingIff | src/opencortex/store/event/wait.py:182-190 | In serving runs without explicit requeues, forgetting a request that is still being served keeps the run serving if and only if no failure is counted for it, or none of its events can follow. |
| EventHazards.ForgottenFailureReadsReady | src/opencortex/store/event/wait.py:182-190 | A reachable state in which a route answered ready although an event of its request failed, because retention had forgotten the failure. |
| EventHazards.StaleRecoveryRevokesReady | src/opencortex/storage/cfs_queue.py:252-280 | A reachable state in which stale recovery of a live claim made an answered ready false. |
| EventExactness.MarkExactIff | src/opencortex/store/event/wait.py:85-127 | A tracker mark keeps an exact track exact if and only if it reports the class its message is in. |
| EventExactness.CommitExactIff | src/opencortex/store/event/worker.py:204-223 | Settling a message with the queue keeps an exact track exact if and only if the message was not settled already. |
| EventExactness.RequeueExactIff | src/opencortex/storage/cfs_queue.py:282-311 | An explicit requeue keeps an exact track exact if and only if it revives no failed message of the request. |
| EventExactness.DispatchExactIff | src/opencortex/store/event/wait.py:72-79 | Registering a message keeps an exact track exact; a track made anew after the request was forgotten is exact if and only if the request has no other rows. |
| EventExactness.StepExactIff | src/opencortex/store/event/worker.py:174-223 | For every kind of step, the track of a request stays exact if and only if the step is orderly for it. |
| EventExactness.ExactThroughoutIff | src/opencortex/store/event/wait.py:72-127 | In every run at all, stale recoveries, requeues and crashes included: pending is exactly the messages not terminal or not marked, and done and failed count the others, after every step, if and only if every step is orderly. |
| EventExactness.CompleteIsExact | src/opencortex/store/event/wait.py:145-153 | While a track is exact, waiting for completion ends exactly when every message has a terminal row and its worker has said so. |
| EventAccounting.TimelyRunIsOrderly | src/opencortex/store/event/worker.py:174-223 | Timely runs are orderly for every request. |
| EventHazards.RequeuedSuccessReadsFailed | src/opencortex/storage/cfs_queue.py:282-311 | A reachable state in which an explicitly requeued message is done and its request still reads as failed. |
| EventAccounting.TrackerRefinesQueue | src/opencortex/store/event/wait.py:72-127 | In every timely run, pending is exactly the registered messages whose row is not terminal or whose mark is outstanding, done and failed count the others, and the sum is the number registered. |
| EventExactness.VerdictIsExact | src/opencortex/store/event/wait.py:155-180 | While a track is exact, it says ready if and only if every message is done and marked, and failed if and only if some message failed and is marked. |
| EventHazards.LateMarkNeverReady | src/opencortex/store/event/worker.py:191-197 | A reachable state in which a requeue mark that came after the retry's done mark leaves a finished request pending with nobody left to settle it. |
| EventAccounting.HandledAtMostMax | src/opencortex/store/event/worker.py:184-223 | In every plain run the worker starts a message's handlers at most its maximum number of times, however often it is released for a locked key and whenever the process crashes. |
| EventWorkers.EventWorker.Enqueue | src/opencortex/store/event/worker.py:85-97 | Row, in the queue of store events, and registration appear together. |
| EventWorkers.EventWorker.Handle | src/opencortex/store/event/worker.py:269-288 | Under the key lock, an action made for exactly the event's kind always runs, one made for every event runs unless the event is an update check, no other runs; all run in order whatever fails, and the failures are collected in order. |
| EventWorkers.CollectedFailures | src/opencortex/store/event/worker.py:204-206 | No failure is collected exactly if every listening action succeeded, and the first one collected is that of the first listening action that failed. |
| EventWorkers.EventWorker.Process | src/opencortex/store/event/worker.py:184-223 | One uninterrupted call performs exactly one queue transaction and its matching mark, and leaves the key locks as they were; a message being processed is acknowledged exactly if it can be decoded, its key is free and each listening action succeeds. |
| EventWorkers.ProcessIsARun | src/opencortex/store/event/worker.py:184-223 | That call is what the protocol's begin, finish, commit and mark steps make of the same message. |
| EventWorkers.StoreRoute.Budget | src/opencortex/store/routes.py:240-242 | The wait is the smaller of 55 seconds and what the client asked for, which counts as zero when negative. |
| EventWorkers.StoreRoute.Respond | src/opencortex/store/routes.py:252-262 | Ready only with publishing complete and nothing pending; the pending count is the tracker's, but at least one when ready is withheld. |
| Text.JoinParagraphs | src/opencortex/parse/parsers/markdown.py:465 | Splitting at blank lines and joining again gives back the text. |
| Text.PackedEstimate | src/opencortex/parse/parsers/markdown.py:463-490 | A part packed from k paragraphs is estimated at most the maximum plus one and a half per paragraph, and holds exactly their non-blank characters. |
| Text.WeightOfJoin | src/opencortex/parse/base.py:52-56 | What rounding each estimate down and joining by blank lines can cost, in exact tenths. |
| Text.EstimateSpelled | src/opencortex/parse/base.py:52-56 | The estimate is seven tenths for each CJK character and three for each other, rounded down. |
| Text.ParagraphsLeftmost | src/opencortex/parse/parsers/markdown.py:465 | The text is cut at every blank line, leftmost first: none is left inside a paragraph or where the next line feed follows it. |
| Text.StripSpelled | src/opencortex/parse/parsers/markdown.py:463-490 | Stripping takes away exactly the white space at both ends. |
| Markdown.MarkdownParser.SmartSplit | src/opencortex/parse/parsers/markdown.py:463-490 | The parts hold all non-blank characters in order; each is a join of paragraphs whose estimates stay within the maximum, or a cut of at most three times as many characters. |
| Markdown.MarkdownParser.HardCut | src/opencortex/parse/parsers/markdown.py:475-477 | Slices of at most the given length that hold all non-blank characters in order. |
| Markdown.MarkdownParser.GetSectionInfo | src/opencortex/parse/parsers/markdown.py:184-231 | The section ends at the next heading of its level or above, its children are the headings one level down, its own text stops at the first of them. |
| Markdown.MarkdownParser.BuildTopLevelSections | src/opencortex/parse/parsers/markdown.py:154-182 | The entries are the text before the first heading, stripped and unless blank, and the headings of smallest level in order. |
| Markdown.MarkdownParser.SaveParts | src/opencortex/parse/parsers/markdown.py:427-442 | An oversized section without children becomes its parts in order, titled with its name and their number from 1 if there are several. |
| MarkdownSections.SectionsTile | src/opencortex/parse/parsers/markdown.py:184-231 | Where no heading is above a level, the sections of that level tile the text from the first of them on. |
| MarkdownSections.ChildrenTile | src/opencortex/parse/parsers/markdown.py:405-425 | Own text and child sections hold exactly the text of the section, except that without own text the heading line is left to the directory. |
| MarkdownSections.TopTiles | src/opencortex/parse/parsers/markdown.py:154-180 | The top-level sections hold exactly the preamble and everything from the first heading of smallest level on. |
| MarkdownSections.SkippedSplit | src/opencortex/parse/parsers/markdown.py:159-180 | The only text they leave out lies between the first heading and the first heading of smallest level. |
| MarkdownSections.NothingSkippedIff | src/opencortex/parse/parsers/markdown.py:159-180 | That text is blank if and only if the first heading has the smallest level. |
| Markdown.MarkdownParser.SaveMerged | src/opencortex/parse/parsers/markdown.py:328-347 | Sections that together fit become one chunk below the parent, holding all their text in order and within the bound. |
| Markdown.MarkdownParser.TryAddToPending | src/opencortex/parse/parsers/markdown.py:308-320 | Text saved and text waiting together grow by exactly the section; with a minimum not above the maximum, the estimates of what waits always sum to at most the maximum. |
| Markdown.MarkdownParser.ProcessSection | src/opencortex/parse/parsers/markdown.py:266-299 | A small section waits, after what waited is saved if it would not fit; a larger one without children is joined exactly if something waits and the sum fits; any other is saved by itself after what waited, as the very last chunk if it fits, as a directory if it does not and has children. |
| Markdown.MarkdownParser.SaveSection | src/opencortex/parse/parsers/markdown.py:349-442 | A section becomes chunks below its parent that stand for exactly its text: one whole chunk if it fits, else a directory if it has children, else parts. |
| Markdown.MarkdownParser.ProcessSections | src/opencortex/parse/parsers/markdown.py:235-299 | Chunks are only appended, below the given parent, and stand in order for exactly the text of the sections; the recursion is measured by maximum level minus current level. |
| MarkdownTree.GrownConcat | src/opencortex/parse/parsers/markdown.py:273-299 | Appending in two steps appends both texts in order and keeps parents, levels and directories right. |
| MarkdownTree.WholeDocument | src/opencortex/parse/parsers/markdown.py:108-123 | Seen from the empty list, the directories are exactly the chunks named as parents, every parent is none or an earlier chunk exactly one level above, and every path is the parent's path and the name the title starts with. |
| MarkdownTree.LeavesHoldIff | src/opencortex/parse/parsers/markdown.py:387-425 | The leaves hold all the text the chunks stand for if and only if no directory shows its bare title, which is what a directory without own text shows. |
| Markdown.MarkdownParser.SaveDirectory | src/opencortex/parse/parsers/markdown.py:385-425 | The directory chunk shows the own text, or the bare title exactly when there is none; below it come own text and child sections, and a bare directory is among them exactly if a child section leaves one. |
| Markdown.MarkdownParser.ParseContent | src/opencortex/parse/parsers/markdown.py:76-123 | Read in order, the chunks stand for the whole body without the skipped text, exactly once, where a directory stands for no text or, without own text, for its heading line; the leaves alone hold the body if and only if, read off headings and text, no section from the top down through split sections is split up without text of its own; parents form a forest; every leaf is bounded. Every top-level section with children and the minimum size is a chunk of its own, whole if it fits and else a directory; the path of every chunk is its parent's path and its name. |
| DocumentTree.ParseNormalized | src/opencortex/store/document_tree.py:113-117 | Exactly the chunks that are not blank are kept, in order and without renumbering, and a parent index of zero becomes none. |
| DocumentTree.LinksSurviveIff | src/opencortex/store/document_tree.py:113-117 | Every kept parent index still points at the chunk the parser meant if and only if no blank chunk lies at or before a position named as parent by a kept chunk. |
| BlankDirectory.UntitledSection | src/opencortex/parse/parsers/markdown.py:184-231 | An untitled heading with a child directly below it and enough text is a section too large for one chunk, with children and without title or own text. |
| BlankDirectory.ParsesBlankDirectory | src/opencortex/parse/parsers/markdown.py:385-400 | For every size limit the parser lists, on such a document, a blank chunk that is a parent. |
| DocumentTree.BlankDirectoryCutsOff | src/opencortex/store/document_tree.py:113-117 | A concrete forest with a blank directory whose written child is its own parent and never reaches the root. |
| DocumentTree.ChunkUris | src/opencortex/store/document_tree.py:298-309 | The URIs are the numbered slugs; the suffix against collisions is never needed. |
| DocumentTree.StableUriIsNumbered | src/opencortex/store/document_tree.py:298-309 | The URI of a chunk is the root without trailing slashes, its number from 1 in at least four digits, and its slug or, without one, a numbered section name. |
| DocumentTree.StableUrisDistinct | src/opencortex/store/document_tree.py:298-309 | All child URIs differ from each other and from the root. |
| DocumentTree.WriteChildren | src/opencortex/store/document_tree.py:164-203 | Nothing is written unless there are two chunks, or one with a parent or a path; each record has the URI with the number of its chunk in at least four digits and its slug, its parent's such URI or the root, and its leaf flag; the first parent index beyond the list, and nothing else, stops the run, after everything before it was written. |
| DocumentTree.LeafIff | src/opencortex/store/document_tree.py:182-203 | A written record is a leaf if and only if no written record names it as parent. |
| DocumentTree.ForestIsWritten | src/opencortex/store/document_tree.py:182-203 | Parser output whose links survive the filter is written parents first with the parser's links, every chain reaches the root, and children of chunk 0 hang from the root. |
| DocumentTree.ForestNeverFails | src/opencortex/store/document_tree.py:182-203 | Such output never runs into a parent index beyond the list. |
| Fusion.OrderIndependent | src/opencortex/vector/retrieval/ranker.py:27-58 | The URI-to-score map depends only on the set of hits: neither order nor repetition matters. |
| Fusion.ScaleInvariant | src/opencortex/vector/retrieval/ranker.py:108-130 | One positive factor on all raw scores changes no fused score. |
| Fusion.ScoreBounds | src/opencortex/vector/retrieval/ranker.py:40-51 | With non-negative bonuses every fused score lies between zero and one plus the bonus caps. |
| Fusion.BestIsBest | src/opencortex/vector/retrieval/ranker.py:29-38 | The best normalised score of a URI is attained by one of its hits and exceeded by none. |
| Fusion.FusedScoreSpelled | src/opencortex/vector/retrieval/ranker.py:27-51 | The score spelled out: the weight of the heaviest hit of the URI placed between the extremes of the pool, the capped bonus for further surfaces, the bonus of each surface, and the starting bonus. |
| Fusion.IsNearIff | src/opencortex/vector/retrieval/ranker.py:133-145 | Near means equal to a starting URI or below it; blank ones and outer white space are ignored. |
| Ranker.Collapse | src/opencortex/vector/retrieval/ranker.py:29-38 | One pass finds, for every URI hit, its best hit and exactly its surfaces, each URI once. |
| Ranker.NormalizeWeightedHits | src/opencortex/vector/retrieval/ranker.py:108-130 | Every score is placed between the smallest and the largest of the pool; a flat pool scores one throughout. |
| Ranker.SumBonuses | src/opencortex/vector/retrieval/ranker.py:47-48 | The surface bonuses add up to the same sum in whatever order the set is walked. |
| Ranker.Rank | src/opencortex/vector/retrieval/ranker.py:20-76 | One hit per URI hit, a missing source URI replaced by the record's own, with its specified score and the payload of a raw hit, in the plan's order, cut at the limit; by score, nothing left out beats anything kept. |
| Ranker.SortedIsSorted | src/opencortex/vector/retrieval/ranker.py:65-75 | The sort orders by score, or by time and score for a temporal plan. |
| Ranker.SortIsStable | src/opencortex/vector/retrieval/ranker.py:65-75 | The sort is stable: hits that may stand either way keep their order. |
| Recall.ScoresFromResults | src/opencortex/vector/retrieval/reranker.py:279-293 | Scores exist if and only if there are exactly as many results as documents and each has an index in range and a score; the last result for a position decides. |
| Recall.AnsweredOnce | src/opencortex/vector/retrieval/reranker.py:279-293 | If a position is answered once, its document gets that score. |
| Recall.Rerank | src/opencortex/vector/retrieval/reranker.py:62-94 | For any scorer answer, reranking is a permutation of its input; each reranked hit has the score the provider gave for it, best first, equal scores in input order; what lies beyond the limit keeps its place; a missing or incomplete answer changes nothing. |
| Recall.RearrangedDistinct | src/opencortex/vector/retrieval/reranker.py:62-94 | A permutation up to scores keeps URIs distinct. |
| Recall.RerankLimit | src/opencortex/vector/retrieval/retriever.py:259-261 | The smaller of the configured limit and the plan's own, which counts only when not zero; at least one. |
| Recall.SearchHits | src/opencortex/vector/retrieval/retriever.py:122-155 | The search is the sequence of the source: ranked, reranked if the plan asks for it, ranked again with what the expansion found, reranked, cut; it ends with at most the plan's limit of distinct URIs, each from a raw or an expanded hit. |
| ReasonTree.FlattenNodes | src/opencortex/store/writer/reason_tree_build_writer.py:234-265 | The loop computes the pre-order list of the tree. |
| ReasonTree.FlattenedInPreOrder | src/opencortex/store/writer/reason_tree_build_writer.py:234-265 | Ancestors come before descendants and siblings in order, for every two records. |
| ReasonTree.EveryNodeFlattened | src/opencortex/store/writer/reason_tree_build_writer.py:234-265 | Every node of the tree appears under its own path. |
| ReasonTree.FlattenedStands | src/opencortex/store/writer/reason_tree_build_writer.py:234-265 | Every record is that of the node its path leads to, at a level given by the length of the path. |
| ReasonTree.NodeUriInjective | src/opencortex/store/writer/reason_tree_build_writer.py:275-278 | Node URIs are equal only for equal paths, whatever titles and digests. |
| ReasonTree.UrisDistinct | src/opencortex/store/writer/reason_tree_build_writer.py:234-278 | All node URIs of one tree differ. |
| ReasonTree.ParentsComeFirst | src/opencortex/store/writer/reason_tree_build_writer.py:234-265 | Each parent URI is the root or that of an earlier record, the one a step up the path. |
| ReasonTree.PrefixIsClosed | src/opencortex/store/writer/reason_tree_build_writer.py:73-81 | Every prefix of the flattened list is closed under parents, so the cut at 32 nodes orphans nothing. |
| ReasonTree.IndexedNodes | src/opencortex/store/writer/reason_tree_build_writer.py:73-81 | What is indexed is a prefix of the pre-order list, at most 32 nodes, a tree of its own with distinct URIs that spell the path and a digest of the title, or of the summary without one. |

## Left out

- HTTP and MCP routes other than the wait after a store, tokens, the console, logging.
- LLM, embedding, Qdrant and SQLite internals: the vector store is a map from URI to payload, the queue a map of rows with atomic transactions, scorer and tree output are arbitrary.
- Heading detection, slugs, digests and date parsing: regular expressions and hashes are inputs.
- The content and tree of the final session record, and directory records created for parents.
- `wait_idle`, the asynchronous enqueue, and first-in-first-out order per key, which released messages do not keep.
- Cancelling a worker or a publisher task: a crash of the whole process is modelled, a single cancelled task is not.
- Records that expire, and search filters inside removal.
- The conversation buffer is a value that the session buffer replaces; that a frozen snapshot shares no list with the live buffer is therefore not shown.
- Floating-point rounding of scores and token estimates.
- The order of equal scores in a ranking, which depends on insertion order in the source.
- SessionFlow.SessionFlow.End: stops before the final record is written, so a failure of that write, which also keeps the state, is not modelled.
- CfsQueue.CFSQueue.CountStatus: without the list of at most 100 failed rows with their last errors, since error texts and update times are not modelled.
- SessionSimulation.PlayAll: serves one call after the other; calls that overlap are what the transition system models.
- EventWorkers.EventWorker.Process: one call without interference; interference is what the transition system models.
- Ranker.Rank: for temporal plans the order is by time and score, but that nothing left out is later or better is not stated, since it depends on which of two equal hits carries the time.
