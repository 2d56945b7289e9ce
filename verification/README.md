# Verified model of the runtime-owner mutation and event core

This project models the part of the UncleCode runtime that turns concurrent client requests
into one durable, replayable history, and proves what that part promises over whole runs.

| files | what they model |
|---|---|
| ArbiterModel, ArbiterLanes, ArbiterWorld, ArbiterTheorems, ArbiterSerial, ArbiterReplay, ArbiterDoubled, ArbiterAnswers, ArbiterMemory, MutationArbiter | the mutation arbiter: admission tail, normal, control and cancel lanes, revision clock, in-memory receipts, crash and restart |
| ReceiptTables, EventWindow, UsageTotals, RuntimeLedger | the durable ledger: receipts and session revisions, the event window, usage totals |
| JsonText, CanonicalJson | canonical JSON text, by which two requests count as the same |
| RingJournal, RingExpiry, BoundedJournal, LiveSplice, LedgerJournal | the ring journal and the journal that splices durable replay onto live fan-out |
| RegistryModel, RegistryInvariant, RegistrySteps, RegistryTheorems, RegistryHealth, RegistryAnswers, RuntimeEngineRegistry | the registry of attached engines: reservations, eviction, teardown, quarantine |
| ClientFence, ClientOrder, ClientSends, ClientShows, RemoteWorkShellEngine | the client's fences against responses that arrive out of order |
| SseText, Sse, SseBlocks, SseCuts, SseTheorems | the event stream as printed, cut into chunks and parsed |
| EndToEnd | the spliced journal, printed, broken off, resumed and read back by the browser |
| ToolTurn | slicing a Responses input to its latest tool turn |
| ContextActions | context-source actions, their undo, and the replay of the receipt log |

## How to read it

Asynchronous code is a transition system: one step is one stretch between two awaits, and what
callbacks, the store, the network and the clock answer is a parameter of the step. Each such
system has a class with the fields of the source beside it. The methods of a class are proved
equal to the steps of the system, and the theorems are about all runs of those steps. Code
without awaits is a method with the loops of the source, proved against a function, and what the
source promises is proved of that function.

Tables are maps and a transaction is one step that happens whole or not at all. Integers are
unbounded; where the source checks for safe integers the model does too. JavaScript strings are
sequences of UTF-16 code units where printing depends on them (JsonText).

## Findings

- The ledger-backed `subscribeAfter` delivers every event once and in order under an exact
  condition, not always. If a listener that the fan-out serves first publishes again from its
  callback while the replay loop runs, the queue is out of id order and the drain loop drops the
  older entry (`LiveSplice.SpliceIsExact`, `LiveSplice.NothingLostOrRepeated`;
  `LiveSplice.ReentrantListenerLosesAnEvent` is the smallest such run).
- Canonical JSON drops members named `__proto__`, since assigning that key sets a prototype, so
  different values can share a fingerprint. `CanonicalJson.FingerprintsDecideEquality` says which
  for all values, `CanonicalJson.FingerprintsAreExact` that without such members none do.
- The browser's parser normalizes CR LF again at every chunk. The result is independent of the
  cuts exactly for texts in which no CR stands before a CR LF (`SseCuts.CutsDoNotMatterIff`); a
  single cut goes unnoticed exactly when what it leaves over holds no CR LF
  (`SseCuts.SeamlessIff`). `SseTheorems.ChunkingMattersAfterDoubleCR` is a text that shows it. The
  server's own text never holds a CR.
- The client orders mutation responses only by revision. It never shows an earlier request's state
  over a later one's exactly when the server accepts no two invocations at one revision
  (`ClientOrder.OrderedIffApart`). This server never accepts two: the ledger keeps accepted revisions of a
  session apart (`ClientOrder.LedgerKeepsResponsesApart`).
- The ring journal may refuse a cursor as expired although the session lost nothing after it:
  exactly when the session lost nothing at all, or `capacity` other sessions have lost an event
  since, and the cursor lies below the newest evicted id (`RingExpiry.ExpiresInVainIff`, with
  `RingExpiry.BystanderExpiresInVain` as the smallest case). It never serves a cursor after which
  something was lost, cursor 0 apart (`RingExpiry.ReplayIsExact`).
- Cursor 0 never expires in the ring journal but does in the ledger once the low watermark has
  passed 1; the two journals are not equal and are not claimed to be.

## Model

| member | source | states |
|---|---|---|
| `ArbiterTheorems.ExecutesAtMostOnce` | apps/unclecode-server/src/runtime-mutation-arbiter.ts:131-373 | Over every interleaving of submissions, admissions, receipt evictions, crashes, recoveries, reopenings and fresh arbiters on one ledger, a (session, domain, key) executes at most once, under the fingerprint and revision its receipt holds, and the normal executions of one arbiter start in submission order |
| `ArbiterTheorems.InheritedReceiptsNeverExecute` | apps/unclecode-server/src/runtime-mutation-arbiter.ts:176-213 | A receipt present when a process starts, whatever its status, is never executed by any later run |
| `ArbiterTheorems.MismatchedReuseIsFenced` | apps/unclecode-server/src/runtime-mutation-arbiter.ts:180-182 | Reuse of a recorded key under another fingerprint is answered as invalid reuse and changes nothing durable |
| `ArbiterReplay.LaterMutationsReplay` | apps/unclecode-server/src/runtime-mutation-arbiter.ts:176-193 | Once a receipt is terminal with a result, over any further run (evictions, crashes, restarts, fresh arbiters) every submission of its key and fingerprint that has its lookup still ahead is refused with the recorded result and resolves to exactly that result, unless its own lookup throws |
| `ArbiterReplay.JoinedMutationsReplay` | apps/unclecode-server/src/runtime-mutation-arbiter.ts:164-193 | A call that joins a submission still in memory, whatever phase that one is in, once the receipt is terminal with a result, gets exactly that result when the submission resolves |
| `ArbiterTheorems.ClockFollowsLedger` | apps/unclecode-server/src/runtime-mutation-arbiter.ts:76-110 | With one arbiter per session every clock equals the durable session revision in every reachable state and never goes back; accepted revisions of a session stay pairwise distinct and at most its revision |
| `ArbiterDoubled.JoinedBehindASecondArbiter` | apps/unclecode-server/src/runtime-mutation-arbiter.ts:164-193 | With two arbiters on one session a joined call can miss the recorded answer: the ledger holds the result, and a call that joins the submission the first arbiter refused before gets its conflict |
| `ArbiterSerial.AdmissionsAreSerial` | apps/unclecode-server/src/runtime-mutation-arbiter.ts:235-287 | Over every run with one arbiter per session, each admitted submission was admitted by one action that found the durable revision one below the accepted one and moved it by exactly one, and no other session's; without rebase flag, identity check or precondition, and unless it was an exempted stale cancel, it had expected the revision found |
| `ArbiterSerial.PlainAdmissionsHoldTheNextRevision` | apps/unclecode-server/src/runtime-mutation-arbiter.ts:235-279 | In every reachable state such a submission holds the revision one above the one it expected; on the cancel lane it may hold a later one, never an earlier |
| `ArbiterSerial.PlainAdmissionIsCompareAndIncrement` | apps/unclecode-server/src/runtime-mutation-arbiter.ts:235-279 | In every reachable state such a submission is accepted exactly when its key is new, nothing throws, the next revision is representable and it expects the durable revision or is an exempted stale cancel; it then gets the durable revision plus one, otherwise the revision stands |
| `ArbiterTheorems.LanesAreExact` | apps/unclecode-server/src/runtime-mutation-arbiter.ts:85-101 | The active count is the number of admitted unfinished mutations, the generation set holds exactly the revisions of the normal or cancel-binding ones, at most one normal mutation executes, and while any is active an autonomous publication moves nothing |
| `ArbiterTheorems.StaleCancelReachesOnlyCurrentTurns` | apps/unclecode-server/src/runtime-mutation-arbiter.ts:214-242 | A cancel with a stale revision passes if and only if some cancel-binding turn is active and the revision is no older than the base of the oldest one; an older cancel never reaches that turn |
| `ArbiterTheorems.LaunchAfterCancels` | apps/unclecode-server/src/runtime-mutation-arbiter.ts:336-347 | A normal mutation that has taken its admission can start exactly when every cancel called before it did so has been admitted or refused; it waits for nothing else |
| `ArbiterTheorems.StepLowersMeasure` | apps/unclecode-server/src/runtime-mutation-arbiter.ts:200-356 | Every internal step lowers a natural-number measure of the unsettled mutations |
| `ArbiterTheorems.NeverStuck` | apps/unclecode-server/src/runtime-mutation-arbiter.ts:200-356 | While any mutation is not closed some internal step is enabled, in spite of the admission, normal and cancel tails |
| `ArbiterTheorems.InternalRunsEndWithAllClosed` | apps/unclecode-server/src/runtime-mutation-arbiter.ts:200-373 | Every run of internal steps is shorter than the measure of its start, and one that cannot go on has closed every mutation |
| `ArbiterAnswers.AdmissionIsExact` | apps/unclecode-server/src/runtime-mutation-arbiter.ts:200-287 | In every state reachable with one arbiter per session, at the turn of every request: a key on record is answered from its receipt; otherwise, if nothing throws, the submission is accepted at the durable revision plus one, or goes on to its precondition, exactly when it expects the durable revision, has acceptLatest, has an identity check that holds, or is a cancel no older than the base of the oldest turn it can bind to; if it is none of these it is told Conflict with the durable revision and nothing changes |
| `ArbiterAnswers.PreconditionDecides` | apps/unclecode-server/src/runtime-mutation-arbiter.ts:244-287 | After an awaited precondition one that stops or throws is the answer and changes nothing durable; one that passes admits at the next revision of that moment unless the ledger throws or the key has a receipt by then |
| `ArbiterAnswers.SubmissionIsExact` | apps/unclecode-server/src/runtime-mutation-arbiter.ts:157-169 | A call of a key that is still remembered joins it or is told invalid reuse at the durable revision, by its fingerprint; any other call starts; an open submission is always remembered and a key refused every time never is; only a start changes anything |
| `ArbiterAnswers.OpeningIsExact` | apps/unclecode-server/src/runtime-mutation-arbiter.ts:64-83 | Binding makes clock and durable revision the larger of the two and touches no receipt and no other session |
| `ArbiterAnswers.PublicationsAreExact` | apps/unclecode-server/src/runtime-mutation-arbiter.ts:93-110 | An autonomous publication moves clock and ledger up by exactly one when no admitted mutation is unfinished and not at all otherwise; a durable one moves both to the given revision exactly when that is newer |
| `ArbiterAnswers.OtherLanesNeverWait` | apps/unclecode-server/src/runtime-mutation-arbiter.ts:336-350 | An accepted control or cancel submission goes on to execute at once |
| `ArbiterAnswers.AdmissionNeverWaits` | apps/unclecode-server/src/runtime-mutation-arbiter.ts:195-200 | Whoever has the turn for admission can go on, whatever is executing |
| `ArbiterAnswers.NormalsWaitForCancels` | apps/unclecode-server/src/runtime-mutation-arbiter.ts:336-347 | Along every run a normal submission executes only after every cancel called while it was on its way to its turn has been admitted or refused |
| `ArbiterAnswers.FinishIsExact` | apps/unclecode-server/src/runtime-mutation-arbiter.ts:293-334 | In every reachable world a finishing execution whose reply can be stored changes exactly the receipt of its key, to completed, or failed if it failed, with its fingerprint, its revision and that reply, and resolves to that reply; one whose reply cannot be stored leaves the ledger alone and answers fail |
| `ArbiterAnswers.FinishedMutationsReplay` | apps/unclecode-server/src/runtime-mutation-arbiter.ts:176-193 | Whether an execution completed or failed, every later call of its key and fingerprint, on any arbiter and after any restart, resolves to the stored reply unless its own lookup throws |
| `ArbiterMemory.CloseIsExact` | apps/unclecode-server/src/runtime-mutation-arbiter.ts:357-371 | Closing forgets the key exactly when it was refused; if more than 2048 are then remembered it also forgets the earliest other closed one, if any, and nothing else |
| `ArbiterMemory.CloseBoundsMemory` | apps/unclecode-server/src/runtime-mutation-arbiter.ts:363-370 | Closing keeps the number of closed submissions remembered at 2048 or below |
| `ArbiterMemory.MemoryStaysBounded` | apps/unclecode-server/src/runtime-mutation-arbiter.ts:357-371 | Over every run an arbiter remembers at most 2048 closed submissions, however many are open |
| `ArbiterLanes.SubmitKeeps` | apps/unclecode-server/src/runtime-mutation-arbiter.ts:164-169 | Accepting a call into the receipt map and the tails keeps the lane invariant (turn order, chained normal tail, cancel fences, counters, distinct revisions, remembered receipts) |
| `ArbiterLanes.BeginKeepsLanes` | apps/unclecode-server/src/runtime-mutation-arbiter.ts:200-257 | The admission stretch before the precondition keeps the lane invariant and leaves the clock at most the durable revision |
| `ArbiterLanes.ResumeKeepsLanes` | apps/unclecode-server/src/runtime-mutation-arbiter.ts:244-287 | The admission stretch after the precondition keeps the lane invariant |
| `ArbiterLanes.ConsumeKeepsLanes` | apps/unclecode-server/src/runtime-mutation-arbiter.ts:336-345 | Looking at the admission and taking the cancel fence keeps the lane invariant |
| `ArbiterLanes.LaunchKeepsLanes` | apps/unclecode-server/src/runtime-mutation-arbiter.ts:344-346 | Starting execution behind the fence keeps the lane invariant |
| `ArbiterLanes.FinishKeepsLanes` | apps/unclecode-server/src/runtime-mutation-arbiter.ts:293-334 | Finishing an execution lowers count and generations in step with the mutations held |
| `ArbiterLanes.CloseKeepsLanes` | apps/unclecode-server/src/runtime-mutation-arbiter.ts:357-371 | Settling, forgetting refused receipts and evicting beyond 2048 keeps the lane invariant |
| `ArbiterLanes.FirstEvictableIsFirst` | apps/unclecode-server/src/runtime-mutation-arbiter.ts:363-368 | The receipt evicted is the earliest settled one other than the key just used |
| `ArbiterWorld.StepEffect` | apps/unclecode-server/src/runtime-mutation-arbiter.ts:200-373 | One step of one arbiter touches one submission only, admits only keys with no receipt, settles a refused call with the reply it was refused with, never changes the reply of a settled one, and keeps the clock at most the durable revision |
| `ArbiterWorld.NextKeepsInv` | apps/unclecode-server/src/runtime-mutation-arbiter.ts:131-373 | Every action of the system (a step of some arbiter, a crash, a fresh arbiter, recovery, reopening) keeps the joint invariant of ledger, arbiters and execution log |
| `ArbiterWorld.RunsKeepInv` | apps/unclecode-server/src/runtime-mutation-arbiter.ts:131-373 | That invariant holds after every run, and receipts only ever grow |
| `MutationArbiter.RuntimeSessionMutationArbiter.constructor` | apps/unclecode-server/src/runtime-mutation-arbiter.ts:64-83 | Binding to the ledger seeds the session revision and adopts what the ledger answers |
| `MutationArbiter.RuntimeSessionMutationArbiter.IsMutationActive` | apps/unclecode-server/src/runtime-mutation-arbiter.ts:85-87 | True exactly when some mutation is admitted and unfinished |
| `MutationArbiter.RuntimeSessionMutationArbiter.PublishAutonomous` | apps/unclecode-server/src/runtime-mutation-arbiter.ts:93-101 | Moves clock and ledger together, and only while no mutation is active |
| `MutationArbiter.RuntimeSessionMutationArbiter.PublishDurable` | apps/unclecode-server/src/runtime-mutation-arbiter.ts:103-110 | Raises the clock to a newer safe-integer revision through the ledger, and does nothing otherwise |
| `MutationArbiter.RuntimeSessionMutationArbiter.Mutate` | apps/unclecode-server/src/runtime-mutation-arbiter.ts:157-169 | Joins, refuses or starts a mutation exactly as the step Submit, with its places on the normal and cancel tails |
| `MutationArbiter.RuntimeSessionMutationArbiter.DurableResult` | apps/unclecode-server/src/runtime-mutation-arbiter.ts:176-193 | Answers from the recorded receipt after catching the clock up with the ledger |
| `MutationArbiter.RuntimeSessionMutationArbiter.OldestGeneration` | apps/unclecode-server/src/runtime-mutation-arbiter.ts:214-216 | The loop returns the least active generation, or none |
| `MutationArbiter.RuntimeSessionMutationArbiter.Commit` | apps/unclecode-server/src/runtime-mutation-arbiter.ts:258-287 | Durable admission: receipt, clock, active count and generation change together or not at all |
| `MutationArbiter.RuntimeSessionMutationArbiter.BeginAdmission` | apps/unclecode-server/src/runtime-mutation-arbiter.ts:200-242 | The stretch from the admission tail to the precondition is the step Begin |
| `MutationArbiter.RuntimeSessionMutationArbiter.ResumeAdmission` | apps/unclecode-server/src/runtime-mutation-arbiter.ts:244-287 | The stretch after the precondition is the step Resume |
| `MutationArbiter.RuntimeSessionMutationArbiter.ConsumeAdmission` | apps/unclecode-server/src/runtime-mutation-arbiter.ts:336-345 | A refused mutation answers, an accepted one takes its fence: the step Consume |
| `MutationArbiter.RuntimeSessionMutationArbiter.StartExecution` | apps/unclecode-server/src/runtime-mutation-arbiter.ts:344-346 | Execution starts as the step Launch |
| `MutationArbiter.RuntimeSessionMutationArbiter.FinishExecution` | apps/unclecode-server/src/runtime-mutation-arbiter.ts:293-334 | Counters, generation, result and receipt end as the step Finish |
| `MutationArbiter.RuntimeSessionMutationArbiter.CloseMutation` | apps/unclecode-server/src/runtime-mutation-arbiter.ts:357-371 | Settling and bounded eviction end as the step Close |
| `ReceiptTables.TerminalReceiptsNeverChange` | apps/unclecode-server/src/runtime-ledger.ts:279-360 | Over any sequence of lookup, admit, complete, recover, reopen and seed calls a completed or failed receipt keeps status, result, fingerprint and accepted revision |
| `ReceiptTables.ApplyKeeps` | apps/unclecode-server/src/runtime-ledger.ts:221-360 | Every ledger call keeps accepted revisions of a session distinct and at most its revision, and loses no receipt |
| `ReceiptTables.AdmitKeeps` | apps/unclecode-server/src/runtime-ledger.ts:240-277 | Admission adds one receipt above every earlier revision of the session |
| `ReceiptTables.SeedKeeps` | apps/unclecode-server/src/runtime-ledger.ts:519-534 | Seeding makes the session revision the larger of the two and touches no receipt |
| `ReceiptTables.RecordedIsRead` | apps/unclecode-server/src/runtime-ledger.ts:221-277 | An admission goes through exactly for a key without a receipt and a session revision below 9007199254740991, and takes the next revision; a lookup then answers status, revision and result under its fingerprint and status and revision under another, and no other key or session is affected |
| `ReceiptTables.CompletionIsExact` | apps/unclecode-server/src/runtime-ledger.ts:279-314 | Completion fails exactly for a missing receipt and one that ended otherwise; the same outcome again changes nothing; the first sets status and result and nothing else |
| `ReceiptTables.RecoveryIsExact` | apps/unclecode-server/src/runtime-ledger.ts:316-324 | After recovery no receipt is admitted, those that were are in doubt with all else kept, and nothing else has changed |
| `ReceiptTables.ReopeningIsExact` | apps/unclecode-server/src/runtime-ledger.ts:326-360 | Reopening makes a receipt in doubt admitted with fingerprint, revision and result kept, and changes no other |
| `ReceiptTables.RecoveredThenReopened` | apps/unclecode-server/src/runtime-ledger.ts:316-360 | A mutation interrupted by a crash, recovered and reopened, has its receipt back exactly as admitted |
| `RuntimeLedger.SqliteRuntimeLedger.LookupMutation` | apps/unclecode-server/src/runtime-ledger.ts:221-238 | Answers miss, mismatch or replay from the stored receipt and changes nothing |
| `RuntimeLedger.SqliteRuntimeLedger.AdmitMutation` | apps/unclecode-server/src/runtime-ledger.ts:240-277 | Inserts a receipt at the next revision, or answers from the existing one, or fails and rolls back |
| `RuntimeLedger.SqliteRuntimeLedger.CompleteMutation` | apps/unclecode-server/src/runtime-ledger.ts:279-314 | Ends a receipt once; the same outcome again is accepted, another one is an error and changes nothing |
| `RuntimeLedger.SqliteRuntimeLedger.RecoverInDoubt` | apps/unclecode-server/src/runtime-ledger.ts:316-324 | Afterwards no receipt is admitted; one is in doubt exactly if it was admitted or in doubt before; every other field and receipt is as it was; the count returned is the number of receipts admitted before |
| `RuntimeLedger.SqliteRuntimeLedger.ReopenMutation` | apps/unclecode-server/src/runtime-ledger.ts:326-360 | An in-doubt receipt becomes admitted again with fingerprint, revision and result kept, and its accepted revision is handed out; any other is handed out as it is and nothing changes; a missing one is an error |
| `RuntimeLedger.SqliteRuntimeLedger.SeedSessionRevision` | apps/unclecode-server/src/runtime-ledger.ts:519-534 | The session revision becomes the larger of its own and the given one |
| `RuntimeLedger.SqliteRuntimeLedger.AppendRuntimeEvent` | apps/unclecode-server/src/runtime-ledger.ts:447-477 | Appends under the next sequence number, raises the low watermark and deletes below it, or fails and rolls back |
| `RuntimeLedger.SqliteRuntimeLedger.ReplayRuntimeEvents` | apps/unclecode-server/src/runtime-ledger.ts:479-517 | Rows after the cursor in order, or expired, as the window says |
| `RuntimeLedger.SqliteRuntimeLedger.RecordUsage` | apps/unclecode-server/src/runtime-ledger.ts:362-409 | Records a new event in all four tables, or reports duplicate, mismatch or overflow and changes nothing |
| `EventWindow.RunsKeepWindow` | apps/unclecode-server/src/runtime-ledger.ts:447-477 | Over any calls, with the ledger reopened under other limits, the retained sequence numbers of a session are exactly [low watermark, next), hold the events appended there, and no low watermark falls |
| `EventWindow.AppendKeeps` | apps/unclecode-server/src/runtime-ledger.ts:460-474 | One append gets the next number, and afterwards its session retains exactly what it did, and the new event, above the newest number less the limit; other sessions keep theirs, and the low watermark is the larger of its own and that bound |
| `EventWindow.ReplayIsExact` | apps/unclecode-server/src/runtime-ledger.ts:479-517 | A replay is expired if and only if an event after the cursor was deleted or the cursor is beyond the newest; otherwise it is every event ever appended after the cursor, in order; the watermarks reported bound exactly the numbers retained |
| `EventWindow.AppendsIff` | apps/unclecode-server/src/runtime-ledger.ts:452-466 | An append goes through as long as the number after the next is a safe integer; its primary key is never taken |
| `EventWindow.NewestAreRetained` | apps/unclecode-server/src/runtime-ledger.ts:447-477 | Over every run under one limit a session retains exactly its newest events, up to the limit |
| `EventWindow.WindowOverRuns` | apps/unclecode-server/src/runtime-ledger.ts:447-517 | The same for every run from an empty table |
| `UsageTotals.UsageIsConserved` | apps/unclecode-server/src/runtime-ledger.ts:362-409 | After any calls each session, main, agent and route total is the sum of the distinct recorded events in its scope and a safe integer, and route totals add up to the session total |
| `UsageTotals.NarrowerIsSmaller` | apps/unclecode-server/src/runtime-ledger.ts:806-835 | Every narrower total is at most the session total |
| `UsageTotals.SessionCheckSuffices` | apps/unclecode-server/src/runtime-ledger.ts:837-862 | The session-level overflow check alone implies the three narrower ones |
| `UsageTotals.OnlyNewEventsCount` | apps/unclecode-server/src/runtime-ledger.ts:374-409 | A call is recorded if and only if its id is new and the session total can take it, a duplicate exactly when the same event is recorded under its id, a mismatch when another is; only a recorded call changes anything |
| `UsageTotals.EmptyIsConserved` | apps/unclecode-server/src/runtime-ledger.ts:411-445 | A fresh database satisfies conservation |
| `RingJournal.RingRepresentsHistory` | apps/unclecode-server/src/event-journal.ts:57-88 | For every history of publications the window is its newest capacity events, the index is the window split by session in id order, and at most capacity watermarks each name the newest id their session lost |
| `RingExpiry.ReplayIsExact` | apps/unclecode-server/src/event-journal.ts:90-107 | For every history a cursor is expired if and only if it lies beyond the newest event or, above 0, below the floor of its session: the last id the session lost while fewer than capacity other sessions have lost an event since, everything lost otherwise. Any other cursor gets every event of the session after it, in order; cursor 0 gets what is retained. An expired answer names the oldest retained and the newest id |
| `RingExpiry.ExpiresInVainIff` | apps/unclecode-server/src/event-journal.ts:95-98 | A cursor below what was evicted is refused although its session lost nothing after it exactly when the session is not remembered and its last loss is not after the cursor |
| `RingExpiry.BystanderExpiresInVain` | apps/unclecode-server/src/event-journal.ts:95-98 | The smallest case: a session that lost nothing, behind two evicted events of another |
| `RingExpiry.MarkTells` | apps/unclecode-server/src/event-journal.ts:66-73 | A session has a watermark exactly while fewer than capacity other sessions have lost an event since it last did, and the watermark is the id of its last loss |
| `RingExpiry.EvictionRemembers` | apps/unclecode-server/src/event-journal.ts:66-73 | Deleting, appending and trimming keeps the watermarks those of the sessions that lost an event most recently, in order of their last loss |
| `RingJournal.NothingLostAfter` | apps/unclecode-server/src/event-journal.ts:95-98 | If the watermark test passes, no evicted event of the session lies after the cursor |
| `RingJournal.PublishKeeps` | apps/unclecode-server/src/event-journal.ts:57-85 | One publication, evicting or not, keeps ring, index and watermarks in agreement with the history |
| `BoundedJournal.BoundedEventJournal.constructor` | apps/unclecode-server/src/event-journal.ts:48-51 | The capacity is the option clamped to 1 and 10000, or 1024; the ring is empty |
| `BoundedJournal.BoundedEventJournal.EvictOldest` | apps/unclecode-server/src/event-journal.ts:61-73 | The oldest slot leaves index and watermarks as the value form says |
| `BoundedJournal.BoundedEventJournal.Overwrite` | apps/unclecode-server/src/event-journal.ts:74-75 | Writing at the head and turning it modulo capacity moves the window by one |
| `BoundedJournal.BoundedEventJournal.Extend` | apps/unclecode-server/src/event-journal.ts:76-79 | Writing behind the window modulo capacity extends it by one |
| `BoundedJournal.BoundedEventJournal.PublishRecorded` | apps/unclecode-server/src/event-journal.ts:57-88 | The array, head, size, index and watermarks represent the ring after the publication |
| `BoundedJournal.BoundedEventJournal.Publish` | apps/unclecode-server/src/event-journal.ts:53-55 | Hands out the next id and records it |
| `BoundedJournal.BoundedEventJournal.Ends` | apps/unclecode-server/src/event-journal.ts:91-94 | The oldest and newest id retained, by modular indexing |
| `BoundedJournal.BoundedEventJournal.Replay` | apps/unclecode-server/src/event-journal.ts:90-107 | Equals the replay of the represented ring |
| `BoundedJournal.NewerThan` | apps/unclecode-server/src/event-journal.ts:102-105 | The loop keeps exactly the entries with an id above the cursor, in order |
| `LiveSplice.SpliceIsExact` | apps/unclecode-server/src/event-journal.ts:182-208 | The listener receives every event of the session after the cursor exactly once in ascending order, events published from inside the replay loop included, if and only if no listener served ahead of it publishes from inside a fan-out and of the drain callbacks only the last publishes |
| `LiveSplice.NothingLostOrRepeated` | apps/unclecode-server/src/event-journal.ts:182-208 | Whatever drain and live callbacks publish, no event is lost or repeated if and only if no listener served ahead publishes while the replay loop runs |
| `LiveSplice.ReentrantListenerLosesAnEvent` | apps/unclecode-server/src/event-journal.ts:186-206 | One replayed event and one listener served ahead that publishes again during the replay: the subscriber misses the event between |
| `LiveSplice.HeardIsFaithful` | apps/unclecode-server/src/event-journal.ts:86-88 | However publications nest, each is heard once, under its own id |
| `LiveSplice.HeardInOrder` | apps/unclecode-server/src/event-journal.ts:86-88 | A burst is heard in id order if and only if no listener served ahead publishes from its callback |
| `LiveSplice.DrainOrdered` | apps/unclecode-server/src/event-journal.ts:201-206 | The drain of a gap-free queue delivers in id order exactly when only its last callback publishes |
| `LedgerJournal.Subscription.OnEvent` | apps/unclecode-server/src/event-journal.ts:188-192 | Drops what the cursor covers, queues during the replay and delivers after it |
| `LedgerJournal.LedgerBackedEventJournal.PublishBurst` | apps/unclecode-server/src/event-journal.ts:155-158 | Each publication is appended to the ledger and heard by the subscription under the ledger's sequence number, nested publications included |
| `LedgerJournal.LedgerBackedEventJournal.ReplayRows` | apps/unclecode-server/src/event-journal.ts:193-200 | The loop delivers every replayed row and queues what its callbacks publish |
| `LedgerJournal.LedgerBackedEventJournal.DrainPending` | apps/unclecode-server/src/event-journal.ts:201-206 | The loop delivers the queue behind the replay, skipping what was delivered |
| `LedgerJournal.LedgerBackedEventJournal.SubscribeAfter` | apps/unclecode-server/src/event-journal.ts:182-208 | What the subscription delivers over the real ledger is the sequence SpliceIsExact speaks about; an expired cursor delivers nothing |
| `RegistryTheorems.CapacityIsNeverExceeded` | apps/unclecode-server/src/runtime-engine-rpc.ts:807-820 | Over every run attached sessions plus reservations never exceed the total limit, and a session is attached at most once |
| `RegistryTheorems.ReservedCreationsAttach` | apps/unclecode-server/src/runtime-engine-rpc.ts:539-607 | A creation holding a reservation is never refused for capacity when its factory delivers: it attaches, unless a teardown is quarantined |
| `RegistryTheorems.CapacityRefusalIsJustified` | apps/unclecode-server/src/runtime-engine-rpc.ts:814-830 | Refusal for capacity happens if and only if nothing is quarantined, the registry is full and every attachment is leased or busy; a refusal evicts nothing |
| `RegistryTheorems.OnlyIdleSessionsAreEvicted` | apps/unclecode-server/src/runtime-engine-rpc.ts:797-849 | No event ends an attachment that is leased or busy, except its own replacement, detach or disposal; a release never ends a busy one |
| `RegistryTheorems.LeastRecentlyTouchedGoFirst` | apps/unclecode-server/src/runtime-engine-rpc.ts:797-830 | Making room takes idle sessions in least-recently-touched order |
| `RegistryTheorems.SweepIsExact` | apps/unclecode-server/src/runtime-engine-rpc.ts:832-849 | A sweep removes exactly the idle attachments last used a time to live ago |
| `RegistryTheorems.AttachEnforcesIdleBound` | apps/unclecode-server/src/runtime-engine-rpc.ts:797-805 | After an attachment the idle bound holds or all others are leased or busy; no more is evicted than that takes, and never the session just attached |
| `RegistryTheorems.EachAttachmentIsTornDownAtMostOnce` | apps/unclecode-server/src/runtime-engine-rpc.ts:721-757 | Each engine is torn down at most once, and every engine made is attached or has had its disposal begun, never both |
| `RegistryTheorems.InventoryCoversTeardowns` | apps/unclecode-server/src/runtime-engine-rpc.ts:774-784 | The inventory holds at most 128 entries and, with the count of dropped ones, covers every teardown |
| `RegistrySteps.TrimsOne` | apps/unclecode-server/src/runtime-engine-rpc.ts:774-784 | Beyond 128 entries exactly one goes: the first completed one, without one the first failed, without either the first |
| `RegistrySteps.StepKeepsInv` | apps/unclecode-server/src/runtime-engine-rpc.ts:346-849 | Every event keeps the registry invariant |
| `RegistrySteps.RunsKeepInv` | apps/unclecode-server/src/runtime-engine-rpc.ts:346-849 | So does every run |
| `RegistrySteps.EvictFromFacts` | apps/unclecode-server/src/runtime-engine-rpc.ts:797-830 | What an eviction loop does: evictable entries leave oldest first, it stops as soon as enough have left, and otherwise nothing evictable remains |
| `RegistrySteps.MovedToEnd` | apps/unclecode-server/src/runtime-engine-rpc.ts:786-795 | A touch makes the session the newest and keeps the invariant |
| `RegistryHealth.UsedSessionsAreProtected` | apps/unclecode-server/src/runtime-engine-rpc.ts:786-795 | A used session is newest in order, its lease ends a time to live from now, and it is not idle until then |
| `RegistryHealth.ReleaseEndsLease` | apps/unclecode-server/src/runtime-engine-rpc.ts:616-624 | Releasing a busy session only ends its lease; releasing an idle one begins its teardown |
| `RegistryHealth.QuarantineStep` | apps/unclecode-server/src/runtime-engine-rpc.ts:743-765 | A teardown joins the quarantine exactly when it times out and leaves it only when it ends after all |
| `RegistryHealth.NoAdmissionWhileQuarantined` | apps/unclecode-server/src/runtime-engine-rpc.ts:814-820 | From a timed-out teardown until its end, no run admits a session that is not attached, and nothing is evicted for one |
| `RegistryHealth.CreationsAreCoalesced` | apps/unclecode-server/src/runtime-engine-rpc.ts:504-511 | While a creation is pending every further request for its session joins it or conflicts, by its fingerprint, and starts nothing |
| `RegistryHealth.InventoryIsTruthful` | apps/unclecode-server/src/runtime-engine-rpc.ts:725-757 | Over every run an inventory entry is pending exactly while its teardown is |
| `RegistryAnswers.AdmissionIsExact` | apps/unclecode-server/src/runtime-engine-rpc.ts:814-830 | In every reachable registry a session that is not attached is let in exactly when nothing is quarantined and a place is free or some attachment is neither leased nor busy; a refusal changes nothing |
| `RegistryAnswers.CreationIsExact` | apps/unclecode-server/src/runtime-engine-rpc.ts:504-537 | The answer for a session with no pending creation: Started exactly when the registry is not disposed, fewer than 256 creations are pending, and the session is attached, or there is no factory, or there is room; TooManyPending exactly at 256 or more; a started creation that needs a place holds its reservation |
| `RegistryAnswers.PendingIsBounded` | apps/unclecode-server/src/runtime-engine-rpc.ts:504-537 | Over every run at most 256 creations are pending |
| `RegistryAnswers.AttachmentIsExact` | apps/unclecode-server/src/runtime-engine-rpc.ts:354-391 | Attachment is refused exactly when the registry is disposed, or the session is new and there is no room, and a refusal changes nothing; otherwise the session is seated without a lease and every earlier attachment of it has had its teardown begun |
| `RegistryAnswers.DetachEnds` | apps/unclecode-server/src/runtime-engine-rpc.ts:388-390 | After a detach the attachment is gone and its teardown has begun |
| `RegistryAnswers.UnattachedBuildsAreDisposed` | apps/unclecode-server/src/runtime-engine-rpc.ts:557-607 | A build that resolves after disposal, or for a session attached meanwhile, or while a teardown is quarantined, is disposed of exactly once if it can be, attaches nothing, and its creation cannot end before that disposal |
| `RegistryAnswers.EndedCreationsGiveBack` | apps/unclecode-server/src/runtime-engine-rpc.ts:529-534 | A creation that ends is no longer pending and holds no place; every other creation and reservation stays |
| `RegistryAnswers.NoCreationIsStuck` | apps/unclecode-server/src/runtime-engine-rpc.ts:529-607 | A build that is rejected can end at once, one that resolves is no longer building, and one thrown away can end once its disposal ended or timed out |
| `RegistryAnswers.DisposalEndsAll` | apps/unclecode-server/src/runtime-engine-rpc.ts:635-639 | Disposal leaves nothing attached and begins the teardown of every attachment, busy or not |
| `RegistryAnswers.NothingAfterDisposal` | apps/unclecode-server/src/runtime-engine-rpc.ts:354-362 | After disposal no run attaches or starts anything |
| `RegistryAnswers.TeardownEndIsExact` | apps/unclecode-server/src/runtime-engine-rpc.ts:741-757 | A teardown that ends in time is listed as completed exactly when it was clean, else as failed; one that times out is listed as failed and quarantined; no other entry changes |
| `RuntimeEngineRegistry.LiveRuntimeEngineRegistry.constructor` | apps/unclecode-server/src/runtime-engine-rpc.ts:329-352 | The idle bound is the option but at least 1, or 256; the total is the option clamped to 1 and 2048, or the idle bound clamped to 256 and 2048; the time to live is the option but at least one second, or five minutes; the registry is empty |
| `RuntimeEngineRegistry.LiveRuntimeEngineRegistry.BoundCleanupInventory` | apps/unclecode-server/src/runtime-engine-rpc.ts:774-784 | The loop trims to the bound and counts what it drops |
| `RuntimeEngineRegistry.LiveRuntimeEngineRegistry.ScheduleTeardown` | apps/unclecode-server/src/runtime-engine-rpc.ts:721-757 | Retires an attachment once, unless it is busy and not forced |
| `RuntimeEngineRegistry.LiveRuntimeEngineRegistry.EnforceIdleBound` | apps/unclecode-server/src/runtime-engine-rpc.ts:797-805 | The loop is the eviction down to the idle bound |
| `RuntimeEngineRegistry.LiveRuntimeEngineRegistry.EvictIdleForTotalCapacity` | apps/unclecode-server/src/runtime-engine-rpc.ts:822-830 | The loop is the eviction down to one free place |
| `RuntimeEngineRegistry.LiveRuntimeEngineRegistry.SweepIdle` | apps/unclecode-server/src/runtime-engine-rpc.ts:832-849 | The loop is the sweep of expired sessions |
| `RuntimeEngineRegistry.LiveRuntimeEngineRegistry.NewSessionAdmissionError` | apps/unclecode-server/src/runtime-engine-rpc.ts:814-820 | Quarantine, room found, or at capacity |
| `RuntimeEngineRegistry.LiveRuntimeEngineRegistry.Attach` | apps/unclecode-server/src/runtime-engine-rpc.ts:354-391 | Replaces or admits, seats the session last and enforces the idle bound |
| `RuntimeEngineRegistry.LiveRuntimeEngineRegistry.Create` | apps/unclecode-server/src/runtime-engine-rpc.ts:504-537 | Joins, conflicts, refuses, or reserves and starts building |
| `RuntimeEngineRegistry.LiveRuntimeEngineRegistry.FactoryResolved` | apps/unclecode-server/src/runtime-engine-rpc.ts:539-607 | Attaches on the reservation, or disposes of the engine when disposed, raced or rejected |
| `RuntimeEngineRegistry.LiveRuntimeEngineRegistry.CreationEnded` | apps/unclecode-server/src/runtime-engine-rpc.ts:529-534 | Gives back the reservation and forgets the creation |
| `RuntimeEngineRegistry.LiveRuntimeEngineRegistry.Touch` | apps/unclecode-server/src/runtime-engine-rpc.ts:786-795 | Renews access time and lease and moves the session to the end |
| `RuntimeEngineRegistry.LiveRuntimeEngineRegistry.ReleaseSession` | apps/unclecode-server/src/runtime-engine-rpc.ts:616-624 | Ends the lease, and tears the session down when it is not busy |
| `RuntimeEngineRegistry.LiveRuntimeEngineRegistry.TeardownSettled` | apps/unclecode-server/src/runtime-engine-rpc.ts:741-757 | A teardown that ends in time is completed or failed |
| `RuntimeEngineRegistry.LiveRuntimeEngineRegistry.TeardownTimedOut` | apps/unclecode-server/src/runtime-engine-rpc.ts:746-757 | A teardown that times out is failed and quarantined |
| `RuntimeEngineRegistry.LiveRuntimeEngineRegistry.DisposeAll` | apps/unclecode-server/src/runtime-engine-rpc.ts:635-639 | The loop forces the teardown of every attachment |
| `RuntimeEngineRegistry.LiveRuntimeEngineRegistry.DisposalFinished` | apps/unclecode-server/src/runtime-engine-rpc.ts:662-666 | When disposal ends, however it went, pending creations and reservations are forgotten |
| `ClientFence.ShownRevisionNeverDecreases` | apps/unclecode-cli/src/remote-work-shell-engine.ts:120-156 | With responses in any order the accepted revisions never decrease, and what is shown is the state of the newest accepted response that carried one |
| `ClientFence.ReadsAtOneRevisionAscend` | apps/unclecode-cli/src/remote-work-shell-engine.ts:127-136 | Reads accepted at one revision have strictly increasing request numbers |
| `ClientFence.MutationsFenceEarlierReads` | apps/unclecode-cli/src/remote-work-shell-engine.ts:140-145 | A read issued before an accepted mutation response never overwrites the state at that revision afterwards |
| `ClientOrder.OrderedIffApart` | apps/unclecode-cli/src/remote-work-shell-engine.ts:126-156 | Whatever a server answers, the mutation responses whose state is shown at one revision are in request order in every run, if and only if no two invocations are accepted at one revision the client was not already past |
| `ClientOrder.ApartIsNeverShared` | apps/unclecode-cli/src/remote-work-shell-engine.ts:126-156 | With accepted revisions apart, no two mutation responses ever replace the shown state at one revision |
| `ClientOrder.LedgerKeepsResponsesApart` | apps/unclecode-server/src/runtime-engine-rpc.ts:998-1002 | The owner answers with the accepted revision of the receipt, receipts of one session hold pairwise distinct ones, and so no two responses to different keys are shown at one revision |
| `ClientFence.RevisionIsMonotone` | apps/unclecode-cli/src/remote-work-shell-engine.ts:138-140 | The client's revision never decreases over a run |
| `ClientFence.InvocationsAreBounded` | apps/unclecode-cli/src/remote-work-shell-engine.ts:213-267 | An invocation is sent at least once and at most four times, once only unless its method may be retried after a transport error or a conflict |
| `ClientFence.FinishedInvocationsStayFinished` | apps/unclecode-cli/src/remote-work-shell-engine.ts:237-258 | An invocation that was accepted, returned or thrown is never sent again |
| `ClientFence.RetriesNeverGoBack` | apps/unclecode-cli/src/remote-work-shell-engine.ts:219-264 | Every request has its own number, and a retry expects no older revision than the try before and none the client does not know |
| `ClientFence.StepKeepsInv` | apps/unclecode-cli/src/remote-work-shell-engine.ts:120-267 | Every event keeps counters, fences and the log of accepted responses in agreement |
| `ClientSends.EveryRequestCarriesItsRevision` | apps/unclecode-cli/src/remote-work-shell-engine.ts:213-264 | Over all runs the first request of an invocation carries the client's revision at the moment it was invoked, a repeat after a transport error the revision of the request it repeats, a repeat after a conflict the client's revision right after the read that answered the conflict |
| `ClientShows.ReadsAreShownIffNews` | apps/unclecode-cli/src/remote-work-shell-engine.ts:126-156 | In every reachable state a read is shown exactly when no shown response is of a later revision and either all are of earlier ones or it was issued after every shown request and after every shown mutation response had arrived |
| `ClientShows.MutationsAreShownIffNotOlder` | apps/unclecode-cli/src/remote-work-shell-engine.ts:126-156 | A mutation response with a state is shown exactly when no shown response is of a later revision |
| `ClientShows.NoticesAreExact` | apps/unclecode-cli/src/remote-work-shell-engine.ts:126-156 | Listeners are told of a read exactly when it is news and differs from what is shown, and of a mutation response exactly when it is not older; what is shown changes only with a notice |
| `ClientShows.FirstFailuresAreFollowed` | apps/unclecode-cli/src/remote-work-shell-engine.ts:222-264 | A first request that is lost is sent again exactly when its method may be repeated after a transport error and nobody aborted it; one refused for a conflict is followed by a read exactly when its method may be repeated after a conflict; otherwise the invocation throws |
| `ClientShows.ConflictsAreRetried` | apps/unclecode-cli/src/remote-work-shell-engine.ts:253-264 | The read after a conflict is followed by the request again unless it could not be made at all; a repeat that is lost may be repeated once, and a second conflict throws |
| `ClientShows.AcceptedNeverThrows` | apps/unclecode-cli/src/remote-work-shell-engine.ts:240-252 | Over every run an accepted invocation never turns into a failure, whatever happens to the read that follows |
| `ClientShows.AcceptanceIsFollowed` | apps/unclecode-cli/src/remote-work-shell-engine.ts:237-252 | An accepted answer with a state returns at once, one without issues the read that shows what it led to |
| `RemoteWorkShellEngine.RemoteWorkShellEngine.Publish` | apps/unclecode-cli/src/remote-work-shell-engine.ts:120-154 | The three counters, the state and the notification after a response, as ClientFence says; the shown state changes exactly with a notification |
| `RemoteWorkShellEngine.RemoteWorkShellEngine.AcceptReceipt` | apps/unclecode-cli/src/remote-work-shell-engine.ts:240-249 | A mutation accepted without state raises the fences and issues the read that follows |
| `RemoteWorkShellEngine.RemoteWorkShellEngine.IssueRequest` | apps/unclecode-cli/src/remote-work-shell-engine.ts:158-159 | Each request takes the next number |
| `SseTheorems.StreamRoundTrip` | apps/godness-web/src/control-room-store.js:45-71 | Any sequence of events with interleaved heartbeats, printed, cut into any chunks and fed to the reading loop, comes back exactly, unless a buffer outgrew the limit |
| `SseTheorems.FittingStreamsNeverFail` | apps/godness-web/src/control-room-store.js:370-374 | If the longest printed piece and the longest chunk together fit the limit, the stream is never given up |
| `SseTheorems.ChunkingDoesNotMatter` | apps/godness-web/src/control-room-store.js:366-374 | For any text in which no CR stands before a CR LF, every cutting gives the frames and the rest of the whole text |
| `SseCuts.SeamlessIff` | apps/godness-web/src/control-room-store.js:45-71 | Cutting a text after u gives the blocks and the rest of the uncut text, whatever follows, if and only if what u leaves over holds no CR LF |
| `SseCuts.CutsDoNotMatterIff` | apps/godness-web/src/control-room-store.js:45-71 | Every way to cut a text into chunks gives the blocks and the rest of the whole if and only if no CR stands before a CR LF in it |
| `SseTheorems.ReaderFollowsCuts` | apps/godness-web/src/control-room-store.js:366-380 | The reading loop parses exactly the blocks the cut text falls into, and keeps its rest |
| `SseTheorems.ChunkingMattersAfterDoubleCR` | apps/godness-web/src/control-room-store.js:46 | The smallest witness: a text whose parse has no block boundary gains one when cut after its CR CR LF |
| `SseText.CleanIff` | apps/godness-web/src/control-room-store.js:46 | Normalizing leaves a CR LF if and only if a CR stood before one |
| `SseTheorems.ParseAppend` | apps/godness-web/src/control-room-store.js:45-71 | Parsing the rest together with more text is parsing the whole |
| `SseTheorems.AscendingStreamIsSeenOnce` | apps/godness-web/src/control-room-store.js:375-380 | With ascending ids above the cursor every event moves the cursor once and the cursor ends at the last |
| `SseTheorems.ProgressAscends` | apps/godness-web/src/control-room-store.js:375-380 | Whatever arrives, the cursor only moves forward, once per id |
| `EndToEnd.Serve` | apps/unclecode-server/src/index.ts:494-514 | What the responses to a subscription's calls write is the frames of the rows heard, in order, up to the first write that stalls |
| `EndToEnd.JournalReachesBrowser` | apps/godness-web/src/control-room-store.js:362-380 | A browser that connects with a cursor to an orderly journal subscription has read, when the connection breaks off anywhere, the events right after its cursor, each once, in order, with name and data, and its cursor stands at the last of them; if everything arrived, these are all events |
| `EndToEnd.ReconnectionsLoseNothing` | apps/godness-web/src/control-room-store.js:362-400 | Over any number of connections, broken off anywhere and resumed at the cursor, the browser reads every event between its first and its last cursor exactly once, in order, with name and data |
| `SseTheorems.FrameParses` | apps/unclecode-server/src/index.ts:537-539 | The three lines printed for an event parse back to that event |
| `SseTheorems.PieceParses` | apps/unclecode-server/src/index.ts:526-539 | A printed event is one block that parses to it; a heartbeat is one block that parses to nothing |
| `Sse.ParseSseFrames` | apps/godness-web/src/control-room-store.js:45-71 | The nested loops compute the frames of the complete blocks and the unfinished rest |
| `Sse.ParseFields` | apps/godness-web/src/control-room-store.js:52-62 | The last valid id line, the last event line and all data lines of a block |
| `Sse.EventReader.Receive` | apps/godness-web/src/control-room-store.js:370-380 | One chunk: overflow ends the stream, otherwise frames are taken and the cursor advances |
| `Sse.EventReader.Advance` | apps/godness-web/src/control-room-store.js:375-380 | The loop over the frames moves the cursor to each greater id and asks for one refresh per move |
| `Sse.EventStreamResponse.OnEvent` | apps/unclecode-server/src/index.ts:492-499 | Before the headers an event is held back, afterwards it is written; order and number of events heard are kept |
| `Sse.EventStreamResponse.StartStreaming` | apps/unclecode-server/src/index.ts:506-514 | What was held back is written in order; unless a write stalls nothing remains, and a stalled one closes the response |
| `SseText.SplitAppend` | apps/godness-web/src/control-room-store.js:47-48 | Splitting at empty lines from left to right commutes with appending text |
| `SseText.NormalizeTwice` | apps/godness-web/src/control-room-store.js:46 | Normalizing line ends before more text arrives changes nothing in the end, if and only if no CR stood before a CR LF |
| `SseText.DecimalReadsBack` | apps/godness-web/src/control-room-store.js:55-57 | A printed id matches the accepted numeral form and reads back as itself |
| `SseBlocks.BlockGivesFrameIff` | apps/godness-web/src/control-room-store.js:50-69 | A block gives a frame exactly when it is no comment, its last id line that holds a printed number holds one of at most 9007199254740991, it has data lines and these, joined, decode; the frame has that id, the name on the last event line or message, and what was decoded |
| `SseBlocks.FieldsAre` | apps/godness-web/src/control-room-store.js:51-62 | The fields of a block are the last printed number on an id line, the trimmed name on the last event line, and the texts of all data lines in order |
| `SseBlocks.NumeralIff` | apps/godness-web/src/control-room-store.js:55-57 | The accepted numerals are exactly the printed natural numbers |
| `SseBlocks.TrimIs` | apps/godness-web/src/control-room-store.js:56 | Trimming takes white space off both ends, and all of it |
| `SseBlocks.GivenUpIff` | apps/godness-web/src/control-room-store.js:366-380 | For texts without a CR before a CR LF a stream is given up exactly when some chunk and the unfinished block before it are together longer than 1048576 characters; the frames read are then those before the first such chunk |
| `ToolTurn.SliceIsPaired` | shared/openaiResponsesCompat.js:117-201 | The result is a filtered suffix whose calls and outputs carry the same ids, and a second pairing pass changes nothing |
| `ToolTurn.CoveredBlocksSurvive` | shared/openaiResponsesCompat.js:137-174 | When every output of the last contiguous block has an earlier call, the block survives whole with its calls, from the nearest message before the earliest of the needed latest calls, or without such a message from the first call with an id of the block |
| `ToolTurn.UncoveredBlocksStartAtMessage` | shared/openaiResponsesCompat.js:164-172 | Otherwise the slice starts at the nearest message before the block, or without one at the first call with an id of the block, or at the block |
| `ToolTurn.NoOutputNoTurn` | shared/openaiResponsesCompat.js:133-135 | Without an output nothing is cut off and only the calls go |
| `ToolTurn.SurvivesIffPartnered` | shared/openaiResponsesCompat.js:177-201 | Every occurrence of an item survives or none, by whether its partner is present |
| `ToolTurn.PairingIsIdempotent` | shared/openaiResponsesCompat.js:177-201 | A second pairing pass changes nothing |
| `ToolTurn.PairedIds` | shared/openaiResponsesCompat.js:178-200 | After pairing calls and outputs carry exactly the ids that had both |
| `ToolTurn.NeededIsEarliestOfLatest` | shared/openaiResponsesCompat.js:144-162 | The backward scan stops needing calls exactly at the earliest of the latest calls of the block's ids |
| `ToolTurn.FindBlockStart` | shared/openaiResponsesCompat.js:119-131 | The loop finds the start of the last contiguous block of outputs |
| `ToolTurn.ScanToCalls` | shared/openaiResponsesCompat.js:145-162 | The loop with the shrinking set finds the message before the needed calls, else the first call with a needed id, and the ids left over |
| `ToolTurn.ScanToMessage` | shared/openaiResponsesCompat.js:164-172 | The loop finds the nearest message before the block |
| `ToolTurn.SliceResponsesInputToLatestToolTurn` | shared/openaiResponsesCompat.js:117-175 | The whole function equals the specified slice |
| `ContextActions.ReplayMatchesStack` | apps/unclecode-cli/src/work-runtime-context-ledger.ts:81-117 | After any mix of successful and failed actions and undos, replaying the receipt log gives the live undo stack entry for entry, and a source is protected if and only if its last live action pinned or included it |
| `ContextActions.UndoneActionsLeaveNoTrace` | apps/unclecode-cli/src/work-runtime-crp.ts:499-605 | A run that never undoes below its start and ends at the same height leaves the protected set as it was |
| `ContextActions.ActionThenUndo` | apps/unclecode-cli/src/work-runtime-crp.ts:552-605 | An action and its undo leave stack and protected set unchanged, whatever other undone work and failed undos lie between |
| `ContextActions.ReceiptIdsAreUnique` | apps/unclecode-cli/src/work-runtime-crp.ts:316-318 | The receipts reported over a run, failed undos included, are numbered 1, 2, 3 and so on, and the log keeps exactly those that succeeded |
| `ContextActions.StepAgrees` | apps/unclecode-cli/src/work-runtime-crp.ts:499-605 | Every call keeps log and stack in agreement |
| `ContextActions.ProtectedByNewest` | apps/unclecode-cli/src/work-runtime-context-ledger.ts:109-116 | The set built by adding and deleting holds exactly the sources whose newest event protects |
| `ContextActions.DeriveProtectedSourceIds` | apps/unclecode-cli/src/work-runtime-context-ledger.ts:81-117 | The loops with push, splice, add and delete compute that set for any receipt log |
| `ContextActions.ActionIsExact` | apps/unclecode-cli/src/work-runtime-crp.ts:499-550 | After any run an action takes exactly when the store shows the source before and after it; it then puts on the stack the one entry that tells how to undo it, under its normalized name, and protects the source exactly if it pinned or included it; every other source stays |
| `ContextActions.UndoIsExact` | apps/unclecode-cli/src/work-runtime-crp.ts:552-605 | After any run an undo takes the newest entry off exactly when the store then shows the source included as before that action; otherwise stack and log stay and a failed receipt is reported, or nothing with an empty stack; a receipt says another undo is possible exactly when an entry is left |
| `ContextActions.ContextSourceActions.MutateContextSource` | apps/unclecode-cli/src/work-runtime-crp.ts:499-550 | Pushes an undo entry and a receipt when the store shows the source before and after, otherwise changes nothing |
| `ContextActions.ContextSourceActions.UndoLastContextSourceAction` | apps/unclecode-cli/src/work-runtime-crp.ts:552-605 | Pops and logs only when the store confirms the restoration; a failed attempt only uses up a receipt number |
| `ContextActions.ContextSourceActions.ProtectedSourceIds` | apps/unclecode-cli/src/work-runtime-context-ledger.ts:81-117 | The protected set is the one fixed by the live stack |
| `CanonicalJson.FingerprintsDecideEquality` | apps/unclecode-server/src/runtime-ledger.ts:886-927 | Two accepted values have the same fingerprint if and only if they are equal up to key order, with -0 as 0, leaving out every member named __proto__ |
| `CanonicalJson.FingerprintsAreExact` | apps/unclecode-server/src/runtime-ledger.ts:886-927 | For values without such a member, if and only if they are equal up to key order with -0 as 0 |
| `CanonicalJson.CollisionIffProto` | apps/unclecode-server/src/runtime-ledger.ts:908-915 | A value shares its fingerprint with its canonical form, and the two are equal values if and only if no member is named __proto__ |
| `CanonicalJson.ProtoCollides` | apps/unclecode-server/src/runtime-ledger.ts:908-915 | The empty object and an object with one member named __proto__ have the same fingerprint |
| `CanonicalJson.AcceptedIff` | apps/unclecode-server/src/runtime-ledger.ts:886-927 | A value is turned away exactly when some part of it is not JSON, or its canonical text has more UTF-8 bytes than the limit |
| `CanonicalJson.CanonicalIsIdempotent` | apps/unclecode-server/src/runtime-ledger.ts:888-921 | Canonicalizing twice is canonicalizing once |
| `CanonicalJson.CanonicalDecidesEquality` | apps/unclecode-server/src/runtime-ledger.ts:888-921 | Canonical forms coincide exactly for equal values |
| `CanonicalJson.SortIsCanonical` | apps/unclecode-server/src/runtime-ledger.ts:909 | Two member lists with distinct keys sort alike exactly when they have the same members |
| `JsonText.PrintedIsUnambiguous` | apps/unclecode-server/src/runtime-ledger.ts:922 | Two values whose printed texts agree, each followed by something that may follow a value, are the same value |
| `JsonText.EscapedIsUnambiguous` | apps/unclecode-server/src/runtime-ledger.ts:922 | Escaped string text, surrogate pairs and lone surrogates included, ends where it ends and determines the string |

## Left out

- SQLite, WAL, schema migration, file permissions and identifier bounds: tables are maps, transactions are atomic steps.
- The arbiter without a ledger, and its `persistAcceptedRevision` mode, which writes the clock after an await.
- `settle`, abort signals, timers and retry delays: time only appears as a parameter; no latency is claimed.
- Callbacks `onAdmitted`, `complete` and `fail` are taken not to throw, and only the arbiter writes its session's clock.
- ArbiterTheorems.ClockFollowsLedger: assumes at most one live arbiter per session; with two on one session a clock can lag behind the ledger until its next admission.
- ArbiterReplay.JoinedMutationsReplay: assumes one live arbiter per session up to the join, as the registry provides; `ArbiterDoubled.JoinedBehindASecondArbiter` shows what a second one would do.
- ArbiterSerial.AdmissionsAreSerial: assumes one live arbiter per session, as ClockFollowsLedger does; so do the answers in ArbiterAnswers that name the durable revision.
- USD counters and their overflow check: token counters only; `snapshotUsageTotals` is a projection of the four tables.
- Subscriptions started inside a fan-out and `unsubscribe` during one.
- LedgerJournal.LedgerBackedEventJournal.SubscribeAfter: follows one subscription; other listeners appear only through what they publish.
- The ring journal inside the ledger-backed one is represented by its fan-out alone, which is all `subscribeAfter` uses.
- `createReceipts` of the registry (replies remembered by idempotency key), `list`, `systemSnapshot` and descriptors.
- Engine callbacks during teardown are taken not to call back into the registry; `engine.subscribe` is taken not to throw.
- RegistryTheorems.LeastRecentlyTouchedGoFirst: recency is the order of touches, kept as a number beside the clock reading, so that no assumption about the clock is needed.
- Validation of decision and steering arguments in `invoke` of the registry, and the choice of lane and callbacks for each method.
- Polling, reconnection, local projections and the invocation tail of the client; several reads and invocations may be in flight in any order.
- EndToEnd.ReconnectionsLoseNothing: reconnections that resume at the cursor; a cursor the server calls expired makes the store reload and start over at 0, which is not followed, nor are its connection states.
- Sse.EventReader.Receive: buffer lengths are counted in characters of the model, the source's limit of 1048576 in UTF-16 units; outside the basic plane one character is two units.
- ClientOrder.LedgerKeepsResponsesApart: responses with a state are the general case of the client; the accepted responses of this server carry none, and the state then comes from the read that follows.
- Sse.ParseSseFrames: an id too large for a double is compared exactly; the source rounds it first, and both reject it.
- SseTheorems.StreamRoundTrip: JSON is a codec whose text is one line, does not start with white space and decodes to the value; event names are trimmed and of one line.
- Event ids that are not positive safe integers, which `publishRecorded` of the ring journal rejects.
- A `toolTurn` input that is not an array, which the source treats as empty.
- The store behind context sources: what it shows before and after a call is a parameter. Labels and messages of receipts are not modelled.
- CanonicalJson.FingerprintsDecideEquality: values are trees, so the check for cycles never fires, and arrays have no holes; symbol keys, getters and non-enumerable members are outside the model.
- Numbers in JSON are known by their shortest decimal text, whose computation is not part of this model.
- Lease and lock discovery, error redaction, observability, HTTP routing, authentication and provider agents.
