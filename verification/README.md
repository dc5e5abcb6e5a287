# Verification of the assistant runtime's session, turn and scheduling core

A Dafny model of how the assistant runtime keeps a conversation, and proofs about it. A session
is a tree of messages with a cached root-to-leaf path. A turn may stop at a batch of host-tool calls
that are answered one at a time, superseded, cancelled, or repaired after a restart. Steering is queued
while a turn runs and delivered with a model request. Turns, host writes, voice calls and
administrative changes share a session; background jobs and persistent agents share a scheduler.

`dafny verify dfyconfig.toml` checks everything.

## How it is modelled

Protocols whose guarantees hold at every interruption are transition systems on values: a state, an
`Event` type, `Enabled`, `Next`, and `Runs` over any sequence of events. Each has an invariant, a
`StepIsSafe` lemma, and main results over every run.

- `HostActions` has one durable write per step, and a crash, an eviction or a reload may fall
  between any two. The agent run is a step that returns any new messages and any ending its contract allows.
- `SessionRepairs` puts the two writes of an administrative repair beside them, anywhere in a turn, and the
  cancellation of a message's plan between two of its writes.
- `PlanCuts` has that cancellation fall inside a write. It keeps the session in memory and the stored rows apart,
  because the store may then have what memory has not, or the other way round.
- `SteeringDelivery` takes steering records through the same interruptions; queueing and acknowledging may be
  cancelled between the store and the memory.
- `TurnSlots` has one step per piece of code between two awaits, of any number of tasks in one session.
- `BackgroundRunner` has one step per piece of a worker and of a stop, with every kind of cancellation, that of a
  canceller included; the publication of an end is a step of its own.
- `Usage` and `ChangeCursors` interleave writers and readers.

Objects that the runtime changes in place are classes: `Context` (the session context and its rows),
`SteeringStore`, `TurnPolicy`, `RunSnapshot`, `Cache`, `Service`, `BackgroundTurnRunner` and
`EventCoordinator`. Their methods are proved against the functions the transition systems use, so
what is proved of a system is proved of what the methods do. Loops are loops: building segments,
expanding a row, repairing and superseding calls, walking parents, eviction, merging usage, the
screenshot search and the migration.

| file | what it holds |
|---|---|
| `Transcript`, `RowMessages`, `RoundTrip` | segments, model messages, and the printer and parser between them |
| `CallResults`, `ResolvedReturns`, `SessionRows` | the results of calls in both forms; superseding, repairing and closing |
| `HostActions`, `HostActionInvariant`, `HostActionSafety`, `HostActionRuns`, `HostActionSteps`, `HostActionTheorems`, `HostActionTree`, `HostActionNames`, `HostActionOutcomes`, `RunSnapshots` | pending host actions with crash and reload: safety, the tree, the names, and what each start and end of a turn comes to |
| `SessionRepairs`, `SessionRepairShapes`, `SessionRepairSafety`, `SessionRepairSteps`, `SessionRepairHarm`, `SessionRepairRuns` | the same with repairs during a turn: when they do harm, and that they then do |
| `PlanCuts`, `PlanCutSafety`, `PlanCutHarm`, `PlanCutRuns` | the same with plans cancelled inside a write: when a cut does harm, and that it then does |
| `SessionTree`, `SessionContext` | the message tree, its index, child lists and cached path |
| `SteeringQueue`, `SteeringDelivery` | steering, from the queue to the stored history |
| `TurnSlots`, `StreamingService`, `SessionCache` | who may use a session; pins and eviction |
| `BackgroundRunner`, `BackgroundEnds`, `BackgroundStatus`, `BackgroundProgress`, `TurnRunnerTables` | the scheduler of background turns, what an end and a stop promise, the status a job ends with, and that every job ends |
| `TurnEvents` | the events of one turn |
| `Usage`, `ChangeCursors`, `GuidanceMigration`, `ScreenshotSearch` | accounting, paging, the migration, the search |

## What is assumed

- A store or database write is one atomic step that succeeds. So is the update of a job's record, and the
  write of all the rows a repair changes. What is cancelled inside a write is a plan of a message turn (`PlanCuts`),
  the queueing of steering and the acknowledgement of a request (`SteeringDelivery`): a turn's snapshots and the
  writes around a pending action run in its own task, which a stop does not cancel
  (`streaming/_control.py:32-40`). A call-off, a host message and a repair are taken to run through, as is a
  load; a message already stored is refused by the store.
- A stored row of `PlanCuts` is later than those stored before it.
- Call ids are distinct within a row, and a new message's id is new (a taken one is refused).
- In `HostActions` every new row is stamped later than the rows before it: a user or host message by the
  time it arrives, a reply by the time of its first response (`streaming/_snapshot.py:170-197`), which is
  earlier than the write of its row. Clocks that step back are not excluded by the runtime. Where stamps decide
  something, the exact condition is proved for any stamps (`NewestLeafIsLast`, `Context.Load`).
- A run's messages obey `RunContract` of `HostActions`: the calls of the row and of the run have distinct ids;
  a result is returned once, to a call that has none, except that the run may repeat the accepted result as it
  was accepted; it retries only calls of its own, and only without a result.
- A run ends as `EndingContract` says. Deferred: the batch is the open calls in call order, under the name of the
  first; those still open from
  before are all in it or none is; for the host's own tools it is one call. Rejected: of the calls open before,
  all stay open or none does. Replied: no call is open, and a run for the host's own tools asks for no more.
- Tool outputs are already in the form in which they are stored. Costs are reals.
- The ids under which steering is handed to a run are new, and a steering request stays a message of its own.

## What the code does not do

These came out of the proofs. Each is stated as a lemma, with its exact condition where there is one.

- A call answered by a retry prompt gets no return in the messages. A repair marks its entry as unknown,
  and the next rebuild of the segments forgets it (`RepairSurvivesRebuild`, `RetriedRepairIsForgotten`).
  The finality results therefore leave such calls out.
- A repair may fall into a running turn, because it only looks at mutations and leases. It then does harm exactly
  in the cases `SessionRepairs.Harmful` lists (`RepairIsRightExactly`): a later snapshot replaces the unknown
  result it recorded (`RepairedResultIsReplaced`), or a call it answered is set pending (`PendingCallIsAnswered`).
  The main results of `HostActionTheorems` hold over every run without such a repair, `Careful`.
- The plan of a message may be cancelled, by a stop or by the next message. Between its writes that is harmless.
  Inside a write it does harm exactly in the cases `PlanCuts.Tears` lists (`CutIsRightExactly`): the stored result of
  a superseded call is replaced by the host's answer (`SupersededResultIsReplaced`), an action stays on its row
  that memory has dropped (`ClearCutIsForgotten`), or a message is stored behind a reply that a turn then goes on
  from (`CreateCutHarms`). `SupersedeCutHappens`, `ClearCutHappens` and `CreateCutHappens` are runs from an empty
  session.
- A crash after steering was acknowledged and before it was saved loses that steering, and nothing else does
  (`LostExactly`, `MessageIsLost`); without a crash nothing is lost (`NothingLost`). When the run is cut inside the
  acknowledgement, that time lasts until the record was sent again (`CrashLosesCut`).
- Steering whose queueing is cancelled after it was stored waits unseen until the next load (`HiddenExactly`,
  `CutMessageIsHidden`).
- The delete and repair routes mark a mutation without the admission lock. A host write that has made its
  check is admitted beside them (`HostWriteBesideRoute`), and beside nothing else (`HostWriteOverlapsExactly`).
- A text delta that hits the event limit is not sent, but stays in the accumulated response (`ResponseIsStreamed`,
  `TextIsLost`).
- A stop of an agent waits for the publication of an end it found still to come, not of one just recorded
  (`StopAwaitsPublication`, `StopReturnsFirst`). A second stop waits for nothing (`SecondStop`,
  `SecondStopReturnsFirst`).
- Cancelling a task that awaits a worker it cancelled cuts off the publication of that worker's end, for good;
  nothing else does (`EndedExactlyOnce`, `CancelledCancellerCuts`).
- A job that was cancelled before its worker's first step is recorded by whoever awaits the worker first: by a
  shutdown as interrupted, even when its cancellation was asked for (`EndedAs`, `ShutDownFirst`).
- The migration leaves a message on a deleted row when the guidance above it only continues from
  guidance (`SurvivorsPointAtSurvivors`, `CycleDangles`).
- A change whose stamp is not after a reader's cursor is never read (`StaleStampIsMissed`).
- Adjacent groups of calls are merged when a row is read back (`RoundTrips`).

## Model

| member | source | states |
|---|---|---|
| SessionRepairSteps.RepairStepIsSafe | src/assistant_runtime/app/streaming/_runner.py:127-172 | every step but a repair that does harm (a write, a crash, an eviction, a load that stops half way, a reload, the end of a run, the start of a job, a plan cancelled at one of its writes, either write of a repair) keeps the invariant: the two forms of every row agree, and an action that would be restored is on the active leaf with the answered calls of its batch as a prefix |
| HostActionTheorems.RunIsSafe | src/assistant_runtime/app/streaming/_runner.py:474-492 | the invariant holds after every run of steps in which no repair does harm, so at every write point of every turn |
| HostActionTheorems.SessionBegins | src/assistant_runtime/app/assistant/_session_store.py:884-909 | rows that agree, without a stored action, are safe to begin from; an empty session is one |
| HostActionTheorems.CrashSafety | src/assistant_runtime/app/assistant/_session_store.py:853-881 | after a crash at any write of any such run, a reload leaves unanswered only calls of the restored batch, and none without a restored action; a restored action is on the active leaf, its call is unanswered, the calls of its batch before it are answered and exactly those from it on are open |
| HostActionTheorems.ResultsAreFinal | src/assistant_runtime/app/streaming/_snapshot.py:123-237 | over every such run, with any crashes, reloads and repairs, each row keeps its calls in order, and each result its output and outcome |
| HostActionTheorems.EntryIsFinal | src/assistant_runtime/app/streaming/_host_tool.py:113-135 | the displayed entry of an answered call keeps its output and outcome forever, the status label aside, unless a retry prompt answered it |
| HostActionTheorems.BatchProtocol | src/assistant_runtime/app/streaming/_turn.py:312-331 | in every state reached by such a run, plans cancelled between their writes included, in which neither a job nor a repair is in progress memory and row agree on the pending action, its call is the first unanswered one of its batch in call order, and nothing else in the session is open; for plans cancelled inside a write see `PlanCutSafety.CutRunIsRight` |
| HostActionTheorems.NeverOfferedAgain | src/assistant_runtime/app/streaming/_turn.py:230-240 | a call that has a result is never the pending call of its row again |
| HostActionTheorems.ModelResumesWhenAnswered | src/assistant_runtime/app/streaming/_turn.py:354-358 | the model runs for a continuation only when every call of the row has a result or a retry prompt |
| HostActionTheorems.AcceptedResultOnce | src/assistant_runtime/app/streaming/_snapshot.py:131-142 | however a continuation goes on, what would be stored has the accepted result as exactly one return |
| HostActionTheorems.AcceptedResultIsWritten | src/assistant_runtime/app/streaming/_runner.py:130-133 | every row a continuation writes, also the one that closes a cancelled turn, holds the accepted result exactly once |
| HostActionTheorems.ContinuationAnswersOne | src/assistant_runtime/app/streaming/_runner.py:130-171 | an accepted continuation adds exactly its own result to the pending row, and leaves open exactly the rest of the batch: then the next call is pending under the name it has on the row, in memory and on the row, or nothing is and the model resumes, except for the host's own calls |
| HostActionTheorems.PendingIsAccepted | src/assistant_runtime/app/streaming/_turn.py:230-271 | a continuation for the pending call of a session at rest is never refused as recorded or unknown |
| HostActionNames.PendingIsNamed | src/assistant_runtime/app/streaming/_turn.py:323-331 | over every run in which no repair does harm, from a session whose names are right, which one without a pending action is: what is pending, in memory or on the row, is a call of its row by its id and by the name of its tool |
| HostActionNames.AcceptedIsNamed | src/assistant_runtime/app/streaming/_turn.py:365-376 | and an accepted result, while the turn stores it as it was accepted, is a return of a call of its row under that call's own name |
| HostActionNames.InterruptedNamed | src/assistant_runtime/app/streaming/_snapshot.py:215-237 | an interrupted return names the tool of the call it closes |
| HostActionNames.ResolvedNamed | src/assistant_runtime/app/assistant/_stale_tools.py:74-109 | so does a return that repeats what only the segments recorded |
| HostActionOutcomes.RunEndsAs | src/assistant_runtime/app/streaming/_runner.py:232-442 | what the end of a run comes to once its writes are made: deferred calls are pending under the first of them and its name; after a reply nothing is, and the model goes on exactly if steering waits and nobody cancelled; a cancelled, refused or broken turn is closed, labelled cancelled, and pends nothing; an error before any message changes nothing; the row holds the turn's messages, their text and their segments, and no other row changes |
| HostActionOutcomes.MessageBegins | src/assistant_runtime/app/assistant/_session_store.py:164-186 | a message, once its plan is written: what was pending has the superseded result and is not pending any more, the message continues from the one it names or else from the newest, and its turn waits for the model with nothing in it |
| HostActionOutcomes.ContinuationBegins | src/assistant_runtime/app/streaming/_turn.py:340-380 | a continuation begins with the row's messages and the host's result as one return, and first saves them and clears the action |
| HostActionOutcomes.SteerGoesOn | src/assistant_runtime/app/streaming/_turn.py:404-425 | waiting steering goes on from a reply that is the newest message on that row, and after any other message in a new reply to it |
| HostActionOutcomes.HostMessageAppends | src/assistant_runtime/app/assistant/_session_store.py:309-342 | a host message is appended at the newest message and starts nothing |
| HostActionOutcomes.CallOffAbandons | src/assistant_runtime/app/streaming/_host_tool.py:40-68 | a call-off gives the pending call its result, by the status it names, leaves nothing pending and starts nothing |
| HostActionOutcomes.RecordedIsRefused | src/assistant_runtime/app/streaming/_turn.py:230-271 | a continuation for a call whose entry on its row has an output is refused |
| SessionRepairHarm.RepairIsRightExactly | src/assistant_runtime/app/routes/sessions.py:333-351 | exactly when a repair may finish, in every state reached without earlier harm: results stay final, and the batch protocol holds at rest, over every run from then on without a further repair that does harm, if and only if this one does none; it does when a call is pending, when the turn is about to set calls pending that it has saved, or when the turn has still to write its row and holds another result, or none, for a call that the repair answers on it |
| SessionRepairHarm.HarmIsReal | src/assistant_runtime/app/streaming/interface.py:185-202 | after every repair that does harm there is a run without another repair that changes a recorded result or leaves an answered call pending |
| SessionRepairRuns.PendingCallIsAnswered | src/assistant_runtime/app/assistant/_session_store.py:766-803 | from an empty session: a repair between the row of a turn that asks for a host call and its pending action leaves that call pending with the unknown result on its row |
| SessionRepairRuns.RepairedResultIsReplaced | src/assistant_runtime/app/assistant/_session_store.py:766-803 | from an empty session: the unknown result that a repair records between two snapshots of a turn becomes an interrupted one |
| PlanCutSafety.CutStepIsSafe | src/assistant_runtime/app/streaming/_control.py:46-63 | every step of a session and of its stored rows keeps them in step, a cancellation inside a write included, unless the cut tears them apart or a repair does harm: what memory has is what is stored without the messages it does not know, and those are never the newest after a reply |
| PlanCutSafety.CutRunIsRight | src/assistant_runtime/app/assistant/_session_store.py:755-763 | over every run with plans cancelled between or inside their writes, in which no cut tears memory and rows apart and no repair does harm: stored results are final, and at rest the stored rows are those of a session that waits for the action memory has and for nothing else |
| PlanCutHarm.CutIsRightExactly | src/assistant_runtime/app/streaming/_control.py:32-40 | exactly when a plan may be cancelled inside a write, in every state reached so: the two promises of `CutRunIsRight` hold over every later run without tearing if and only if this cut does not tear; it does inside the write that supersedes a batch that is still open, inside every write that clears the action, and inside the write of a message that follows a reply |
| PlanCutHarm.SupersedeCutHarms | src/assistant_runtime/app/assistant/_session_store.py:410-423 | after a cut inside the write that supersedes an open batch some later run, without another such cut or a harmful repair, breaks a promise of `CutRunIsRight`; the proof gives the run: the host answers the call that memory still offers, or the repair in progress is finished |
| PlanCutHarm.ClearCutIsForgotten | src/assistant_runtime/app/assistant/_session_store.py:740-764 | cut inside the write that clears the action, the row keeps an action that memory has dropped; the next load drops it too and finds every call answered, with every stored result kept |
| PlanCutHarm.CreateCutHarms | src/assistant_runtime/app/assistant/_session_store.py:228-247 | after a cut inside the write of a message that follows a reply some later run breaks a promise; the proof gives the run: a turn goes on from that reply, calls the host, and after a restart the pending call is not on the newest message |
| PlanCutRuns.SupersedeCutHappens | src/assistant_runtime/app/streaming/interface.py:531-534 | from an empty session: a host call is pending, the next message arrives, and its plan is cancelled inside its first write; a later run breaks a promise |
| PlanCutRuns.SupersededResultIsReplaced | src/assistant_runtime/app/assistant/_session_store.py:410-423 | in that run the stored result says the call was superseded, and the host's answer is then accepted and stored in its place |
| PlanCutRuns.ClearCutHappens | src/assistant_runtime/app/assistant/_session_store.py:755-763 | the same inside its second write, which clears the action |
| PlanCutRuns.CreateCutHappens | src/assistant_runtime/app/assistant/_session_store.py:237-247 | the same inside its third, which stores the message |
| SessionRepairSafety.RepairedShut | src/assistant_runtime/app/assistant/_stale_tools.py:74-109 | a repair leaves no call of a row open, in either form |
| HostActionTheorems.BatchCompletes | src/assistant_runtime/app/streaming/_runner.py:127-171 | answering the pending calls one after the other, each continuation is accepted, every call of the batch ends with the reply given to it, earlier results stay, nothing is open or pending then, and only then the model runs again, never for the host's own calls |
| HostActionTree.ReloadFindsTheLeaf | src/assistant_runtime/app/assistant/_session_store.py:912-928 | at every write of every run, whatever repairs fall into it and whatever plans are cancelled between their writes, the rows are a tree and the newest leaf a reload finds is the last row; at rest the pending action is on that leaf, if no repair did harm |
| HostActionTree.CommitPlaced | src/assistant_runtime/app/streaming/_snapshot.py:188-212 | no write but that of a user or host message moves the leaf or the row a turn writes to |
| HostActionTree.LeafPlaces | src/assistant_runtime/app/assistant/_session_store.py:309-342 | a host message, written at the active leaf, is well placed and leaves the rows a tree |
| HostActionInvariant.ReturnedOnceStored | src/assistant_runtime/app/streaming/_snapshot.py:131-142 | stripping the content of a silent host decision leaves the accepted result in exactly one return |
| HostActionInvariant.CloseTurnCloses | src/assistant_runtime/app/streaming/_snapshot.py:215-237 | closing a turn leaves none of its calls without a result and keeps every result it had |
| HostActionInvariant.SnapshotRows | src/assistant_runtime/app/streaming/_snapshot.py:188-212 | a snapshot leaves every other row as it was, and its own row, which is then the leaf, with both forms in agreement and the turn's calls |
| HostActionRuns.SupersedePending | src/assistant_runtime/app/streaming/_host_tool.py:59-68 | superseding the pending batch leaves no call of the session open, and the stored action would not be restored any more |
| HostActionRuns.RemainingBatch | src/assistant_runtime/app/streaming/_turn.py:316-322 | what still waits behind the pending call is exactly the batch after it |
| HostActionRuns.ReloadIsSafe | src/assistant_runtime/app/assistant/_session_store.py:853-881 | after the repair of a load only calls of the restored batch are unanswered |
| HostActionRuns.LoadAgain | src/assistant_runtime/app/assistant/_session_store.py:853-909 | a load cut short after its repair and done again ends as if it had not been |
| HostActionRuns.LoadSafe | src/assistant_runtime/app/assistant/_session_store.py:853-881 | both a load that stops after its repair and a whole one end in a safe state |
| RunSnapshots.RunSnapshot.CaptureResult | src/assistant_runtime/app/streaming/_snapshot.py:123-142 | the list of messages after a run holds what the turn of the transition system holds: the accepted message itself is taken out exactly when the run returned its call |
| RunSnapshots.RunSnapshot.MarkUnansweredCalls | src/assistant_runtime/app/streaming/_snapshot.py:215-237 | an interrupted return is added for exactly the calls without one; true exactly when there was one |
| RunSnapshots.RunSnapshot.Persist | src/assistant_runtime/app/streaming/_snapshot.py:156-212 | the row is created for a new reply and extended otherwise, with segments and content built from the messages |
| HostActionSafety.WrittenRow | src/assistant_runtime/app/streaming/_snapshot.py:156-212 | the row that is written holds the turn's messages, their segments, and as its content the text parts of its responses, one after the other |
| RunSnapshots.AcceptedDropped | src/assistant_runtime/app/streaming/_snapshot.py:136-141 | taking the accepted message out by its place removes it and nothing else, also after the content was stripped |
| RunSnapshots.StrippedCalls | src/assistant_runtime/app/streaming/_snapshot.py:158-164 | stripping the content of a host decision does not change which calls are still to be closed |
| RunSnapshots.HasReturn | src/assistant_runtime/app/streaming/_snapshot.py:131-135 | the scan finds a return of the call exactly when some request has one |
| CallResults.BuildAgrees | src/assistant_runtime/app/assistant/_serialization.py:269-324 | segments rebuilt from messages hold the calls of the responses in order, answered exactly as returned |
| CallResults.BuiltCall | src/assistant_runtime/app/assistant/_serialization.py:269-324 | of each call a rebuild says its name and arguments, the output and outcome it was returned, and a label for a result that was no plain success |
| CallResults.ExpandAgrees | src/assistant_runtime/app/assistant/_serialization.py:388-458 | a row that has only segments agrees with the messages it is replayed as |
| CallResults.RepairSegments | src/assistant_runtime/app/assistant/_stale_tools.py:49-71 | exactly the unanswered calls outside `keep` are marked unknown, in a copy; the ids it lists are those, in order |
| CallResults.RepairMarks | src/assistant_runtime/app/assistant/_stale_tools.py:49-71 | call by call: one that is unanswered and not kept is interrupted and unknown from then on, and listed; every other call, and every other segment, stays as it is |
| CallResults.ResolveChangesNothing | src/assistant_runtime/app/assistant/_stale_tools.py:49-71 | with no covered call left to mark, a repair or an abandonment is no change |
| CallResults.SupersededSegments | src/assistant_runtime/app/streaming/_host_tool.py:113-135 | the abandoned calls that are unanswered are resolved and no other; nothing is returned exactly when none of the ids is there |
| CallResults.AbandonMarks | src/assistant_runtime/app/streaming/_host_tool.py:113-135 | call by call: if any of the calls is there, each of them that is unanswered gets the superseded or cancelled result under the status; every other call stays as it is |
| ResolvedReturns.ResolveKeepsAgreement | src/assistant_runtime/app/assistant/_stale_tools.py:74-109 | after superseding or repairing, segments and messages still agree, recorded results stay, and a call resolved now gets its return in the messages exactly when no retry prompt had answered it |
| ResolvedReturns.ResolvedResults | src/assistant_runtime/app/assistant/_stale_tools.py:85-109 | the returns appended for resolved calls are exactly those of the calls without an answer whose entry has one, with its output and outcome |
| ResolvedReturns.MarkUnansweredCloses | src/assistant_runtime/app/streaming/_snapshot.py:215-237 | afterwards every call has a result; those that had one keep it, and the new ones are interruptions |
| ResolvedReturns.WithoutSteeringKeepsResults | src/assistant_runtime/app/streaming/_snapshot.py:109-120 | leaving out pending steering changes no call, no result and no segment |
| ResolvedReturns.ResumableKeepsContent | src/assistant_runtime/app/streaming/_turn.py:470-486 | merging the trailing requests changes nothing the segments are built from, and leaves at most one request after the last response |
| SessionRows.AgreeIds | src/assistant_runtime/app/assistant/_stale_tools.py:144-154 | in a row whose forms agree the calls of the messages are the entries of the segments, in order |
| SessionRows.ResolveRowKeeps | src/assistant_runtime/app/streaming/_host_tool.py:85-110 | resolving calls on a row keeps its place, calls and results; open afterwards are exactly the calls that were not covered |
| SessionRows.RepairRowAnswers | src/assistant_runtime/app/assistant/_stale_tools.py:112-141 | after a repair every unanswered call of an assistant row is kept by `keep`; a second repair is no change |
| SessionRows.RepairRowFind | src/assistant_runtime/app/assistant/_stale_tools.py:49-71 | a repair answers exactly the entries that were unanswered and not kept, and adds and removes none |
| SessionRows.RepairSurvivesRebuild | src/assistant_runtime/app/assistant/_stale_tools.py:85-109 | the unknown result a repair records survives the next rebuild exactly when no retry prompt had answered the call |
| SessionRows.RetriedRepairIsForgotten | src/assistant_runtime/app/assistant/_serialization.py:269-324 | for any call answered by a retry prompt alone, the rebuild after a repair gives back the unrepaired segments |
| Transcript.CanonicalizeSegments | src/assistant_runtime/app/assistant/_serialization.py:43-68 | the pass that extends the last element gives the normal form: no empty text, no adjacent text of one kind, no empty group, and says the same characters and calls in the same order |
| Transcript.CanonicalIsUnique | src/assistant_runtime/app/assistant/_serialization.py:43-68 | two lists of segments have the same canonical form exactly when they say the same |
| Transcript.CanonicalAtoms | src/assistant_runtime/app/assistant/_serialization.py:43-68 | canonicalising neither loses nor reorders a character or a group of calls |
| Transcript.CanonicalIsFixed | src/assistant_runtime/app/assistant/_serialization.py:43-68 | a list in normal form is its own canonical form |
| RowMessages.BuildContent | src/assistant_runtime/app/assistant/_serialization.py:262-324 | from messages to segments and content in one pass: the content is the text parts of the responses one after the other, and the segments say what the responses say, character by character and call by call, each call with the last result it was returned |
| RowMessages.BuildSays | src/assistant_runtime/app/assistant/_serialization.py:262-324 | the segments of a row say exactly what its messages say, in order, and their text is that of the responses |
| RowMessages.BuildTools | src/assistant_runtime/app/assistant/_serialization.py:288-322 | the built segments hold exactly the calls of the responses, in order, each with the last result returned for it |
| RowMessages.ExpandRow | src/assistant_runtime/app/assistant/_serialization.py:388-458 | the loop over two parallel lists, zipped at the end, writes the messages of the recursive specification |
| RowMessages.TextIsReplayed | src/assistant_runtime/app/assistant/_serialization.py:388-395 | a row whose segments say nothing is replayed as its text, and as nothing without one; of any other row the text plays no part |
| RoundTrip.ReadBackRow | src/assistant_runtime/app/assistant/_serialization.py:388-458 | what a row's messages read back as, for every row with distinct call ids: its segments relabelled, with adjacent groups merged |
| RoundTrip.RoundTrips | src/assistant_runtime/app/assistant/_serialization.py:269-324 | a canonical row reads back as it was, status labels aside, exactly when no two of its groups of calls are adjacent |
| RoundTrip.ExpandedReplies | src/assistant_runtime/app/assistant/_serialization.py:388-458 | the responses of an expanded row say what its segments say, in order |
| RoundTrip.ExpandedRequests | src/assistant_runtime/app/assistant/_serialization.py:388-458 | the requests of an expanded row return exactly the answered calls, in order |
| RoundTrip.RelabelIsIdempotent | src/assistant_runtime/app/assistant/_serialization.py:303-316 | status labels written by one reading are kept by the next |
| SessionTree.PathIsWalk | src/assistant_runtime/app/assistant/_session_store.py:1003-1017 | every parent walk ends at the one root within as many steps as there are messages, follows the parent links, and never passes from a reply directly to a reply |
| SessionTree.ChildrenInvertParents | src/assistant_runtime/app/assistant/_session_store.py:968-974 | the child lists are the exact inverse of the parent links, without duplicates; the only root is the first row |
| SessionTree.ContextIsExact | src/assistant_runtime/app/assistant/_session_store.py:968-974 | the index finds every row and nothing else, and each child list is the rows that continue from the message |
| SessionTree.NewestLeafIsLast | src/assistant_runtime/app/assistant/_session_store.py:1020-1029 | the newest leaf is the active leaf exactly when no earlier leaf has a stamp as new as the last row's |
| SessionTree.IncreasingStamps | src/assistant_runtime/app/assistant/_session_store.py:1020-1029 | stamps that grow with insertion meet that condition |
| SessionTree.ReplaceInContext | src/assistant_runtime/app/assistant/_session_store.py:393-423 | replacing a row in its place keeps the tree, the order and the child lists, and changes one index entry and one row of the path |
| SessionContext.Context.RegisterUser | src/assistant_runtime/app/assistant/_session_store.py:148-251 | a user message becomes the root, the continuation of the active leaf, or a branch of the message it names; an unknown parent or a taken id changes nothing; index, child lists, leaf and path are those of the rows |
| SessionContext.Context.RegisterAssistant | src/assistant_runtime/app/assistant/_session_store.py:253-296 | a reply must answer a user or host message; otherwise, or with a taken id, nothing changes |
| SessionContext.Context.RegisterHost | src/assistant_runtime/app/assistant/_session_store.py:298-370 | a host message is appended at the active leaf |
| SessionContext.Context.UpdateMessage | src/assistant_runtime/app/assistant/_session_store.py:372-423 | an update replaces the content of one stored row in place, in the rows, the index and the path; an unknown id changes nothing |
| SessionContext.Context.RepairStaleTools | src/assistant_runtime/app/assistant/_session_store.py:766-803 | a repair stores every row repaired, lists exactly the rows it changed, in order, and leaves memory as the rows say |
| SessionContext.Context.Load | src/assistant_runtime/app/assistant/_session_store.py:912-928 | a context built from rows has their index, child lists, count and the path of its leaf; it is the one they were saved from exactly when the last row is the newest |
| SessionContext.Context.Publish | src/assistant_runtime/app/assistant/_session_store.py:968-1001 | a durable row, then the index, child lists and path, which again are those of the rows |
| SessionContext.Context.ResolvePath | src/assistant_runtime/app/assistant/_session_store.py:1003-1017 | the walk over parent links, reversed, is the path of the specification, and fails exactly on an unknown leaf |
| SessionContext.Context.RefreshCachedPathForNewLeaf | src/assistant_runtime/app/assistant/_session_store.py:992-1000 | extending the cached path, or resolving it again, gives the path of the new leaf |
| SessionContext.Context.LatestLeafId | src/assistant_runtime/app/assistant/_session_store.py:1020-1029 | the scan returns a leaf with the newest stamp, the first of those, and none only for an empty session |
| SteeringQueue.SteeringStore.Queue | src/assistant_runtime/app/assistant/_session_store.py:499-530 | a new record is stored last and pending; a taken id changes nothing |
| SteeringQueue.SteeringStore.ListPending | src/assistant_runtime/app/assistant/_session_store.py:532-546 | in queue order: with a profile exactly the pending records that name it or none, without one all that are pending |
| SteeringQueue.ListedFor | src/assistant_runtime/app/assistant/_session_store.py:542-546 | so it is for every list of records: whose steering a turn receives |
| SteeringQueue.SteeringStore.MarkDelivered | src/assistant_runtime/app/assistant/_session_store.py:548-575 | exactly the pending records among the ids are acknowledged, in one write; they are returned as they are then stored |
| SteeringQueue.SteeringStore.Load | src/assistant_runtime/app/assistant/_session_store.py:984-989 | records added in creation order give the memory they were saved from |
| SteeringQueue.PendingIsStatus | src/assistant_runtime/app/assistant/_session_store.py:984-989 | a record is in the pending list exactly when its status is pending |
| SteeringQueue.MarkPending | src/assistant_runtime/app/assistant/_session_store.py:570-574 | acknowledging takes exactly the acknowledged ids off the pending list, and moves nothing else |
| SteeringQueue.ListingIsConsumable | src/assistant_runtime/app/assistant/_session_store.py:532-546 | listing the pending ids and keeping those of the profile is the filter of the stored records |
| SteeringDelivery.TurnPolicy.EnqueueSteering | src/assistant_runtime/app/streaming/_agent_run.py:78-90 | what is handed to the run is what is pending and not in flight; it is remembered under its enqueue id and in flight |
| SteeringDelivery.TurnPolicy.OnEnqueuedMessages | src/assistant_runtime/app/streaming/_agent_run.py:74-76 | a request the run has taken in is consumed, and its enqueue id forgotten |
| SteeringDelivery.TurnPolicy.AfterModelRequest | src/assistant_runtime/app/streaming/_agent_run.py:92-105 | a completed model request acknowledges everything consumed at once |
| SteeringDelivery.PendingListIsExact | src/assistant_runtime/app/assistant/_session_store.py:984-989 | in every reachable state the pending list is that of the records memory knows; it is exactly the stored records with status pending, in queue order, if and only if none is hidden (stored, but not known to memory) and none is stale (acknowledged in the store alone) |
| SteeringDelivery.HiddenExactly | src/assistant_runtime/app/assistant/_session_store.py:527-530 | a record is hidden if and only if the request that queued it was cancelled between the store and the memory and the session was not loaded since |
| SteeringDelivery.StaleStep | src/assistant_runtime/app/assistant/_session_store.py:568-575 | a record becomes stale by an acknowledgement that is cancelled between the store and the memory, by nothing else, and until the next request that carries it completes or the process restarts |
| SteeringDelivery.AtMostOnce | src/assistant_runtime/app/streaming/_snapshot.py:165-169 | the stored history never carries a record that is still pending, in the store or in memory, and carries each record at most once, whatever was interrupted, cancelled or sent again |
| SteeringDelivery.AcknowledgedTogether | src/assistant_runtime/app/streaming/_agent_run.py:98-105 | the records of one request all wait in memory or none does, in every reachable state |
| SteeringDelivery.NothingLost | src/assistant_runtime/app/streaming/_snapshot.py:165-169 | without a crash every acknowledged record is in the stored history between turns, or is stale and handed out again, which takes an acknowledgement that was cut |
| SteeringDelivery.LostExactly | src/assistant_runtime/app/streaming/_agent_run.py:98-105 | over every run, an acknowledged record is lost (not stored, not held by a turn, not waiting in memory) if and only if the process crashed while it was in the messages of a run, or of a turn not saved since its run ended and on no row, or acknowledged in the store alone |
| SteeringDelivery.LostStep | src/assistant_runtime/app/streaming/_agent_run.py:78-90 | what is lost is never sent again: no step stores it or hands it to a run |
| SteeringDelivery.CrashLosesAcknowledged | src/assistant_runtime/app/streaming/_agent_run.py:98-105 | a crash right after a completed model request loses whatever that request carried: it is neither pending nor stored after the reload |
| SteeringDelivery.MessageIsLost | src/assistant_runtime/app/streaming/_agent_run.py:98-105 | a run from an empty session that loses its one message in this way |
| SteeringDelivery.CrashLosesCut | src/assistant_runtime/app/streaming/_runner.py:518-519 | a run cut inside the acknowledgement, by its timeout, for one, loses what the request carried in a crash even after the turn was saved: the snapshot leaves it out as pending, and the store has it as delivered |
| SteeringDelivery.CutMessageIsHidden | src/assistant_runtime/app/assistant/_session_store.py:527-530 | a run from an empty session: a message whose queueing was cancelled is offered to no turn until the next load |
| SteeringDelivery.OfferedExactly | src/assistant_runtime/app/streaming/_agent_run.py:78-90 | a run is offered exactly the pending records it was not handed already that are for its profile or for any; without a profile, all of them |
| SteeringDelivery.OfferedIsStored | src/assistant_runtime/app/streaming/_agent_run.py:78-90 | and nothing else: what is offered is the id of a pending record |
| SteeringDelivery.RequestAcknowledges | src/assistant_runtime/app/streaming/_agent_run.py:98-105 | a request that completes acknowledges, in memory and in the store, everything the run's requests have carried and nothing else |
| SteeringDelivery.FilteredSteering | src/assistant_runtime/app/streaming/_snapshot.py:109-120 | a snapshot drops every pending record and keeps the others once |
| TurnSlots.StepIsSafe | src/assistant_runtime/app/streaming/interface.py:517-534 | every piece of code between two awaits, of any task, keeps the invariant of lock, slot, waiting, holders, exclusion and pins |
| TurnSlots.TurnsExclude | src/assistant_runtime/app/streaming/interface.py:185-202 | under every interleaving: one turn or host write at most; a running turn of a leased session runs under that lease; lease and mutation never coexist, nor lease and host write |
| TurnSlots.PinsAreConserved | src/assistant_runtime/app/streaming/interface.py:551-567 | the pin count is the number of live holders: turn in the slot, lease, post-turn jobs and agents |
| TurnSlots.AdmissionIsExclusive | src/assistant_runtime/app/streaming/interface.py:518-530 | a turn is admitted only while no mutation is in progress, no lease but its own is held and nothing runs or writes |
| TurnSlots.StreamGetsIn | src/assistant_runtime/app/streaming/interface.py:185-202 | in every reachable state an authorized stream is refused if and only if some task is in a mutation, or some call goes on under another lease than the stream's; otherwise it runs, in the slot and with a pin, exactly if no turn or write is in progress, and else waits for that one, which an ordinary stream asks to stop |
| TurnSlots.LeaseHolderRuns | src/assistant_runtime/app/streaming/interface.py:189-191 | in a new session: a voice call takes its lease, and a turn that comes under it runs |
| TurnSlots.HostWriteGetsIn | src/assistant_runtime/app/streaming/interface.py:396-416 | a host write passes its check if and only if there is neither a mutation nor a call, and then writes if and only if no turn or write is in progress |
| TurnSlots.OthersGetIn | src/assistant_runtime/app/streaming/interface.py:193-273 | a call gets its lease if and only if there is no mutation, no call and nothing in the slot; an owner change or a route marks its mutation if and only if there is neither a mutation nor a call |
| TurnSlots.SuccessorWaits | src/assistant_runtime/app/streaming/interface.py:531-534 | a turn that waited for another runs only after that one is done |
| TurnSlots.HostWriteOverlapsRoutesOnly | src/assistant_runtime/app/streaming/interface.py:390-416 | a host write can be admitted beside a mutation only if that is a route's, which takes no lock |
| TurnSlots.HostWriteOverlapsExactly | src/assistant_runtime/app/routes/sessions.py:338-341 | when a host write is admitted a mutation is in progress exactly if some route is in the middle of one without the lock |
| TurnSlots.HostWriteOverlaps | src/assistant_runtime/app/routes/sessions.py:299-301 | and whenever a route begins between the write's check and its hold, the write is admitted beside it |
| TurnSlots.HostWriteBesideRoute | src/assistant_runtime/app/routes/sessions.py:338-341 | in a new session: a write has passed its check, a route begins, and both are in progress |
| TurnSlots.NothingIsLeaked | src/assistant_runtime/app/streaming/interface.py:239-273 | no run leaves a lease or a mutation without the task that ends it |
| TurnSlots.NoDeadlock | src/assistant_runtime/app/streaming/interface.py:517-534 | in every reachable state where some task is not over, some task can go on without anyone giving up |
| StreamingService.Service.Admit | src/assistant_runtime/app/streaming/interface.py:518-530 | a turn is admitted exactly if no mutation is marked, no lease but its own is held and the slot is free: the slot is taken and the session pinned once more; without a refusal the turn in the slot is named; other sessions are as they were |
| StreamingService.Service.FinishTurn | src/assistant_runtime/app/streaming/interface.py:561-567 | a turn frees the slot and its pin only when the slot is its own |
| StreamingService.Service.ReserveSession | src/assistant_runtime/app/streaming/interface.py:245-251 | an idle, available session is leased and pinned, otherwise nothing changes |
| StreamingService.Service.ReleaseSession | src/assistant_runtime/app/streaming/interface.py:270-273 | a lease is released, with its pin, only by its own token |
| StreamingService.Service.Hold | src/assistant_runtime/app/streaming/interface.py:396-416 | a host write takes the free slot, unpinned |
| StreamingService.Service.BeginMutation | src/assistant_runtime/app/streaming/interface.py:193-201 | a mutation is marked exactly when the session is available without a lease |
| SessionCache.EvictionIsFair | src/assistant_runtime/app/assistant/_session_store.py:806-823 | eviction keeps every pinned session, removes unpinned ones from the least recently used on, and as many as asked for or as there are |
| SessionCache.Cache.EvictIfNeeded | src/assistant_runtime/app/assistant/_session_store.py:806-823 | over the limit, up to half of the cache goes; otherwise nothing |
| SessionCache.Cache.Evict | src/assistant_runtime/app/assistant/_session_store.py:811-817 | the loop that removes while it walks a copy of the keys does what the recursive specification does |
| SessionCache.Cache.Pin | src/assistant_runtime/app/assistant/_session_store.py:123-128 | one more pin of this session, none of another |
| SessionCache.Cache.Unpin | src/assistant_runtime/app/assistant/_session_store.py:130-135 | one pin less, never below none, and no entry at none |
| SessionCache.Cache.Touch | src/assistant_runtime/app/assistant/_session_store.py:825-830 | a cached session becomes the most recently used |
| BackgroundRunner.StepIsSafe | src/assistant_runtime/app/tasks/_runner.py:109-178 | every step of every worker, canceller and stop keeps the invariant of records, slots, capacity, lines and agents |
| BackgroundEnds.EndedExactlyOnce | src/assistant_runtime/app/tasks/_runner.py:109-209 | whatever mix of completion, failure, timeout, cancellation, shutdown and agent stop: a job is unfinished, unpublished and known to the runner, or has one terminal status; it is never published twice, and once everything about it is over it was published if and only if no cancellation of its canceller cut the publication |
| BackgroundStatus.EndedAs | src/assistant_runtime/app/tasks/_runner.py:127-173 | over every run from a new runner, told from its events: a job that has ended is done or failed if and only if it was completed so; cancelled if and only if it was not, its cancellation was asked for (by a cancel, by its agent's stop, or by starting after it) and no shutdown found its worker before the first step; interrupted if and only if it was not completed and nobody asked or such a shutdown was first; and then a shutdown cancelled its worker |
| BackgroundStatus.ShutDownFirst | src/assistant_runtime/app/tasks/_runner.py:99-107 | a run from a new runner: a shutdown and then somebody else cancel a job before its worker's first step, and the shutdown records its end, as interrupted |
| BackgroundEnds.CancelledCancellerCuts | src/assistant_runtime/app/tasks/_runner.py:180-189 | a run from a new runner: a job is cancelled, and while its end is being published the task that cancelled it is cancelled; the end is never published |
| BackgroundRunner.EndIsFinal | src/assistant_runtime/app/tasks/_store.py:142-149 | nothing that happens later changes an end; only its one publication may still come |
| BackgroundEnds.StoppedAgentIsQuiet | src/assistant_runtime/app/tasks/interface.py:311-322 | once a stop that found the agent active has returned, every message to the agent has ended and is in no table; it was published, another is just publishing it, or its publication was cut |
| BackgroundEnds.StopAwaitsPublication | src/assistant_runtime/app/tasks/_runner.py:180-189 | a stop that found the worker of a message running goes on only once the end of that message was published, or its publication cut |
| BackgroundEnds.StopReturnsFirst | src/assistant_runtime/app/tasks/_runner.py:172-178 | a run from a new runner in which a stop returns before the end of a message, recorded just before, is published |
| BackgroundEnds.SecondStop | src/assistant_runtime/app/tasks/interface.py:315-317 | a stop of an agent that is already stopped returns at once and changes nothing; every message to the agent has ended then if and only if the runner has none of them left, which the return of the first stop guarantees |
| BackgroundEnds.SecondStopReturnsFirst | src/assistant_runtime/app/tasks/interface.py:315-317 | a run from a new runner in which a second stop returns while a message to the agent is still running |
| BackgroundRunner.BoundsHold | src/assistant_runtime/app/tasks/_runner.py:65-91 | running and reserved jobs stay within the waiting limit, and those in a slot, which are exactly the starting and working ones, within the slots |
| BackgroundRunner.OneAtATime | src/assistant_runtime/app/tasks/_runner.py:211-225 | a key's lock entry has as many users as its line, and at least one; all live users of a key share it, and one at most is in a slot |
| BackgroundRunner.AgentsOneAtATime | src/assistant_runtime/app/tasks/interface.py:484-491 | messages to one agent are run one at a time |
| BackgroundRunner.FirstComeFirstServed | src/assistant_runtime/app/tasks/_runner.py:211-225 | of two jobs in one line the later is in no slot until the earlier has ended |
| BackgroundProgress.NoDeadlock | src/assistant_runtime/app/tasks/_runner.py:109-178 | in every reachable state, while some job is not over, some job can move on, or the message that holds the admission can be submitted; nothing has to fail or be cancelled for it |
| BackgroundProgress.MovesAreBounded | src/assistant_runtime/app/tasks/_runner.py:109-178 | a run that takes no submission makes at most five steps towards an end for each job: no other step adds to what is left, whoever cancels or stops what |
| BackgroundProgress.EveryJobEnds | src/assistant_runtime/app/tasks/_runner.py:109-178 | every run can be carried on, without a failure or a cancellation, until every job submitted so far has one terminal status that was published once, unless its publication had been cut before |
| BackgroundProgress.StandstillIsTheEnd | src/assistant_runtime/app/tasks/_runner.py:109-178 | a run at a standstill has come to the end of every job, published once unless its publication was cut |
| BackgroundRunner.CancelIsHonoured | src/assistant_runtime/app/tasks/_runner.py:180-209 | whatever happens after a cancellation, the job has ended or a step that ends it as cancelled is enabled, whoever holds its line and the slots |
| TurnRunnerTables.BackgroundTurnRunner.ReserveCapacity | src/assistant_runtime/app/tasks/_runner.py:65-73 | capacity is granted exactly below the limit |
| TurnRunnerTables.BackgroundTurnRunner.Enter | src/assistant_runtime/app/tasks/_runner.py:217-221 | a job joins its key's one lock, made when the key has no users |
| TurnRunnerTables.BackgroundTurnRunner.Exit | src/assistant_runtime/app/tasks/_runner.py:222-225 | the last user takes the key's lock away |
| TurnRunnerTables.BackgroundTurnRunner.UpdateUnfinished | src/assistant_runtime/app/tasks/_store.py:142-149 | the compare-and-set writes exactly an unfinished record |
| TurnRunnerTables.BackgroundTurnRunner.End | src/assistant_runtime/app/tasks/_runner.py:148-175 | the end of an entered worker: line and slot left, record updated, tables cleared; it tells whether it is to be published |
| TurnRunnerTables.BackgroundTurnRunner.Published | src/assistant_runtime/app/tasks/_runner.py:176-178 | the publication of a recorded end is the step of the transition system |
| TurnRunnerTables.BackgroundTurnRunner.CancelJob | src/assistant_runtime/app/tasks/_runner.py:180-186 | a known job is marked and its worker cancelled; an unknown one changes nothing |
| TurnRunnerTables.BackgroundTurnRunner.FinishUnstartedJob | src/assistant_runtime/app/tasks/_runner.py:191-209 | a worker cancelled before its first step has its end recorded here, and one that ran does not |
| TurnEvents.TurnGrammar | src/assistant_runtime/app/streaming/_runner.py:104-442 | on every way out, which is what the fixed envelopes of a stream that never reached its turn follow too: started first; content, tools and debug; one final response; after it a terminal failure exactly when it is an error, which is exactly when the turn did not finish normally or hit the limit; completed last |
| TurnEvents.FinalReply | src/assistant_runtime/app/streaming/_coordinator.py:78-121 | what the final response carries on every way out: nothing at the limit, for a call that is handed on and for a receipt; the text of a turn that did not finish normally; and the answer, unless it has one and the run put out text |
| TurnEvents.AfterTheFinal | src/assistant_runtime/app/streaming/_runner.py:250-442 | what follows it: the failure of the turn, or the one of the limit, and the debug events if they are wanted, in order |
| TurnEvents.EventsShowScript | src/assistant_runtime/app/streaming/_coordinator.py:123-201 | the events before it show exactly what the run put out, in order and content, up to the emission that hits the limit |
| TurnEvents.SegmentBegins | src/assistant_runtime/app/streaming/_coordinator.py:203-222 | a piece begins a segment if and only if none of its kind is open, because the kind changed or a tool event or the end of a response came between |
| TurnEvents.WithinLimit | src/assistant_runtime/app/streaming/_coordinator.py:196-201 | events other than the terminal ones never exceed the limit; a run that goes over it ends with exactly as many |
| TurnEvents.SegmentsCountUp | src/assistant_runtime/app/streaming/_coordinator.py:203-222 | segments count up from zero, and the deltas of each count up from zero |
| TurnEvents.ResponseIsStreamed | src/assistant_runtime/app/streaming/_coordinator.py:123-137 | the text deltas concatenate to the accumulated response exactly unless the emission that first passes the limit is a non-empty piece of text, which is told from the run's output alone |
| TurnEvents.HitIsNth | src/assistant_runtime/app/streaming/_coordinator.py:196-201 | the limit is hit exactly by the emission with that number among the counted ones, if there is one |
| TurnEvents.TextIsLost | src/assistant_runtime/app/streaming/_coordinator.py:123-137 | at every limit, a run that puts out one piece of text too many has it in its response and in no event |
| TurnEvents.RunTurn | src/assistant_runtime/app/streaming/_runner.py:104-442 | driving the coordinator as the runner does yields the trace of the specification |
| TurnEvents.EventCoordinator.EmitDelta | src/assistant_runtime/app/streaming/_coordinator.py:123-153 | a delta goes into the response before the limit is checked, and carries its segment and position |
| TurnEvents.EventCoordinator.TryFinalResponse | src/assistant_runtime/app/streaming/_coordinator.py:78-121 | one final response at most; its content is left out when it was streamed and is no error |
| TurnEvents.EventCoordinator.TryCompleted | src/assistant_runtime/app/streaming/_coordinator.py:63-76 | completed once, whatever the limit |
| TurnEvents.Chunked | src/assistant_runtime/app/streaming/_agent_run.py:237-246 | a large part is put out in non-empty pieces of at most the size that make it up again; a small one whole |
| Usage.MergeIsAssociative | src/assistant_runtime/app/assistant/usage.py:87-118 | merging is associative through every level of auxiliary sections, their order and an unknown cost included |
| Usage.MergeUsage | src/assistant_runtime/app/assistant/usage.py:87-118 | the pass with running sums merges any number of snapshots as the pairwise merge does |
| Usage.MergeHolds | src/assistant_runtime/app/assistant/usage.py:87-118 | the merge of several snapshots, part by part: each count is the sum of theirs, the cost is the sum if each has one, their tiers follow each other, and each section is the merge of theirs |
| Usage.RowCountsOnce | src/assistant_runtime/app/streaming/_snapshot.py:166-211 | in every interleaving a snapshot writes what the row had when the turn began and what the turn's last run counted, once, however often it is written |
| Usage.TurnBeginsFromRow | src/assistant_runtime/app/streaming/_snapshot.py:123-130 | a turn begins with what its row has, and an extraction leaves the counts alone |
| Usage.TotalsAdd | src/assistant_runtime/app/assistant/usage.py:103-106 | token totals of merged parts add up |
| Usage.KeepRowAuxiliary | src/assistant_runtime/app/streaming/_snapshot.py:38-51 | the loop keeps the row's memory total and the sections the snapshot lacks |
| Usage.KeptGet | src/assistant_runtime/app/streaming/_snapshot.py:38-51 | after that each name has the row's memory total, else what the snapshot had, else what the row has |
| Usage.PersistedSections | src/assistant_runtime/app/streaming/_snapshot.py:38-51 | what a snapshot writes, section by section: the row's memory total; what the turn summarised, with the summarisation at hand; and of any other name what the turn has, or else the row |
| Usage.MemoryIsConserved | src/assistant_runtime/app/streaming/_runner.py:444-468 | under any interleaving of snapshots and extractions the row's memory section is the merge of every committed extraction, and its token total their sum |
| Usage.StartsSafe | src/assistant_runtime/app/streaming/_snapshot.py:38-51 | a new row, and a stored one with what it has, are where that begins |
| Usage.PersistIsIdempotent | src/assistant_runtime/app/streaming/_snapshot.py:170-211 | writing an unchanged snapshot again changes nothing |
| ChangeCursors.PagingIsComplete | src/assistant_runtime/app/assistant/_session_store.py:471-488 | over an unchanged store, following the cursor yields every later record exactly once, in `(updated_at, id)` order |
| ChangeCursors.PagesFrom | src/assistant_runtime/base/cursors.py:28-71 | the pages from a cursor, spelled out: whatever changed later than its time or at it with a greater id; from a bare time whatever changed later; without a cursor everything; in the order of change, ids deciding |
| ChangeCursors.PageIsLimited | src/assistant_runtime/base/cursors.py:66-71 | a page is no longer than it may be, and the next cursor is at its last record |
| ChangeCursors.NextPage | src/assistant_runtime/base/cursors.py:66-71 | a page and what the next cursor still admits are together what was to read, in order |
| ChangeCursors.ReaderSeesFinalVersions | src/assistant_runtime/base/cursors.py:28-35 | with strictly newer stamps, a reader that gets an empty page has the present version of every record |
| ChangeCursors.ReadingEnds | src/assistant_runtime/base/cursors.py:66-71 | each page that is not empty leaves less to read |
| ChangeCursors.StaleStampIsMissed | src/assistant_runtime/app/tasks/_store.py:45-46 | a version is received exactly when its stamp is after the reader's cursor |
| GuidanceMigration.GuidanceParentTargets | alembic/versions/20260321_180000_add_guidance_table.py:79-93 | the pointer chase, which ends also on cycles, finds the targets of the specification for exactly the guidance rows |
| GuidanceMigration.MigrateGuidance | alembic/versions/20260321_180000_add_guidance_table.py:132-148 | reparenting and deleting gives the rows of the specification |
| GuidanceMigration.MessagesStay | alembic/versions/20260321_180000_add_guidance_table.py:132-148 | exactly the messages stay, each with its content, and its parent too unless that was guidance |
| GuidanceMigration.TargetIsNearestSurvivor | alembic/versions/20260321_180000_add_guidance_table.py:85-91 | the target is the nearest ancestor that is not guidance, and is still guidance exactly when the chain never leaves guidance |
| GuidanceMigration.SurvivorsPointAtSurvivors | alembic/versions/20260321_180000_add_guidance_table.py:133-148 | a survivor points at a deleted row exactly when it continued from guidance that only continues from guidance |
| GuidanceMigration.PathsAreKept | alembic/versions/20260321_180000_add_guidance_table.py:132-148 | on an acyclic forest every survivor's path is its old path without the guidance rows |
| GuidanceMigration.CycleDangles | alembic/versions/20260321_180000_add_guidance_table.py:85-91 | two guidance rows that continue from each other leave their child on a deleted row |
| ScreenshotSearch.FindScreenshot | src/assistant_runtime/app/assistant/models.py:98-120 | the search with a stack of iterators and a budget finds what a walk of the tree in preorder, preferred keys first, finds within the budget |
| ScreenshotSearch.FirstImageMeans | src/assistant_runtime/app/assistant/models.py:98-120 | that is the first image in preorder; it fails exactly when the budget's worth of nodes passes without one and there are more |
| ScreenshotSearch.PreferredKeyWins | src/assistant_runtime/app/assistant/models.py:123-129 | in an object the image is that of the first preferred key with one, whatever the order of its entries |
| ScreenshotSearch.OtherKeysFollow | src/assistant_runtime/app/assistant/models.py:123-129 | and without one under a preferred key, that of the first other entry with one |
| ScreenshotSearch.ScreenshotWins | src/assistant_runtime/app/assistant/models.py:123-129 | so of an `image` and a `screenshot` the screenshot is found, first or last |
| ScreenshotSearch.StripPreorder | src/assistant_runtime/app/assistant/models.py:145-161 | the stripped tree has the same nodes in the same order, each stripped |
| ScreenshotSearch.NothingFoundInStripped | src/assistant_runtime/app/assistant/models.py:145-161 | in a stripped tree the search finds nothing, and fails exactly when the tree is over the budget |
| ScreenshotSearch.StripKeepsTheRest | src/assistant_runtime/app/assistant/models.py:153-161 | a tree is its own stripped copy exactly when it has no image |

## Left out

- HostActions: the planner and the runner are steps of a transition system rather than methods, because a crash may fall between any two of their writes; the order of writes and every branch that writes is kept.
- HostActions.RunContract: the agent run itself (provider calls, tools, MCP, subagents, compaction, native event mapping) is any run that keeps this contract.
- HostActions.Next: writes that fail, a deferred call to a tool the host does not have, the drift branch of the pending payload, rows without model messages that are continued, and the mode a continuation asks for.
- SessionRepairs.Next: a message, host message or call-off admitted before a repair plans its writes before the repair's first write or after its last, not between them; a continuation and a steered turn do so anywhere. A repair that is cut off by a failed write stops there.
- PlanCuts.Next: the parents of messages and the newest leaf of the stored rows, which `HostActionTree` has for plans cancelled between their writes only. A session evicted under a host message whose row is not yet written is not one of the steps.
- HostActions.Commit: records shared between the index and the cached path are separate values; `Context` resolves the path again where the runtime edits a shared record.
- RunSnapshots.RunSnapshot.Persist: leaving out steering that is still pending is modelled in `SteeringDelivery`, the row's usage in `Usage`, the prompt record not at all.
- SessionContext.Context: owner, binding, title, turn number, metadata and compaction of a session, and the empty context that hides a session that is not stored.
- SessionContext.Context.UpdateMessage: the usage of a row is in `Usage`; its prompt record and the lock around the update are left out.
- SessionContext.Context.RegisterUser: the owner, binding, title and turn number that a first message sets are left out.
- SessionContext.Context.RegisterHost: the owner, binding, title and turn number that a first message sets are left out.
- RoundTrip.RoundTrips: the flat history of rows written before results were stored in requests of their own is not modelled.
- RowMessages.BuildContent: timestamps, metadata of segments and omitted media are left out.
- TurnSlots: the order of waiting tasks and the chain of post-turn jobs are not modelled; any waiting task may be next.
- TurnSlots.Next: what a cancellation does inside a turn is one of the endings of `HostActions`; here it only marks the turn. A host write is also refused while a host action is pending, which is state of `HostActions`.
- BackgroundRunner.Next: a timeout is a failure; the handlers of a publication are one wait, and a handler that raises, which is logged, does not end that wait (one that is cancelled does, see `CutPublication`); moving an agent and listing tasks are left out.
- BackgroundProgress.EveryJobEnds: that a turn which runs does come to its end is the step `Complete`, which its timeout guarantees.
- TurnEvents.RunTurn: a limit of 0, which the configuration does not allow (`streaming/config.py:11-14`, at least 100), is not driven. The buffer of thinking kept for debugging, saved traces and the payload of events other than deltas and the reply are left out.
- Usage.MergeUsage: a count that is missing is 0; service tiers collected within a turn and an empty usage dictionary are left out.
- ScreenshotSearch.FindScreenshot: values are trees; a list or dictionary that contains itself, which the runtime skips, is not.
- GuidanceMigration.MigrateGuidance: the copy of guidance rows into their new table and the schema changes are left out.
- ChangeCursors.Changed: parsing and formatting of cursors; a list of tasks read without a cursor, which is newest first, is another view.
- The control of a turn: the native cancellation token, the event queue, and what a cancelled setup does beside the plan's writes and the queueing of steering.
- Routes, transports, the command line, logging, tracing, voice processes, prompt rendering, configuration and access modes: plumbing over libraries that are not part of this model.
