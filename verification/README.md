# Verified model of the AIec agent harness and its protocol cores

This project models, in Dafny, the parts of AIec whose correctness is hard to see by reading:
the agent harness's context engine, its no-progress detector, the run loop with its session
file, and four smaller protocol and codec cores around the control plane. `dafny verify
dfyconfig.toml` checks it.

## What is modelled

**The context engine** (`Text`, `Messages`, `Sequences`, `TurnUnits`, `Compaction`,
`CompactionSize`, `CompactionShape`, `CompactionLoss`, `CompactionOrder`, `TaskState`, `Context`,
`ContextRuns`, `ContextLoss`, `ContextCopies`, `ContextOrder`). Texts are UTF-8
bytes, as a Rust `str` is. The transcript is a list of system, user, assistant and tool messages;
`Context` is the class whose methods record turns, refresh the progress message and compact. Each
method is proved equal to a function of its state, and the results are about those functions over
every run of steps: pairing of calls and results, well-formed text, size against the window, copies
of the progress message, and what the evidence lists hold.

**The loop guard** (`LoopGuard`). The two-slot window with its streak counter is proved to be a
specification over the whole history of turns.

**The run** (`Session`, `Agent`, `AgentRuns`). The provider, the tools, the clock, the operator and the disk are a
`World` the run is a function of. The loop is proved to follow that function turn by turn, to end
when and as the world calls for, to account for every request and call, and to leave a session file
that a later run takes up exactly when the work is unfinished.

**The codecs and protocols** (`JsonText`, `CanonicalJson`, `CanonicalReadable`, `ApprovalDigest`,
`Census`, `Listing`, `Client`, `StreamCodec`): the canonical argument text an approval is bound to,
the paginated sandbox census against the control plane's own listing, the client's retry loop, and
the fragmenting event stream with its reader.

## Where the code and its comments differ

The model follows the code. Each difference is a theorem with the exact condition.

- Compaction is described as keeping the most recent exchanges (`harness/src/context.rs:352-353`).
  The units are reversed twice at line 395, so it keeps the oldest prefix
  (`Compaction.KeptIsLongestPrefix`). The turn that overflowed the window is lost if and only if the
  oldest unit of nonzero size fits beside the base (`CompactionLoss.OverflowDropsNewestIff`), which
  for a recorded turn means that the progress message fits twice
  (`ContextLoss.OverflowingTurnIsDroppedIff`).
- The squeeze loop is described as what makes the budget a guarantee (lines 418-423). Every squeeze
  adds an elision marker, so the loop never brings an overfull transcript under the budget. A
  compaction ends within it if and only if it was within it before the loop
  (`CompactionSize.CompactionFitsIff`, with a counterexample in
  `CompactionSize.CompactionCanExceedBudget`). For a turn of a run that condition is
  `ContextRuns.TurnRoomIff`; with 4068 tokens available it always holds
  (`ContextRuns.AmpleRunStaysWithinBudget`).
- The progress message is meant to have one copy (lines 371-373). It is selected a second time as the
  oldest unit (`CompactionShape.CompactionCopiesProgress`). A run has one copy if and only if it has
  never compacted or its last compaction left one (`ContextCopies.OneProgressIff`), and with 4068
  tokens available only the former (`ContextCopies.OneProgressIffNeverCompacted`).
- The loop guard compares the two turns before the current one, so it fires one turn after the
  streak it counts (`LoopGuards.StopsIffStuck`).
- The approval client's canonical text is described as byte for byte that of the control plane
  (`scripts/guard-approval-acceptance.py:242-248`). The two agree if and only if the values do, numbers
  as each side spells them, and every string is ASCII without DEL
  (`ApprovalDigest.DialectsAgreeIff`, with a counterexample in `ApprovalDigest.DialectsCanDisagree`).
- Canonical text names one value only among strings that do not hold a split surrogate pair
  (`CanonicalReadable.SplitPairIsAmbiguous`, `ApprovalDigest.CanonicalIff`).

## Inputs and bounds

- Provider answers, tool outcomes, steering notes, elapsed time, validation outcomes and whether a
  save succeeds are fields of `World`. Reading `path` out of a call's JSON arguments is the function
  parameter `pathOf`.
- Sizes are unbounded naturals. Where a result needs the machine's range it says so: `Sized` and
  `Representable` bound texts by 10^20 bytes, more than an address space holds, and `BudgetInRange`
  bounds a window by the width of its field. The detector's streak saturates at 2^32 - 1 as in Rust.
- A JSON number that is not an integer is taken as the spelling the program holding it gives it, so the
  same document may be two values, one in Python and one in Rust.
- `Valid` says what a decoded value is: distinct keys in every object, strings without a split
  surrogate pair, and numbers spelled in number bytes.

## Model

| member | source | states |
|---|---|---|
| `Text.FloorBoundary` | harness/src/context.rs:520-526 | the result is a character boundary at or below the index and no boundary lies between the two |
| `Text.CeilBoundary` | harness/src/context.rs:528-534 | the result is a character boundary at or above the capped index and no boundary lies between the two |
| `Text.FindFloorBoundary` | harness/src/context.rs:520-526 | the backward loop finds that greatest boundary |
| `Text.FindCeilBoundary` | harness/src/context.rs:528-534 | the forward loop finds that least boundary |
| `Text.BoundaryNearby` | harness/src/context.rs:520-534 | in well-formed UTF-8 a boundary is never more than three bytes away on either side |
| `Text.CompressOutputCut` | harness/src/context.rs:501-518 | a cut text keeps a prefix and a suffix that do not overlap and are each well-formed, each within three bytes of its share of the limit |
| `Text.CompressOutputParts` | harness/src/context.rs:501-518 | the output is the kept head, a marker whose count is the original length less head and tail, and the kept tail |
| `Text.CompressOutputWellFormed` | harness/src/context.rs:501-518 | compressing well-formed text gives well-formed text |
| `Text.CompressOutputLength` | harness/src/context.rs:501-518 | the limit is overshot by at most 89 bytes and the digits of the count, and by at least 84 bytes for well-formed text |
| `Text.CompressOutputBound` | harness/src/context.rs:501-518 | any text of fewer than 10^20 bytes comes out at most 109 bytes over the limit |
| `Messages.TokensConcat` | harness/src/context.rs:448-450 | the size of a transcript is additive over concatenation |
| `Messages.SqueezeKeepsUtf8` | harness/src/context.rs:121-142 | squeezing a message never cuts a text inside a character |
| `Messages.SqueezeBound` | harness/src/context.rs:121-142 | squeezing to 4k bytes leaves at most k + 28 tokens beside the calls, name and images, which it leaves alone |
| `Messages.SqueezeEitherKeepsOrExceeds` | harness/src/context.rs:121-142 | a squeeze to 4k bytes either cuts and leaves at least k + 22 tokens of text, or leaves the size as it was |
| `TurnUnits.TurnUnitsOf` | harness/src/context.rs:161-183 | the grouping loop computes the recursive definition of turn units |
| `TurnUnits.UnitsPartition` | harness/src/context.rs:161-183 | for any message stream, every message is in exactly one unit, no unit is empty and there are none only for the empty stream |
| `TurnUnits.UnitsOfTranscript` | harness/src/context.rs:161-183 | the units of a paired transcript, oldest first, are its turns in order with the results inside each turn reversed |
| `CompactionOrder.UnitsAfterCompaction` | harness/src/context.rs:395-402 | after a compaction that keeps anything, the units are the base message by message and the kept turns with their results in the original order |
| `CompactionOrder.LaterCompaction` | harness/src/context.rs:395-402 | a later compaction, after turns were recorded since an earlier one: if it keeps anything it leaves its base and a prefix of lone messages, the earlier turns with results back in the original order, and the later turns with theirs reversed |
| `CompactionOrder.TwoCompactionsRestoreOrder` | harness/src/context.rs:395-402 | two compactions in a row that each keep anything leave the oldest turns exactly as they were before both |
| `CompactionOrder.CompactedBlocks` | harness/src/context.rs:358-446 | on every path a compaction has the roles, calls and identities of its base, the kept turns and, when nothing of nonzero size is kept, the newest turn, the results in each reversed |
| `Compaction.KeptIsLongestPrefix` | harness/src/context.rs:390-402 | the kept units are the longest prefix of the oldest-first unit list whose size fits the target |
| `Compaction.KeepingAnythingFits` | harness/src/context.rs:390-442 | keeping anything of nonzero size makes the result exactly base plus kept units, within the budget, with no squeezing |
| `Compaction.SqueezeRoundStaysOver` | harness/src/context.rs:424-442 | a squeeze round on an overfull transcript leaves it overfull |
| `Compaction.SqueezeLoopStaysOver` | harness/src/context.rs:424-442 | so does any number of rounds |
| `Compaction.SqueezeRoundBound` | harness/src/context.rs:424-442 | one round brings the size to at most max(available, R + 32) + F + 28, with R the other messages and F the part of the squeezed one that cannot shrink |
| `Compaction.SqueezeLoopBound` | harness/src/context.rs:424-442 | the first round establishes that ceiling and the later ones keep it |
| `CompactionSize.CompactedUtf8` | harness/src/context.rs:358-446 | compacting a transcript of well-formed texts gives one |
| `CompactionSize.KeptIff` | harness/src/context.rs:390-402 | something of nonzero size is kept if and only if the oldest unit of nonzero size fits the target |
| `CompactionSize.SelectedFitsIff` | harness/src/context.rs:390-417 | the transcript is within the budget before the squeeze loop if and only if base leaves room for the oldest unit of nonzero size or for the newest unit |
| `CompactionSize.CompactionFitsIff` | harness/src/context.rs:418-442 | a whole compaction ends within the budget if and only if that condition holds of the incoming transcript, so the squeeze loop never decides it |
| `CompactionSize.CompactionCanExceedBudget` | harness/src/context.rs:418-423 | a concrete transcript whose compaction is over its budget |
| `CompactionSize.SqueezedSizeBracket` | harness/src/context.rs:418-442 | when that condition fails the result is over the budget and at most the ceiling |
| `CompactionLoss.OverflowDropsNewestIff` | harness/src/context.rs:352-353 | an overflow compaction loses the newest unit if and only if the oldest unit of nonzero size fits beside the base, and then leaves base and a prefix of the earlier units; otherwise the newest unit stays with roles, calls and identities, and word for word when it fits beside the base |
| `CompactionShape.CompactedPaired` | harness/src/context.rs:358-446 | compaction keeps every tool result right behind the turn that asked for it, on every path |
| `CompactionShape.CompactedNoSystem` | harness/src/context.rs:358-446 | compaction introduces no system message |
| `CompactionShape.ProgressIsOldestUnit` | harness/src/context.rs:371-402 | a leading progress message is both the base and the oldest unit |
| `CompactionShape.TwiceProgressFits` | harness/src/context.rs:371-402 | if the progress message fits the budget twice the compaction fits it, and starts with two copies of that message |
| `CompactionShape.CompactionCopiesProgress` | harness/src/context.rs:371-402 | how many progress messages a compaction leaves of n, at the front and nowhere else, with one copy exactly when the message does not fit twice and the transcript holds something else |
| `TaskState.CapList` | harness/src/context.rs:78-103 | draining the front of a list leaves its last forty entries |
| `TaskState.ObserveTurn` | harness/src/context.rs:78-103 | the observing loops compute the state function |
| `TaskState.EvidenceIsLogSuffix` | harness/src/context.rs:78-103 | over any turns each evidence list is the last forty entries of the uncapped log, and objective and paths do not change |
| `TaskState.RenderWellFormed` | harness/src/context.rs:35-76 | rendering well-formed state gives well-formed text |
| `TaskState.RenderShows` | harness/src/context.rs:35-76 | the rendered text holds, word for word, the objective and every constraint, decision, changed file, result and open problem |
| `ContextEngine.AvailableMeansFits` | harness/src/context.rs:201-217 | being within what is available is the same as fitting when the reserve is within the limit; otherwise nothing fits |
| `ContextEngine.Context.constructor` | harness/src/context.rs:233-245 | a context starts empty with a fresh state |
| `ContextEngine.Context.RefreshProgress` | harness/src/context.rs:277-295 | replaces the progress message in its slot, or inserts it there |
| `ContextEngine.Context.PushSteering` | harness/src/agent.rs:206-215 | appends the steering message |
| `ContextEngine.Context.RecordTouched` | harness/src/agent.rs:281-291 | adds paths to the sorted sets and touches nothing else |
| `ContextEngine.Context.PushTurnMessages` | harness/src/context.rs:321-350 | the whole new state of a recorded turn; it reports a compaction exactly when the refreshed transcript does not fit |
| `ContextEngine.Context.CompactMessages` | harness/src/context.rs:358-446 | the rebuilding loops compute the compaction function and count one compaction |
| `ContextEngine.KeepOldest` | harness/src/context.rs:394-402 | the selection loop keeps the greedy prefix and returns its size |
| `ContextEngine.BuildTurn` | harness/src/context.rs:326-340 | the messages of a turn: the assistant message if it says anything, then a result message per result |
| `ContextEngine.SqueezeUntilFits` | harness/src/context.rs:424-442 | the capped squeeze loop computes the recursive definition |
| `ContextRuns.RefreshedPaired` | harness/src/context.rs:277-295 | refreshing the progress message keeps the pairing |
| `ContextRuns.RunPaired` | harness/src/context.rs:277-446 | over every run of turns, notes, recorded paths, refreshes and compactions the transcript is lone messages and whole turns, each with exactly its calls answered |
| `ContextRuns.RunClean` | harness/src/context.rs:277-534 | over every run no text is cut inside a character and no system message enters the transcript |
| `ContextRuns.ProgressSize` | harness/src/context.rs:277-308 | the progress message of any state costs at most min(available/2, 2000) + 34 tokens |
| `ContextRuns.BaseFits` | harness/src/context.rs:371-393 | without a system message the compaction base fits any window with 67 tokens available, wherever the progress message stands |
| `ContextRuns.TurnBaseFits` | harness/src/context.rs:321-393 | so does the base of every compaction a turn sets off |
| `ContextRuns.TurnFitsIff` | harness/src/context.rs:321-350 | in any window a turn leaves room for the answer if and only if the transcript already does, or the reserve is within the limit and the compaction condition holds |
| `ContextRuns.RunFitsIff` | harness/src/context.rs:321-350 | the same for the last turn of every run |
| `ContextRuns.TurnRoomIff` | harness/src/context.rs:321-350 | the same in sizes at hand: a turn leaves room exactly when the transcript already does, or the reserve is within the limit and the progress message fits twice or beside the newest unit |
| `ContextRuns.RunStaysWithinBudget` | harness/src/context.rs:321-350 | in any window, a run is within it after a turn whose progress message fits twice |
| `ContextRuns.AmpleRunStaysWithinBudget` | harness/src/context.rs:321-350 | with 4068 tokens available that holds of every turn of every run |
| `ContextLoss.OverflowingTurnIsDroppedIff` | harness/src/context.rs:345-417 | in any window the turn that overflows it is lost, leaving the progress message and a prefix of the earlier units, if and only if the progress message fits twice; otherwise progress message and turn are all that stays, and whole when they fit together |
| `ContextLoss.OversizedAnswerIsLost` | harness/src/context.rs:345-402 | a first answer larger than the window, where the progress message fits twice, leaves no trace: the transcript afterwards is the progress message, twice |
| `ContextOrder.RunOrders` | harness/src/context.rs:161-183 | over every run in any window, a turn in the transcript has its results in the order of its calls after an even number of compactions since it was recorded and in the reverse order after an odd number |
| `ContextCopies.TurnMovesCopies` | harness/src/context.rs:277-446 | how the number of progress messages moves in one turn in any window, and exactly when it is one afterwards |
| `ContextCopies.RunCopies` | harness/src/context.rs:277-446 | over every run of the agent in any window the transcript is led by its progress messages and holds no others, at most one more than compactions, and none exactly until a turn is recorded |
| `ContextCopies.OneProgressBeforeCompaction` | harness/src/context.rs:277-295 | before the first compaction, in any window, exactly one progress message exists once a turn is recorded, at the front |
| `ContextCopies.OneProgressIff` | harness/src/context.rs:371-380 | in any window a run has exactly one progress message if and only if it has never compacted or its last compaction found the message too large to fit twice and something else to keep |
| `ContextCopies.OneProgressIffNeverCompacted` | harness/src/context.rs:371-380 | with 4068 tokens available a run has exactly one progress message if and only if it has never compacted |
| `ContextRuns.RunPathsAscend` | harness/src/agent.rs:281-291 | over every run both path lists stay ascending and without repeats, as the ordered sets they are |
| `ContextRuns.RunEvidence` | harness/src/agent.rs:281-297 | the evidence after a run is that of its recorded turns, whatever happened between them |
| `ContextRuns.ResumedRunContinuesLog` | harness/src/agent.rs:69-103 | a run started from a saved state continues its log: each list is the last forty entries of both runs together |
| `LoopGuards.KeyInjective` | harness/src/loop_guard.rs:26-33 | two pieces of evidence with the same key are the same |
| `LoopGuards.ClassifyTurn` | harness/src/loop_guard.rs:115-135 | the classifying loops compute the evidence of a turn in order |
| `LoopGuards.BuildFingerprint` | harness/src/loop_guard.rs:76-85 | the fingerprint loops concatenate calls, then answers |
| `LoopGuards.LoopGuard.constructor` | harness/src/loop_guard.rs:49-56 | a guard starts with no history |
| `LoopGuards.LoopGuard.RecordProgress` | harness/src/loop_guard.rs:59-72 | new keys join the seen set and reset the streak; it reports whether any key was new |
| `LoopGuards.LoopGuard.ObserveTurn` | harness/src/loop_guard.rs:75-111 | updates streak and window and says stop exactly when the streak reaches the tolerance |
| `LoopGuards.WindowHoldsLastTwo` | harness/src/loop_guard.rs:87-111 | after any history the window is its last two fingerprints and the seen set is all its keys |
| `LoopGuards.StopsIffStuck` | harness/src/loop_guard.rs:59-111 | for every history and tolerance t >= 1 the guard says stop at turn n exactly when turns n-t-1 to n-1 share a fingerprint and none of the last t-1 turns brought unseen evidence |
| `LoopGuards.ZeroToleranceStops` | harness/src/loop_guard.rs:75-99 | a tolerance of zero stops at the first turn |
| `LoopGuards.RepeatingSessionIsCaught` | harness/src/loop_guard.rs:59-135 | if every turn from the s-th on is the same, the guard has stopped the session by turn s + t + 1 |
| `Session.ResumesExactlyOwnUnfinishedWork` | harness/src/session.rs:78-107 | a saved state is adopted exactly when the file is a current, unfinished document with this task's id and digest; any other file starts afresh |
| `AgentLoop.RequestBudget.constructor` | harness/src/budget.rs:25-31 | a budget starts with no requests spent |
| `AgentLoop.RequestBudget.Check` | harness/src/budget.rs:51-59 | a request may go out exactly when both ceilings are unreached, and gets the next turn number; otherwise which ceiling it was |
| `AgentLoop.RequestBudget.RecordRequest` | harness/src/budget.rs:62-64 | one more request spent, saturating at the largest 32-bit number |
| `AgentLoop.BumpCounts` | harness/src/agent.rs:394-398 | bumping a tool's counter adds one to the total and to that tool only |
| `AgentLoop.Agent.constructor` | harness/src/agent.rs:58-121 | starts from the resumed session when it belongs to the task, afresh otherwise, with no request spent |
| `AgentLoop.Agent.RunCalls` | harness/src/agent.rs:374-463 | one result per call, in order, with the counters accounting for every call and failure |
| `AgentLoop.Agent.Persist` | harness/src/agent.rs:489-493 | a successful save writes the live structured state; a failed one changes nothing |
| `AgentLoop.Agent.TakeTurn` | harness/src/agent.rs:198-312 | one turn does to the trace what the turn function says, spends one request, ends the run exactly when and as the turn calls for (no answer, an answer without calls, a stuck session or the last request), and leaves its checkpoint in the file exactly when it was recorded and the save succeeded |
| `AgentLoop.Agent.Finish` | harness/src/agent.rs:502-551 | the verdict, the final metrics and the terminal session file |
| `AgentLoop.Agent.Loop` | harness/src/agent.rs:198-313 | the loop ends after exactly the number of requests the world allows, with the exit the world calls for, the clock included; its trace is the trace function of that many turns and its file the last checkpoint saved |
| `AgentLoop.Agent.Run` | harness/src/agent.rs:145-340 | a whole run: number of requests and exit are determined by the world, recorded requests are one fewer exactly when unanswered, the conversation is the run of its steps and paired, and the file left holds the live session and is resumable exactly when the run did not end finished and passing, or is the last checkpoint saved when the final save fails |
| `AgentLoop.CheckpointTakenUp` | harness/src/agent.rs:305-308 | after any number of turns without a final save, a later run of the task starts from the state of the conversation at the last checkpoint saved, or from what the first run found |
| `AgentLoop.StepsAreValid` | harness/src/agent.rs:206-313 | every step of every run is a turn, note or path record, and every recorded turn answers each of its calls |
| `AgentLoop.ConversationOfRun` | harness/src/agent.rs:198-313 | the conversation left by a run is the context engine run on its steps, and it is paired |
| `AgentRuns.RunEnds` | harness/src/agent.rs:198-313 | every world ends every run after one number of requests, at most the ceiling |
| `AgentRuns.EarlierTurns` | harness/src/agent.rs:198-313 | every turn but the last was answered with calls and not stuck, and clock and ceiling let the next one start |
| `AgentRuns.RepeatingRunIsCaught` | harness/src/agent.rs:195-295 | a world that repeats its answer and outcomes from turn s on ends the run by turn s + 5 |
| `AgentRuns.RunThenStart` | harness/src/agent.rs:58-121 | a run and the start of a later one from its file: with the final save made, state and session are taken up exactly when the first did not end finished and passing, and otherwise the later one starts afresh; with the final save failed, the last checkpoint saved is taken up |
| `AgentRuns.FinishedWithNothingRecorded` | harness/src/agent.rs:263-268 | a fresh run whose first answer asks for nothing ends there, finished, with its structured state unchanged |
| `AgentRuns.RunTwice` | harness/src/agent.rs:69-103 | two runs in a row: the evidence after the second is the log of both, capped once, when the first left unfinished work |
| `JsonText.UnitsInjective` | scripts/guard-approval-acceptance.py:252-258 | joined strings with equal UTF-16 are equal |
| `JsonText.EscapeUnitsReadable` | scripts/guard-approval-acceptance.py:252-258 | an escaped string ends at its first bare quote and gives back its code units |
| `JsonText.EncodeInjective` | scripts/guard-approval-acceptance.py:267-268 | UTF-8 encoding is injective on code point strings |
| `CanonicalReadable.NumberReadable` | scripts/guard-approval-acceptance.py:258 | equal number texts before a delimiter are the same number and the same rest |
| `CanonicalReadable.QuotedIff` | scripts/guard-approval-acceptance.py:252-258 | two strings are spelled alike if and only if they are the same UTF-16 |
| `CanonicalReadable.SplitPairIsAmbiguous` | scripts/guard-approval-acceptance.py:252-258 | a split surrogate pair and its code point are different strings with one spelling |
| `CanonicalReadable.Readable` | scripts/guard-approval-acceptance.py:241-258 | canonical text is uniquely readable: equal texts before a delimiter are equal values and equal rests |
| `ApprovalDigest.SortAscending` | scripts/guard-approval-acceptance.py:250-254 | sorting distinct keys gives strictly ascending keys |
| `ApprovalDigest.CanonicalIff` | scripts/guard-approval-acceptance.py:241-258 | canonical texts are equal if and only if the values are, members in any order |
| `ApprovalDigest.CanonicalPrintable` | scripts/guard-approval-acceptance.py:241-258 | canonical text is printable ASCII, so it holds no NUL |
| `ApprovalDigest.PayloadIff` | scripts/guard-approval-acceptance.py:260-268 | approval payloads are equal if and only if tool and arguments are, even when a tool name holds a NUL |
| `ApprovalDigest.DialectsCanDisagree` | crates/aiec-core/src/lib.rs:886-909 | a value the two sides spell differently |
| `ApprovalDigest.DialectsAgreeIff` | crates/aiec-core/src/lib.rs:886-909 | the client's canonical text of a value is the control plane's text of the value it decoded if and only if the two values are equal, numbers as each side spells them, and every string is ASCII without DEL |
| `Census.TallyCounts` | benchmarks/aiecbench/observe.py:114 | the tally of a state grows by the number of rows in it |
| `Census.AddRowsConcat` | benchmarks/aiecbench/observe.py:113-120 | counting page by page agrees with counting all rows at once |
| `Census.SandboxCensus` | benchmarks/aiecbench/observe.py:71-153 | for every server the census ends; it counts if and only if the listing ends within 500 pages through distinct cursors, and then counts every row of every page |
| `Listing.PastRow` | crates/aiec-storage/src/lib.rs:216-225 | paging from a row of the ordered table resumes right behind it |
| `Listing.PageOf` | crates/aiec-storage/src/lib.rs:202-245 | page k is the k-th slice of the table, with a cursor exactly when rows remain |
| `Listing.ListingCompletes` | crates/aiec-storage/src/lib.rs:202-245 | the listing ends after exactly the needed pages with distinct cursors and lists every row once |
| `Listing.CensusOfListing` | benchmarks/aiecbench/observe.py:71-153 | against the control plane's listing the census is the summary of the whole table when it needs at most 500 pages and a refusal otherwise |
| `Listing.LeakDeltaExact` | benchmarks/aiecbench/observe.py:420-459 | between two counted censuses the delta is exactly the ids live at the end and not at the start when neither list was cut, and is withheld whenever either was |
| `Listing.LeakBetween` | benchmarks/aiecbench/observe.py:420-459 | two censuses of the listing and their delta: refused exactly when either needs more than 500 pages, and exact otherwise |
| `RetryingClient.Client.constructor` | benchmarks/aiecbench/client.py:116-123 | counters start at zero |
| `RetryingClient.Client.Request` | benchmarks/aiecbench/client.py:168-220 | the loop makes exactly the exchange the answers call for, returns the last answer with the statuses retried, and moves both counters exactly |
| `RetryingClient.ExchangeIsBounded` | benchmarks/aiecbench/client.py:168-220 | the number of sends is determined by the answers and at most max_retries + 1 |
| `RetryingClient.ExchangeExists` | benchmarks/aiecbench/client.py:168-220 | for every sequence of answers some number of sends completes the call |
| `RetryingClient.WorkIsNotDuplicated` | benchmarks/aiecbench/client.py:168-220 | of the sends of a request that may start work at most the last meets anything but a 429, and the denials counted are the sends before it |
| `StreamCodec.FragmentsJoin` | scripts/guard-topology-b-acceptance.py:414-415 | the fragments of a text join back to it and there is at least one |
| `StreamCodec.WriteStream` | scripts/guard-topology-b-acceptance.py:305-335 | the writing loops emit the specified events |
| `StreamCodec.ReadStream` | scripts/guard-topology-b-acceptance.py:437-478 | the reading loop folds the events into content, slots and finish reason, and counts them with the end marker |
| `StreamCodec.RoundTrip` | scripts/guard-topology-b-acceptance.py:305-478 | for every reply the reader rebuilds content, calls in order with names and argument text, and the matching finish reason |
| `StreamCodec.CallsSurviveIff` | scripts/guard-topology-b-acceptance.py:437-478 | the calls come back exactly, ids included, if and only if no id is empty |

## Left out

- Model providers, the tool registry and dispatch, HTTP and GUI detection: only their outcomes appear.
- Validation subprocesses, git evidence, provenance, the event log and atomic file renames: a run sees
  validation outcomes and whether a save succeeded.
- Clock, CPU and memory readings and the byte counters among the metrics: they decide nothing else.
- `wall_seconds * 1000` and `limit * 2` overflow: the products are taken exactly.
- `seen_digests`, `tool_bytes` and `build_messages` of the context: bookkeeping beside the transcript
  and one request's framing around it.
- Secret redaction of tool output and failures: it depends on the process environment and is the
  identity here.
- SHA-256 over the approval payload and the task digest of `harness/src/task.rs`: the payload is what
  is proved unambiguous, and the digest is an opaque text.
- How Python and Rust round and print a given double: the two spellings are inputs of
  `DialectsAgreeIff`.
- The JSON envelope of a stream event, percent-encoding of cursors, and retry delays: the events,
  cursors and answers themselves are modelled.
- Two censuses of a listing that changes while it is paged: `CensusOfListing` is about a fixed table.
- `leak_delta`'s capacity part and the other observations of the benchmark: field copies.
- The control plane, scheduler, leases, Guard policy, benchmark statistics and the website: they would
  add easy members only, or their logic is input and output.
- ContextRuns.AmpleRunStaysWithinBudget: assumes 4068 tokens available; the exact condition for any
  window is ContextRuns.TurnRoomIff.
- ContextCopies.OneProgressIffNeverCompacted: assumes 4068 tokens available; the exact condition for any
  window is ContextCopies.OneProgressIff.
- TaskState.ObserveTurn: the state is a value that the caller stores back, not an object updated in
  place, so aliasing is not captured.
