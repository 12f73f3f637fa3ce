# Durable execution, its gates and its infrastructure twins

This project models the parts of meta-agent that have to stay right when workers crash, messages come twice and several
processes share one database, and proves what they promise. Integers are unbounded, floating-point quantities are exact
reals, and a clock that is read does not go back.

| module | what it models |
|---|---|
| `Usage` | the LLM usage table and the spend the budget gate compares |
| `RunState`, `Gates`, `Graph` | the immutable run state, the human gate, the budget policy, the orchestration graph |
| `Chain` | what one task's checkpoint log can look like, and what follows for gates and budget |
| `Budget` | what every guarded node does, told by the task's own budget rule |
| `Replay` | a log as the run nobody interrupts |
| `TaskStore` | one task's row, checkpoints and outbox keys, with each guarded statement as one atomic step |
| `Execution` | any number of workers, operators and sweepers acting on those rows, with a crash possible between any two writes |
| `Durability`, `Recovery` | safety over every run of `Execution`, and equality of a recovered run with an uninterrupted one |
| `Worker` | the worker's own loop, proved to be a run of `Execution` |
| `Progress` | what one undisturbed delivery achieves from any reachable state |
| `Provenance` | what each write that lands goes back to, and when a terminal row is final |
| `Overtaken` | a concrete run in which a late pause write lets a verdict miss its pause |
| `Realization` | which chains are logs of runs |
| `Wiring` | when the budget gate can pause twice |
| `Breaker`, `RedisBreaker`, `BreakerTwins` | the in-process and the cross-replica circuit breaker, and when they agree |
| `TokenBucket`, `RedisTokenBucket` | the in-process and the cross-replica rate limiter, and when they agree |
| `StampOrder` | what the cross-replica limiter bounds when scripts overtake each other |
| `AuditPaging` | keyset paging over the audit table |
| `Outbox` | the outbox relay: claim, publish, mark, back off |
| `Utf8Truncation` | the tool executor's byte cap |
| `PromptRegistry`, `PromptCache` | versioned prompts, their seeding, and the read-through cache |

A run is a sequence of actions or events of any length; an action that is not enabled changes nothing, so a statement
over all sequences is a statement over all runs. Classes carry the code's own loops and in-place updates and are proved
equal to specification functions; the lemmas are about those functions and their runs.

## What the proofs found

- The unguarded state update of a dispatching worker can put a terminal row back to running when the row became terminal
  after the worker read it. Terminal rows absorb exactly in the runs where no such write lands
  (`Durability.TerminalAbsorbsIffNoRevival`); `Durability.RevivalHappens` gives a run where one does. From a given state on
  a terminal row is final if and only if no worker that read it in another state than running is still about to enter
  (`Provenance.FinalIffNobodyPoised`).
- A worker that read its own pause can write the row's pause after another worker has moved the log past it. Then the row
  waits for approval over a log that does not (`Durability.PausedRowIffFresh` says exactly when), and a verdict can be merged
  onto a checkpoint that was never paused (`Overtaken.VerdictCanMissItsPause`). The gateway checks the row and not the
  checkpoint it reads. Every verdict is merged onto a pause if and only if each that lands was given by an operator who
  read a paused checkpoint (`Durability.VerdictsMetIffReadPaused`).
- The budget gate is meant to pause a task once. Whether it does depends on the usage repository being wired: runs wired
  alike pause at most once if and only if no step is wired, one at least two entries later is not, and one at least two
  entries after that is again (`Wiring.PausesOnceIffNoGap`). In the gap the approval of the first pause waits at a guarded
  node that does not see it, and a human gate behind the node takes it.
- Every chain in which no decision comes before the first pause is the log of a run (`Realization.LogsAreExactlySuchChains`),
  so a rule that such a chain breaks is one that the protocol does not keep.
- The Redis breaker truncates its cooldown to whole milliseconds, so with a fractional cooldown it disagrees with the
  in-process breaker (`BreakerTwins.TwinsAgreeIffWholeMs`). Truncating the window makes no difference.
- The in-process breaker cuts its retry hint to whole milliseconds, so a caller who waits exactly that long can be
  rejected again (`Breaker.HintIsEnoughIffWhole`); the Redis hint is exact (`RedisBreaker.HintIsExact`).
- A probe that is never heard of again, with nothing else in flight, keeps the in-process breaker half open for good, and the
  Redis breaker only until its state key expires (`Breaker.ProbeIsAlone`, `RedisBreaker.LostProbeExpires`).
- A failed outbox row shows `max(1, max_attempts)` attempts, which is `max_attempts` exactly when that is at least one
  (`Outbox.FailedAtTheLimitIffPositive`).
- Seeding is documented as idempotent. It is exactly when seeds of one prompt agree in content hash
  (`PromptRegistry.SeedingIsIdempotentIffConsistent`); `PromptRegistry.QuarrellingSeedsGrow` shows two that do not.
- A client of the Redis rate limiter stamps its call before the script runs, so scripts can run out of the order of their
  stamps. Each stamp that goes back resets the bucket's clock, and the way up again is refilled once more. The configured rate
  holds over the stamps if and only if no stretch of them rises in all by more than its ends are apart
  (`StampOrder.RateKeptIffSteady`); four overtaking calls break it (`StampOrder.OvertakingScriptsBreakRate`).
- The Redis rate limiter's key expires by the server's clock. The twins agree if and only if no hash expires before the stamps
  would have filled its bucket (`RedisTokenBucket.TwinsAgreeIffUnhurried`).

## Assumptions

- Node bodies and task payloads do not write the keys the gates own (`Disciplined`). For replay, bodies and routers treat
  the two workspace keys as opaque (`WorkspaceOpaque`); whatever else a step observes, the usage log included, is part of
  what the run is fed, and the uninterrupted run it is compared with observes the same at the same entry.
- Whether a usage repository is wired is the same for every worker of one task (`OneWiring`); only `Chain.BudgetPausesOnce`
  and `Recovery.RunsPauseForBudgetOnce` use it.
- A breaker's callers share one clock, which its scripts see in order and by which its keys expire. The in-process limiter
  reads its clock under its lock. The Redis limiter's stamps may come in any order.
- What is said of feedback holds where bodies leave the feedback key alone (`KeepsFeedback`).

## Model

| member | source | states |
|---|---|---|
| `Usage.AggregateIsOrderedGroupBy` | src/meta_agent/infra/persistence/llm_usage_repo.py:216-245 | the aggregate has one bucket a distinct step kind (missing kinds under one key), each with the cost, tokens and calls of exactly its rows, most tokens first and by key among equals |
| `Usage.BucketsSumToFlat` | src/meta_agent/core/orchestration/budget_gate.py:97-100 | any bucket list a GROUP BY may return, in any order, sums to the flat cost of the rows with NULL as 0 |
| `Usage.SpendIsFlatSum` | src/meta_agent/core/orchestration/budget_gate.py:97-100 | the spend the gate compares is the flat sum of that task's usage rows |
| `Usage.RecordIsIdempotent` | src/meta_agent/infra/persistence/llm_usage_repo.py:74-94 | recording a row again changes nothing, and a new row raises its own task's spend by its cost and no other's |
| `Usage.UsageRepository.Record` | src/meta_agent/infra/persistence/llm_usage_repo.py:116-146 | a row is added unless its identifier is taken |
| `Usage.UsageRepository.AggregateForTask` | src/meta_agent/infra/persistence/llm_usage_repo.py:216-245 | what is returned is that ordered GROUP BY of the task's rows and sums to their flat cost |
| `Usage.RowCountsInItsBucket` | src/meta_agent/infra/persistence/llm_usage_repo.py:216-245 | a row adds its cost, its tokens and one call to the bucket of its step kind, or to `unspecified` if it has none, and nothing to any other; NULL adds zero |
| `Graph.StepKeepsPosition` | src/meta_agent/core/orchestration/graph.py:134-178 | on a compiled graph a step keeps finished exactly at END and a paused state on a registered node, adds one to the sequence, and fails only because a node raised or named an unknown successor |
| `Graph.StepFollowsNode` | src/meta_agent/core/orchestration/graph.py:120-178 | a step is what its node makes it: an error when it raises; a pause in place without error; else the merged state, with the node's error, at the successor it names, or its static edge does, or its router picks on the merged state, unless that is unknown |
| `Graph.RunEndsSettled` | src/meta_agent/core/orchestration/graph.py:180-189 | a run that returns has finished or paused, in position, within the step budget; otherwise a node raised, a successor was unknown or the budget ran out |
| `Graph.RunIsIteration` | src/meta_agent/core/orchestration/graph.py:180-189 | a run is the step applied max_steps times, and exceeds its budget exactly when that leaves a state that is neither finished nor paused |
| `Graph.Graph.AddNode` | src/meta_agent/core/orchestration/graph.py:77-82 | reserved and taken names are refused and change nothing; any other is registered |
| `Graph.Graph.SetEntry` | src/meta_agent/core/orchestration/graph.py:84-87 | exactly the registered names can become the entry |
| `Graph.Graph.AddEdge` | src/meta_agent/core/orchestration/graph.py:89-95 | an edge joins registered nodes (or END) and never replaces another; each refusal changes nothing |
| `Graph.Graph.AddConditional` | src/meta_agent/core/orchestration/graph.py:97-101 | a router is attached to a registered node that has no edge yet |
| `Graph.Graph.Compile` | src/meta_agent/core/orchestration/graph.py:103-114 | succeeds exactly when there is an entry and every node has an outgoing edge, and otherwise names what is missing |
| `Graph.Graph.Run` | src/meta_agent/core/orchestration/graph.py:180-189 | the step loop computes the bounded run of the step function |
| `Chain.ChainKeepsPosition` | src/meta_agent/core/orchestration/state.py:52-85 | in every checkpoint of a chain finished holds exactly at END and a paused state sits on a registered node |
| `Chain.FinishedBy` | src/meta_agent/core/orchestration/graph.py:164-178 | every finished checkpoint was brought to END by a node's step and carries the error that node returned |
| `RunState.MergeBringsVerdict` | src/meta_agent/infra/persistence/approval_gateway.py:231-248 | a merge brings the decision and its feedback, ends the pause, and leaves every other key, the position and the identity of the task as they were |
| `Chain.PassageHasOwnDecision` | src/meta_agent/core/orchestration/human_gate.py:98-138 | every passage through a gate consumes a merged decision that no earlier passage consumed |
| `Chain.LeavingHumanGate` | src/meta_agent/core/orchestration/human_gate.py:98-132 | a run leaves a human gate only on a verdict merged before, still unconsumed, which decides the successor |
| `Chain.HumanGateWaits` | src/meta_agent/core/orchestration/human_gate.py:132-138 | a human gate pauses exactly while no decision waits, under its own identifier, and changes nothing else |
| `Chain.ApprovalsConserved` | src/meta_agent/core/orchestration/budget_gate.py:64-88 | gate passages plus a pending decision never exceed the decisions merged |
| `Chain.PassedWasApproved` | src/meta_agent/core/orchestration/budget_gate.py:64-88 | the passed flag is set only by an approved budget gate earlier in the chain |
| `Chain.OverspendWasApproved` | src/meta_agent/core/orchestration/budget_gate.py:58-123 | a guarded body runs at or above its positive threshold only after an approved budget gate, itself after its own merged approval |
| `Chain.BudgetPausesOnce` | src/meta_agent/core/orchestration/budget_gate.py:64-123 | with one wiring of the usage repository no two checkpoints of a chain are budget pauses |
| `Chain.GateActsIffOver` | src/meta_agent/core/orchestration/budget_gate.py:58-123 | on any state with no decision waiting for it, the budget gate acts if and only if the spend has reached a positive threshold and the gate was not passed; it pauses exactly under gate_on_threshold and else ends with an error |
| `Budget.SeedIsTrusted` | src/meta_agent/worker/runner.py:600-648 | the first state is the task's, at the start, with the task's own mode, policy and threshold over its payload and every other key from the payload or the session |
| `Budget.PassedIffApproved` | src/meta_agent/core/orchestration/budget_gate.py:64-96 | the passed flag is set exactly when the budget gate has consumed an approval before |
| `Budget.GuardedStepsAreRuled` | src/meta_agent/core/orchestration/budget_gate.py:58-123 | each step of a guarded node is what the task's own policy and threshold, its recorded spend and the approvals consumed before call for: a waiting decision is consumed, else the body runs exactly while unwatched, under the threshold or approved, else it pauses or aborts by the policy |
| `Budget.PausesExactlyOverBudget` | src/meta_agent/core/orchestration/budget_gate.py:89-123 | a guarded step is a budget pause if and only if the task gates, its spend has reached its threshold, no decision waits and none was approved before |
| `Replay.StepSimilar` | src/meta_agent/worker/runner.py:319-330 | with nodes to which the workspace keys are opaque, states that differ only in those keys step alike on the same observations |
| `Replay.OpaqueBodiesSuffice` | src/meta_agent/core/orchestration/budget_gate.py:58-123 | a graph has such nodes as soon as its bodies and routers do: human gates and budget guards read no workspace key |
| `Replay.LogIsScheduledRun` | src/meta_agent/worker/runner.py:341-343 | every chain is, up to the workspace keys, the run without interruption that makes the same observations and takes each decision at the same entry, and that run goes on as from its last entry |
| `Replay.LogIsUninterruptedRun` | src/meta_agent/worker/runner.py:341-343 | a chain whose decisions fall on pauses is the run without interruption that takes the next decision at each pause; once finished, more steps or decisions add nothing |
| `TaskStore.LatestIsLast` | src/meta_agent/infra/persistence/checkpoint_repo.py:39-42 | on a log numbered 1..n the newest checkpoint is the last and the free numbers are those above n |
| `TaskStore.BuiltResultReports` | src/meta_agent/worker/runner.py:555-598 | a result tells how the run ended: the output if it is a dictionary and none else, the last sequence number, and the error, which makes it failed |
| `TaskStore.Store.WriteState` | src/meta_agent/infra/persistence/task_repo.py:108-110 | the unguarded state update |
| `TaskStore.Store.PauseRow` | src/meta_agent/infra/persistence/task_repo.py:251-272 | lands exactly on a running row |
| `TaskStore.Store.LeavePause` | src/meta_agent/infra/persistence/task_repo.py:274-317 | lands exactly on a paused row |
| `TaskStore.Store.WriteResult` | src/meta_agent/infra/persistence/task_repo.py:319-349 | state and result land together, exactly on a row that is not terminal, and only with a terminal state |
| `TaskStore.Store.Append` | src/meta_agent/infra/persistence/checkpoint_repo.py:51-87 | a checkpoint is appended exactly when its number is free |
| `TaskStore.Store.FindLatest` | src/meta_agent/infra/persistence/checkpoint_repo.py:89-93 | the scan finds the checkpoint with the highest number |
| `TaskStore.Store.Resolve` | src/meta_agent/infra/persistence/approval_gateway.py:162-228 | the three writes of a verdict, rolled back together when one is refused |
| `Execution.InvHolds` | src/meta_agent/worker/runner.py:255-412 | over every interleaving the log is a chain, outbox keys match the merged decisions, results match terminal states, and every worker and operator holds what it read from the log |
| `Execution.PersistKeepsInv` | src/meta_agent/worker/runner.py:651-667 | a worker's checkpoint extends the chain or loses to the unique constraint and leaves the rows alone |
| `Execution.CommitKeepsInv` | src/meta_agent/infra/persistence/approval_gateway.py:175-228 | a verdict extends the chain, and lands only if it was computed from the newest checkpoint |
| `Provenance.OthersAreUntouched` | src/meta_agent/worker/runner.py:255-412 | no action changes what another worker or operator holds |
| `Provenance.FailureEndsWorker` | src/meta_agent/worker/runner.py:341-343 | a worker whose node fails or whose checkpoint is refused stops there and leaves the rows alone |
| `Provenance.LandedVerdictWasChecked` | src/meta_agent/infra/persistence/approval_gateway.py:171-176 | every decision that lands was given by an operator who had found the row waiting for approval, and is the one given |
| `Provenance.GivenUpIsCounted` | src/meta_agent/worker/runner.py:669-720 | a task given up is failed without output, counts the checkpoints its worker read, keeps its log, and had been found neither succeeded, failed nor cancelled |
| `Provenance.RequeuedWasRunning` | src/meta_agent/worker/runner.py:158-211 | every recovery row of the outbox was enqueued by a sweep that had found the row running, and the sweep changed nothing else |
| `Durability.LogIsOneChain` | migrations/versions/0001_initial_schema.py:130 | in every interleaving the log is one chain numbered 1..n without gap or repeat, each entry a step or a decision merge of the one before up to the workspace keys, each in position |
| `Durability.LogOnlyGrows` | src/meta_agent/infra/persistence/checkpoint_repo.py:51-87 | no action ever changes or removes a checkpoint |
| `Realization.LogsAreExactlySuchChains` | src/meta_agent/infra/persistence/approval_gateway.py:175-228 | a log, with how each entry came to be, is that of some run if and only if it is a chain in which every decision comes after some pause |
| `Durability.OneResolutionPerPause` | src/meta_agent/infra/persistence/task_repo.py:274-317 | between two landed approvals, rejections, aborts or expiries there is always another pause write |
| `Durability.PauseTransitions` | src/meta_agent/infra/persistence/approval_gateway.py:130-228 | only a pause write enters the pause; a landed decision resumes the row, an abort cancels it and an expiry expires it, and none touches its result |
| `Durability.ClosedStaysClosed` | src/meta_agent/infra/persistence/approval_gateway.py:130-160 | a landed abort or expiry adds no checkpoint, outbox row or result, and the row is cancelled or expired at every later moment until an unguarded update lands on it |
| `Durability.VerdictsAreWhole` | src/meta_agent/infra/persistence/approval_gateway.py:205-228 | a resume row exists exactly for each merged decision checkpoint, and no outbox key repeats |
| `Durability.TerminalAbsorbsIffNoRevival` | src/meta_agent/infra/persistence/task_repo.py:108-140 | over a run every terminal row stays as it is if and only if no unguarded update lands on one |
| `Durability.RevivalHappens` | src/meta_agent/worker/runner.py:269-343 | there is a run, for every graph, in which a terminal row does not stay |
| `Provenance.FinalIffNobodyPoised` | src/meta_agent/worker/runner.py:269-343 | a terminal row stays as it is whatever happens from there on if and only if no worker that read another state than running has yet to enter |
| `Durability.ResultsMatch` | src/meta_agent/infra/persistence/task_repo.py:319-349 | without such an update a result exists exactly on succeeded and failed rows, with the matching status |
| `Durability.ResultWrittenOnce` | src/meta_agent/infra/persistence/task_repo.py:319-349 | without such an update a row with a result never changes again |
| `Durability.PausedRowIffFresh` | src/meta_agent/worker/runner.py:344-365 | over a run a row waiting for approval always sits on a paused newest checkpoint if and only if no overtaken pause write lands |
| `Durability.VerdictsMetIffReadPaused` | src/meta_agent/infra/persistence/approval_gateway.py:175-228 | every decision of a run's log was merged onto a paused checkpoint if and only if every operator whose decision landed had read a paused checkpoint |
| `Durability.VerdictsOnlyAtPauses` | src/meta_agent/infra/persistence/approval_gateway.py:175-203 | in runs where no overtaken pause write lands every decision is merged onto a paused checkpoint |
| `Overtaken.VerdictCanMissItsPause` | src/meta_agent/worker/runner.py:344-365 | there is a run in which an overtaken pause write lands and an operator who read a checkpoint that is not paused has a decision merged onto it |
| `Recovery.RunsAreFed` | src/meta_agent/worker/runner.py:341-343 | every log has observations and decisions that it was fed, so what is said of fed runs is said of all |
| `Recovery.RecoveredLogIsReference` | src/meta_agent/worker/runner.py:600-649 | in every reachable state, whatever crashed, raced and was resumed, the log is the uninterrupted run given the same observations and decisions, which goes on as from the newest checkpoint |
| `Recovery.RecoveredResultIsReference` | src/meta_agent/worker/runner.py:555-598 | in every reachable state a stored result that does not come from giving up is that of a state in which the uninterrupted run finished |
| `Recovery.RunsAgree` | src/meta_agent/worker/runner.py:309-412 | two runs with the same start, observations and decisions have the same log as far as both have come, however they were cut |
| `Recovery.MetRunsAreAnswered` | src/meta_agent/worker/runner.py:344-365 | where every decision meets its pause, the log is the uninterrupted run that takes the next decision at each pause, and to its end once finished |
| `Recovery.MetResultsAreAnswered` | src/meta_agent/worker/runner.py:555-598 | there the stored result of a task that was not given up is that run's: status, output, error and node sequence |
| `Recovery.RunsFailOnNodeErrors` | src/meta_agent/worker/runner.py:555-598 | in every reachable state a task that was not given up has failed if and only if the node that led it to END returned an error, and with that error |
| `Recovery.FinishedRunsAgree` | src/meta_agent/worker/runner.py:309-412 | two such runs with the same start and the same order of decisions that both finish have the same log, if they observed the same or their nodes observe nothing but the state |
| `Recovery.UnobservedRunsNeedNoWorld` | src/meta_agent/worker/runner.py:600-649 | nodes that observe nothing but the state recover the same run whatever the world shows |
| `Progress.Redeliver` | src/meta_agent/worker/runner.py:255-412 | from every reachable state whose row is not terminal, one undisturbed delivery with a workspace takes the log as far as the uninterrupted run gets on the same observations; the row then holds that run's result where it finishes, waits for approval where it pauses and is running where it raises or has more to do; and the state is reachable |
| `Recovery.RunsConserveApprovals` | src/meta_agent/infra/persistence/approval_gateway.py:231-248 | conservation of approvals in every interleaving |
| `Recovery.RunsGateOnVerdicts` | src/meta_agent/core/orchestration/human_gate.py:98-138 | in every interleaving each departure from a human gate has its own earlier decision, with its resume row in the outbox |
| `Recovery.RunsHandOnFeedback` | src/meta_agent/core/orchestration/human_gate.py:98-132 | in every reachable state each departure from a human gate leaves the decision cleared, a rejection flagged by the way it went, and the feedback merged with the very decision it left on, for the next node to read |
| `Recovery.RunsOverspendOnApproval` | src/meta_agent/core/orchestration/budget_gate.py:58-123 | in every interleaving a guarded body runs over its threshold only after an approved budget gate, which consumed an operator's own approval committed before with its resume row |
| `Recovery.RunsPauseForBudgetOnce` | src/meta_agent/core/orchestration/budget_gate.py:64-123 | in every interleaving with one wiring the budget gate pauses at most once |
| `Recovery.RunsKeepBudgetRule` | src/meta_agent/core/orchestration/budget_gate.py:58-123 | in every reachable state each step of a guarded node kept the task's budget rule |
| `Recovery.RunsPauseOnlyOverBudget` | src/meta_agent/core/orchestration/budget_gate.py:89-123 | in every reachable state each budget pause was of a task that gates and had spent its threshold |
| `Wiring.PausesOnceIffNoGap` | src/meta_agent/core/orchestration/budget_gate.py:58-123 | for each wiring of the usage repository over the entries of a log: every run wired so, of every compiled graph with disciplined nodes, has at most one budget pause if and only if there are no entries k, i, m with k + 2 <= i and i + 2 <= m that are wired, unwired and wired |
| `Wiring.GapPausesTwice` | src/meta_agent/core/orchestration/budget_gate.py:58-123 | for each such k, i and m there is a run wired so with two budget pauses |
| `Worker.Drive` | src/meta_agent/worker/runner.py:341-343 | the step-and-persist loop appends exactly the states of the run it drives, touches nothing else, and is a run of the machine |
| `Worker.RunGraph` | src/meta_agent/worker/runner.py:309-412 | loads the newest state, drives it and concludes, leaving the log and the row the driven run calls for and the outbox alone, as a run of the machine |
| `Worker.HandleMessage` | src/meta_agent/worker/runner.py:255-307 | a delivery runs the graph exactly when the row is not terminal and no required workspace is missing or fails; otherwise it changes nothing |
| `Breaker.BucketState.AskGate` | src/meta_agent/infra/circuitbreaker/in_memory.py:126-150 | pass, probe or reject, with the state change of each |
| `Breaker.BucketState.RecordOutcome` | src/meta_agent/infra/circuitbreaker/in_memory.py:152-181 | the outcome's effect, with the pruning loop |
| `Breaker.AlwaysShaped` | src/meta_agent/infra/circuitbreaker/in_memory.py:126-150 | with any overlap of calls half-open always has its probe flag, open always has an instant, so the gate never meets a state it cannot answer |
| `Breaker.ProbesAreSpaced` | src/meta_agent/infra/circuitbreaker/in_memory.py:126-150 | any two probe admissions are at least a cooldown apart |
| `Breaker.NothingPassesWhileOpen` | src/meta_agent/infra/circuitbreaker/in_memory.py:128-181 | a call let through before the cooldown after a trip has passed needs a probe, in flight at the trip, that succeeded in between |
| `Breaker.NothingPassesBesideProbe` | src/meta_agent/infra/circuitbreaker/in_memory.py:126-181 | with any overlap, after a probe admission or a trip no call passes before some probe has succeeded |
| `Breaker.ProbeIsAlone` | src/meta_agent/infra/circuitbreaker/in_memory.py:145-150 | from a probe admission until some call ends every other caller is rejected without a hint |
| `Breaker.SuccessfulProbeCloses` | src/meta_agent/infra/circuitbreaker/in_memory.py:152-181 | after a probe's success every call passes until failures reach the threshold or another probe fails |
| `Breaker.FailedProbeReopens` | src/meta_agent/infra/circuitbreaker/in_memory.py:126-169 | a probe's failure starts the cooldown anew: calls are rejected with a hint until then, and the first after it is the next probe |
| `Breaker.DequeIsWindow` | src/meta_agent/infra/circuitbreaker/in_memory.py:152-181 | the pruned deque is the full history of counted failures since the last probe outcome, cut to the window ending at the newest |
| `Breaker.TripsExactlyAtThreshold` | src/meta_agent/infra/circuitbreaker/in_memory.py:173-181 | a counted failure opens the breaker exactly when the failures in its window reach the threshold |
| `Breaker.HintIsEnoughIffWhole` | src/meta_agent/infra/circuitbreaker/in_memory.py:132-141 | waiting out the hint of an open breaker is enough exactly when the rest of the cooldown is a whole number of milliseconds or at most one; one millisecond more always is |
| `RedisBreaker.TtlOutlasts` | src/meta_agent/infra/circuitbreaker/redis_breaker.py:171-179 | the time to live is the least whole number of seconds that covers twice window and cooldown, and so longer than either |
| `RedisBreaker.Keys.GateScript` | src/meta_agent/infra/circuitbreaker/redis_breaker.py:63-91 | the gate script over the keys as they read after expiry |
| `RedisBreaker.Keys.RecordScript` | src/meta_agent/infra/circuitbreaker/redis_breaker.py:95-141 | the record script, with its pruning loop and its expiry renewals |
| `RedisBreaker.AlwaysShaped` | src/meta_agent/infra/circuitbreaker/redis_breaker.py:63-91 | half-open always has its probe flag and a probe is only ever admitted from open, so the script's last branch is never taken |
| `RedisBreaker.ProbesAreSpaced` | src/meta_agent/infra/circuitbreaker/redis_breaker.py:63-141 | any two probe admissions are at least the cooldown, cut to whole milliseconds, apart, expiry included |
| `RedisBreaker.NothingPassesWhileOpen` | src/meta_agent/infra/circuitbreaker/redis_breaker.py:74-139 | key expiry never shortens the cooldown after an opening; only a probe in flight at the opening can |
| `RedisBreaker.NothingPassesBesideProbe` | src/meta_agent/infra/circuitbreaker/redis_breaker.py:63-139 | while the state key lives, after a probe admission or a trip no call passes before some probe has succeeded |
| `RedisBreaker.ProbeIsAlone` | src/meta_agent/infra/circuitbreaker/redis_breaker.py:86-88 | while the state key lives and no call ends every caller beside a probe is rejected without a hint |
| `RedisBreaker.SuccessfulProbeCloses` | src/meta_agent/infra/circuitbreaker/redis_breaker.py:104-112 | after a probe's success every call passes until failures reach the threshold or another probe fails |
| `RedisBreaker.FailedProbeReopens` | src/meta_agent/infra/circuitbreaker/redis_breaker.py:74-112 | a probe's failure starts the cooldown anew, and the first call after it is the next probe, or passes if the key has expired |
| `RedisBreaker.LostProbeExpires` | src/meta_agent/infra/circuitbreaker/redis_breaker.py:95-141 | the state key lives for its time from the last probe outcome or counted failure, whatever asks meanwhile, and once it is over calls pass |
| `RedisBreaker.TripTakesFreshFailures` | src/meta_agent/infra/circuitbreaker/redis_breaker.py:119-139 | between a trip or a probe's outcome and the next trip lie at least as many counted failures as the threshold |
| `BreakerTwins.TwinsAgreeIffNeverOutlived` | src/meta_agent/infra/circuitbreaker/redis_breaker.py:63-141 | with a whole-millisecond cooldown, over calls that do not overlap, both breakers give the same answers and hints throughout if and only if no open period outlives the state key |
| `BreakerTwins.FractionalCooldownDiffers` | src/meta_agent/infra/circuitbreaker/redis_breaker.py:171-179 | for every fractional cooldown there is a run in time on which they differ |
| `BreakerTwins.TwinsAgreeIffWholeMs` | src/meta_agent/infra/circuitbreaker/redis_breaker.py:171-179 | they agree on all runs in time if and only if the cooldown is a whole number of milliseconds |
| `TokenBucket.RateLimiter.AcquireKey` | src/meta_agent/infra/ratelimit/in_memory.py:74-107 | the reply and the key's bucket after one call; other keys keep theirs |
| `TokenBucket.TokensBounded` | src/meta_agent/infra/ratelimit/in_memory.py:83-107 | after every run every bucket holds between nothing and the burst |
| `TokenBucket.RateIsBounded` | src/meta_agent/infra/ratelimit/in_memory.py:74-107 | over every run, key and interval the cost granted is at most burst + rate times its length |
| `TokenBucket.RefillTwice` | src/meta_agent/infra/ratelimit/in_memory.py:86-92 | a refill on the way to a later one changes nothing |
| `TokenBucket.DenialsLeaveNoTrace` | src/meta_agent/infra/ratelimit/in_memory.py:89-107 | leaving a denied or invalid call out of a run changes no later reply |
| `TokenBucket.RepliesByCost` | src/meta_agent/infra/ratelimit/in_memory.py:74-107 | a cost below one is an error, one above the burst is denied without a hint, and every other denial has one |
| `TokenBucket.RemainingIsSpendable` | src/meta_agent/infra/ratelimit/in_memory.py:94-107 | a cost is granted to the key at the same instant if and only if it is at most what the reply before said remains |
| `TokenBucket.HintIsSufficientAndTight` | src/meta_agent/infra/ratelimit/in_memory.py:94-107 | with no grant in between the same cost is granted after the hinted wait and, when the hint exceeds 1 ms, still denied after a wait of 1 ms less |
| `RedisTokenBucket.Keys.Eval` | src/meta_agent/infra/ratelimit/redis_token_bucket.py:51-99 | the script over the key's hash as it reads after expiry |
| `RedisTokenBucket.Keys.AcquireKey` | src/meta_agent/infra/ratelimit/redis_token_bucket.py:130-148 | the client's reading of the script's three integers |
| `RedisTokenBucket.TtlOutlasts` | src/meta_agent/infra/ratelimit/redis_token_bucket.py:90-96 | the hash lives the least whole number of seconds that covers twice the time an empty bucket needs to fill |
| `RedisTokenBucket.TwinsAgree` | src/meta_agent/infra/ratelimit/redis_token_bucket.py:51-148 | over every run, with stamps in any order, both limiters return the same allowed, remaining and retry hint to the same stamps, expiry included, when the server's clock does not go back and no hash expires before the stamps would have filled its bucket |
| `RedisTokenBucket.PacedIsUnhurried` | src/meta_agent/infra/ratelimit/redis_token_bucket.py:90-96 | with stamps of one shared clock, and a server's clock at most twice as fast, no hash does |
| `RedisTokenBucket.TwinsAgreeIffUnhurried` | src/meta_agent/infra/ratelimit/redis_token_bucket.py:51-148 | for given instants of calls, all runs at them get the same replies from both if and only if no hash expires that early |
| `StampOrder.SpentWithinClimb` | src/meta_agent/infra/ratelimit/in_memory.py:83-107 | on stamps in any order, from any call of a key to any later one the in-process limiter grants no more than the burst and what all the rises of the stamps between them are worth |
| `StampOrder.RateKeptIffSteady` | src/meta_agent/infra/ratelimit/redis_token_bucket.py:130-148 | for given instants of calls, every run at them keeps every configured rate between any two stamps if and only if no stretch of stamps rises in all by more than its ends are apart |
| `StampOrder.OrderedIsSteady` | src/meta_agent/infra/ratelimit/redis_token_bucket.py:130-148 | stamps in order do not |
| `StampOrder.OvertakingScriptsBreakRate` | src/meta_agent/infra/ratelimit/redis_token_bucket.py:134-139 | four calls stamped 1000, 2000, 1000, 2000 in script order can be granted more than burst and rate allow |
| `AuditPaging.OrderByOrders` | src/meta_agent/infra/persistence/audit_repo.py:100-105 | ordering drops and repeats no row and leaves them strictly in (occurred_at, event_id) order |
| `AuditPaging.PageIsPage` | src/meta_agent/infra/persistence/audit_repo.py:72-148 | a page is in order, holds only matching rows past the cursor, and leaves one out only when full and behind everything on it |
| `AuditPaging.AuditRepository.Append` | src/meta_agent/infra/persistence/audit_repo.py:46-60 | a row is appended exactly when its identifier is free |
| `AuditPaging.AuditRepository.ListForTaskSince` | src/meta_agent/infra/persistence/audit_repo.py:72-108 | the ascending page of one task past the cursor |
| `AuditPaging.AuditRepository.ListFiltered` | src/meta_agent/infra/persistence/audit_repo.py:110-148 | the descending page of a window, by optional action and task, past the cursor |
| `AuditPaging.QuietReadIsTheQuery` | src/meta_agent/infra/persistence/audit_repo.py:72-148 | rows read completely, each once and in order, are exactly the one query without a limit |
| `AuditPaging.ListAllTaskAudits` | src/meta_agent/api/services/task_observability.py:50-72 | for every page size of at least one the loop ends; with rows appended between queries it returns each row once, in order, and misses none that was there at the start; with none appended it returns exactly the matching rows |
| `AuditPaging.ListAudits` | src/meta_agent/api/routers/queries.py:83-125 | a page with a next cursor exactly when it is full, at its last row |
| `AuditPaging.FollowCursor` | src/meta_agent/api/routers/queries.py:119-125 | a client that follows the cursor reads the same, in descending order |
| `Outbox.OutboxRepository.Enqueue` | src/meta_agent/infra/persistence/outbox_repo.py:44-51 | the event is stored as it is handed in and due from its creation, exactly when identifier and idempotency key are free |
| `Outbox.KeysAreUnique` | src/meta_agent/infra/persistence/outbox_repo.py:44-51 | in every run no two rows share tenant and idempotency key |
| `Outbox.ProducedIsDue` | src/meta_agent/infra/persistence/outbox_repo.py:44-51 | an event handed in is kept with its tenant and key and is due from its creation on and not before |
| `Outbox.OutboxRepository.ClaimPending` | src/meta_agent/infra/persistence/outbox_repo.py:53-60 | due pending rows, each once, oldest first, and one left out only by a full batch of rows no younger |
| `Outbox.HandleFailure` | src/meta_agent/infra/persistence/outbox_dispatcher.py:105-131 | the failed row is terminal at the budget and otherwise due again after the capped backoff |
| `Outbox.BackoffDoubles` | src/meta_agent/infra/persistence/outbox_dispatcher.py:112-115 | the first wait is the base and each next one twice the last, up to the maximum |
| `Outbox.RunOnce` | src/meta_agent/infra/persistence/outbox_dispatcher.py:86-92 | claims one batch and settles each row of it in order |
| `Outbox.DrainedBatchIsRun` | src/meta_agent/infra/persistence/outbox_dispatcher.py:86-103 | settling a batch is the machine publishing and marking it claim by claim |
| `Outbox.RowsAreAccounted` | src/meta_agent/infra/persistence/outbox_dispatcher.py:94-131 | with crashes anywhere every row is pending with tries left, dispatched after a publish that worked, or failed with the whole budget spent on publishes that did not |
| `Outbox.FailedAtTheLimitIffPositive` | src/meta_agent/infra/persistence/outbox_dispatcher.py:105-107 | a failed row shows max_attempts exactly when max_attempts is at least one |
| `Outbox.TerminalRowsAreLeftAlone` | src/meta_agent/infra/persistence/outbox_repo.py:53-72 | a dispatched or failed row never changes, is never claimed and never published again |
| `Outbox.RetriesWait` | src/meta_agent/infra/persistence/outbox_dispatcher.py:105-131 | after a recorded failure at k attempts the row is not published before min(base * 2^k, max) has passed |
| `Outbox.RescheduledIsDueAgain` | src/meta_agent/infra/persistence/outbox_repo.py:53-72 | after that wait, and only then, the row is due again with one attempt more |
| `Outbox.SuccessIsRecorded` | src/meta_agent/infra/persistence/outbox_dispatcher.py:94-103 | once a publish that worked is recorded the row is dispatched, at that instant, for good |
| `Utf8Truncation.RoundTrip` | src/meta_agent/core/capabilities/executor.py:50-55 | decoding an encoded text gives it back (section 3 of RFC 3629) |
| `Utf8Truncation.CutDecodes` | src/meta_agent/core/capabilities/executor.py:53-55 | decoding the first n bytes with errors ignored gives the longest prefix of code points that fits them |
| `Utf8Truncation.TruncatesToLongestFit` | src/meta_agent/core/capabilities/executor.py:39-55 | every text is cut to its longest prefix that fits the cap, flagged exactly when something was dropped; it fails exactly on unencodable text under a positive cap |
| `Utf8Truncation.TruncationIsIdempotent` | src/meta_agent/core/capabilities/executor.py:39-55 | a text that was cut is left alone under the same cap or a wider one |
| `Utf8Truncation.CapsCompose` | src/meta_agent/core/capabilities/executor.py:96-96 | cutting by one cap and then by another is cutting by the smaller, flagged when either cut is |
| `Utf8Truncation.ExecuteBoundsObservation` | src/meta_agent/core/capabilities/executor.py:81-127 | with any caps every result is the handler's or the error's observation cut to the longest prefix that fits both, flagged exactly by a cut; only foreign exceptions propagate |
| `PromptRegistry.ResolveShadows` | src/meta_agent/infra/prompt_registry/in_memory.py:83-102 | a tenant's row that serves the request shadows the global one, and nothing is found exactly when neither scope serves |
| `PromptRegistry.InMemoryRegistry.Register` | src/meta_agent/infra/prompt_registry/in_memory.py:54-67 | a row is added exactly when its (prompt, version, tenant) is free |
| `PromptRegistry.NextVersionIsFree` | src/meta_agent/infra/prompt_registry/in_memory.py:69-81 | no global row of a prompt is above its latest version |
| `PromptRegistry.SeedOneAppends` | src/meta_agent/infra/prompt_registry/seeds.py:143-163 | one seed changes no old row and registers no taken version |
| `PromptRegistry.SeedOneIsLatest` | src/meta_agent/infra/prompt_registry/seeds.py:143-163 | the asset of a seed is its prompt's latest with the seed's hash, and other prompts keep theirs |
| `PromptRegistry.SeedOneDecides` | src/meta_agent/infra/prompt_registry/seeds.py:143-163 | a current seed is represented by the latest row; any other is registered with its own content and description, globally |
| `PromptRegistry.SeedAllNumbers` | src/meta_agent/infra/prompt_registry/seeds.py:143-145 | seeding keeps the global versions of a prompt numbered 1, 2, 3 and so on |
| `PromptRegistry.SeedAllAppends` | src/meta_agent/infra/prompt_registry/seeds.py:128-164 | seeding changes no old row |
| `PromptRegistry.ConsistentSeedsEndCurrent` | src/meta_agent/infra/prompt_registry/seeds.py:134-164 | seeds that agree, as distinct prompts do, all end as latest, represented by the assets returned |
| `PromptRegistry.NothingAddedIffCurrent` | src/meta_agent/infra/prompt_registry/seeds.py:143-163 | seeding adds nothing exactly when every seed is already the latest |
| `PromptRegistry.SeedingIsIdempotentIffConsistent` | src/meta_agent/infra/prompt_registry/seeds.py:138-164 | whatever was registered before, a second seeding adds nothing if and only if seeds of one prompt agree in hash |
| `PromptRegistry.QuarrellingSeedsGrow` | src/meta_agent/infra/prompt_registry/seeds.py:138-164 | two seeds of one prompt with different hashes are registered anew by a second seeding |
| `PromptRegistry.EnsureSeeded` | src/meta_agent/infra/prompt_registry/seeds.py:128-164 | the loop computes the seeding of all seeds, and no registration in it is refused |
| `PromptCache.CachingRegistry.FetchOrNone` | src/meta_agent/infra/prompt_registry/caching.py:81-99 | an unexpired entry is answered as it is; a miss answers and stores what the inner registry says |
| `PromptCache.CachingRegistry.RegisterAsset` | src/meta_agent/infra/prompt_registry/caching.py:101-109 | a landed registration drops every entry of the prompt and no other; a refused one changes nothing |
| `PromptCache.ReadsAreRecent` | src/meta_agent/infra/prompt_registry/caching.py:81-99 | every read is the inner registry's answer now, or at an earlier fetch of the same key less than the time to live ago, the shorter one for an absent prompt |
| `PromptCache.MissIsKept` | src/meta_agent/infra/prompt_registry/caching.py:81-99 | a missed fetch is answered from the cache for its time to live, whatever changes behind it, unless the prompt is registered through the cache |
| `PromptCache.RegistrationIsSeen` | src/meta_agent/infra/prompt_registry/caching.py:101-109 | after a registration through the cache, until rows change behind it, every read of that prompt at any version and scope is the inner answer |

## Left out

- Queue, HTTP, SQL driver and Redis client plumbing: each statement or script enters only by its atomic effect.
- Tenant guards, timestamps of rows, audit emission, webhooks, trajectory export, cost added to results and follow-up
  chaining: side channels of the modelled machines.
- Concrete graphs, workspace provisioning and git: nodes are arbitrary functions of the state and of an oracle.
- The contents of session history: what a first load adds to the data is one abstract value.
- Argument checks of the gate builder, the empty graph id check, the details dictionary of errors and the amounts in
  the text of a budget error.
- The breaker's key registry and exception filter: one key, and each outcome says whether it counts.
- Overlapping calls for `BreakerTwins`, overlapping operations of the prompt cache and several dispatchers on one outbox
  row: the code promises less there.
- Breaker scripts that run out of the order of their stamps.
- Floating-point rounding and the text form of numbers in Redis.
- The order of outbox rows of one age: any order the database may choose is allowed.
- Outbox keys across tasks: `TaskStore` holds one task's keys, but the unique key is per tenant and a submission may bring
  its own, so a key of another task that is spelled like a resume key and refuses a decision is outside this model.
- Cursor text: a cursor is its (timestamp, identifier) pair, and identifiers enter by their rank in the database's collation.
- Redaction, host allow-lists, token validation, configuration parsing, LLM and git decorators.
- Worker.HandleMessage: one delivery with nobody else writing meanwhile, on a task that exists; the interleavings are those of `Execution`.
- Outbox.RunOnce: one batch with nobody else writing meanwhile; producers and crashes are those of the runs in `Outbox`.
- AuditPaging.AuditRepository.ListFiltered: the ordering of `since` before `until`, which the endpoint checks, is not needed and not modelled.
