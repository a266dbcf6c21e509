# Verified models of the agent runtime's stateful engines

The runtime lets an autonomous agent take up paid work, plan it as a graph of subtasks, buy services from peers and keep
its books. Most of it is I/O. This project models the engines that hold it together and proves what they promise over whole
runs. There is one module per engine. An engine that updates its fields in place is a class here too; each of its methods is
proved against a function on values, and the theorems are about that function, so they hold for the class.

- **Task graph** (`TaskGraph.dfy`, `Replan.dfy`, `Execution.dfy`, `Invariants.dfy`, `Liveness.dfy`, `Width.dfy`,
  `WideRuns.dfy`, `CapThreshold.dfy`, `Recovery.dfy`, `AgentLoop.dfy`):
  Kahn's algorithm, the engine that retries, reroutes or splits a failed subtask in the live graph, and the capped loop that
  drives both. The outcome of a subtask is an arbitrary answer of the environment (`Env`), so the theorems hold for every
  pattern of failures.
- **Admission control** (`RateLimiter.dfy`, `GranularRateLimiter.dfy`, `CircuitBreaker.dfy`, `Budget.dfy`): clocked state
  machines. Their guarantees range over every window, every interval, every suffix of the outcomes, every interleaving.
- **Escrow** (`Escrow.dfy`, `Orchestrator.dfy`, `ConcurrentWallet.dfy`): the escrow system under arbitrary calls, the
  orchestrator that must close what it opens on every path, and the wallet of the agent that pays, for executions one after the
  other and for executions in flight at the same time.
- **Ledger** (`Persistence.dfy`, `Ledger.dfy`, `Postings.dfy`, `TaskHandling.dfy`, `TaskInterleaving.dfy`, `Rounding.dfy`): entries
  in whole units of 1e-8 USD, what each operation moves on every account, the residual adjustment, posting to Postgres or to the
  in-memory store that takes over at its first failure, and what one marketplace task leaves in the books.
- **Structural algorithms** (`Json.dfy`, `JsonText.dfy`, `CanonicalJson.dfy`, `UnifiedDiff.dfy`, `Quality.dfy`, `ErrorOrder.dfy`,
  `SchemaStandard.dfy`, `QualityLoop.dfy`): canonical JSON down to the characters with a reader that takes it back, the line
  diff, the schema validator and the retry loop.
- **Economic gate** (`EconomicBrain.dfy`): the chain of checks on an opportunity and what a counter-offer is worth.

`Collections.dfy` holds small facts about sequences and sets. `dafny verify dfyconfig.toml` checks everything.

## What turned out different from what one might expect

- **Canonical JSON** (`TextsEqualIff`, `ProtoIsLost`, `InfinitySignsLikeNull`, `SortedIffNoIndexOvertakes`): the claim "equal
  texts iff equal up to key order" has two exceptions, fields named `__proto__`, which the assignment in `sortKeys` drops, and
  numbers too large for a double, which are read as infinite and printed as null; the theorem states the exact equivalence for
  all values. Keys that are array indices are enumerated first, by value, so the order is not always that of `sort()` nor of
  section 3.2.3 of RFC 8785 (which the code does not claim).
- **Ledger and its database** (`SettlementPostsIff`, `OperationUnbalancesIff`, `TornSettlementStays`, `SettledAgainIff`,
  `DepositLeavesPostgres`, `VerifyIntegrity`): a transaction that Postgres does not take is run again in the in-memory store,
  without the database's constraints and without rollback, and the ledger stays there. So failures of Postgres never stop a
  posting on an adapter's wallet; but the store that takes over does not know the earlier books, a wallet it does not know
  leaves half a transaction behind (no caller in the repository names such a wallet for a settlement or release), and its answer
  to the integrity check is always "balanced".
- **Ledger and its database** (`WrittenToPostgresIff`): a settlement without revenue has a line that is empty on both sides, which
  Postgres does not accept, so it moves the ledger into memory for good.
- **Ledger wallets** (`ShortfallNeedsCostLine`): a wallet account named like a cost account can absorb a shortfall through the
  residual adjustment; no wallet of an adapter is (`PostedReleaseIsLines`).
- **Ledger rounding** (`NetCloseToExact`, `NetBoundIsTight`): the added epsilon puts the distance to the unrounded net at most
  at two units plus two epsilons; two units flat are not enough.
- **Tiered limiter** (`RefusalChargesEarlier`): a request refused by its peer's or skill's limiter has already been charged to
  the tiers before it.
- **Rerouting** (`ReroutedRunsLocallyIff`): the engine drops the peer of a task to "force local execution", but the next dispatch
  looks for peers again; the task runs locally exactly when none is found for its new skill.
- **Line diff** (`SmallestDiffIff`, `SwapKeepsNothing`): a moved line can cost unchanged lines around it; the diff is smallest exactly
  when the common lines come in the same order in both texts.
- **Budget** (`BoundIsAttained`): with two adapters or more the daily cap can be exceeded, up to the proved bound.
- **Validator** (`InheritedCountsAsPresent`, `UntypedRulesAreSkipped`, `CompoundsAreNeverListed`, `UnknownTypeAcceptsAll`,
  `InfiniteIsNoNumber`): five departures from JSON Schema. `SameReportsIff` says for which values and schemas the reports are
  those of the standard, `ReliableIff` for which schemas they always are on finite values.
- **Wallet** (`WalletPaysForReleases`): requests of others that name the buyer as their client release escrows the buyer's wallet
  does not pay for; the theorem counts them.
- **Wallet** (`UnpaidIff`, `OverlapGoesUnpaid`): the balance is looked at before an execution and charged after it, so purchases in
  flight together can release more than the wallet covers; `ReservedRunIsPaid` says what would prevent it.
- **Counter-offers** (`CounterOfferCanRepeat`, `ShortfallAcceptedIff`): rounding can push a counter-offer below the gate's own
  demand; the exact condition is the shortfall lemma, and with the default settings it never happens.
- **Task handling** (`TaskLeavesTrail`): a delivered task whose rounded costs exceed its revenue makes the release throw and is
  refunded; the release of nothing at no cost leaves the lock standing; an exception before the lock posts a refund alone.

## Model

| member | source | states |
|---|---|---|
| `TaskGraphs.TaskGraph.TopologicalOrder` | src/core/htn/types.ts:113-147 | Kahn is exact: it answers exactly when dependencies are distinct, present and free of cycles, and then with every task once, each after all its dependencies; otherwise it throws |
| `TaskGraphs.TaskGraph.InitialDegrees` | src/core/htn/types.ts:114-124 | the state the outer loop starts from: every count is the number of listed dependencies, and exactly the tasks at zero are queued |
| `TaskGraphs.TaskGraph.ReleaseDependents` | src/core/htn/types.ts:131-139 | one turn of the inner loop keeps the invariant: counts equal the dependencies not yet placed, each task is queued once, when its count reaches zero |
| `TaskGraphs.AcyclicIffOrdered` | src/core/htn/types.ts:109-147 | two independent readings of "acyclic" agree: no cyclic walk along dependencies exactly when the tasks can be laid out in order |
| `TaskGraphs.StuckSetHasCycle` | src/core/htn/types.ts:142-144 | tasks left over by the queue all wait for each other, so a cycle exists: the thrown error is justified |
| `TaskGraphs.CompleteOrder` | src/core/htn/types.ts:113-147 | in an acyclic graph any placed prefix can be extended to a full order |
| `TaskGraphs.OrderGivesRank` | src/core/htn/types.ts:113-147 | an order ranks every task above its dependencies |
| `TaskGraphs.RankedHasNoCycle` | src/core/htn/types.ts:113-147 | a graph whose dependencies all lead downwards has no cycle |
| `TaskGraphs.RankFallsAlongWalk` | src/core/htn/types.ts:113-147 | along any walk over dependencies the rank falls |
| `TaskGraphs.DegreeZero` | src/core/htn/types.ts:115-124 | a count of zero means distinct dependencies, all placed: a repeated dependency can never reach zero |
| `TaskGraphs.ScanStep` | src/core/htn/types.ts:131-138 | lowering one dependent's count and queueing it at zero keeps the invariant of the scan |
| `TaskGraphs.KahnPop` | src/core/htn/types.ts:127-129 | the task taken from the queue has all its dependencies in the order already |
| `TaskGraphs.KahnFinish` | src/core/htn/types.ts:142-146 | when the queue is empty, the order is complete exactly when the graph is sortable, and then it is a topological order |
| `TaskGraphs.ReadyAmong` | src/core/htn/types.ts:63-82 | lists exactly the ready tasks among the given ids, without repeating any |
| `TaskGraphs.TaskGraph.constructor` | src/core/htn/types.ts:42-46 | a new graph has no tasks |
| `TaskGraphs.TaskGraph.AddTask` | src/core/htn/types.ts:48-50 | a new id is appended, a known id keeps its place and gets the new task |
| `TaskGraphs.TaskGraph.GetReadyTasks` | src/core/htn/types.ts:63-82 | returns the live task objects that are pending with every dependency present and completed, in insertion order |
| `TaskGraphs.TaskGraph.IsCompleted` | src/core/htn/types.ts:87-95 | true exactly when every task is completed or cancelled |
| `TaskGraphs.TaskGraph.HasFailedTasks` | src/core/htn/types.ts:100-107 | true exactly when some task is FAILED |
| `Replanning.MorphlingReplanEngine.HandleSubtaskFailure` | src/core/htn/morphling-replan.ts:25-147 | always heals; counts the failure and changes the live graph as the chosen strategy says, keeping every task object in place |
| `Replanning.MorphlingReplanEngine.AdaptInPlace` | src/core/htn/morphling-replan.ts:49-54 | the retry changes only the failed task: pending again, one more retry used, bigger budget and timeout |
| `Replanning.MorphlingReplanEngine.RerouteToLocal` | src/core/htn/morphling-replan.ts:69-77 | the reroute changes only the failed task: no peer, local skill, pending again |
| `Replanning.MorphlingReplanEngine.DecomposeTask` | src/core/htn/morphling-replan.ts:89-139 | cancels the failed task, appends the two fallback nodes and hands its dependents over, all in the live graph |
| `Replanning.MorphlingReplanEngine.RewireDependents` | src/core/htn/morphling-replan.ts:123-134 | exactly the dependents of the failed task now wait for the replacement instead, other dependencies in their old order |
| `Replanning.SplitByNode` | src/core/htn/morphling-replan.ts:92-139 | a split, node by node: who is rewired, what the two new nodes depend on, what is cancelled |
| `Recovery.FailureWithRetriesLeft` | src/core/htn/morphling-replan.ts:49-66 | a failure with retries left: the same task at the same peer, pending, one more retry used, cost and budget 1.25 times as large rounded to 0.001, the timeout 1.5 times as long rounded to 1, all else as it was |
| `Recovery.FailureAtPeer` | src/core/htn/morphling-replan.ts:69-79 | retries used up at a peer, with at most maxRetries + 1 failures: the peer is dropped, the skill is analysis, the status pending, and every other field and node as before |
| `Recovery.ReroutedRunsLocallyIff` | src/core/agent.ts:368-395 | after that the next execution is local exactly when peer discovery finds nobody then |
| `Recovery.FailureAtTheEnd` | src/core/htn/morphling-replan.ts:92-144 | otherwise the task is cancelled and done in two halves, each with half its cost rounded to 0.001, half its budget, three quarters of its time and one retry; who waited for it waits for the second half |
| `Recovery.Escalation` | src/core/htn/morphling-replan.ts:45-147 | over a whole run the number of failures of a task says how far the engine has gone: retries counted one by one with limits grown step by step, then a local analysis without peer unless cancelled at once, then cancelled |
| `ReplanInvariants.SplitKeepsAcyclic` | src/core/htn/morphling-replan.ts:92-139 | a split never creates a cycle |
| `ReplanInvariants.SplitKeepsSound` | src/core/htn/morphling-replan.ts:92-139 | a split keeps dependencies distinct, present and acyclic |
| `ReplanInvariants.SplitKeepsHealthy` | src/core/htn/morphling-replan.ts:92-139 | after a split nothing waits for a cancelled task, and what ran still has its dependencies completed |
| `ReplanInvariants.SplitKeepsChained` | src/core/htn/morphling-replan.ts:89-139 | a split keeps the obligations: each node waits for exactly the final replacements of what it was created to wait for |
| `ReplanInvariants.SplitKeepsTallied` | src/core/htn/morphling-replan.ts:89-147 | a split adds two nodes and cancels one; a node made by a split fails twice before it is split |
| `ReplanInvariants.SplitKeepsPatient` | src/core/htn/morphling-replan.ts:45-147 | a node is split at the latest on its failure number maxRetries + 2 |
| `ReplanInvariants.ChangeKeepsPatient` | src/core/htn/morphling-replan.ts:45-77 | retries and the one reroute stay within maxRetries + 1 failures |
| `ReplanInvariants.SplitKeepsReady` | src/core/htn/morphling-replan.ts:122-134 | tasks collected as ready before a split are still ready after it |
| `ReplanInvariants.LiveIsFinal` | src/core/htn/morphling-replan.ts:89-139 | a task that was not cancelled is its own final replacement |
| `ReplanInvariants.AttemptKeeps` | src/core/agent.ts:356-443 | the main step: executing any ready subtask, with any outcome, keeps every invariant, leaves the other ready tasks ready, and adds one open node per split, removes one per success |
| `Execution.AttemptCases` | src/core/agent.ts:356-443 | one execution changes exactly one node, or splits it; which of the two, and the new retry and failure counts |
| `Liveness.ReadyUntilDone` | src/core/agent.ts:345-354 | deadlock freedom: unless a task is FAILED, the ready set is empty exactly when the graph is done |
| `Liveness.RunSucceeds` | src/core/agent.ts:341-452 | liveness with a bound: from n pending tasks a run with F failures ends within n + 2F rounds; unless stopped it succeeds whenever F <= 2n + 5, even whenever F + (F + n) / 2 <= 4n + 10 in whole numbers: up to there the cap cannot end it |
| `Liveness.RunEnds` | src/core/agent.ts:341-452 | a run ends stopped, done, failed for good or at the cap, with the invariants intact |
| `Liveness.RoundKeeps` | src/core/agent.ts:356-443 | a round over the ready tasks keeps the invariants and its cost in open nodes is exactly failures turned splits minus tasks done |
| `Liveness.LoopKeeps` | src/core/agent.ts:345-444 | every whole run keeps the invariants and rounds never exceed initial tasks plus failures plus splits minus open nodes |
| `Liveness.StartGivesInv` | src/core/agent.ts:338-345 | a fresh acyclic graph of pending tasks satisfies the invariant |
| `Liveness.RunAbortsIff` | src/core/agent.ts:345-348 | a run is aborted exactly when shutdown has been requested at the start of a round it still needs, and at the first such round |
| `Liveness.RunWithoutHealer` | src/core/agent.ts:438-446 | without a replanning engine a run that is not stopped succeeds exactly when no subtask fails |
| `Liveness.CapCanFire` | src/core/agent.ts:343-345 | the cap is not idle: a single task that keeps failing with enough retries uses up all its rounds and fails |
| `CapThreshold.ThresholdIsExact` | src/core/agent.ts:343-446 | the bound is exact: for every n and F, all unstopped runs with n tasks and F failures succeed if and only if F + (F + n) / 2 <= 4n + 10 (or F is more than n(5n + 10), which no run has) |
| `CapThreshold.CapIsReached` | src/core/agent.ts:343-446 | for every F beyond the bound, up to n(5n + 10), there is a run with exactly F failures that uses up its 5n + 10 rounds and fails |
| `Width.FailuresPerRound` | src/core/agent.ts:345-443 | a run over n tasks has at most n failures per round, so at most n(5n + 10) in all |
| `Width.AttemptNarrow` | src/core/htn/morphling-replan.ts:89-139 | no execution widens the graph: the tasks that can be ready at once stay at most n, because a second fallback node waits for its first |
| `Width.ReadyBounded` | src/core/htn/types.ts:63-82 | the ready set is never larger than that |
| `WideRuns.WideRunFails` | src/core/agent.ts:343-446 | n independent tasks with retries enough can fail any number of times from 5n + 10 to n(5n + 10), and the run then fails at the cap |
| `WideRuns.WideLoop` | src/core/agent.ts:345-444 | with failures planned per task, the loop goes to the cap with exactly the planned failures |
| `WideRuns.RoundOfTurns` | src/core/agent.ts:356-443 | a round gives every ready task its planned turn |
| `CapThreshold.RunAlongLine` | src/core/agent.ts:345-444 | tasks that wait for each other in a line are run one per round, and the run lasts to the cap if the line does |
| `CapThreshold.StepAlongLine` | src/core/htn/morphling-replan.ts:45-139 | a failure at the head of a line burns one retry or makes the line one longer, a success makes it one shorter |
| `CapThreshold.LineAfterSplit` | src/core/htn/morphling-replan.ts:92-139 | a split at the head of a line puts the two new tasks in its place |
| `Liveness.GraphStaysSound` | src/core/htn/morphling-replan.ts:42-146 | in every reachable state: sortable, size = initial + 2 x cancelled, no dependency on a cancelled task, no node failed more than maxRetries + 2 times, and none is FAILED when the engine is there |
| `Liveness.PlayedKeeps` | src/core/agent.ts:350-443 | executing ready tasks one after the other, in any order and with any outcomes, keeps every invariant |
| `Liveness.RunIsPlayed` | src/core/agent.ts:341-452 | the end of every run is such a reachable state |
| `Liveness.ObligationsMet` | src/core/htn/morphling-replan.ts:89-139 | in every reachable state a task is ready or done only if the final replacement of each original dependency is completed |
| `Liveness.SuccessCompletesChains` | src/core/agent.ts:350-446 | after a successful run the replacement chain of every original task, and of each of its dependencies, ends in a completed node |
| `AgentLoop.AgentCore.ExecuteGraph` | src/core/agent.ts:341-452 | the loop over the live, mutable graph behaves as the run the theorems speak of, and reports success exactly when that run succeeds |
| `AgentLoop.AgentCore.Turn` | src/core/agent.ts:350-443 | one turn of the loop: the ready set, and a round over it unless it is empty |
| `AgentLoop.AgentCore.RunReady` | src/core/agent.ts:356-443 | a round works through the tasks that were ready at its start, each on the graph the previous one left |
| `AgentLoop.AgentCore.RunSubtask` | src/core/agent.ts:357-442 | one subtask: dispatched, concluded, or handed to the engine; all other task objects stay as they are |
| `AgentLoop.AgentCore.Dispatch` | src/core/agent.ts:357-397 | marks the task as running and sends it to its own peer, else to one that discovery finds, else runs it locally |
| `Recovery.DispatchTakesTask` | src/core/agent.ts:357-397 | a task that is sent off is running, so not ready again, and belongs to the peer it is sent to; nothing else of it changes |
| `RateLimiting.RunObeysLimits` | src/core/resilience/rate-limiter.ts:39-94 | over any run with a clock that does not go back, any 60 s window and any 3600 s window holds at most its limit, any interval [a,b] at most maxTokens + rate x (b-a) admitted tokens, and the level stays in [0, maxTokens] |
| `RateLimiting.AdmitsExactlyTheHarmless` | src/core/resilience/rate-limiter.ts:61-94 | the limiter refuses exactly the requests that would break one of those bounds, counted over the full history |
| `RateLimiting.RunAdmitsExactlyTheHarmless` | src/core/resilience/rate-limiter.ts:39-94 | so after any run a request is admitted exactly when, on everything admitted before, it breaks neither the bucket on any interval nor a window |
| `RateLimiting.EventGoverned` | src/core/resilience/rate-limiter.ts:39-109 | every public call keeps the pruned arrays and the level equal to what the full history says |
| `RateLimiting.RunGoverned` | src/core/resilience/rate-limiter.ts:39-109 | so does every run of calls, and none of the bounds is ever broken on the way |
| `RateLimiting.CleanGoverned` | src/core/resilience/rate-limiter.ts:49-59 | after pruning, the lengths of the arrays are the exact usage of the windows that end now |
| `RateLimiting.CleanKeeps` | src/core/resilience/rate-limiter.ts:53-58 | pruning drops only stamps outside every window still to come |
| `RateLimiting.AdmitKeeps` | src/core/resilience/rate-limiter.ts:72-92 | admitting within the limit breaks no window anywhere in the history |
| `RateLimiting.RefillCovers` | src/core/resilience/rate-limiter.ts:39-47 | refilling keeps the level a lower bound for capacity plus credit minus admitted tokens over every interval |
| `RateLimiting.RefillTight` | src/core/resilience/rate-limiter.ts:42-45 | and attained for one interval, so the bucket refuses only when it must |
| `RateLimiting.LevelExact` | src/core/resilience/rate-limiter.ts:66-69 | n tokens are there exactly when no interval up to now would exceed bucket plus credit |
| `RateLimiting.RateLimiter.constructor` | src/core/resilience/rate-limiter.ts:22-37 | a new limiter has a full bucket and empty windows |
| `RateLimiting.RateLimiter.TryConsume` | src/core/resilience/rate-limiter.ts:61-94 | the state after a request and whether it is allowed; a refusal still refills and prunes |
| `RateLimiting.RateLimiter.Refill` | src/core/resilience/rate-limiter.ts:39-47 | adds the credit since the last refill, capped at the bucket |
| `RateLimiting.RateLimiter.CleanWindows` | src/core/resilience/rate-limiter.ts:49-59 | the two loops drop the stamps older than each window |
| `RateLimiting.RateLimiter.GetAvailableTokens` | src/core/resilience/rate-limiter.ts:96-99 | refills, and returns the whole tokens |
| `RateLimiting.RateLimiter.GetMinuteUsage` | src/core/resilience/rate-limiter.ts:101-104 | prunes, and returns the minute window's size |
| `RateLimiting.RateLimiter.GetHourUsage` | src/core/resilience/rate-limiter.ts:106-109 | prunes, and returns the hour window's size |
| `GranularRateLimiting.TiersObeyLimits` | src/core/resilience/granular-rate-limiter.ts:91-136 | over any run, the requests that got through obey both windows and the bucket: all of them the global ones, those for a peer that peer's, those for a skill that skill's, override or else default |
| `GranularRateLimiting.RequestIsAllowedIff` | src/core/resilience/granular-rate-limiter.ts:91-136 | after any run a request is allowed exactly when, on what each has admitted, it breaks no bound of the global limiter, nor of its peer's if it names one, nor of its skill's if it names one; otherwise the first of these is the one that refuses |
| `GranularRateLimiting.AllowedIffAllPass` | src/core/resilience/granular-rate-limiter.ts:91-136 | a request is allowed exactly when every limiter it consults would admit it |
| `GranularRateLimiting.OthersUntouched` | src/core/resilience/granular-rate-limiter.ts:105-129 | a limiter changes, or comes into being, only on requests that name its peer or skill |
| `GranularRateLimiting.RefusalChargesEarlier` | src/core/resilience/granular-rate-limiter.ts:94-129 | a refusal comes from the first limiter that does not admit; the earlier ones keep the charge, the later ones are untouched |
| `GranularRateLimiting.ServeAllKeeps` | src/core/resilience/granular-rate-limiter.ts:91-136 | every limiter stays in step with its own history over any run, and what got through is part of each |
| `GranularRateLimiting.ServeKeeps` | src/core/resilience/granular-rate-limiter.ts:91-136 | one request keeps that |
| `GranularRateLimiting.LoggedGrows` | src/core/resilience/granular-rate-limiter.ts:95-122 | each history grows by nothing or by the request's tokens, and by the tokens when the request is allowed |
| `GranularRateLimiting.GranularRateLimiter.constructor` | src/core/resilience/granular-rate-limiter.ts:46-69 | only the global limiter exists at first, full |
| `GranularRateLimiting.GranularRateLimiter.GetPeerLimiter` | src/core/resilience/granular-rate-limiter.ts:71-79 | the limiter of a peer, created on first use; no other limiter changes and none is shared |
| `GranularRateLimiting.GranularRateLimiter.GetSkillLimiter` | src/core/resilience/granular-rate-limiter.ts:81-89 | the same for a skill |
| `GranularRateLimiting.GranularRateLimiter.TryConsume` | src/core/resilience/granular-rate-limiter.ts:91-136 | the state of all limiters after a request, and who refused |
| `CircuitBreaking.CountIsMaxSuffix` | src/core/resilience/circuit-breaker.ts:66-111 | while closed, the failure count is the largest (failures - successes) over all suffixes of the outcomes since the last close; the breaker is closed exactly while no suffix reaches the threshold, and trips the first time one does |
| `CircuitBreaking.StartsOnlyAfterCooldown` | src/core/resilience/circuit-breaker.ts:50-64 | after any run, an action may start exactly when the breaker is closed or the cooldown since the last recorded failure is over |
| `CircuitBreaking.ClosesAfterSuccesses` | src/core/resilience/circuit-breaker.ts:66-81 | in any run, a breaker that is not closed closes exactly with the success that completes the required number since the cooldown after the last failure, with no failure among them, and then with clean counts; until then it shows the full failure count |
| `CircuitBreaking.NextKeeps` | src/core/resilience/circuit-breaker.ts:50-111 | every event keeps the invariant between the breaker and its log |
| `CircuitBreaking.RunKeeps` | src/core/resilience/circuit-breaker.ts:50-111 | so does every interleaving of questions and outcomes |
| `CircuitBreaking.InitialInv` | src/core/resilience/circuit-breaker.ts:38-43 | the breaker as created satisfies it |
| `CircuitBreaking.MaxSuffixStep` | src/core/resilience/circuit-breaker.ts:78-90 | counting up on a failure and down to zero on a success maintains the maximum over suffixes |
| `CircuitBreaking.CircuitBreaker.UpdateStateIfCooldownElapsed` | src/core/resilience/circuit-breaker.ts:50-59 | an open breaker turns half-open once the cooldown is over |
| `CircuitBreaking.CircuitBreaker.CanExecute` | src/core/resilience/circuit-breaker.ts:61-64 | true exactly when the breaker is not open after looking at the cooldown |
| `CircuitBreaking.CircuitBreaker.RecordSuccess` | src/core/resilience/circuit-breaker.ts:66-83 | the state after a success |
| `CircuitBreaking.CircuitBreaker.RecordFailure` | src/core/resilience/circuit-breaker.ts:85-111 | the state after a failure |
| `CircuitBreaking.CircuitBreaker.Execute` | src/core/resilience/circuit-breaker.ts:116-129 | an action is rejected without running, or runs and its outcome is recorded |
| `Budgeting.GateHoldsUpTo` | src/core/agent.ts:570-587 | with k adapters in any interleaving, over any days, estimates up to M and costs within estimates: used plus what is still in flight stays within cap + (k-1) x M; with one adapter the cap is hard |
| `Budgeting.UsedIsSpent` | src/core/budget.ts:52-74 | after any run, with dates in any order: what the guard counts is what was recorded since the date it knows was first read, plus the hydrated spend if that was the same date |
| `Budgeting.GateOpensIff` | src/core/budget.ts:52-68 | a task passes the gate exactly when that sum, on the date of its arrival, plus its estimate is at most the cap: a new day starts at zero |
| `Budgeting.BoundIsAttained` | src/core/agent.ts:570-587 | for every k, every cap and every M up to the cap there is a run that spends exactly cap + (k-1) x M: with two adapters the daily cap is not a hard limit |
| `Budgeting.FillSpends` | src/core/agent.ts:570-587 | one adapter alone can spend up to any amount below the cap in tasks of at most M |
| `Budgeting.AllPassTheGate` | src/core/agent.ts:570-587 | the reason: where there is room for one task, all adapters may pass the gate before any cost is recorded |
| `Budgeting.StepKeeps` | src/core/budget.ts:52-74 | one step of one adapter keeps the bound |
| `Budgeting.RunKeeps` | src/core/budget.ts:52-74 | so does any interleaving |
| `Budgeting.BudgetGuard.Hydrate` | src/core/budget.ts:37-50 | starts from today's recorded spend, or from zero when the store fails |
| `Budgeting.BudgetGuard.RolloverIfNeeded` | src/core/budget.ts:52-62 | a new day starts at zero |
| `Budgeting.BudgetGuard.WouldExceed` | src/core/budget.ts:65-68 | whether the estimate goes over the cap, after the rollover |
| `Budgeting.BudgetGuard.Record` | src/core/budget.ts:71-74 | adds the cost to the day it is recorded on |
| `Budgeting.BudgetGuard.IsExhausted` | src/core/budget.ts:88-91 | whether the cap is reached, after the rollover |
| `Escrow.EscrowConserves` | src/core/escrow.ts:44-174 | for any calls with any retry outcomes: locked = released + refunded + amounts still LOCKED or FAILED, the stuck queue is exactly the FAILED tasks, and no task has two records |
| `Escrow.AnswersAreTrue` | src/core/escrow.ts:44-174 | every answer is the truth about the record afterwards: a lock names the open escrow of the task, success of a release or refund means released or refunded, also when it already was |
| `Escrow.OpenEscrowSettles` | src/core/escrow.ts:87-174 | an open escrow is released exactly if some attempt goes through, and a refund that fails leaves it failed |
| `Escrow.SettledForGood` | src/core/escrow.ts:96-99 | a record leaves LOCKED at most once: once settled no call ever changes it |
| `Escrow.RunKeeps` | src/core/escrow.ts:44-174 | the invariant over any calls; records are never lost, re-addressed or re-priced |
| `Escrow.CallIsLater` | src/core/escrow.ts:44-174 | a call changes nothing of a record but its status, and that only out of LOCKED |
| `Escrow.LockKeeps` | src/core/escrow.ts:44-88 | a lock keeps the two maps consistent, money conserved and the queue exact |
| `Escrow.SettleKeeps` | src/core/escrow.ts:90-174 | so do a release and a refund |
| `Escrow.EscrowSystem.LockFunds` | src/core/escrow.ts:44-88 | a task locked before gets its escrow again while it is LOCKED and an error afterwards; amounts that are not positive are refused |
| `Escrow.EscrowSystem.GetRecord` | src/core/escrow.ts:224-230 | a record is found only under the id the task index agrees with |
| `Escrow.EscrowSystem.ExecuteWithRetry` | src/core/escrow.ts:233-257 | succeeds exactly when one of the maxRetries attempts does not throw |
| `Escrow.EscrowSystem.ReleaseFunds` | src/core/escrow.ts:90-126 | the state and the answer after a release; a failed release leaves the record LOCKED |
| `Escrow.EscrowSystem.RefundFunds` | src/core/escrow.ts:128-174 | the state and the answer after a refund; a failed refund makes the record FAILED and queues the task |
| `Escrow.EscrowSystem.GetStuckTransactions` | src/core/escrow.ts:176-178 | the stuck queue |
| `Orchestration.ExecutionCloses` | src/core/a2a-orchestrator.ts:23-256 | on every path: nothing stays locked, success iff released iff RELEASED, refunded iff REFUNDED, failed iff nothing was locked or the record is FAILED; a task id seen before changes nothing and runs nothing |
| `Orchestration.SettlingCloses` | src/core/a2a-orchestrator.ts:72-256 | whatever else is in flight, an execution closes its own record, touches no other and reports the truth |
| `Orchestration.PaidIff` | src/core/a2a-orchestrator.ts:74-220 | a request that opens an escrow is paid exactly when the tool returned success and Accepted, its output passed the evaluation where one is due, and some release attempt goes through; else refunded exactly when some refund attempt does; else stuck; totals, queue and report agree |
| `Orchestration.SettlingPays` | src/core/a2a-orchestrator.ts:74-220 | the same for the settlement of any open record |
| `Orchestration.EachTaskSettledOnce` | src/core/a2a-orchestrator.ts:23-256 | over any sequential run: only the first payable request for a task opens an escrow, and what was locked, released and refunded in all are the amounts of those requests by how they ended; the stuck queue lists the rest |
| `Orchestration.PurchaseIff` | src/core/agent.ts:1560-1600 | a purchase starts exactly when the tool is known, the price positive and covered, the signature good and the task new; the wallet pays its price exactly when the work is then paid for, and the record names payer, payee and amount |
| `Orchestration.ReplayRunsIffLocked` | src/core/a2a-orchestrator.ts:45-75 | outside a sequential run a replayed task id runs the tool again exactly while its escrow is still locked |
| `Orchestration.A2AAgentOrchestrator.ExecuteTask` | src/core/a2a-orchestrator.ts:23-256 | the escrow and the report after an execution, for every signature, lock, timeout, exception, evaluation and release outcome |
| `Orchestration.A2AAgentOrchestrator.RefundSafely` | src/core/a2a-orchestrator.ts:265-278 | reports refunded exactly when the refund went through |
| `Orchestration.PaidAfterExecution` | src/core/a2a-orchestrator.ts:139-163 | an execution adds its price to what an agent has paid exactly when it was released on that agent's account |
| `Orchestration.EventKeepsWallet` | src/core/agent.ts:1549-1614 | each request, the agent's own or anybody's, keeps the wallet equal to initial minus paid plus what others released under the agent's id, and never overdrawn |
| `Orchestration.WalletPaysForReleases` | src/core/agent.ts:1549-1614 | over any sequential run of own and foreign requests: no escrow is left locked, the wallet is its initial balance minus the buyer's released amounts, those excepted that others opened under its id, and it never goes negative |
| `Orchestration.WalletPaysExactly` | src/core/agent.ts:1549-1614 | if nobody else uses the buyer's id, the wallet is exactly its initial balance minus its released amounts |
| `ConcurrentWallet.InterleavedWallet` | src/core/agent.ts:1549-1614 | in any interleaving of own and foreign executions: exactly those in flight have a locked record, none is left when all have ended, and the balance is initial minus paid plus what went unpaid or was released for others, never negative |
| `ConcurrentWallet.StepKeeps` | src/core/agent.ts:1568-1591 | each beginning and each end of an execution keeps that |
| `ConcurrentWallet.UnpaidIff` | src/core/agent.ts:1588-1591 | when all that is in flight is released, some release goes unpaid exactly when its prices together exceed the balance |
| `ConcurrentWallet.OverlapGoesUnpaid` | src/core/agent.ts:1568-1591 | two purchases, each affordable and together not, both begin, and one release goes unpaid |
| `ConcurrentWallet.ReservedRunIsPaid` | src/core/agent.ts:1568-1591 | if every purchase begins with the prices in flight covered as well, every release is paid for |
| `Orchestration.AutonomousAgent.Deduct` | src/core/agent-wallet.ts:20-24 | takes the amount exactly when it is covered |
| `Orchestration.AutonomousAgent.RequestServiceFromPeer` | src/core/agent.ts:1549-1614 | the escrow and the balance after a purchase; unaffordable or unknown requests touch neither |
| `Persistence.Database.constructor` | src/persistence/pool.ts:101-110 | without a usable URL the in-memory store is in use from the start |
| `Persistence.Database.TaskRecorded` | src/persistence/pool.ts:510-524 | a failed query is answered by the in-memory store, now and from now on |
| `Persistence.Database.WithTransaction` | src/persistence/pool.ts:527-568 | a transaction Postgres does not take is run again in memory; it throws only if the in-memory store misses an account |
| `Persistence.Database.TryPostgres` | src/persistence/pool.ts:537-554 | Postgres takes all entries or none; each must be on a known account with exactly one positive side (migrations/001_ledger.sql:48-50) |
| `Persistence.Database.InsertInMemory` | src/persistence/pool.ts:561-567 | in memory rows are inserted one by one and nothing is rolled back: the entries before the first unknown account stay |
| `Persistence.KnownPrefix` | src/persistence/pool.ts:187-221 | the entries before the first on an unknown account |
| `Ledgers.SettlementPostsIff` | src/core/ledger.ts:94-228 | for non-negative inputs, whatever the database does: a settlement of a task not on record in the store that answers is posted exactly when the rounded revenue covers fee, execution and gas (or a cost line on the wallet's own account absorbs the shortfall), unless neither store takes the wallet's account; otherwise it throws, and a task on record is skipped |
| `Postings.SettlementMoves` | src/core/ledger.ts:115-156 | account by account: a covered settlement puts the rounded revenue on revenue, fee, execution and gas each on its own account, what is left on the wallet, and nothing anywhere else |
| `Postings.ReleaseMoves` | src/core/ledger.ts:571-640 | a covered release takes the revenue out of escrow and spreads it in the same way |
| `Postings.TransfersMove` | src/core/ledger.ts:517-560 | a lock moves its amount from the wallet to escrow, a refund back, a deposit onto wallet and revenue; nothing else moves |
| `Postings.TransferPostsIff` | src/core/ledger.ts:266-330 | locks, refunds and deposits are posted exactly for amounts that round to something positive, a deposit only once, and none of them throws on a known wallet, whatever Postgres does |
| `Postings.PostedIsRecorded` | src/core/ledger.ts:196-228 | what posts is recorded last, under its id and with its state, and a settlement or deposit is then not repeated while the same store answers |
| `Postings.AdapterWalletIs` | src/core/ledger.ts:77-86 | the four known adapters have a wallet of their own name, all others share wallet_internal |
| `Postings.OperationMoves` | src/core/ledger.ts:88-330 | one operation moves every balance, over both stores, by exactly its amounts if it posts and not at all otherwise, whatever Postgres does |
| `Postings.BalancesAddUp` | src/core/ledger.ts:88-330 | over any run every balance, over both stores, is the sum of the amounts of the operations that posted, each booked where it belongs |
| `Postings.WrittenToPostgresIff` | src/persistence/pool.ts:527-568 | an operation is written to Postgres exactly when that is in use and reachable throughout, a settlement without revenue excepted; otherwise in memory, for good |
| `Postings.BalanceAnswered` | src/core/ledger.ts:354-370 | the balance that is answered is that over both stores until the ledger moves into memory; from then on it lacks exactly what Postgres holds |
| `Ledgers.AdapterSettlementPostsIff` | src/core/ledger.ts:94-228 | on the wallets of the adapters: posted exactly when the rounded revenue covers the rounded costs, else an exception, with any database and any failure of it |
| `Ledgers.ReleasePostsIff` | src/core/ledger.ts:571-687 | the same for a release, and the release of nothing at no cost is skipped |
| `Ledgers.CoveredNeedsNoAdjustment` | src/core/ledger.ts:162-176 | when the revenue covers the costs the lines balance to the unit as they stand: the residual adjustment is never needed |
| `Ledgers.ShortfallNeedsCostLine` | src/core/ledger.ts:167-191 | when it does not, the adjustment can only save a wallet that is itself a cost account with a line; otherwise the final check throws |
| `Ledgers.CreditStays` | src/core/ledger.ts:158-176 | the debits never fall short, so the branch that would adjust the revenue credit is never taken |
| `Ledgers.EntriesBalanceIff` | src/core/ledger.ts:118-191 | what the final check lets through, exactly |
| `Ledgers.LinesKnownIff` | src/core/ledger.ts:137-160 | the lines fit the in-memory store exactly when there is no net or the store has the wallet |
| `Ledgers.NetIsExact` | src/core/ledger.ts:133-135 | rounding the net of rounded amounts changes nothing |
| `Ledgers.NetCloseToExact` | src/core/ledger.ts:119-135 | the posted net is within two units (and two epsilons) of the unrounded net |
| `Ledgers.NetBoundIsTight` | src/core/ledger.ts:119-135 | inputs come as close to that bound as one likes, so two units flat are too few |
| `Ledgers.RoundClose` | src/core/ledger.ts:119-120 | rounding moves an amount by at most half a unit and the epsilon |
| `Ledgers.BooksBalance` | src/core/ledger.ts:373-410 | after any operations with any failures: the Postgres books balance transaction by transaction on known accounts, with trial balance and accounting equation at zero; the books in memory keep the same as long as only accounts of that store are named |
| `Ledgers.BooksStaySound` | src/core/ledger.ts:198-228 | each run of operations keeps both books sound |
| `Ledgers.OperationKeepsBooks` | src/core/ledger.ts:198-228 | so does each operation |
| `Ledgers.OperationUnbalancesIff` | src/persistence/pool.ts:561-567 | exactly which operations leave an unbalanced transaction in memory: a settlement or release with a net for a wallet the in-memory store, which has to write it, does not know |
| `Ledgers.SettlementTearsIff` | src/persistence/pool.ts:561-567 | in memory, a settlement does so exactly when it has a net for a wallet that is not among the accounts |
| `Ledgers.ATornSettlement` | src/persistence/pool.ts:561-567 | for instance one dollar for the wallet "wallet_base" |
| `Ledgers.TornSettlementStays` | src/core/ledger.ts:108-116 | such a settlement throws with the revenue booked alone, and as its task is then on record no repeat completes it |
| `Ledgers.SettledAgainIff` | src/core/ledger.ts:90-116 | a settled task is settled a second time exactly when the store that answers does not have it on record |
| `Ledgers.DepositLeavesPostgres` | src/core/ledger.ts:270-351 | the default wallet of a deposit is not among the migrated accounts, so the first such deposit moves the ledger into memory for good |
| `Ledgers.EquationIsTrialBalance` | src/core/ledger.ts:354-370 | debit-normal minus credit-normal balances are off by exactly what the trial balance is off |
| `Ledgers.RefundUndoesLock` | src/core/ledger.ts:692-704 | a refund moves back, on every account, what the lock of the same amount moved |
| `Ledgers.Ledger.constructor` | src/core/ledger.ts:89-89 | a ledger works on one database |
| `Ledgers.Ledger.BuildEntries` | src/core/ledger.ts:129-176 | the entries of a settlement or release after the residual adjustment |
| `Ledgers.Ledger.Write` | src/core/ledger.ts:198-228 | hands the transaction to the database, which decides where it ends up and whether it throws |
| `Ledgers.Ledger.RecordSettlement` | src/core/ledger.ts:94-259 | both stores and the answer after a settlement |
| `Ledgers.Ledger.ReleaseFunds` | src/core/ledger.ts:571-687 | both stores and the answer after a release |
| `Ledgers.Ledger.LockFunds` | src/core/ledger.ts:517-566 | both stores and the answer after a lock |
| `Ledgers.Ledger.RefundFunds` | src/core/ledger.ts:692-742 | both stores and the answer after a refund |
| `Ledgers.Ledger.RecordPaymentDeposit` | src/core/ledger.ts:266-351 | both stores and the answer after a deposit; a known hash posts nothing |
| `Ledgers.Ledger.GetBalance` | src/core/ledger.ts:354-370 | the fold of the account's entries in the store that answers, with the sign of its type |
| `Ledgers.Ledger.VerifyIntegrity` | src/core/ledger.ts:373-410 | exact on Postgres: balanced exactly when every single transaction is, with the true totals; in memory the query finds no rows, so it always reports balanced with totals of zero |
| `TaskHandling.TaskLeavesTrail` | src/core/agent.ts:525-1165 | a task posts lock and release, lock and refund, or one of the degenerate trails; never a release and a refund; database failures decide where it is posted, not whether |
| `TaskHandling.WrittenInOrder` | src/persistence/pool.ts:527-568 | transactions on accounts of the in-memory store, written one after the other, are each whole in exactly one store, from some point on in memory |
| `TaskHandling.TrailIsSplitOverStores` | src/persistence/pool.ts:527-568 | what a task adds to Postgres and in memory is together exactly the transactions of its trail, from some point on in memory |
| `TaskHandling.TrailIff` | src/core/agent.ts:525-1165 | which trail a task leaves, read off the gate, the fast and the main way of doing the work and the rounded amounts |
| `TaskHandling.RethrowsIff` | src/core/agent.ts:525-1165 | exactly when the polling loop sees an exception |
| `Postings.HandledTaskMoves` | src/core/agent.ts:525-1165 | what one task moves on every account over both stores, for every outcome |
| `TaskHandling.DeliveredIsReleasedIff` | src/core/agent.ts:1079-1087 | delivered work is released exactly when its rounded revenue is positive and covers its rounded costs, refunded exactly when it does not cover them |
| `TaskHandling.RefundedTaskRestoresBalances` | src/core/agent.ts:949-957 | a refunded task leaves every balance over both stores as it was, and in the store that answers too unless Postgres was lost on the way |
| `TaskHandling.ReleasedTaskClearsEscrow` | src/core/agent.ts:606-625 | a released task changes the escrow account by what was locked minus the receipt's revenue, so it is cleared exactly when the two agree |
| `TaskHandling.PostedReleaseIsLines` | src/core/agent.ts:606-625 | the wallets of the adapters are no cost accounts, so a posted release needed no adjustment |
| `TaskHandling.ReleaseMovesRevenue` | src/core/ledger.ts:581-588 | a release takes the revenue out of escrow and nothing else |
| `TaskHandling.HandleTask` | src/core/agent.ts:525-1165 | both stores after one task, for every outcome of triage, adapter, work and database, and exactly when the exception is thrown on |
| `TaskHandling.TryTask` | src/core/agent.ts:543-1128 | both stores when the body ends, and whether it threw |
| `TaskInterleaving.EscrowHoldsTheTasksInFlight` | src/core/agent.ts:270-271 | in any interleaving of the locks, releases and refunds of any number of tasks, with any failures of Postgres: escrow holds, over both stores, the locks in flight plus, for each released task, its lock minus its revenue |
| `TaskInterleaving.StepBalances` | src/core/agent.ts:606-625 | each such step keeps that |
| `TaskInterleaving.HandlingIsItsSteps` | src/core/agent.ts:525-1165 | handling one accepted task without interruption is the same as its steps |
| `CanonicalJson.TextsEqualIff` | src/identity/ed25519.ts:125-140 | two values have the same canonical text exactly when they are equal up to the order of keys at every depth, fields named "__proto__" aside and every infinite number read as null |
| `CanonicalJson.PlainTextsEqualIff` | src/identity/ed25519.ts:124-140 | without such fields and numbers: exactly when they are equal up to the order of keys |
| `CanonicalJson.CanonicalReadsBack` | src/identity/ed25519.ts:125-140 | reading the canonical text gives the value back in order, up to the order of keys, "__proto__" fields and infinite numbers, with nothing left over |
| `CanonicalJson.LexIff` | src/identity/ed25519.ts:132-133 | the order of sort() is dictionary order |
| `CanonicalJson.IndexIff` | src/identity/ed25519.ts:134-136 | array indices are the decimal spellings, without leading zeros, of the numbers below 2^32 - 1 |
| `CanonicalJson.BeforeIff` | src/identity/ed25519.ts:134-136 | the order of enumeration: indices first by their number, then the others in dictionary order |
| `CanonicalJson.ProtoIsLost` | src/identity/ed25519.ts:133-136 | a "__proto__" field leaves no trace in the text: {"__proto__": x} and {} sign alike |
| `CanonicalJson.InfinitySignsLikeNull` | src/identity/ed25519.ts:125-127 | 1e999, read as infinity, leaves null in the text: [1e999] and [null] sign alike |
| `CanonicalJson.ShownCanon` | src/identity/ed25519.ts:125-140 | it does not matter whether infinite numbers are replaced before sorting or after |
| `CanonicalJson.SameIffCanonEqual` | src/identity/ed25519.ts:129-140 | sorting identifies exactly the values that are equal up to key order |
| `CanonicalJson.CanonIsOrdered` | src/identity/ed25519.ts:129-140 | the sorted value has its keys in order everywhere and still means the original |
| `CanonicalJson.CanonIdempotent` | src/identity/ed25519.ts:129-140 | sorting again changes nothing |
| `CanonicalJson.SortedIffNoIndexOvertakes` | src/identity/ed25519.ts:133-137 | the keys come in the order of sort() exactly when no array index stands before a key that sorts below it |
| `CanonicalJson.IndicesByValue` | src/identity/ed25519.ts:133-137 | "9" is printed before "10", against the order of sort() |
| `CanonicalJson.InOrderUnique` | src/identity/ed25519.ts:133-137 | the members determine the sorted object |
| `CanonicalJson.AssignAllInOrder` | src/identity/ed25519.ts:132-136 | assigning sorted keys one by one yields an object in enumeration order that lost only "__proto__" |
| `CanonicalJson.SortKeys` | src/identity/ed25519.ts:129-140 | the recursion and the assignment loop compute the sorted value |
| `CanonicalJson.CanonicalText` | src/identity/ed25519.ts:125-127 | the text that is hashed and signed |
| `JsonText.PrintUnique` | src/identity/ed25519.ts:125-127 | the printed text determines the value, infinite numbers read as null, and shows where it ends |
| `JsonText.PrintShown` | src/identity/ed25519.ts:125-127 | and an infinite number prints as null does |
| `JsonText.PrintRead` | src/identity/ed25519.ts:125-127 | round trip: a reader written apart from the printer gets the value back from the text, infinite numbers as null, whatever follows it |
| `JsonText.StringRead` | src/identity/ed25519.ts:125-127 | and the characters of a quoted string, escapes included |
| `JsonText.EscapesAreShort` | src/identity/ed25519.ts:125-127 | a character is escaped exactly when it has to be, and by two characters where that is possible |
| `UnifiedDiff.ComputeUnifiedDiff` | src/core/meta-tools/tools/edit-source.ts:212-258 | the walk ends with the diff the next rows speak of and prints it; both texts can be read off it, it decodes from its printed form, and it shows no change exactly when the texts are equal |
| `UnifiedDiff.DiffIsFaithful` | src/core/meta-tools/tools/edit-source.ts:212-258 | same and deleted lines spell the old text, same and added lines the new one, nothing changed exactly when the texts are equal |
| `UnifiedDiff.SmallestDiffIff` | src/core/meta-tools/tools/edit-source.ts:229-254 | only lines without a counterpart are deleted or added exactly when the common lines come in the same order in both texts; then all of them are kept, and no diff of the two texts keeps more |
| `UnifiedDiff.SwapKeepsNothing` | src/core/meta-tools/tools/edit-source.ts:241-254 | two lines that change places: both are deleted and added, though one could be kept |
| `UnifiedDiff.CommonStartStays` | src/core/meta-tools/tools/edit-source.ts:229-233 | what both texts begin with is kept |
| `UnifiedDiff.DeletionsFirst` | src/core/meta-tools/tools/edit-source.ts:233-241 | after an added line without a counterpart no such line is deleted: deletions come first |
| `UnifiedDiff.PrintedDiffDecodes` | src/core/meta-tools/tools/edit-source.ts:219-257 | the printed text alone determines all diff lines |
| `UnifiedDiff.JoinSplit` | src/core/meta-tools/tools/edit-source.ts:216-217 | joining the lines of a text gives the text back |
| `UnifiedDiff.SplitJoin` | src/core/meta-tools/tools/edit-source.ts:257-257 | splitting joined single lines gives the lines back |
| `UnifiedDiff.UnchangedSides` | src/core/meta-tools/tools/edit-source.ts:229-233 | a diff without changes has equal sides |
| `Quality.ErrorsExact` | src/core/quality.ts:33-93 | a problem is reported at a path exactly when following the path through value and schema leads to that flaw |
| `Quality.ErrorsIffNotConforming` | src/core/quality.ts:33-93 | no errors exactly when the value conforms |
| `Quality.ConformsIffFlawless` | src/core/quality.ts:33-93 | conforming is having no flaw at any path |
| `Quality.Validate` | src/core/quality.ts:33-93 | the loops and recursion report those errors in order, and none exactly for conforming values |
| `ErrorOrder.ReportedInTurn` | src/core/quality.ts:33-93 | the report is in order: a value before what is in it, missing keys before properties, both in the order of the schema, items by index, and the same inside each |
| `SchemaStandard.SameReportsIff` | src/core/quality.ts:33-93 | for every value and schema: the validator reports the flaws that sections 6.1.1, 6.1.2 and 6.5.3 of JSON Schema Validation draft 2020-12, with properties and items, would give, exactly when no visited place departs: an unknown type word, an infinite number, a listed array or object, a broken rule without a type, an inherited name |
| `SchemaStandard.ReliableIff` | src/core/quality.ts:8-19 | for every schema: the reports agree on all finite values if and only if the schema is reliable, which can be read off the schema alone |
| `SchemaStandard.ReliableIsStandard` | src/core/quality.ts:33-93 | for such a schema the validator decides as the standard does |
| `SchemaStandard.SameReportsSameVerdict` | src/core/quality.ts:33-93 | the same reports mean the same verdict |
| `SchemaStandard.ReportsAgree` | src/core/quality.ts:33-93 | where nothing departs, each flaw at each path is reported by both readings or by neither |
| `SchemaStandard.DepartureShows` | src/core/quality.ts:33-93 | each departure shows as a flaw that only one reading reports |
| `SchemaStandard.NontrivialRejects` | src/core/quality.ts:33-93 | a schema that demands anything rejects some finite value in the standard reading |
| `SchemaStandard.StandardHasNoFlaw` | src/core/quality.ts:33-93 | a value that meets the standard has no flaw in its terms |
| `SchemaStandard.NotStandardHasFlaw` | src/core/quality.ts:33-93 | and one that does not has one |
| `SchemaStandard.InheritedCountsAsPresent` | src/core/quality.ts:64-70 | {} passes a schema that requires "toString" |
| `SchemaStandard.UntypedRulesAreSkipped` | src/core/quality.ts:60-70 | required is ignored by a schema without a type |
| `SchemaStandard.CompoundsAreNeverListed` | src/core/quality.ts:52-58 | an enum that lists an object or array never accepts it |
| `SchemaStandard.UnknownTypeAcceptsAll` | src/core/quality.ts:95-114 | a type word the standard does not have accepts everything |
| `SchemaStandard.InfiniteIsNoNumber` | src/core/quality.ts:95-114 | a number beyond the range of a double is not accepted as a number |
| `QualityLoop.Check` | src/core/quality.ts:137-189 | the report on an output |
| `QualityLoop.DeliversExactlyTheGood` | src/core/quality.ts:137-189 | deliver iff not null and conforming, retry iff otherwise while retries are left, score 1 iff delivered, 0 iff empty |
| `QualityLoop.RejectionNamesAFlaw` | src/core/quality.ts:157-178 | the reason of a rejected output names one to three flaws it really has, all of them if there are fewer than three, and the score falls with their number |
| `QualityLoop.RetryIsToldWhy` | src/core/agent.ts:1245-1337 | every retry is told what is wrong with the output before it |
| `QualityLoop.AttemptsAddUp` | src/core/agent.ts:1245-1337 | the first attempt is made without a reason, and the cost and latency charged are the plain sums over the attempts |
| `QualityLoop.ExecuteWithQuality` | src/core/agent.ts:1245-1337 | at most maxRetries + 1 calls; delivers exactly when one of the attempts is good, and then the first such; fails exactly when all are bad; charges the exact sum of the attempts made; the trailing return is reached only for a negative maxRetries |
| `EconomicGate.GridPayoutAcceptedIff` | src/core/opportunity/economic-brain.ts:135-369 | for payouts in whole 0.0001 USD: accepted exactly when eligible, paid, with a margin that can be reached, and payout minus cost is at least the minimum profit and the margin; rounding plays no part |
| `EconomicGate.AcceptedPaysOff` | src/core/opportunity/economic-brain.ts:257-291 | for any payout: what is accepted falls short of the required profit by at most half a grid unit, and half a unit more is always enough |
| `EconomicGate.AcceptedIff` | src/core/opportunity/economic-brain.ts:135-369 | the chain of checks accepts exactly when all filters pass |
| `EconomicGate.CounterOfferedIff` | src/core/opportunity/economic-brain.ts:135-369 | a counter-offer is made exactly when the agent could do the task in time but is busy, or is free and would be paid its cost but not enough; at the asked price up to half a unit; permission is granted exactly on acceptance |
| `EconomicGate.EstimateClose` | src/core/opportunity/economic-brain.ts:111-129 | the estimate is the sum of the skills, 0.005 if that is nothing, a quarter more from 2001 characters of payload on, up to half a grid unit |
| `EconomicGate.SkillsCostAdds` | src/core/opportunity/economic-brain.ts:111-116 | the sum adds up over any split of the skills, a skill without a price counting 0.005 |
| `EconomicGate.AcceptanceIsMonotone` | src/core/opportunity/economic-brain.ts:135-369 | more payout, skills, time, reputation or spare capacity never lose an acceptance |
| `EconomicGate.CostlessIsNeverAccepted` | src/core/opportunity/economic-brain.ts:257-291 | a task whose estimate rounds to zero is never accepted while a margin is asked, whatever it pays |
| `EconomicGate.PriceAcceptedIff` | src/core/opportunity/economic-brain.ts:257-300 | an eligible opportunity at a counter-offer's price is accepted exactly when the price covers cost and required profit |
| `EconomicGate.ShortfallAcceptedIff` | src/core/opportunity/economic-brain.ts:262-291 | exactly when what rounding took off the asked sum is no more than the smaller of the two demands |
| `EconomicGate.CounterOffersHold` | src/core/opportunity/economic-brain.ts:199-262 | with both demands at least half a price unit, whoever takes up a counter-offer is accepted, surge or not |
| `EconomicGate.ShippedCounterOffersHold` | src/core/opportunity/economic-brain.ts:66-67 | with the default thresholds this holds for every cost from 0.002 USD |
| `EconomicGate.NoTaskBelowTheCheapestSkill` | src/core/opportunity/economic-brain.ts:73-84 | with the default skill table no estimate is below 0.002 USD |
| `EconomicGate.CounterOfferCanRepeat` | src/core/opportunity/economic-brain.ts:289-300 | below that a counter-offer taken up can draw the same counter-offer again, for ever |
| `EconomicGate.EconomicBrain.EstimateCost` | src/core/opportunity/economic-brain.ts:111-129 | sums the skills, falls back to a baseline, adds the surcharge for long payloads and rounds |
| `EconomicGate.EconomicBrain.AddCapability` | src/core/opportunity/economic-brain.ts:92-94 | adds the skill and forgets none |

## Left out

- Transports, LLM clients, marketplace and chain clients, dashboard, scripts, persistence and SQL text: I/O only.
- Signatures, hashes and key formats: foreign cryptography; a signature check is an answer of the environment.
- Floating point: amounts are reals or whole grid units, `Math.round` is the ideal nearest integer with halves upwards, and
  `Number.EPSILON` is its exact value.
- Task graph: titles, descriptions, inputs, outputs, error texts, timestamps and the set of tasks in flight. An unset agent is
  the empty string. The random suffixes of fallback ids are assumed not to collide with ids already in use
  (src/core/htn/morphling-replan.ts:89-90).
- HTNPlanner rules: they only build fixed chains of three subtasks.
- RateLimiting.RateLimiter.TryConsume: reads the clock once where the source reads it twice in a row; token counts and limits are
  natural numbers; `reset`, a clock that goes back and negative requests are excluded, and capacity and refill rate are not negative.
- GranularRateLimiting.TiersObeyLimits: peer and skill ids that name inherited properties of a JavaScript object, which the lookup
  of overrides would find, are not modelled.
- CircuitBreaking.CountIsMaxSuffix: runs consist of questions and recorded outcomes; the manual `reset` is modelled as a method
  but is not part of a run. A success that arrives late counts as a probe, since the breaker cannot tell them apart.
- Budgeting.GateHoldsUpTo: assumes that a task records no more than its estimate, which the source does not enforce.
- Escrow.EscrowConserves: covers runs without `importState`, which does not restore the stuck queue
  (src/core/escrow.ts:203-222); a call with all its retries is one step, an attempt that throws has had no effect, and failure
  texts and timestamps are left out.
- Orchestration.ExecutionCloses: covers sequential runs; reputation feedback and signing the result are assumed not to throw. What
  executions in flight together do is in `ConcurrentWallet`, for task ids that are new, and what a replay does in
  `ReplayRunsIffLocked`.
- ConcurrentWallet.InterleavedWallet: the lock of an execution is one step and so is everything from its release or refund to the
  charge.
- The HTTP branch of the A2A capability takes the peer's own word on escrow status and cost
  (src/core/a2a-capability.ts:322-373), so the wallet theorem stays on the orchestrator's path.
- Persistence.Database.WithTransaction: a commit that fails has not taken effect, and in memory a query always succeeds. Order of
  rows, ids, timestamps and the other tables are left out.
- Ledgers.SettlementPostsIff: stated for non-negative inputs, as the callers give them. Adapter ids that name inherited properties of a
  JavaScript object, which the lookup of the wallet would find, are not modelled.
- TaskHandling.TaskLeavesTrail: a task is handled in one piece, and the feedback to the reputation system after a release or refund
  (src/core/agent.ts:977 and src/core/agent.ts:1108), which is inside the same try block, is assumed not to throw; if it did, a
  second refund would follow. Interleaved tasks are in `TaskInterleaving`.
- Profit reports, the list of account balances and recent transactions: plain queries.
- CanonicalJson.TextsEqualIff: speaks of JSON values. `canonicalJson` is also called on objects with undefined fields
  (src/identity/agent-identity.ts:442-453), which leave no trace in the text, and would sort a Date into an empty object.
- JsonText.PrintRead: characters are Unicode scalar values, so lone surrogates and the code-unit order of keys outside the basic
  plane are not captured; a finite number stands for its printed text, and the reader takes text without white space.
- Quality.Validate: messages are reduced to which rule was broken and where; a missing output and a null output are the same value,
  and values are those JSON.parse can produce.
- SchemaStandard.SameReportsIff: schemas are those JSON.parse can produce (no key twice); a number too large for a double counts as
  an integer in the standard reading, which is wrong only for a literal that spells out a fraction behind more than 308 digits.
- QualityLoop.ExecuteWithQuality: when the executor throws, the costs of the attempts before are lost with the exception, as in the
  source; token counts and logs are left out.
- EconomicGate.AcceptedIff: justification texts, the breakdown and the ROI figure are left out; the reputation score is an input, and
  the case of a cost that rounds to zero is `CostlessIsNeverAccepted`. Skills named like inherited JavaScript properties, which the
  cost table's lookup would find, are not modelled.
- Evaluation packs, the sandbox, tool execution and security audits: oracles.
- Model router, telemetry counters, price tables and learning statistics: they would only add easy members.
