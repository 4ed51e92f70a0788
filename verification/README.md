# Verified models of the durable parts of go-micro

go-micro v6 runs agents and flows that have to survive crashes, failed saves, repeated tool
calls, impatient callers and limited budgets. This project models the code that makes those
promises and proves them, for every input, every history and every interleaving.

* **Durable flows** (`FlowMachine`, `FlowInvariant`, `FlowRefinement`, `FlowRetries`, `FlowEngine`). A
  flow runs its steps in order and saves a record before and after each. `FlowMachine` is a
  transition system over one run with failing saves, retries, awaited input and crashes in every
  state; `FlowEngine.Flow` is the engine itself, an object over a checkpoint table, whose ghost
  history of each run is a behavior of that system.
* **Checkpointed agent runs** (`AgentRun`, with `AgentMessages` for what a run is resumed with and
  `StaleResume` for concurrent resumes of one run) and **the agent's tool handler and ask**
  (`Guardrails`, `Plan`, `ToolCalls`, `CallLog`, `ToolPipeline`).
  `ToolPipeline.Agent` is the stack of wrappers around the base handler and the ask loop above it;
  what it saves is tied, event by event, to the run machine of `AgentRun`. `ToolCalls` says, as
  functions of what the world does, what the tries of a call give and pay, and `CallLog` which
  calls are told apart and what the log of an ask says about their refusals.
* **Single flight of delegations** (`SingleFlight`, `DelegationAnswers`) and **manual acknowledgement**
  (`ManualAck`): concurrent protocols, as machines whose steps interleave freely.
* **Tool calls in text** (`BraceGrammar`, `TextScanner`, `CallSites`): the brace scanner, proved
  against a grammar of balanced text and, through it, against printed JSON (RFC 8259).
* **Conversation memory** (`ConversationMemory`), **access rules** (`Rules`), **the in-memory
  query engine** (`Query`), **model retries** (`Retry`) and **step combinators** (`Combinators`).

`Ordering`, `Int64` and `Options` are shared vocabulary: insertion sort and its uniqueness,
two's complement wrap-around, optional values.

Everything outside the program is arbitrary: models, tools, step functions, graders, payments,
approvers, clocks, cancellation, the store's successes and failures. In machines they are event
labels, in methods nondeterministic values or parameters.

## Where the code does less than it promises

* A negative effective retry count makes `runStep` return success without running the step; it
  is exactly then that a step is skipped (`SkippedIffNegativeRetry`,
  `NegativeRetryFinishesWithoutRunning`).
* `Resume` on a waiting run does not clear the await state. Without such a resume the await state
  matches the status (`WaitingMeansAwait`); with one, it does exactly if the step awaits again
  (`DirectResumeKeepsAwaitIff`), and a run can end done and still awaiting
  (`DirectResumeLeavesAwaitSet`). A direct resume is sure to keep the match, whatever follows, if and
  only if the run is not waiting (`DirectResumeIsSafeIff`).
* A delegation may execute although a result for its key is stored. A call executes if and only if
  its cache check found no readable entry and nobody was in flight when it joined (`ExecutesIff`);
  the result is already stored then exactly if it was stored between check and join, or was
  unreadable at the check (`ExecutesAlthoughStoredIff`, with a run in
  `MissBeforeStoreExecutesAgain`).
* A plan that cannot be read counts as no plan. So an update keeps a done task finished
  (`DoneStaysFinishedIff`), a delegation waits for its turn (`DelegationPassesIff`) and an action
  completes a step (`Agent.Handle`) if and only if the read succeeded, and a run with an unfinished
  plan is saved as done exactly when the last plan read failed (`Agent.Finish`, with a run in
  `UnreadPlanIsSavedAsDone`).
* A pause that is raised by a call in the text of the last reply comes too late: whether the run is
  saved as done depends on the plan alone (`Agent.Finish`). A pause that is left at an answer was
  raised there (`Agent.Turns`, with a run in `LatePauseIsDropped`).
* A run is resumed with the message it was asked with, followed by the inputs it was given, as long
  as every ending keeps the message (`MessageIsKept`). A pause and an unfinished plan save the message
  of the last model turn instead, so the run's own survives such an ending if and only if that is the
  same one (`EndingKeepsMessageIff`), as it is in the first turn (`Agent.Ask`); after another turn the
  run is resumed with the prompt of that turn (`TurnPromptReplacesMessage`). An empty message does
  not survive a request of input.
* Two calls share their loop count and their record if and only if they have the same name and
  arguments, or the name of one continues that of the other after a colon (`FingerprintIff`); names
  without a colon are told apart (`PlainNamesAreToldApart`).
* A call that is canceled before its first try is recorded as done with the cancellation as its
  result, and never executes in that run; exactly such a call is recorded without having run
  (`Agent.RunTool`, with a history in `CanceledCallIsRecordedAsDone`).
* A resume loads the record before it gets the agent's lock. What is recorded is safe from a driver
  that waits for the lock, through everything that follows, if and only if the saved record is not
  terminal and has no result that the loaded one has not (`WaitingDriverIsSafeIff`). A run that is
  resumed while its first ask is at work can lose its answer and execute a done call again
  (`ResumingAWorkedOnRunRepeats`).
* A payment whose response cannot be read is not booked. The booked payments of an ask are all the
  money that was paid if and only if every paid response could be read (`BookedAtMostPaid`,
  `Agent.AskLocked`); otherwise the money can exceed Budget (`UnreadPaymentsExceedBudget`).
* Retry waits are shifted and added in 64 bits without a check. All waits up to attempt n are in
  (0, 30s] if and only if base * 2^(n-1) is below 2^63 (`PlainWaitsInRangeIff`); with Retry-After
  and jitter, if and only if the longest delay plus the whole jitter is below 2^63 as well
  (`WaitsInRangeIff`). With the default base this is 36 attempts (`DefaultWaitsInRangeIff`), and the
  37th wait is negative (`DefaultBackoffWraps`).
* The spend check adds in 64 bits without a check. At one call it is exact if and only if the sum
  fits (`AdmissionExactIff`). The recorded spend is always what was charged and paid, wrapped to 64
  bits (`SpendingIsBalanced`). If every price fits on top of every amount that payments and prices
  can add up to, it stays within the larger of MaxSpend and Budget, through every sequence of
  payments, reservations and refunds (`SpendStaysInRange`); without step and loop limits only then
  (`SpendInRangeIff`). For MaxSpend up to Budget that is price plus Budget below 2^63
  (`SpendInRangeIffBudgetFits`). A bound on price plus MaxSpend is not enough
  (`BudgetAboveMaxSpendWraps`).
* A feedback field named "data" is overwritten by the text of the input
  (`FieldIsAllThatIsAdded` says exactly when).

## Model

| member | source | states |
|---|---|---|
| FlowMachine.StepIndex | flow/steps.go:735-742 | the first step of that name, -1 exactly if there is none |
| FlowInvariant.ApplyKeepsInv | flow/steps.go:506-639 | every event, including failed saves and crashes, keeps the record shape of the saved and the live run |
| FlowInvariant.HistoryKeepsInv | flow/steps.go:390-639 | every state of every history has that shape |
| FlowInvariant.SavedRecordShape | flow/steps.go:549-639 | every saved record has exactly its first k steps done, the stage names step k ("" at the end), and done means all steps done |
| FlowInvariant.StartInput | flow/steps.go:390-410 | the original input of a run never changes |
| FlowInvariant.RecordsKeepTheirName | flow/steps.go:390-410 | every record of a run has the id, the flow and the start time it was started with |
| FlowInvariant.SavedBeforeItsAttempt | flow/steps.go:571-580 | when a step is called the saved record is the one the driver holds, with the step in progress and the data it is called with |
| FlowInvariant.LevelGrows | flow/steps.go:549-639 | the number of durably done steps never goes down over a history |
| FlowInvariant.AttemptAtLevel | flow/steps.go:562-580 | a step is only attempted when exactly the steps before it are saved as done |
| FlowInvariant.ExecutionOrder | flow/steps.go:549-639 | over a whole history executed step indexes never decrease |
| FlowInvariant.DoneStepsStayDone | flow/steps.go:549-639 | a step saved as done is never executed again |
| FlowRefinement.CrashResumeRefinement | flow/steps.go:390-639 | a run saved as done, whatever happened to it, has the in-order composition over its original input of one successful output (or injected input) per step |
| FlowRefinement.DeterministicResult | flow/steps.go:549-639 | with deterministic steps every saved record has the uninterrupted intermediate result and every done one the uninterrupted result |
| FlowRefinement.UninterruptedRuns | flow/steps.go:506-639 | the run in which nothing goes wrong, with any choice of steps that await input, is a history of the machine |
| FlowRefinement.SameAsUninterrupted | flow/steps.go:390-639 | a finishing history ends with the data of the uninterrupted run on the same input, in which awaited steps are suspended and given their input, and that run finishes |
| FlowRefinement.WaitingMeansAwait | flow/steps.go:506-595 | unless a waiting run was resumed directly, waiting holds exactly when the await state is set; it names the stage, and its key and prompt are those with which that step awaited input on the saved data |
| FlowRefinement.DirectResumeKeepsAwaitIff | flow/steps.go:414-436 | after a direct resume of a waiting run whose step decides at its first attempt, the await state matches the status exactly if the step awaits again |
| FlowRefinement.DirectResumeCanBreakAwait | flow/steps.go:414-436 | every idle waiting run, whatever its retry count, has a continuation after a direct resume that breaks the match |
| FlowRefinement.WaitingResumeBreaks | flow/steps.go:414-436 | that continuation as a history |
| FlowRefinement.DirectResumeIsSafeIff | flow/steps.go:414-436 | a direct resume keeps the match through every continuation if and only if the run is not waiting |
| FlowRefinement.DirectResumeLeavesAwaitSet | flow/steps.go:414-436 | a history that ends done with the await state still set |
| FlowRefinement.SkippedIffNegativeRetry | flow/steps.go:648-695 | a step is skipped only, and attempted never, under a negative effective retry count |
| FlowRefinement.NegativeRetryFinishesWithoutRunning | flow/steps.go:648-695 | such a one-step flow is saved as done without running its step |
| FlowRetries.AttemptNumber | flow/steps.go:655-694 | the attempt a run waits for is one more than the errors of the step in a row just before |
| FlowRetries.AttemptLeadsTo | flow/steps.go:644-696 | an attempt that erred is repeated with the same data as long as the step has erred at most its retry count in a row (the step's own if positive, else the flow's), and is otherwise the failure of the step; any other attempt is the last; the record has the number of attempts, the error, the await state or the data |
| FlowRetries.FailsIffRetriesUsedUp | flow/steps.go:655-694 | a step whose attempt erred fails if and only if that attempt and as many as the retry count right before it all erred |
| FlowRetries.GivesUpWith | flow/steps.go:645-661 | a cancelled step fails with the number of attempts that erred before |
| FlowRetries.FailingComesFrom | flow/steps.go:644-696 | a step fails only by an attempt that erred or by giving up |
| FlowEngine.ValidateSteps | flow/steps.go:721-733 | accepts exactly the step lists with non-empty, distinct names |
| FlowEngine.RunBeforeTotal | flow/steps.go:202-207 | start time, then id, is a total order on runs with distinct ids |
| FlowEngine.ListingIsCanonical | flow/steps.go:188-209 | the listing is the same for every order in which the store returns its keys |
| FlowEngine.SortKeepsIds | flow/steps.go:202-207 | sorting keeps ids distinct |
| FlowEngine.SortedInStartOrder | flow/steps.go:202-207 | a sorted listing goes by start time, and by the first difference of the ids among runs of the same time |
| Ordering.StringLessIff | flow/steps.go:202-207 | the order of strings is that of their first difference |
| FlowEngine.Flow.constructor | flow/steps.go:215-233 | a new flow has an empty, valid table |
| FlowEngine.Flow.Save | flow/steps.go:710-719 | the table has the run exactly if the write happened; a reported failure may have written |
| FlowEngine.Flow.DeleteRun | flow/steps.go:181-186 | the table loses the run exactly if the delete took effect, and is unchanged otherwise; a reported failure may have deleted |
| FlowEngine.Flow.TryStep | flow/steps.go:655-693 | one attempt is one event of the machine, and is repeated if and only if it erred and retries are left |
| FlowEngine.Flow.TryAgain | flow/steps.go:655-694 | the attempts on the same data err one after the other up to the one that decides, an error decides only at attempt retry count + 1 |
| FlowEngine.Flow.RunStep | flow/steps.go:644-696 | the same with the retry count resolved; a step without a function is an error, one under a negative retry count is not called; the outcome is what the machine leaves to be saved |
| FlowEngine.Flow.Pass | flow/steps.go:571-622 | one loop pass either reaches the next step or says how the call returns |
| FlowEngine.Flow.Record | flow/steps.go:580-622 | success, await and failure are recorded and saved |
| FlowEngine.Flow.RunFrom | flow/steps.go:549-639 | the run ends idle, with its history extended by machine events and every error justified |
| FlowEngine.Flow.StartRun | flow/steps.go:390-410 | starts a fresh run whose history begins with its input; other runs are untouched |
| FlowEngine.Flow.Continue | flow/steps.go:543-569 | a loaded run goes on at its stage |
| FlowEngine.Flow.Resume | flow/steps.go:414-436 | done runs are left alone; on success a run of this flow is done, deleted or waiting; other runs are untouched, and another flow's record stays one of that flow |
| FlowEngine.Flow.ResumeWith | flow/steps.go:506-545 | only a waiting run takes the input, for a run of this flow as the output of the awaited step |
| FlowEngine.Flow.InjectOwn | flow/steps.go:526-544 | the awaited step of a waiting run is done with the input, and the run goes on behind it |
| FlowEngine.Flow.List | flow/steps.go:188-209 | exactly the readable records, in start order |
| FlowEngine.Flow.Pending | flow/steps.go:464-481 | exactly this flow's readable runs that are running or failed, in start order |
| FlowEngine.Flow.ResumeNext | flow/steps.go:454-458 | draining one more run leaves the earlier ones drained and the later ones as listed |
| FlowEngine.Flow.ResumeEach | flow/steps.go:454-459 | stops at the first failing run, earlier ones drained, later ones untouched |
| FlowEngine.Flow.ResumePending | flow/steps.go:446-460 | without error no readable run of the flow is left pending; with one, earlier runs are drained and later ones untouched; nothing else changes |
| FlowEngine.Flow.DrainIsExact | flow/steps.go:446-481 | what is pending after a drain is exactly what could not be read |
| FlowEngine.Flow.FinishedRunsAreExplained | flow/steps.go:390-639 | whatever calls were made on the engine, a run stored as done has the in-order composition over its input |
| SingleFlight.ApplyKeepsInv | agent/builtin.go:685-802 | every step of every call keeps the ownership invariant |
| SingleFlight.BehaviorKeepsInv | agent/builtin.go:685-802 | every reachable state of every interleaving has it |
| SingleFlight.NoOverlap | agent/builtin.go:685-783 | executions for one key never overlap |
| SingleFlight.InflightIffLeader | agent/builtin.go:753-783 | an in-flight entry exists exactly while a live leader owns it |
| SingleFlight.NoStuckWaiter | agent/builtin.go:753-783 | a waiter can return the published answer, or a live leader owns its record and can take a step |
| SingleFlight.PublishedStays | agent/builtin.go:772-783 | a published record never changes |
| SingleFlight.WaiterGetsLeadersAnswer | agent/builtin.go:753-783 | for a waiter that returned without cancellation, the owner of its record has returned as its leader, for the same key, and the waiter has that very result under its own id; it has an empty result exactly if that leader panicked |
| SingleFlight.OwnersReturned | agent/builtin.go:772-783 | whoever owns a published record has returned exactly what was published, or has panicked and published the zero result |
| SingleFlight.RepliesAreProduced | agent/builtin.go:685-802 | every reply was produced by an execution for the same key |
| SingleFlight.StoredMeansNeverExecuted | agent/builtin.go:785-802 | a call that starts after a result was stored, and can read the cache, never executes |
| SingleFlight.ExecutesIff | agent/builtin.go:685-770 | a call executes if and only if its cache check found no readable entry and it then joined with nobody in flight for its key |
| SingleFlight.CacheGrowsByStores | agent/builtin.go:798-802 | a key is in the cache exactly if it was before or a call stored it in between |
| SingleFlight.ExecutesAlthoughStoredIff | agent/builtin.go:685-802 | a call starts to execute with its result stored if and only if it was stored between check and join, or was unreadable at the check |
| DelegationAnswers.ExecutionIsKept | agent/builtin.go:685-783 | from its execution on a leader carries exactly what the execution came up with: it stores it, publishes it, has returned it, or has panicked with nothing |
| DelegationAnswers.WaiterGetsTheExecution | agent/builtin.go:753-783 | a waiter that was not cancelled has, under its own id, what the execution of its leader came up with, a reply, an error or nothing |
| DelegationAnswers.WaitersGetOnlyThat | agent/builtin.go:753-783 | once a leader has executed, whoever joined its record gets exactly that |
| DelegationAnswers.CacheHoldsLastStored | agent/builtin.go:785-802 | the cache holds what was stored last for the key |
| DelegationAnswers.CachedWasExecuted | agent/builtin.go:785-802 | what is cached was the reply of an execution for the same key |
| DelegationAnswers.RepliesAreStoredFirst | agent/builtin.go:708-750 | no reply is returned or published before its leader has tried to store it |
| DelegationAnswers.AnswerComesFrom | agent/builtin.go:685-802 | every answer carries the id of its call and is the call's own execution, that of the leader it waited for, what the cache held when it checked, or its cancellation |
| DelegationAnswers.CallGoesOn | agent/builtin.go:685-783 | a call can always go on until it has returned, a waiter returns exactly if its record is published |
| SingleFlight.TwoMisses | agent/builtin.go:685-770 | two calls can both miss the cache before either joins |
| SingleFlight.MissBeforeStoreExecutesAgain | agent/builtin.go:685-802 | the second of them executes although the result is stored |
| AgentRun.Find | agent/checkpoint.go:282-289 | the first record of that name, none exactly if no record has it |
| AgentRun.UpsertedSteps | agent/checkpoint.go:291-304 | changes or appends one record behind the ask record and keeps names distinct |
| AgentRun.ApplyKeepsInv | agent/checkpoint.go:21-304 | every event keeps the record shape, and every recorded result |
| AgentRun.HistoryKeepsInv | agent/checkpoint.go:21-304 | every state of every history has that shape |
| AgentRun.HistoryAdvances | agent/checkpoint.go:245-304 | a later saved record has every record of an earlier one at its place, with its done results |
| AgentRun.AskStaysFirst | agent/checkpoint.go:21-45 | in every saved record the ask record is first and names are distinct |
| AgentRun.ResumeFindsItsMessage | agent/checkpoint.go:78-159 | a run can be given input exactly if it is paused for it, and resumed exactly if it is neither that nor done, canceled, timeout, rate_limited or expired; a resumable one has its message, a done one its response |
| AgentRun.EndingIsSaved | agent/agent.go:405-549 | what each ending saves: status, stage, data, error, result and attempts of the ask record; tool records are kept |
| AgentRun.CallIsStarted | agent/checkpoint.go:256-304 | a call that starts is in progress in the record, at its old place with its attempts or behind all others |
| AgentRun.CallIsRecorded | agent/checkpoint.go:258-273 | a call that ended has its result, or its refusal as the error, and one more attempt; no other record changes |
| AgentMessages.ResumedWith | agent/checkpoint.go:78-159 | a resumed run has the saved message, one that is given input has it followed by that; the ask record starts anew |
| AgentMessages.EndingKeepsMessageIff | agent/agent.go:405-533 | the saved record of an ending is resumed with the run's message if and only if the ending brings no other |
| AgentMessages.MessageIsKept | agent/checkpoint.go:21-159 | if every ending keeps the message, every record has the message the run was asked with followed by inputs it was given, in order, through pauses, failures and crashes |
| AgentMessages.TurnPromptReplacesMessage | agent/agent.go:462-533 | a run whose plan is left unfinished after another turn is resumed with the prompt of that turn |
| AgentRun.ToolResultStays | agent/checkpoint.go:245-275 | once saved as done, a tool record's result never changes |
| AgentRun.DoneCallNeverExecutes | agent/checkpoint.go:245-275 | once saved as done, that name and arguments are never executed again, through asks, resumes, failed saves and crashes |
| AgentRun.ResultComesFromItsCall | agent/checkpoint.go:258-273 | a saved done record holds the content with which that very call once ended unrefused |
| AgentRun.CanceledCallIsRecordedAsDone | agent/checkpoint.go:256-273 | a call that ends without having been executed, and whose own save fails, is recorded as done by the save that ends the ask, in a run that can be resumed and replays it |
| AgentRun.ReplayedResult | agent/checkpoint.go:252-254 | a later driver of the run replays exactly the recorded result |
| AgentRun.TerminalIsFinal | agent/checkpoint.go:96-105 | done, canceled, timeout, rate_limited and expired are absorbing |
| StaleResume.UndisturbedResume | agent/checkpoint.go:78-113 | a resume that gets the lock before anything else happens is the resume of the run machine |
| StaleResume.ApplyKeepsInv | agent/checkpoint.go:78-159 | every event, of drivers with and without the lock, keeps the record shape, and what is recorded unless a loaded record that does not cover the saved one gets the lock |
| StaleResume.CoveringHistoryKeeps | agent/checkpoint.go:78-159 | over a whole history no result and no terminal record is lost if every driver that gets the lock has loaded a record that covers the saved one |
| StaleResume.DoneCallNeverExecutes | agent/checkpoint.go:245-275 | in such a history a call recorded as done is never executed again |
| StaleResume.UncoveredLockLoses | agent/checkpoint.go:82-113 | a loaded record that does not cover the saved one replaces it at the first save |
| StaleResume.WaitingDriverIsSafeIff | agent/checkpoint.go:82-113 | whatever follows when a waiting driver gets the lock, nothing recorded is lost, if and only if the record it loaded covers the saved one |
| StaleResume.StaleDriverExecutesAgain | agent/checkpoint.go:82-113 | a driver that loaded the record before a call was done can execute that call again |
| StaleResume.ResumingAWorkedOnRunRepeats | agent/checkpoint.go:82-113 | a history in which a run is resumed during its first ask, and afterwards loses its answer and executes a done call again |
| Guardrails.StepCounted | agent/builtin.go:379-391 | a counted call keeps the bound on base runs by admitted steps |
| Guardrails.LoopCounted | agent/builtin.go:395-413 | a counted call keeps the bound on base runs for every name and arguments |
| Guardrails.BoundedRuns | agent/builtin.go:241-281 | at most MaxSteps, and LoopLimit per name and arguments, times max(1, ToolMaxAttempts) base runs |
| Guardrails.PayKeepsPurse | agent/builtin.go:194-222 | a payment within the remaining budget keeps the recorded spend the exact sum of what was kept, paid and is reserved, an amount that payments and prices add up to |
| Guardrails.ReserveKeepsPurse | agent/builtin.go:444-453 | so does the reservation of an admitted price, if prices fit |
| Guardrails.SettleKeepsPurse | agent/builtin.go:459-463 | so do keeping and giving back the reservation |
| Guardrails.AdmissionExactIff | agent/builtin.go:448-452 | the spend check is exact if and only if the sum fits in an int64 |
| Guardrails.TransferKeepsPurse | agent/builtin.go:444-463 | as long as prices fit, no transfer wraps |
| Guardrails.SpendingIsBalanced | agent/builtin.go:194-222 | under all limits and through every sequence of transfers, the recorded spend is the sum of what was kept, paid and is reserved, wrapped to 64 bits |
| Guardrails.SpendableIsReached | agent/builtin.go:194-222 | every such amount is reached by a payment and priced calls |
| Guardrails.UnfittingPriceTurnsNegative | agent/builtin.go:448-453 | a price that does not fit on top of one is admitted there and turns the recorded spend negative |
| Guardrails.SpendStaysInRange | agent/builtin.go:442-465 | under all step and loop limits, the recorded spend stays in [0, max(MaxSpend, Budget)] through every sequence of transfers if every price fits on top of every spendable amount |
| Guardrails.SpendInRangeIff | agent/builtin.go:442-465 | without step and loop limits, if and only if |
| Guardrails.SpendInRangeIffBudgetFits | agent/builtin.go:442-465 | there, for MaxSpend up to Budget, if and only if every positive price plus Budget is below 2^63 |
| Guardrails.PricesFit | agent/builtin.go:442-465 | in general it is enough that every price fits on top of the larger budget |
| Guardrails.BudgetAboveMaxSpendWraps | agent/builtin.go:194-222 | with price plus MaxSpend 3 and no step or loop limit, a payment and then a priced call turn the recorded spend negative |
| CallLog.FingerprintIff | agent/builtin.go:401-403 | two calls share counts and records if and only if they have the same name and arguments, or the name of one continues that of the other after a colon |
| CallLog.PlainNamesAreToldApart | agent/checkpoint.go:277-280 | names without a colon, and arguments of the same name, are told apart |
| CallLog.ReplaysFromItsRecord | agent/checkpoint.go:245-280 | a call is replayed if and only if there is a done record for its name and arguments |
| CallLog.OnlyItsCount | agent/builtin.go:401-405 | counting a call leaves the counts of all other calls alone |
| CallLog.AuditedMore | agent/builtin.go:379-413 | with every action the counters stay those of the log, and the log's refusals stay due |
| CallLog.ChargedForIt | agent/builtin.go:442-465 | exactly a call that ended unrefused and without error is charged, with its tool's positive price, under a spend limit |
| Plan.CompletedTasks | agent/builtin.go:508-529 | exactly the non-empty keys of done steps |
| Plan.PreserveCompleted | agent/builtin.go:479-506 | the steps as they were sent, except that an unfinished step whose task was done in the previous plan is done |
| Plan.NewTaskIsStoredAsSent | agent/builtin.go:494-504 | a task of which no step was done before is stored as it was sent |
| Plan.DoneStaysFinished | agent/builtin.go:479-506 | a done task that reappears is never unfinished, and nothing else about the step changes |
| Plan.DoneStaysFinishedIff | agent/builtin.go:469-506 | a done task sent again as unfinished stays finished if and only if the stored plan could be read |
| Plan.PreservedHasNoMoreUnfinished | agent/builtin.go:479-506 | the stored plan has no more unfinished steps than the update |
| Plan.CompleteNext | agent/builtin.go:561-589 | marks exactly the first unfinished step, changes nothing without one |
| Plan.CompletionCounts | agent/builtin.go:561-589 | that lowers the unfinished count by exactly one, down to zero |
| Plan.UnfinishedBeforeDelegation | agent/builtin.go:591-623 | the labels of exactly the unfinished steps before the first delegation step, in order; empty if and only if there are none |
| Plan.DelegationPassesIff | agent/builtin.go:591-623 | a delegation passes if and only if the number of unfinished steps before the first delegation step is zero or the plan could not be read |
| Plan.CompletionsBringDelegation | agent/builtin.go:561-623 | every completed action lowers that number by exactly one, down to zero, so as many actions as are pending let the delegation pass |
| Plan.UnfinishedSteps | agent/builtin.go:638-668 | the labels of exactly the unfinished steps, in order |
| ToolCalls.TriesAreBounded | agent/builtin.go:241-281 | between one and max(1, ToolMaxAttempts) tries; every one but the last is an unrefused transient error, and fewer are made only after a cancellation or a result not worth a retry |
| ToolCalls.TriedAgainIff | agent/builtin.go:248-270 | a call is tried again if and only if the try was an unrefused transient error, tries are left and the ask is not canceled |
| ToolCalls.CallResultIsTheLast | agent/builtin.go:241-281 | the result of a call is that of its last try with the number of attempts, unless the ask was canceled before the first try or while another try was due |
| ToolCalls.FreeTry | agent/builtin.go:184-189 | a try whose answer asks for no payment is that answer and costs nothing |
| ToolCalls.InputTry | agent/builtin.go:333-353 | the built-in request for input is refused as not approved and costs nothing |
| ToolCalls.PaidTry | agent/builtin.go:190-226 | the result, the payment and the recorded spend for every combination of url, budget left, demand, acceptance and readability |
| ToolCalls.BookedAtMostPaid | agent/builtin.go:206-222 | what is booked is at most what was paid, and all of it if and only if every paid response could be read |
| ToolPipeline.Agent.constructor | agent/builtin.go:124-148 | a new agent is valid and has no runs |
| ToolPipeline.Agent.Base | agent/builtin.go:333-353 | runs the call once, logged as an execution of the current run; the only refusal is a request for human input, and it pauses the run |
| ToolPipeline.Agent.ClientDo | wrapper/x402/client.go:60-156 | spends only on success, a positive amount within its budget, and takes it back otherwise |
| ToolPipeline.Agent.BookPayment | agent/builtin.go:221 | a payment within what is left of the budget is added to the recorded spend in 64 bits, and the books stay balanced |
| ToolPipeline.Agent.Fetch | agent/builtin.go:204-226 | the payment that the client makes is booked if its response could be read and only noted otherwise; the result says why nothing was fetched |
| ToolPipeline.Agent.PayChallenge | agent/builtin.go:190-226 | the result, the payments and the recorded spend that the demand, the budget left and the readability of the response give; it refuses when no budget is left |
| ToolPipeline.Agent.PayWrap | agent/builtin.go:184-228 | one base run, and a payment only if its answer asks for one |
| ToolPipeline.Agent.Retry | agent/builtin.go:254-279 | the tries made, and what they paid, are exactly those that the world gives from the recorded spend on; the result is the last one's or the cancellation |
| ToolPipeline.Agent.RetryWrap | agent/builtin.go:241-281 | as many base runs as there are tries, at most max(1, ToolMaxAttempts), none exactly if the call is canceled before; every one but the last an unrefused transient error; the result is the last one's or the cancellation |
| ToolPipeline.Agent.SaveRun | agent/checkpoint.go:47-65 | the store has the run exactly if the write happened, and success is reported only then; without a checkpoint nothing is written |
| ToolPipeline.Agent.StartTool | agent/checkpoint.go:256-257 | the call is recorded as in progress, whether or not the save succeeds |
| ToolPipeline.Agent.EndTool | agent/checkpoint.go:259-273 | its record gets the result, done unless refused |
| ToolPipeline.Agent.RunTool | agent/checkpoint.go:256-273 | the call is run and recorded with its result; it is recorded without having run exactly if the ask is canceled before the first try |
| ToolPipeline.Agent.CheckpointWrap | agent/checkpoint.go:245-275 | a call with a done record for its name and arguments is answered with that result and nothing runs; any other is run, unless the ask is canceled, and recorded |
| ToolPipeline.Agent.ApproveWrap | agent/builtin.go:425-439 | exactly a denied call is refused before it runs, with the approver's reason, and it pauses the run |
| ToolPipeline.Agent.FirstGuardWins | agent/builtin.go:379-465 | step limit, loop limit, spend budget, approval: each refuses exactly the calls that none before it refused and that are beyond its own limit |
| ToolPipeline.Agent.Settle | agent/builtin.go:459-463 | keeps the reservation or gives it back |
| ToolPipeline.Agent.SpendWrap | agent/builtin.go:442-465 | exactly a price that does not fit is refused before anything happens; the price is kept exactly for calls that end unrefused and error-free |
| ToolPipeline.Agent.LoopWrap | agent/builtin.go:395-413 | every call counts for its own name and arguments only; exactly one beyond LoopLimit is refused as a loop, and not run |
| ToolPipeline.Agent.StepWrap | agent/builtin.go:379-391 | every action counts; exactly one beyond MaxSteps is refused for it, not run and not loop-counted |
| ToolPipeline.Agent.HandlePlan | agent/builtin.go:469-477 | stores the steps as they were sent, except that tasks done in the plan that could be read stay done, if the store takes it |
| ToolPipeline.Agent.CompleteNextStep | agent/builtin.go:561-589 | stores the plan with its next step done, exactly if the plan can be read and written |
| ToolPipeline.Agent.BlockedByPlan | agent/builtin.go:362-369 | refuses exactly a call with markup inside and a delegation before which, in the plan that could be read, a step is unfinished |
| ToolPipeline.Agent.PlanWrap | agent/builtin.go:357-376 | plan calls are not counted, checked, charged or run; a delegation is refused unless, in the plan that could be read, all earlier steps are finished; exactly successful actions complete a step |
| ToolPipeline.Agent.Handle | agent/builtin.go:124-163 | all of this for every call: bounds, books and run history are kept, the action is logged with its result, a canceled call changes nothing, the first guard that blocks (step, loop, spend, approval) gives the reason and any other call is run, replayed or canceled, with exactly the result and the payments that its tries give, unfinished steps go down by one exactly with the successful actions after which the plan could be read and written |
| ToolPipeline.Agent.BeginAsk | agent/agent.go:365-370 | the ask goes on only after a successful first save |
| ToolPipeline.Agent.EndAsk | agent/agent.go:405-438 | the run is saved with its ending and let go of; it is saved as done exactly if an answer was written |
| ToolPipeline.Agent.Crash | agent/agent.go:344-550 | a crash leaves the saved record, which is not done |
| ToolPipeline.Agent.Interrupt | agent/agent.go:405-438 | a model failure or a pause ends the ask without saving it as done; a pause waits for input exactly if a tool asked for it |
| ToolPipeline.Agent.Drive | agent/text_tool_calls.go:33-89 | any number of calls keeps the bounds and the books, and log and payments only grow |
| ToolPipeline.Agent.Generate | agent/agent.go:393-438 | a model failure or a pause ends the ask without saving it as done; a pause waits for input exactly if a tool asked for it |
| ToolPipeline.Agent.Finish | agent/agent.go:514-549 | the run is saved as done exactly if the answer is written and its plan is finished or could not be read; a readable unfinished plan is an error; a reply is the saved one |
| ToolPipeline.Agent.GoesOn | agent/agent.go:462-485 | another turn exactly if there is one left and a tool call broke off or the plan could be read and is unfinished |
| ToolPipeline.Agent.Turn | agent/agent.go:393-549 | one turn; at an answer a pause that is left was raised by a call in the text of the reply |
| ToolPipeline.Agent.Turns | agent/agent.go:391-549 | at most 7 model turns, all of them used before an answer to a readable unfinished plan; done is saved only with a finished plan or one that could not be read at the end; a pause that is left at an answer was raised by a call in the text of the last reply |
| ToolPipeline.Agent.MoneyIsKept | agent/builtin.go:190-226 | balanced books give the recorded spend as the prices charged plus the payments booked, in 64 bits, and what is booked as all that was paid exactly if every paid response was read |
| ToolPipeline.Agent.AccountedIsKept | agent/builtin.go:379-465 | the step, loop and spend invariants give the bounds of a whole ask |
| ToolPipeline.Agent.AskLocked | agent/agent.go:344-550 | for every sequence of calls: base runs at most MaxSteps, and LoopLimit per name and arguments, times max(1, ToolMaxAttempts); action j of the log is refused for the step limit if and only if j is at least MaxSteps, and as a loop if and only if not for that and LoopLimit actions of its name and arguments were counted before; under all limits the recorded spend is the prices of the logged priced calls that succeeded plus the booked payments, in 64 bits, and the booked payments are all the money paid exactly if every paid response was read; if prices fit, the spend is exact and in [0, max(MaxSpend, Budget)] and the booked payments are within Budget; done only with a finished plan unless it could not be read at the end |
| ToolPipeline.Agent.Ask | agent/agent.go:333-342 | a new run; other runs are untouched and every saved run stays explained by its history; a pause in the first turn is resumed with the message |
| ToolPipeline.Agent.Resume | agent/checkpoint.go:78-114 | a done run returns its saved response without a model turn; terminal and waiting runs are not touched; others go on with the saved message |
| ToolPipeline.Agent.ResumeInput | agent/checkpoint.go:127-159 | only a run that waits for input takes it, and goes on with the saved message followed by the input |
| ToolPipeline.Agent.SavedResultsAreFinal | agent/checkpoint.go:245-275 | the agent itself never executed a call after it was saved as done, and still has its result |
| ToolPipeline.UnreadPlanIsSavedAsDone | agent/agent.go:514-549 | an ask whose plan cannot be read at the end is saved as done with an unfinished step |
| ToolPipeline.LatePauseIsDropped | agent/agent.go:424-450 | an ask in which a call in the text of the last reply is not approved is saved as done with its pause |
| ToolPipeline.UnreadPaymentsExceedBudget | agent/builtin.go:190-226 | with a budget of 5, two paid responses that cannot be read cost 10 and nothing is booked |
| ManualAck.BehaviorKeepsInv | events/memory.go:204-299 | the queue invariant holds in every reachable state |
| ManualAck.ExactlyOnePlace | events/memory.go:226-299 | every sent event is in exactly one of pending, in delivery, acked, discarded |
| ManualAck.QueueOrder | events/memory.go:226-240 | events enter delivery one at a time, in queue order |
| ManualAck.DeliveryBound | events/memory.go:243-298 | at most limit + 1 deliveries, exactly that many before a discard, no discard under a negative limit |
| ManualAck.SlotHasAnswer | events/memory.go:256-271 | a result channel holds the first answer given to its own attempt |
| ManualAck.AckCountsForItsAttempt | events/memory.go:256-289 | an event becomes acked only by an ack that was the first answer to its latest hand-out |
| ManualAck.FirstAnswerStays | events/memory.go:256-271 | the first answer to an attempt stays in its channel |
| ManualAck.AnswerTakesEffect | events/memory.go:280-298 | an answer that is read settles the event if and only if the first answer to that hand-out was an ack, whichever hand-out it is, and sends it back counted if and only if it was a nack |
| ManualAck.TimeoutTakesEffect | events/memory.go:280-298 | an event without an answer in time goes back to the delivery loop, counted |
| ManualAck.DiscardedIff | events/memory.go:243-250 | at the top of the delivery loop an event is discarded if and only if there is a limit and it was handed out once more than that, and is offered otherwise |
| ManualAck.SettledIsFinal | events/memory.go:226-298 | an acked or discarded event stays so and is never handed out again |
| ManualAck.DispatcherGoesOn | events/memory.go:204-298 | the dispatcher can always go on, and reads an answer if and only if one was given to the hand-out it waits on |
| ManualAck.NoLostWakeup | events/memory.go:204-241 | a blocked dispatcher with work has a token waiting, or a sender that will put one there |
| BraceGrammar.JsonStructure | agent/text_tool_calls.go:396-444 | every printed JSON value has balanced structure, braces in strings included |
| BraceGrammar.FieldsHaveStructure | agent/text_tool_calls.go:396-444 | so has every printed object |
| TextScanner.ItemsPrinted | agent/text_tool_calls.go:405-436 | the scan passes balanced text and leaves the depth as it was |
| TextScanner.ObjectPrinted | agent/text_tool_calls.go:401-438 | a balanced object is scanned to exactly its end |
| TextScanner.LevelsScanned | agent/text_tool_calls.go:405-436 | whatever the scan accepts is balanced text of that depth |
| TextScanner.ObjectScanned | agent/text_tool_calls.go:401-438 | an accepted object is balanced, strings respected |
| TextScanner.BalancedObjectEnd | agent/text_tool_calls.go:396-444 | succeeds exactly on a balanced object followed by white space and a parenthesis, with its only possible end |
| TextScanner.ParenthesisAfter | agent/text_tool_calls.go:425-434 | exactly white space and then a parenthesis |
| CallSites.IndexFrom | agent/text_tool_calls.go:351-355 | the first occurrence from a position, none exactly if there is none |
| CallSites.IsFunctionCallBoundary | agent/text_tool_calls.go:373-394 | exactly a name not preceded by a word character and followed by a parenthesis, white space and a brace |
| CallSites.TrimToObject | agent/text_tool_calls.go:367 | trimming the span of a site gives the object |
| CallSites.FunctionCallBodies | agent/text_tool_calls.go:345-371 | terminates; every body is the object of a call site, spans are disjoint and in order, and every call site is reported, overlaps an earlier occurrence of the name, or lies inside a reported one |
| CallSites.PrintedCallIsSite | agent/text_tool_calls.go:345-444 | a printed call of a JSON object is a call site that ends with the object |
| CallSites.FirstCallRoundTrip | agent/text_tool_calls.go:345-444 | searching for a printed call gives back exactly the printed object |
| ConversationMemory.History.constructor | ai/history.go:18-20 | starts empty |
| ConversationMemory.History.Add | ai/history.go:23-28 | the history holds the newest messages of everything added, up to the limit |
| ConversationMemory.History.Reset | ai/history.go:43-45 | forgets everything |
| ConversationMemory.NewestIsTheEnd | ai/history.go:23-28 | the retained messages are the end of what was added, as much as the limit allows |
| ConversationMemory.NewestOnce | ai/history.go:23-28 | truncating at every addition is truncating once |
| ConversationMemory.CompactionConserves | agent/memory.go:267-302 | compaction loses no message: archive then active, without summaries, is unchanged |
| ConversationMemory.CompactionKeepsNewest | agent/memory.go:267-302 | a compaction leaves exactly the newest KeepRecent messages after the summary (MaxMessages - 1 if that is out of range), archives the older ones, and summarizes exactly those; within the limit it changes nothing |
| ConversationMemory.CompactionTidies | agent/memory.go:267-302 | only active message 0 can be a summary, and the active length is at most max(MaxMessages, 2) |
| ConversationMemory.AddConserves | agent/memory.go:144-153 | an addition adds exactly its message |
| ConversationMemory.ConversationConserved | agent/memory.go:144-153 | after any additions the memory holds exactly what was added, in order, within the bound |
| ConversationMemory.ArchiveGrows | agent/memory.go:287 | the archive only grows |
| ConversationMemory.StoreMemory.constructor | agent/memory.go:100-124 | a memory opened on a stored record holds its conversation, compacted; without a record, nothing |
| ConversationMemory.StoreMemory.Load | agent/memory.go:219-248 | loading restores the stored conversation |
| ConversationMemory.StoreMemory.Compact | agent/memory.go:267-302 | the object does what the compaction function says |
| ConversationMemory.StoreMemory.Add | agent/memory.go:144-153 | so does an addition, followed by a save that may fail |
| ConversationMemory.StoreMemory.Clear | agent/memory.go:161-168 | nothing is left |
| ConversationMemory.StoreMemory.Save | agent/memory.go:250-265 | the store has the memory exactly if the write happened |
| ConversationMemory.StoreMemory.Reopen | agent/memory.go:100-124 | a memory opened on the stored record has the stored conversation |
| Rules.EqualFoldIff | auth/rules.go:84-91 | strings match exactly if they are the same after folding; under an injective fold only equal ones do |
| Rules.Include | auth/rules.go:84-91 | exactly membership up to case, for any case folding of characters |
| Rules.JoinPrefix | auth/rules.go:22-26 | the first n components joined are a prefix of the endpoint that ends at a component |
| Rules.PrefixJoin | auth/rules.go:22-26 | every such prefix is one of them |
| Rules.ValidEndpoints | auth/rules.go:21-27 | the accepted endpoints are those lists of patterns |
| Rules.EndpointPatterns | auth/rules.go:21-27 | a rule endpoint is accepted exactly if it is "*", the endpoint, or "p/*" for a component prefix p of an endpoint with a slash |
| Rules.SortStable | auth/rules.go:44-47 | the stable sort by priority is the sort by priority and position |
| Rules.Matching | auth/rules.go:29-42 | exactly the matching rules, in order |
| Rules.Opinion | auth/rules.go:50-76 | what a rule says to this account, if anything |
| Rules.Verify | auth/rules.go:12-80 | grants if and only if the matching applicable rule of highest priority, and of those the first, grants |
| Rules.LowerRuleIsIrrelevant | auth/rules.go:44-79 | adding a rule below the deciding one never changes the answer |
| Query.SortedRowsStable | model/memory.go:319-333 | the specified order is a permutation, sorted by printed value in either direction, and stable |
| Query.ArrangementUnique | model/memory.go:319-333 | there is only one such arrangement |
| Query.Settle | model/memory.go:321-331 | one inner pass moves row i to its place |
| Query.SortRows | model/memory.go:319-333 | sorts the array in place into exactly that order |
| Query.Page | model/memory.go:183-190 | the slice of offset and limit, with its length |
| Query.SelectedAreMatching | model/memory.go:168-177 | the selected rows are those of exactly the matching keys, each once |
| Query.SortedKeys | model/memory.go:319-333 | sorting only rearranges them, by the first difference of the printed values in the wanted direction |
| Query.SelectedCount | model/memory.go:168-177 | as many rows are selected as keys match, in whatever order the map is enumerated |
| Query.Enumerate | model/memory.go:168-177 | every matching row once |
| Query.List | model/memory.go:163-190 | the rows of all matching keys, each once, in the wanted order, from Offset on and at most Limit |
| Query.Count | model/memory.go:206-224 | the number of matching keys |
| Retry.BackoffInRangeIff | ai/retry.go:231-256 | while base * 2^(attempt-1) fits, a wait is in (0, 30s] if and only if the longer of the capped doubled base and the Retry-After, plus the jitter drawn, is below 2^63 |
| Retry.WaitIs | ai/retry.go:231-256 | while nothing wraps, the wait is the base (200ms without one) doubled with every attempt up to 30s, or a longer Retry-After, plus the jitter, at most 30s |
| Retry.BackoffInRange | ai/retry.go:231-256 | whenever neither shift nor sum leaves the range |
| Retry.SomeWaitIsNegative | ai/retry.go:231-241 | once the doubled base does not fit, some wait up to that attempt is negative |
| Retry.PlainWaitsInRangeIff | ai/retry.go:227-241 | without Retry-After and jitter, all waits up to attempt n are in range if and only if base * 2^(n-1) is below 2^63 |
| Retry.WaitsInRangeIff | ai/retry.go:231-256 | for every Retry-After up to a bound and every jitter, if and only if the longest delay plus the whole jitter is below 2^63 as well |
| Retry.BackoffGrows | ai/retry.go:231-241 | later waits are not shorter while nothing wraps |
| Retry.DefaultBackoffWraps | ai/retry.go:231-241 | with the default base attempt 37 gives a negative wait |
| Retry.DefaultWaitsInRangeIff | ai/retry.go:231-241 | with the default base, exactly up to 36 attempts |
| Retry.GenerateWithRetry | ai/retry.go:142-204 | at most MaxAttempts attempts, repeated exactly after timeouts, rate limits and unavailable providers and their backoff, none after a cancellation; the result is the last attempt's |
| Retry.WaitsInRange | ai/retry.go:189-201 | every wait of the loop is in range unless its shift or sum wraps |
| Combinators.Loop | flow/loop.go:74-106 | pass k gets what pass k - 1 has left, up to the first pass that decides, at most the cap (10 without one), and the result is that pass's state or error |
| Combinators.DecidedOnce | flow/loop.go:87-104 | that pass is unique |
| Combinators.VerificationReadsBack | flow/verify.go:167-182 | the annotation reads back and everything else is as it was |
| Combinators.FieldIsAllThatIsAdded | flow/verify.go:154-165 | a retry's input is the original plus the field, and when the field is overwritten |
| Combinators.RetryInput | flow/verify.go:83-91 | a retry's input is the original input with the last feedback in its field |
| Combinators.VerifyLoop | flow/verify.go:74-110 | attempt n gets the original input plus only the last feedback; the result is the last output with its grade and attempt count, or the error that ended it |
| Combinators.Verify | flow/verify.go:56-112 | the same with the defaults, and the errors for a missing body or grader |

## Left out

- FlowEngine.Flow.RunStep: verification notes and the feedback handed to a step function are part of the arbitrary attempt result; records do not carry them.
- FlowEngine.Flow.ResumePending: runs whose record cannot be read are skipped by the listing, so the drain is stated for the readable ones.
- FlowEngine.Flow.Resume: what this flow's steps make of another flow's record, which only a checkpoint shared between flows can hold, is arbitrary.
- ToolPipeline.Agent.Handle: tool timeouts, tracing and developer wrappers change no state of the pipeline and are not modelled; ephemeral sub-agents use the bare service handler.
- ToolPipeline.Agent.Crash: the agent object crashes between model turns; a crash in the middle of a tool call is the event of that name in `AgentRun`, which is possible in every state the agent logs.
- ToolPipeline.Agent.Drive: the model's tool calls come one at a time; a model call that was abandoned at a timeout and goes on calling tools is not modelled.
- AgentRun.ApplyKeepsInv: a resume loads and locks in one step here, the two steps are apart in `StaleResume`; drivers in several processes, which share no lock, are not modelled; error kinds and timestamps of records are not kept.
- ToolPipeline.Agent.Resume: the agent object resumes in one step too.
- SingleFlight.StoredMeansNeverExecuted: a call whose cache read fails is outside the claim.
- ManualAck.BehaviorKeepsInv: `retryMap` is written and never read by the source, so it is not modelled.
- ConversationMemory.StoreMemory.Add: the retrieval mode that archives every turn, and the ranking of `Recall`, are not modelled.
- Guardrails.SpendInRangeIff: without Budget, payments are unbounded, and only the law in 64 bits is claimed about the recorded spend; under step or loop limits, which bound the number of priced calls, the condition is proved sufficient and not necessary.
- CallSites.TrimToObject: text is a sequence of characters; Unicode spaces beyond Latin-1 are not trimmed.
- Query.List: rows are maps from fields to printed values and filters are an arbitrary predicate; LIKE patterns and number comparison are not modelled.
- Combinators.Verify: bodies and graders are functions of the attempt number and their input; encoding errors of JSON do not occur.
- CallLog.FingerprintIff: arguments are arbitrary strings; whether marshalled JSON can make up for a name that continues another is not modelled.
- Normalisation of plan tasks, delegation targets and cache keys (including SHA-256): abstract functions.
- Tool-call markup by regular expressions, HTML entities and nested values in `agent/text_tool_calls.go`.
- Agent-level `ResumePending`, streaming, delegation by RPC and A2A, run timelines and telemetry.
- Providers, registries, brokers, transports, servers, clients, the CLI and generated code: no property of this kind.
- Step, loop and attempt counters are unbounded integers; only spend and backoff are modelled in 64 bits.
