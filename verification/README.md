# ShopWave support agent: verified model

This project models the policy-governed support agent in Dafny and proves what its safety layer, its
rate limiter and its evaluation arithmetic guarantee. `dafny verify dfyconfig.toml` checks everything.

**The refund protocol.** Any number of ticket threads share one order table, one refund log and one approval
queue; each thread is driven by a model that may propose any tool with any arguments. `Protocol` splits a
guarded call where another thread may run (evaluate, each execution attempt, read the queue length, append,
record) and a run is any list of such steps. `ProtocolInvariants`, `ProtocolAccounts`, `ProtocolSafety`,
`ProtocolParking`, `ProtocolGate` and `ProtocolWitnesses` prove what holds of every run, starting from any
order table, `ThreadRun` that a ticket of such a run goes through the resolver's loop, and `LoopRun` that
the loop behind `guard()` is such a run. The same specification functions specify the classes that mutate
state as the program does (`TicketState`, `Backend`, `HITLQueue`, `PolicyEngine`, `Server`), and
`GuardIsARun` shows that an undisturbed `guard()` is one schedule of the transition system.

**Beside it.** `RateLimiter` (token bucket under contention), `Limiter` (the two buckets in a row),
`Calibration`, `CalibrationLaws`, `Classification` and `ClassificationLaws` (calibration error, Brier score,
weighted precision, recall and F1 over unbounded samples), `Resolver`, `ResolverFacts`, `Conversation`,
`Health`, `Score` and `IterationCap` (the tool loop for any model, and the monitor that judges it),
`GuardedRun`, `ActionLogs` and `Monitors` (that loop behind guard() itself, the logs it leaves and the trace
monitors), `ReturnNotes` (which notes bar a return), `Texts`, `Transience` and `Retries` (which errors are
retried, and what that repeats), `ScriptedAgent`, `ScriptedRun`, `ScriptedPlan`, `ScriptedTrail` and
`ScriptedRefund` (the offline agent), `McpServer` and `Orchestrator`.

## Where the code does not do what is promised of it

Each line names the lemma that holds the exact condition or the witness.

- A refund that passes the rules is within the limits exactly when its amount is not NaN: NaN fails
  every comparison, so no rule objects (`AllowedAmountIsBoundedIff`, `NaNRefundPassesIff`), and it is paid
  (`NaNIsPaid`). JSON as Python reads it admits NaN.
- `issue_refund` marks the order before it converts the amount, so on its own it is atomic exactly when
  the amount is numeric or the order cannot be refunded anyway (`RefundIsAtomicIff`). float()'s complaint
  quotes the amount, so retrying a call is harmless exactly unless it is such a refund and the amount, as
  quoted, carries a transient marker (`RetryIsHarmlessIff`): "timeout" does, "lots" and null do not
  (`TimeoutIsMarked`, `LotsIsUnmarked`), and quoting can make a marker of text that has none
  (`EscapesCanMark`). The second attempt then answers "already refunded", with the order
  marked and nothing logged (`RepeatedRefundIsLost`). The amount rule keeps these calls from ever running
  (`AllowedIsPayable`).
- "Not found", "already refunded" and bad arguments are documented as permanent. Without an injected
  failure an attempt is retried exactly when its error repeats an order id, the name of an unexpected
  argument, a rejected amount or the name of an unknown tool that contains a transient marker, or is a
  look-up's own error that does (`RetriedIff`); which calls are permanent on every ledger can be read off the call (`PermanentIff`).
- Notes that say "registered" last and "online" first, one after the other, bar a return although neither says
  the product was registered online, because the two notes are joined before the search (`BarredIff`).
- F1 is the usual count form exactly as long as precision and recall together reach 1e-9 (`F1InCountsIff`).
- Approval references are distinct in every run exactly when no two threads that can park a refund share
  a ticket, because the queue length is read outside the lock; a thread can park one exactly when some
  order is eligible and either its confidence is below 0.6 or that order costs more than 199.99
  (`ReferencesDistinctIff`).
- The loop may end on an allowed terminal call and still be incomplete. A terminal call goes through
  exactly when its arguments bind, a reply is not blank and one of its three attempts is spared an
  injected failure (`TerminalAnswerIff`); that decides the status (`StatusIff`), and `ReplyRun` is a run
  that ends so on a blank message.
- A clean ticket on which policy intervened is called healthy in a comment; it is degraded as well
  exactly when 0.7 times the triage confidence is below 0.5995 (`CleanBlockedRunIsHealthyIff`), and such
  runs exist for every confidence (`ParkedRefundIsHealthyIff`).
- "The loop ran to its iteration cap" is meant to degrade a ticket, but the monitor counts calls, not rounds:
  a run that used all its rounds is healthy exactly when it is complete, made fewer than twelve calls, few of
  them failing, and its score before rounding is at least 0.5995 (`CapIsEscapedIff`), as after eleven silent
  rounds and a reply (`DawdlingIsHealthyIff`); twelve calls in one reply trip the cap in the first round
  (`HastyIsDegraded`).
- The scripted agent's refund is denied exactly when the order costs nothing or less
  (`ScriptedRefundsAreDeniedIff`).
- At most 2 * rpm requests pass in every minute of every contention exactly when rpm is at least 1
  (`RpmWindowIff`), and that many do in some (`RpmWindowIsTight`); a limit of 0 lets every request through
  (`ZeroLimitServesAll`). That is the request bucket; callers can pile up between it and the token bucket, so
  the calls that complete in a minute are at most 2 * rpm plus those found there (`CompletedWindow`), and can be
  3 * rpm (`CompletionsExceedTwice`). A request above the capacity is charged only the capacity (`OversizeIsGranted`).
- Weighted recall is accuracy exactly when no label that was ever hit also stands where there is no
  prediction (`RecallIsAccuracyIff`).

## Model

| member | source | states |
|---|---|---|
| Schemas.TicketState.Record | core/schemas.py:81-89 | appends one record, marked not-ok exactly when the result carries an error key or success=False |
| Schemas.TicketState.FindEligibility | core/schemas.py:94-104 | the backwards scan finds what the specification of the history says |
| Schemas.EligibilityIsLatestCheck | core/schemas.py:94-104 | the answer is the result of the last successful check of that order, none after it; absent iff there is none |
| Tools.EligibleAnswers | tools/impls.py:107-143 | "eligible" if and only if the order is in the table, unrefunded, and either still processing or not in transit, on a day up to its deadline, with neither phrase in the joined notes; then at exactly its own price; no answer is an error, only eligible ones name an amount, and the warranty is mentioned exactly when no deadline lies ahead and the product has one |
| Tools.EligibilityExpires | tools/impls.py:124-128 | a delivered order that its notes do not bar is eligible on exactly the days up to its deadline |
| ReturnNotes.BarredIff | tools/impls.py:129-135 | the notes bar a return exactly when a phrase stands in one of the two, or the order's ends in "registered" and the product's begins with "online" |
| Tools.BindsIff | tools/impls.py:199-213 | a call binds exactly if no argument is unexpected and no required one missing, which is what its error names otherwise |
| Tools.GetOrderAnswers | tools/impls.py:67-72 | an order is quoted at its own price, exactly when the id is known and not blank; otherwise the answer is an error |
| Tools.FailureCarriesError | tools/impls.py:66-213 | every way a tool can fail carries an error key, so the two error tests in the code base agree |
| Tools.LedgerFrame | tools/impls.py:147-213 | only a refund reporting success writes the refund log; it marks one known unrefunded order and leaves every other alone |
| Tools.TerminalCallsAreLogged | tools/impls.py:167-184 | replies and escalations are logged exactly when they report success, as one line with the call's own arguments, an unknown priority read as medium |
| Tools.BlankJoins | tools/impls.py:169 | blank is white space throughout |
| ActionLogs.RunsLogTheirTrail | agents/resolver.py:92-125 | after any run of the loop behind guard(), the reply and escalation logs have grown by exactly what the trail reports as done, in order |
| Tools.RefundIsAtomicIff | tools/impls.py:147-164 | marking and logging happen together or not at all, exactly when the amount is numeric or the order is unrefundable anyway |
| Tools.Backend.IssueRefundLocked | tools/impls.py:147-164 | the locked body in place: table, log and answer are those of the ledger step |
| Tools.Backend.Execute | tools/impls.py:199-213 | dispatch in place: every table and log, and the answer, are those of the execution step |
| Resilient.ResilientExecute | tools/resilient.py:35-63 | the retry loop leaves the ledger, answer, attempt count and waits of the recursive specification |
| Resilient.UnavailableIsTransient | tools/impls.py:61-63 | every injected failure is recognised as transient |
| Transience.PhrasesAreMarkers | tools/resilient.py:26 | each of the five phrases makes an error transient, wherever it stands in it |
| Transience.NotFoundIsRetriedIff | tools/impls.py:155 | a not-found refund is retried exactly when the order id itself contains a marker |
| Transience.AlreadyRefundedIsRetriedIff | tools/impls.py:157 | so is a second refund, although nothing delimits the id in that text |
| Transience.RejectedAmountIsRetriedIff | tools/impls.py:147-164 | a refund whose amount float() rejects is retried exactly when the amount, quoted and in lower case, carries a marker |
| Transience.PlainAmountIsMarkedIff | tools/impls.py:212-213 | for an amount that needs no escaping, quoting neither adds nor hides a marker |
| Texts.ReprInjective | tools/impls.py:212-213 | quoting loses nothing, and takes double quotes exactly if that saves escaping |
| Transience.RetriedIff | tools/resilient.py:7-32 | for every call and ledger, an attempt is retried exactly when its failure was injected or what its error repeats (order id, unexpected argument, rejected amount, unknown tool, a look-up's own error) carries a marker |
| Transience.PermanentIff | tools/resilient.py:7-32 | of every call but a bound look-up: it is never retried on any ledger without an injected failure exactly unless its order id, an unexpected argument, its rejected amount or its unknown tool name carries a marker |
| Retries.RetriedAttemptChangesNothingIff | tools/resilient.py:43-63 | an attempt that asks to be retried left the ledger alone, exactly unless it marked an order without logging it |
| Retries.RetryIsHarmlessIff | tools/resilient.py:43-63 | over all ledgers and failures, no retried attempt has an effect exactly unless the call is a refund whose amount float() rejects and, as the error quotes it, carries a marker |
| Retries.RepeatedRefundIsLost | tools/impls.py:147-164 | such a refund of an open order ends after two attempts with "already refunded", the order marked and nothing logged |
| Retries.TimeoutIsMarked | tools/resilient.py:7-32 | the amount "timeout" is one that is retried so |
| Retries.CapitalsAreMarked | tools/resilient.py:32 | so is "TIMEOUT" |
| Retries.EscapesCanMark | tools/resilient.py:32 | and so is a tab before "imeout", which carries no marker until it is quoted |
| Retries.LotsIsUnmarked | tools/resilient.py:7-32 | the amount "lots" and a null amount are not |
| Retries.RetryIsOneAttempt | tools/resilient.py:43-63 | for any executor whose retried attempts are harmless, the loop has the effect and answer of one single attempt |
| Retries.WaitsDouble | tools/resilient.py:56-60 | whatever is executed, there is one wait before each attempt but the first, and each is twice the one before |
| Retries.SleptInAll | tools/resilient.py:56-60 | such waits add up to twice the last less the base: the base after one, three times the base after two, and more than nothing whenever there was one |
| Retries.RetryBudget | tools/resilient.py:43-63 | unless the call is such a refund: at most retries + 1 attempts, all but the last transient, effect of exactly one, a transient answer only when the budget is spent on an untouched ledger, and one wait before each further attempt, the first as long as the base, each next twice the one before |
| Retries.ThreeAttempts | core/config.py:46-49 | with the program's budget: at most three attempts, and an exhausted one has slept three times the base on an untouched ledger |
| Evaluation.StrongestIsFirstMaximum | policy/engine.py:47 | the decision taken is the first of those of greatest precedence |
| Evaluation.ObjectionsAreTheRules | policy/engine.py:40 | the objections are exactly the decisions the rules raise |
| Evaluation.VerdictByExistence | policy/engine.py:38-47 | for any rule list: DENY iff some rule denies; REQUIRE_HUMAN iff some rule asks for a human and none denies |
| Evaluation.MoreRulesNeverWeaken | policy/engine.py:38-47 | adding rules never weakens the verdict; permuting or repeating them keeps it |
| Evaluation.DefaultObjections | policy/rules.py:40-165 | what the six rules together deny and what they hand to a human, in closed form |
| Evaluation.DefaultVerdicts | policy/rules.py:40-165 | ALLOW, DENY and REQUIRE_HUMAN each equivalent to one closed-form condition on history, arguments and confidence |
| Evaluation.FirstObjectionWins | policy/engine.py:38-47 | for any rule list, the first objection is the decision when it denies, or asks for a human and none denies |
| Evaluation.DefaultRulesAreACascade | policy/rules.py:40-165 | the strongest of all objections equals six questions asked in order, stopping at the first failure, down to the rule named |
| Evaluation.AllowedAmountIsBoundedIff | policy/rules.py:79-135 | an allowed amount is in (0, 200] and within a cent of the eligible amount, if and only if it is not NaN |
| Schemas.MoneyIsOrdered | policy/rules.py:30-34 | amounts are totally ordered, infinities included, but for NaN, which is neither above nor below anything |
| Evaluation.InfiniteRefundIsDenied | policy/rules.py:79-117 | an infinite amount is never allowed; minus infinity is always denied, and infinity whenever the check names a price, each by the rule that says why |
| Evaluation.NamelessRefundIsDenied | policy/rules.py:40-49 | a refund naming null, the empty text or 0 as its order is denied for want of a check, whatever the history |
| Evaluation.NaNRefundPassesIff | policy/rules.py:30-34 | for any history, a NaN refund passes all six rules exactly when the order was checked eligible and confidence suffices, whatever the price |
| Hitl.DecimalInjective | policy/hitl.py:30 | decimal numerals determine the number |
| Hitl.DecimalDenotes | policy/hitl.py:30 | the numeral of a number denotes it, in digits only, with no leading 0 |
| Hitl.ItemIdInjective | policy/hitl.py:30 | the rendered reference determines ticket and number, whatever characters a ticket id contains |
| Hitl.HITLQueue.Enqueue | policy/hitl.py:28-42 | the item carries the length read before the lock plus one, and is appended after whatever others append in between |
| Engine.PolicyEngine.Guard | policy/engine.py:50-92 | answer, decision, history, queue and ledger after a guarded call are those of its specification |
| ProtocolInvariants.RecordKeepsJustified | policy/engine.py:70-92 | recording keeps history and audit trail in step although a parked call is an error in one and plain in the other |
| ProtocolInvariants.StepKeepsThreads | policy/engine.py:68-92 | every step of every thread keeps: line i was judged on exactly the first i records |
| ProtocolInvariants.ExecutionIsFaithful | tools/impls.py:107-143 | executing any tool keeps all prices, and an eligible answer quotes the order's price |
| ProtocolInvariants.StepKeepsFaithful | tools/impls.py:107-143 | every eligible result in any history, or about to enter it, quotes the order's price |
| ProtocolInvariants.RefundKeepsLedger | tools/impls.py:152-161 | one locked refund keeps the order table equal to the initial one with exactly the logged orders marked, each logged once |
| ProtocolInvariants.AllowedIsPayable | policy/rules.py:102-114 | what the rules allow can never be a refund whose amount float() rejects |
| ProtocolInvariants.StepKeepsLedger | tools/impls.py:147-164 | every step of every thread keeps that equation between table and log |
| ProtocolAccounts.StepKeepsOrigins | tools/impls.py:147-164 | every step keeps log lines and reported refunds in one-to-one correspondence |
| ProtocolAccounts.StepKeepsNumbers | policy/hitl.py:28-42 | a step keeps the numbers of a ticket's items increasing, those read but not yet appended included, as long as no two threads are about to append for one ticket |
| ProtocolAccounts.StepKeepsParkings | policy/engine.py:75-87 | every step keeps queue items and parked calls in one-to-one correspondence, whoever shares a ticket |
| ProtocolAccounts.StepKeepsItems | policy/engine.py:75-87 | every step keeps the number of items a thread parked equal to its REQUIRE_HUMAN lines, one in flight apart |
| ProtocolSafety.InvariantOverRuns | policy/engine.py:50-92 | all these invariants hold after every run |
| ProtocolSafety.RefundedAtMostOnce | tools/impls.py:147-164 | in every interleaving each order is refunded at most once, and the refunded orders are the initially refunded ones disjointly united with the logged ones |
| ProtocolSafety.EveryRefundIsAuthorised | policy/rules.py:40-165 | for every log line, the history of the very call that wrote it vouched for it: latest check eligible at the order's price, confidence at least 0.6, amount within the limits or NaN |
| ProtocolSafety.TotalRefundedIsBounded | policy/rules.py:79-135 | the numeric amounts of a run add up to at most 200 a refund, and at most the refunded orders' prices plus a cent a refund |
| ProtocolSafety.RefundsAreReportedExactly | tools/impls.py:147-164 | a call reports success exactly when it made a refund, exactly one, with its own arguments |
| ProtocolSafety.JustifiedTrailIsClean | evals/metrics.py:63-74 | a trail kept in step with its history has no safety violation |
| ProtocolSafety.MonitorsAcceptEveryRun | evals/metrics.py:63-74 | for any models and any interleaving, every trail has zero safety violations, also when it ends in a model failure |
| ProtocolSafety.ApprovalsAreAccountedFor | policy/engine.py:75-87 | in every run from every start, items and REQUIRE_HUMAN decisions correspond one to one, with the same ticket, tool, arguments and rule |
| ProtocolParking.ParkedRefundIsParkable | policy/rules.py:120-154 | whatever a thread parks is a refund of an order eligible from the start, by low confidence or above 200 within a cent of the price |
| ProtocolParking.NumbersOverRuns | policy/hitl.py:28-42 | if no two threads that can park share a ticket, numbers grow along each ticket's items in every run |
| ProtocolParking.ApprovalReferencesAreUnique | policy/hitl.py:28-42 | under the same condition references to approvals are pairwise different |
| ProtocolParking.TicketItemsAreItsVerdicts | policy/engine.py:75-87 | with one thread a ticket, a ticket's items are as many as its REQUIRE_HUMAN decisions |
| ProtocolSafety.RetriesChangeNothing | tools/resilient.py:47-63 | inside any run, a retried attempt changed nothing and no call exceeds its budget |
| ProtocolGate.RunsAreGood | tools/impls.py:107-213 | every allowed answer of every run quotes true prices and marks every failure with an error key |
| ProtocolGate.EveryAnswerIsJudged | agents/resolver.py:92-115 | in every run, the i-th answer of a ticket is the policy's verdict on exactly the history its trail shows, so what is assumed of the guard below holds under interference |
| ProtocolWitnesses.GuardIsARun | policy/engine.py:50-92 | a thread that moves alone through one call has exactly the effect of guard() |
| ProtocolWitnesses.ReferencesDistinctIff | policy/hitl.py:28-42 | for every start, references are distinct in all runs if and only if no two threads that can park a refund share a ticket |
| ProtocolWitnesses.AmountsBounded | policy/rules.py:102-135 | unless NaN is proposed, every amount paid in a run is in (0, 200] |
| ProtocolWitnesses.NaNIsPaid | policy/rules.py:30-34 | a run in which NaN is paid, for any start with an open order and sufficient confidence |
| Metrics.SafetyViolations | evals/metrics.py:63-74 | the one-pass count with a growing set is the number of lines that are a successful issue_refund with no earlier error-free check line for the same order id |
| Metrics.ToolSequenceValid | evals/metrics.py:44-60 | true if and only if the first line that names a tool, if any, is get_customer and there is no such refund line |
| Metrics.NoViolationIff | evals/metrics.py:63-74 | the recursive count is zero if and only if no executed refund is unchecked |
| Metrics.CountIsCardinality | evals/metrics.py:63-74 | that count is the number of such lines |
| Monitors.MonitorsNeedThePolicy | evals/metrics.py:44-74 | on any ledger with an open order, a model that refunds without a check trips both monitors when the engine has no rules, and neither behind the policy |
| RateLimiter.TryStaysSound | core/rate_limiter.py:43-53 | a turn keeps the level in [0, capacity], and a refused turn consumes nothing |
| RateLimiter.RefillIsExact | core/rate_limiter.py:36-41 | refilling at intermediate instants equals one refill at the end, saturation included |
| RateLimiter.WaitIsExact | core/rate_limiter.py:54-55 | left alone, a waiter is served if and only if missing / rate has passed |
| RateLimiter.PlayStaysSound | core/rate_limiter.py:43-53 | any contention keeps the level in [0, capacity] |
| RateLimiter.WindowBound | core/rate_limiter.py:36-61 | for any contending turns on a monotonic clock, at most capacity + rate * length is granted in any window |
| RateLimiter.SingleTurnsPayOne | core/rate_limiter.py:72-74 | as long as the bucket holds a whole request, the amount charged in a window is the number of requests served in it |
| RateLimiter.RpmWindow | core/rate_limiter.py:67-74 | for rpm of at least 1, the request bucket serves at most 2 * rpm requests in any 60 seconds of any contention |
| RateLimiter.RpmWindowIff | core/rate_limiter.py:67-74 | for every integer rpm, that bound holds of every contention if and only if rpm is at least 1 |
| RateLimiter.ZeroLimitServesAll | core/rate_limiter.py:46-53 | with a limit of 0 every request of every contention is served |
| RateLimiter.RpmWindowIsTight | core/rate_limiter.py:67-74 | and for every rpm of at least 1 some contention serves exactly that many |
| RateLimiter.OversizeIsGranted | core/rate_limiter.py:46-53 | a request above the capacity is granted by a full bucket for the capacity |
| Limiter.CompletedWindow | core/rate_limiter.py:72-75 | through both buckets in a row, at most 2 * rpm calls plus those between the buckets complete in any 60 seconds |
| Limiter.CompletionsExceedTwice | core/rate_limiter.py:72-75 | 2 * rpm alone fails: for every rpm of at least 1 and tpm of at least 3 * rpm, 3 * rpm calls complete in some minute |
| RateLimiter.TokenBucket.RefillLocked | core/rate_limiter.py:36-41 | the fields after a refill are the closed-form level |
| RateLimiter.TokenBucket.TakeTurn | core/rate_limiter.py:49-53 | one turn under the lock: fields and answer are those of the specification |
| RateLimiter.TokenBucket.Acquire | core/rate_limiter.py:43-61 | among any turns of other threads: True at the first turn whose level, after all that happened before, suffices; False at the first turn past the deadline, with every earlier level insufficient and nothing consumed |
| RateLimiter.HistoryIsOrdered | core/rate_limiter.py:48-61 | a waiting caller and the others in between are together one contention, to which the window bound applies |
| RateLimiter.AloneIsExact | core/rate_limiter.py:36-55 | with nobody else there, the waiter finds at each turn the level the closed form gives from the start |
| Calibration.CalibrationReport | monitoring/calibration.py:19-46 | the bucket loop computes the specified error, score and rows, also for an empty sample or no buckets |
| Calibration.ExactlyOneBucket | monitoring/calibration.py:29-32 | every confidence in [0, 1] lies in exactly one bucket |
| Calibration.BucketsPartitionTheSample | monitoring/calibration.py:29-32 | whatever is summed, bucket sums add up to the sample sum |
| Calibration.EceBounds | monitoring/calibration.py:25-46 | \|mean confidence - accuracy\| <= ECE <= mean \|confidence - outcome\| for any buckets |
| Calibration.EceWithinBrier | monitoring/calibration.py:25-46 | ECE^2 <= Brier <= 1 |
| CalibrationLaws.BucketIsFloor | monitoring/calibration.py:30-32 | a confidence lies in the bucket its multiple of the bucket count rounds down to, 1 in the last |
| CalibrationLaws.OneBucketError | monitoring/calibration.py:25-46 | with one bucket the error is the gap between mean confidence and accuracy |
| CalibrationLaws.RowsRecoverTheSample | monitoring/calibration.py:33-44 | the rows give back the sample's size, its confidence and its number of correct answers |
| CalibrationLaws.HitsAreCounted | monitoring/calibration.py:37 | the hits summed are the correct answers |
| CalibrationLaws.ConstantForecast | monitoring/calibration.py:25 | always saying c at accuracy a has a Brier score of (c - a)^2 + a(1 - a) |
| CalibrationLaws.PerfectBrierIff | monitoring/calibration.py:25 | the Brier score is 0 if and only if every answer was called with certainty and rightly |
| Classification.ClassRow | evals/metrics.py:26-35 | the counting loops give the class its precision, recall, F1 and weight |
| Classification.ClassificationStats | evals/metrics.py:21-41 | the statistics are the weighted means over all classes, in whatever order the set is visited, and the total weight is the number of true labels |
| Classification.HitsAreMatches | evals/metrics.py:27-40 | true positives over all classes count the matching positions |
| Classification.OccurrencesAddUp | evals/metrics.py:33-35 | the class weights add up to the number of true labels |
| Classification.RecallIsAccuracy | evals/metrics.py:31-40 | weighted recall equals accuracy whenever every true label has a prediction |
| Classification.RecallIsAccuracyIff | evals/metrics.py:31-40 | for all label lists, weighted recall equals accuracy if and only if no label with a true positive stands where nothing was predicted |
| Classification.RecallIsAccuracyForLengthsIff | evals/metrics.py:31-40 | hence for which pairs of lengths it holds of all lists, both directions |
| Classification.StatisticsAreProportions | evals/metrics.py:30-39 | weighted precision, recall and F1 lie in [0, 1] for all lists |
| ClassificationLaws.CountIsCardinality | evals/metrics.py:27-29 | the counting pass counts exactly the positions it should |
| ClassificationLaws.PrecisionIsSwappedRecall | evals/metrics.py:30-32 | precision is recall with truth and prediction exchanged, and F1 is the same either way |
| ClassificationLaws.SharesOfHits | evals/metrics.py:30-31 | precision and recall are the shares of hits among a class's predictions and its occurrences |
| ClassificationLaws.F1InCountsIff | evals/metrics.py:32 | F1 is 2 hits / (2 hits + misses) if and only if nothing was hit or precision and recall together reach the guard of 1e-9 |
| ClassificationLaws.PerfectPredictions | evals/metrics.py:21-41 | predictions equal to the truth score 1 in all four statistics |
| Resolver.RunCalls | agents/resolver.py:92-125 | the inner loop over a reply's calls in place: messages, trail, counters and flag as specified |
| Resolver.RunRound | agents/resolver.py:66-133 | one turn of the outer loop, with its three ways out |
| Resolver.Run | agents/resolver.py:34-151 | the whole loop and the result made of it |
| Resolver.FinalStatus | agents/resolver.py:135-138 | one pass over the trail gives escalated, else resolved, else incomplete, as the existence of a terminal entry without error says |
| Resolver.Confidence | agents/resolver.py:154-165 | the step-by-step score is the closed form, rounded to three places |
| Score.ScoreInClosedForm | agents/resolver.py:154-165 | before rounding, the score is the triage confidence, halved without a terminal action and less three tenths for a block, times the share of calls that did not fail, a failed one counting half |
| Score.ErrorsCostEvenly | agents/resolver.py:161-162 | each further error costs the error-free score divided by twice the calls; failing throughout leaves half |
| Score.ScoreTracksRaw | agents/resolver.py:165 | the rounded score is within half a thousandth of it, or at the limit it passes |
| ResolverFacts.LoopOutcome | agents/resolver.py:60-133 | for any model and guard: counters are exactly what the trail says, at most MAX_ITER requests, none after a reply with an allowed terminal call, errors <= calls + 1, four reasons to stop |
| ResolverFacts.GuardAnswersAreShaped | policy/engine.py:50-92 | what guard() can answer on any ledger and history, as the loop relies on it |
| ResolverFacts.RunsAreAnswered | agents/resolver.py:92-115 | for any model and guard, each trail line is the guard's answer on exactly the trail before it |
| Conversation.ConversationsAreOrderly | agents/resolver.py:60-133 | for any model and guard: each tool call is answered once, in order, under its id, right after its reply; the answers are the trail's results; nudges only come before the third call |
| GuardedRun.TerminalAnswerIff | tools/impls.py:167-184 | on any ledger and history a terminal call is allowed, and succeeds exactly when it binds, a reply is not blank, and one attempt is spared an injected failure |
| GuardedRun.StatusIff | agents/resolver.py:135-138 | behind any gate that treats terminal calls as guard() does, escalated, resolved and incomplete are each equivalent to a condition on the terminal calls made and the failures met |
| GuardedRun.ReplyRun | agents/resolver.py:124-138 | a run of one reply ends the loop; it is incomplete exactly for a blank message or three injected failures |
| GuardedRun.GuardGateIsAPolicyGate | policy/engine.py:50-92 | guard() run call after call on one ledger judges each call on the trail's history with true prices, and leaves that history |
| GuardedRun.RunsBehindThePolicyAreClean | evals/metrics.py:63-74 | for any model, a run of the loop behind the policy has no safety violation |
| GuardedRun.ScriptedSequencesAreValid | evals/metrics.py:44-60 | every run of the scripted agent there meets what tool_sequence_valid asks |
| Health.RoundsToNearestEven | agents/resolver.py:165 | the rounded score is a whole number of thousandths, none is nearer, and ties go to the even one |
| Health.RoundingIsMonotone | agents/resolver.py:165 | rounding to three places, ties to even, keeps order |
| Health.SelfConfidenceBounds | agents/resolver.py:154-165 | the score is in [0.05, 0.99] and at most the rounded triage confidence or 0.05 |
| Health.SelfConfidenceAntitone | agents/resolver.py:154-165 | more errors, more policy blocks or no terminal action never raise the score, in any combination, whether or not either run reached its terminal action |
| Health.CountErrors | monitoring/health.py:41 | counts the called entries whose result carries an error key |
| Health.Assess | monitoring/health.py:37-67 | degraded and needs-review exactly by their signals, and each reason listed exactly when its signal trips |
| Score.HealthyRunIff | monitoring/health.py:37-67 | any run of the loop is healthy if and only if it is complete, made fewer than 12 calls of which at most 34% failed, and its confidence outweighs failures and blocks |
| Health.MonitorCountsLoopErrors | monitoring/health.py:41 | the monitor's error count is the loop's minus the model failure, if any |
| Health.UnfinishedRunsAreFlagged | monitoring/health.py:37-67 | every run without an allowed terminal call is incomplete and degraded, for whichever reason it stopped |
| IterationCap.CapIsEscapedIff | monitoring/health.py:50-51 | any run that used all its rounds is healthy if and only if it is complete, made fewer than twelve calls, few of them failing, and scores at least 0.5995; it was then nudged |
| IterationCap.DawdlingIsHealthyIff | agents/resolver.py:66-91 | behind guard(), eleven silent rounds and a reply use all rounds on one call and are healthy exactly from a triage confidence of 0.5995 on |
| IterationCap.HastyIsDegraded | monitoring/health.py:50-51 | twelve calls in the first reply trip the cap after a single round |
| Health.CleanBlockedRunIsHealthyIff | monitoring/health.py:53-67 | any run that reaches its terminal call without error but had a call parked is healthy exactly from a triage confidence of 0.5995 / 0.7 |
| GuardedRun.ParkedRefundIsHealthyIff | monitoring/health.py:57-64 | such runs behind guard(): check, refund above 200 parked, reply; healthy exactly from that confidence, degraded at 0.7 |
| ScriptedAgent.ScanHistory | core/llm_client.py:160-178 | the scan's two nested loops recover the specified tools and last results |
| ScriptedAgent.ScanRecoversTrail | core/llm_client.py:160-178 | for any model and guard, the tools recovered from the conversation are those of the audit trail |
| ScriptedRun.ScriptedRunsTerminate | core/llm_client.py:211-254 | for any ticket and any tool results, get_customer first, no tool twice, an allowed terminal call as the last, within six calls |
| ScriptedPlan.ScriptedRunsFollowThePlan | core/llm_client.py:211-254 | in every run, the tools used are exactly those the ticket and the results call for, each once and in one fixed order, ending in an escalation exactly for warranty cases and a reply otherwise (in the agent's own terms) |
| ScriptedTrail.ScriptedPlanOnTheTrail | core/llm_client.py:211-254 | the same in terms of the ticket and the trail: an order line exactly if the ticket names an order or the customer line shows one, a check exactly for three categories, a refund exactly on a refund ticket whose check line says eligible, an escalation exactly for warranty |
| ScriptedTrail.ScriptedRunsKeepToTheTicket | core/llm_client.py:221-254 | every order, check and refund line concerns the order the ticket names, or else the first order the customer line shows; the customer is looked up by the ticket's address and the last line is about the ticket |
| ScriptedTrail.ScriptedRefundsFollowTheCheck | core/llm_client.py:239-243 | a refund line follows an eligible check line of the same order and proposes what that calls refundable, else the order's amount, else 50 |
| ScriptedRefund.GuardIsAPolicyGate | policy/engine.py:50-92 | guard() judges each call on the history the trail shows, with true prices |
| ScriptedRefund.RefundVerdict | core/llm_client.py:239-243 | the amount the agent proposes after an eligible check is refused exactly when the price is not positive |
| ScriptedRefund.ScriptedRefundsAreDeniedIff | core/llm_client.py:239-243 | in every run of the scripted agent, its refund is denied if and only if the order's price is not positive |
| ThreadRun.RunsMeetFairly | tools/resilient.py:43-63 | in every interleaved run, a ticket's terminal call goes through exactly if it is deliverable and one of the attempts made for it was spared, and fails only with the budget spent |
| ThreadRun.ThreadGateIsAPolicyGate | policy/engine.py:50-92 | what a ticket is answered under interference is what a policy gate answers, so every result about such gates holds of it |
| ThreadRun.ThreadGateGuardsTerminals | policy/engine.py:50-92 | and that gate treats terminal calls as guard() does |
| ThreadRun.ThreadsRunTheLoop | agents/resolver.py:60-133 | a ticket of any run that makes the calls its model asks for takes the steps of the resolver's loop behind that gate, line for line |
| ThreadRun.TicketStatusIff | agents/resolver.py:135-138 | the status of any ticket of any run, from its terminal calls and the failures they met there |
| ThreadRun.TicketOutcome | agents/resolver.py:60-133 | such a ticket's counters are its audit trail's and it stops within the cap for one of the loop's reasons |
| ThreadRun.ScriptedTicketsAreDeniedIff | core/llm_client.py:239-243 | under any interleaving, the scripted agent's refund is denied if and only if the price is not positive |
| LoopRun.SameRun | agents/resolver.py:66-133 | two guards that answer the calls of a run alike make the same run |
| LoopRun.LoopsAreRuns | agents/resolver.py:34-151 | for any model, ledger and failures, the loop behind guard() is a run of the protocol: same ledger, same queue, same audit trail, the ticket driven by that model to its end |
| McpServer.Server.Call | mcp_server/server.py:40-46 | for every tool, reads included, result, history, queue and ledger are those of guard() |
| Orchestrator.RunConserves | app/orchestrator.py:116-163 | for distinct tickets in any completion order: one result each, the four statuses add up, dead letters grow by the failed ones |
| Orchestrator.Orchestrator.ProcessOne | app/orchestrator.py:74-125 | one ticket through the resolver and the health monitor stores its status and verdict, and a crash adds one dead letter |
| Orchestrator.Orchestrator.Summarise | app/orchestrator.py:151-163 | the counts of the summary, which add up to the total |
| Orchestrator.SummaryCountsTheBatch | app/orchestrator.py:151-163 | for distinct tickets each count of the summary is the number of tickets that ended that way |
| Orchestrator.ResultSaysHowTheRunEnded | app/orchestrator.py:74-125 | a result is failed exactly for a crash; otherwise escalated or resolved as the run's lines say, degraded if incomplete, and for review if degraded or the policy intervened |
| Orchestrator.Orchestrator.RunAll | app/orchestrator.py:128-149 | a run replaces the results, extends store and dead letters, and is refused without effect while another runs |

## Left out

- Floating-point rounding: money, confidence, time and scores are reals; only the final rounding of the self-confidence is modelled. NaN and the infinities of a proposed amount are modelled.
- An integer amount beyond the range of a float (10**400 is legal JSON): float() raises OverflowError, which the amount rule does not catch, so guard() raises and the ticket crashes. In the model every number is finite, infinite or NaN.
- Tools.RefundIsAtomicIff: such an integer counts as numeric; called directly, the program would mark the order and not log it.
- ResolverFacts.LoopOutcome: guard() is total; the exception of such an amount is a fifth way out of the loop.
- Exception texts are those of CPython 3.10 and later; non-ASCII characters of quoted amounts are not escaped, the digits of an order id that is a number are not written out (no transient marker contains a digit), and of several unexpected arguments any one may be named first.
- Outputs that are only rounded for display (round(..., 3) and round(..., 4) of calibration and classification figures, bucket ranges).
- Arguments that are lists, objects or booleans, arguments that are not a JSON object, and order ids that are not text but equal to one; a numeral given as text for an amount is written as the number it denotes.
- Aliasing: get_order returns the live order record and the history keeps argument objects by reference; no decision reads a field changed that way.
- Texts of reasons and messages, risk levels, timestamps, telemetry, event broadcasting, the SQLite encoding and the web server.
- Whitespace other than space, tab, newline and carriage return, and lower-casing of non-ASCII letters.
- Dates: the simulated day and return deadlines are integers; a deadline that does not parse is not modelled.
- Customer, product and knowledge-base lookups: any answer without a "success" key; their own error branches are among these answers.
- The classifier, the reader, the Groq and Gemini clients: the model is any function of the conversation in `Resolver`, and any choice of calls in `Protocol`.
- The summary the model is asked for after a terminal call: it changes neither trail nor counters.
- More than one run in a process: `Protocol` starts with empty logs and a fixed set of tickets.
- Reviewing approvals: pending items are never resolved in the modelled code.
- The average time and the tool-call total of the batch summary.
- RateLimiter.TokenBucket.Acquire: watched for at most `wakes` turns, and the length of each wait is left to the clock. Waiting forever at rate 0 without a timeout is not modelled.
- RateLimiter.RpmWindow: the request bucket alone; both buckets are in `Limiter.CompletedWindow`.
- Limiter.CompletedWindow: the token bucket's turns are any turns that come after their request, each completing one call; calls that time out do not occur, as the program passes no timeout.
- Engine.PolicyEngine.Guard: undisturbed by other threads, with resilient_execute as executor, the only one the program passes; interference is in `Protocol`.
- Resolver.Run: the guard is any function of the trail and the call; `ThreadRun` shows that guarded tickets under interference are answered by such a function.
- GuardedRun.StatusIff: the attempts of one call meet one ledger; `ThreadRun.TicketStatusIff` is without that.
- ThreadRun.ThreadsRunTheLoop: that a ticket's calls are those its model asks for is a hypothesis, since `Protocol` lets threads propose anything; `LoopRun.LoopsAreRuns` shows for every model a run that meets it.
- McpServer.Server.Call: one client call at a time.
- Orchestrator.Orchestrator.ProcessOne: reading and classifying the ticket are not modelled; an exception anywhere is a crashing job.
- Orchestrator.Orchestrator.RunAll: sequential calls only. The program tests and sets its running flag without a lock, so two concurrent calls can both pass the test, which is not modelled. The tickets are listed in completion order, and failing to load the ticket file is not modelled.
- Evaluation.AllowedAmountIsBoundedIff: an infinite eligible amount gives no upper bound; no eligibility answer of this program names one.
