# xcoder: the algorithms and protocols behind the agent, modelled and proved

xcoder is a coding agent: a ReAct loop that talks to a model, calls tools, spawns subagents and phases, and
runs behind a multi-tenant API. This project models the parts of it that are algorithms or protocols and
proves what they are for. `dafny verify dfyconfig.toml` checks everything.

The modules, bottom up:

- **The conversation.** `Conversation` says what a history owes the model API: behind each assistant message,
  one tool message for each call, before anything else. `TruncationGuard` splits the calls of a cut-off
  response, `Compaction` rewrites superseded file snapshots in place, `Rounds` plays a whole run of the loop,
  `Snapshots` says what the model sees of each file, and `Anthropic` translates histories for another API.
- **The orchestrator.** `AgentWorld` is what stands outside: the model, the tools, the approvals and every
  wording are functions of an environment (`Env`) that nothing is assumed about, and a request can throw at any
  point. Every request goes through `World.Complete`, every question through `World.Ask`, every tool call through
  `World.Observe` and every finished child through `World.Finish`; these alone write the record of what each
  instance has sent, for what purpose, with what reply, what it was granted, which tools it used on which calls and
  whom it started. A request is a `Prompt`, a history in which every call is answered. `Settings` are the options
  and the quotas that follow from them, `Prompts` the side requests, `Subagents` what a subagent call comes to,
  `Services` how the calls of a round are served and when a run nudges itself, `LoopTrace` what a run of the loop
  promises of its record (`Ended`), `Accounting` the token bookkeeping, `Ledger` what one operation does to its own
  record, to those of others and to the totals (`Done`), `Tree` what holds of subagents, phases and plans.
  `Orchestrator` is the loop itself, as a class with the counters the source keeps. `Observations` follows the
  snapshots a run shows back to the tools, `Runs` draws the conclusions about whole runs, and `PlainCodec` shows
  that what is assumed of the host's JSON can be met. Some predicates of these modules are wrapped in
  `Hiding.Shown`: they say what their bodies say, and a caller passes them on without the verifier taking them apart.
- **The response cache.** `InsertionMap` is a JavaScript `Map`, `MemoryCache` the LRU built on its order,
  `Breaker` the circuit breaker in front of Redis, `JsonText` and `CanonicalJson` the printers that make keys,
  `LlmCache` the read-through client as a state machine over the steps between its awaits.
- **Repetition and scoring.** `EditDistance`, `ReasonDedup`, `Lexing`, `DuplicateActions`, `StepScorer`.
- **The workspace index.** `Digits`, `Indexer`, `Fingerprint`.
- **Admission and bookkeeping.** `RateLimiter`, `Tokens`, `Metering`, `ProjectStore`.

Every lemma carries `{:induction false}`: inductions are written out, none is left to the verifier.

What is assumed of the host: sha256 is injective; a printed finite number starts with a digit or a minus sign;
`trim` and `toLowerCase` are given functions (for folder names: they leave plain lower-case words alone);
`JSON.parse` reads back the path and mode that compaction wrote; clocks do not run backwards in the limiter and
the token store. Strings are sequences of UTF-16 code units where their text matters.

Where the code and its own documentation disagree, the model follows the code, and the difference is proved:

- Compaction is documented to touch strictly earlier calls and to leave the latest snapshot intact. It skips
  only the id of the call just made, and the loop shares the call objects with the history, so a write that
  waits for its turn behind a read or write of the same file loses its payload before it is dispatched
  (`Rounds.WriteAfterReadLosesPayload`; `Rounds.FaithfulDispatch` says exactly when this happens, and
  `Rounds.ArgumentsKept` when the arguments of a call survive a whole run). Over a run, what stays visible of a
  file is the observation of the last call dispatched for it, even if that call failed
  (`Snapshots.OneCurrentSnapshot`, and `Observations.ShownIsObserved` for where it came from).
- `iterationCount` is documented as the number of model calls of one run. It is never reset, a stop at the limit
  adds one more, and children's iterations are added. What a run adds is its number of requests if and only if
  it did not stop at its limit and started no other instance (`Ledger.IterationsAreRequests`). An instance
  run twice, stopped each time, has `2*max + 2` iterations for `2*max` requests
  (`Runs.IterationsOutrunRequests`).
- The outcome of a run is a partial success if and only if its own loop stopped at its limit or reported on a
  subagent it did not continue (`Orchestrator.Orchestrator.Run`). With phase planning on, the root has no loop of
  its own, so its outcome is never a partial success, even when its only phase was stopped
  (`Runs.PhaseStopsUnseen`).
- `stableStringify` is used as if distinct arguments had distinct texts; a list that holds one undefined
  element prints like the empty list (`CanonicalJson.StableCollision`).
- A window of zero does not narrow the duplicate-reason check, it removes the window (`ReasonDedup.WindowSizes`).
- A step is scored as a repeat by comparing arguments with field order, while the groups it is looked up in
  ignore field order (`StepScorer.PenalisedExactly`, `StepScorer.ReorderedRepeatEscapes`).
- Whether revoking an expired token succeeds depends on whether the sweep came first
  (`Tokens.SweptTokenCannotBeRevoked`); validating it does not.

## Model

| member | source | states |
|---|---|---|
| MemoryCache.MemoryBackend.GetValue | src/cache/backends.ts:26-32 | the answer and the new order, expired entries dropped, a hit moved to the end |
| MemoryCache.MemoryBackend.SetValue | src/cache/backends.ts:33-38 | the new order after a set, with the oldest entries evicted past the cap |
| MemoryCache.MemoryBackend.EvictOldest | src/cache/backends.ts:36 | the loop at the end of a set keeps the newest entries |
| MemoryCache.MemoryBackend.ClearPrefix | src/cache/backends.ts:39-43 | exactly the keys under the prefix are gone, order kept, and how many there were |
| MemoryCache.SizeNeverExceedsCap | src/cache/backends.ts:36 | over any trace the cache holds each key once and never more than the cap |
| MemoryCache.InclusionStep | src/cache/backends.ts:26-43 | one operation at the same time keeps a small cache inside a large one, values and relative recency alike |
| MemoryCache.LruInclusion | src/cache/backends.ts:26-43 | LRU inclusion over any trace of gets, sets, expiries and prefix clears: every hit of the smaller cache is the same hit in the larger |
| MemoryCache.LruInclusionFromEmpty | src/cache/backends.ts:22-43 | the same from empty caches, with no hypothesis left |
| MemoryCache.HitsAreFresh | src/cache/backends.ts:26-38 | whatever a bounded cache returns is what an unbounded map with a time to live returns |
| MemoryCache.Retained | src/cache/backends.ts:26-38 | a live key left alone is still answered while fewer than the cap other keys were touched |
| MemoryCache.SetThenGet | src/cache/backends.ts:33-38 | a value just set is returned after any such trace |
| Breaker.RedisBackend.Ok | src/cache/backends.ts:108 | a success forgets the failures |
| Breaker.RedisBackend.Bad | src/cache/backends.ts:109 | a failure counts, and the last one opens the breaker and starts again |
| Breaker.RedisBackend.Guarded | src/cache/backends.ts:116-123 | one guarded command: not sent while open, otherwise counted as it ended |
| Breaker.FailsBelowThreshold | src/cache/backends.ts:109 | `fails` stays below the threshold over any commands, whatever their results |
| Breaker.FailingServerIsSpared | src/cache/backends.ts:107-123 | while every command fails, any interval sees at most threshold times (its length over breakerMs, rounded down, plus one) of them |
| EditDistance.TwoRowDistance | src/core/iterationReasonDedup.ts:201-222 | the two-row loop computes the edit distance of the two texts |
| EditDistance.LevenshteinSimilarity | src/core/iterationReasonDedup.ts:189-225 | with its shortcuts and its swap of the arguments, the method computes the similarity defined from the distance |
| EditDistance.CheapestScript | src/core/iterationReasonDedup.ts:209-218 | some script of inserts, deletes and substitutions turns one text into the other at the price of the distance |
| EditDistance.NoCheaperScript | src/core/iterationReasonDedup.ts:209-218 | no script does it for less |
| EditDistance.DistIsLeastPrice | src/core/iterationReasonDedup.ts:209-218 | the distance is the least price of all scripts |
| EditDistance.Symmetric | src/core/iterationReasonDedup.ts:194-196 | the distance does not depend on the order of its arguments, which is what the swap needs |
| EditDistance.Triangle | src/core/iterationReasonDedup.ts:209-218 | the distance obeys the triangle inequality |
| EditDistance.SimilarityLaws | src/core/iterationReasonDedup.ts:190-191 | similarity is symmetric, between 0 and 1, and 1 exactly for equal texts |
| ReasonDedup.CheckDuplicateReason | src/core/iterationReasonDedup.ts:89-159 | the three passes and the sort give the matches of each earlier reason, by severity, oldest first within one |
| ReasonDedup.Insert | src/core/iterationReasonDedup.ts:153-156 | the sort is stable |
| ReasonDedup.FoundCovers | src/core/iterationReasonDedup.ts:99-149 | a violation is listed exactly when that earlier reason matches, with the strongest kind of match |
| ReasonDedup.SortKeepsMembers | src/core/iterationReasonDedup.ts:153-156 | sorting loses and adds nothing |
| ReasonDedup.SortIsSorted | src/core/iterationReasonDedup.ts:152-156 | exact before case-insensitive before fuzzy |
| ReasonDedup.PenaltyIsStrongestMatch | src/core/iterationReasonDedup.ts:165-168 | the penalty is decided by the strongest match against any earlier reason, and the first violation carries it |
| ReasonDedup.CheckDuplicateReasonRolling | src/core/iterationReasonDedup.ts:239-247 | the check against the last reasons only |
| ReasonDedup.WindowSizes | src/core/iterationReasonDedup.ts:245 | a positive window is the last so many reasons, a window of zero is all of them |
| JsonText.EscapedInjective | src/cache/llmCache.ts:46 | string escaping by section 7 of RFC 8259, lone surrogates included, loses nothing |
| JsonText.PrintedInjective | src/cache/llmCache.ts:46 | no two trees print the same JSON text |
| CanonicalJson.NormOrders | src/cache/llmCache.ts:41-45 | normalising is ordering the fields that print, at every depth, integer-like keys first as objects do |
| CanonicalJson.CanonicalForm | src/cache/llmCache.ts:40-47 | two values have the same canonical text exactly when they differ at most in field order and undefined fields |
| CanonicalJson.FieldOrderIsIgnored | src/cache/llmCache.ts:39-43 | reordering fields or adding undefined ones never changes the text |
| CanonicalJson.StableForm | src/core/duplicateActionDetector.ts:49-54 | the same if-and-only-if for the duplicate detector's printer, in terms of what it tells apart |
| CanonicalJson.StableCollision | src/core/duplicateActionDetector.ts:49-51 | where the two printers collide: lists that hold undefined |
| CanonicalJson.StringifyRefinesStable | src/core/stepScorer.ts:102-104 | on plain data, equal JSON.stringify texts imply equal canonical texts |
| LlmCache.SameKeySameInput | src/cache/llmCache.ts:62-67 | equal cache keys mean the same tenant, fingerprint, model, temperature as printed, tools, format and messages up to field order |
| LlmCache.CachingLlmClient.BeginCall | src/cache/llmCache.ts:83-89 | a call up to its first await: bypassed, key failure, or reading |
| LlmCache.CachingLlmClient.GotFromBackend | src/cache/llmCache.ts:89-100 | a backend answer becomes a hit or a miss, with the counters |
| LlmCache.CachingLlmClient.InnerAnswered | src/cache/llmCache.ts:100-107 | an inner answer is stored only when it is complete, unfiltered and not empty |
| LlmCache.CachingLlmClient.SetDone | src/cache/llmCache.ts:102-106 | the end of a store |
| LlmCache.EveryCallIsCounted | src/cache/llmCache.ts:83-107 | over every interleaving calls are hits, misses, bypassed or key failures, but for those still reading, and stored is at most misses |
| LlmCache.HitsAreEarlierAnswers | src/cache/llmCache.ts:88-97 | over every interleaving a hit is an earlier answer of the inner client to the same input, never a truncated, filtered or empty one |
| Conversation.OneForEachMeans | src/core/contextCompaction.ts:14-16 | answering one by one in any order is equality of multisets of ids |
| Conversation.AnsweredMeans | src/core/contextCompaction.ts:14-16 | a history owes nothing exactly when each assistant message is followed by one tool message per call and no tool message is an orphan |
| Conversation.ShapeDecides | src/core/contextCompaction.ts:14-16 | only roles and ids matter to what is owed |
| TruncationGuard.CheckForTruncatedToolCalls | src/core/truncationGuard.ts:39-50 | which calls are dispatched and which withheld |
| TruncationGuard.GuardPartitions | src/core/truncationGuard.ts:39-50 | each call is on exactly one side and both sides keep the order |
| TruncationGuard.EveryCallOnce | src/core/truncationGuard.ts:39-50 | withheld and safe ids together are the ids of the response, each once |
| Compaction.Log.CompactStaleFileReads | src/core/contextCompaction.ts:51-86 | the nested loops, writing in place, give the compacted history message by message |
| Compaction.Log.VisitCall | src/core/contextCompaction.ts:59-84 | one visited call: its observation and its arguments, and nothing else |
| Compaction.CompactionKeepsDebt | src/core/contextCompaction.ts:14-16 | compaction never breaks the link of calls and answers |
| Compaction.CompactionIdempotent | src/core/contextCompaction.ts:68-77 | a second pass changes nothing |
| Rounds.StepKeeps | src/core/orchestrator.ts:746-769 | dispatching one call keeps every earlier message in its shape and adds exactly its observation |
| Rounds.TurnPays | src/core/orchestrator.ts:643-769 | the safe calls of a turn settle exactly their ids |
| Rounds.PlayKeepsAnswered | src/core/orchestrator.ts:606-612 | a round leaves every call answered, whatever was withheld, delegated, rejected, nudged or compacted in it |
| Rounds.EveryRequestAnswered | src/core/orchestrator.ts:562-785 | over any run every request answers every tool call |
| Rounds.FaithfulDispatch | src/core/contextCompaction.ts:59-61 | the calls of a turn reach the tools unaltered exactly when no read or write of a file precedes a write of the same file in it |
| Rounds.WriteAfterReadLosesPayload | src/core/contextCompaction.ts:33-35 | a turn in which a write is dispatched without its payload |
| Rounds.ArgumentsKept | src/core/contextCompaction.ts:59-84 | over a whole run a call keeps the model's arguments exactly when no call dispatched in its round or later reads or writes the file it writes |
| Snapshots.TurnKeepsCurrent | src/core/orchestrator.ts:753-769 | a turn keeps one current snapshot per file, repeated paths in the turn included |
| Snapshots.OneCurrentSnapshot | src/core/contextCompaction.ts:33-38 | at every request each file shows the last observation dispatched for it, word for word, and no other |
| Anthropic.ConvertMessagesToAnthropic | src/llm/deepseekClient.ts:369-418 | the loops, growing an earlier message in place, give the specified translation and system text |
| Anthropic.TranslationSaysTheSame | src/llm/deepseekClient.ts:373-417 | flattened to events, the translation says what the history says, in order, less empty assistant texts |
| Anthropic.TranslationWellShaped | src/llm/deepseekClient.ts:388-411 | no empty content, and no two result messages in a row |
| Anthropic.AnsweredTranslates | src/llm/deepseekClient.ts:396-411 | a history that answers every call becomes one where each message that uses tools is followed at once by exactly its results |
| Accounting.SameOnBoth | src/core/orchestrator.ts:394-402 | counting a response, or a trip, on both sides keeps the difference of two totals |
| Accounting.ChildAbsorbed | src/core/orchestrator.ts:405-414 | a child that accounts for all that was spent meanwhile, once absorbed, leaves its parent accounting for it |
| AgentWorld.World.Complete | src/core/orchestrator.ts:562 | a request is answered by the environment or throws, and is recorded once, under its sender and its purpose, with its reply |
| AgentWorld.World.Ask | src/core/orchestrator.ts:525-526 | a question is answered by whoever approves and recorded once with its answer |
| AgentWorld.World.Observe | src/core/orchestrator.ts:732 | a call is handed to its tool once, and recorded with the time and what came back |
| Services.OneMoreServed | src/core/orchestrator.ts:643-769 | one more call of a turn, read out of the history at its turn, keeps every text of the turn what a tool or a delegation gave for just that call |
| Services.CheckedOn | src/core/orchestrator.ts:773-784 | one more round keeps the whole run nudged exactly where the scores so far, the last nudge and the iteration call for it |
| Settings.NextIteration | src/core/orchestrator.ts:501-558 | the iteration of trip i is i modulo the limit, plus one, restarts included |
| Ledger.TripMade | src/core/orchestrator.ts:501-563 | a trip, its question at the limit and its request or report keep the books balanced: one iteration, one request, every usage counted |
| Ledger.DoneOn | src/core/orchestrator.ts:500-785 | one operation after another: records, runs on record, uses of tools in order of time, scores and totals all add up |
| Ledger.ChildDone | src/core/orchestrator.ts:405-414 | starting a child, running it and absorbing it keeps its parent's books balanced, leaves every other record alone and puts the child's run on record |
| LoopTrace.TripsBounded | src/core/orchestrator.ts:500-559 | with at most R restarts granted a loop makes at most (R+1)*max requests and one trip more, however many the model would answer |
| LoopTrace.UnaskedNeverStops | src/core/orchestrator.ts:520-526 | an auto, continueOnLimit or unattended run never stops at its limit; against a model that never finishes it ends only by a throw |
| Ledger.IterationsAreRequests | src/core/orchestrator.ts:501-502 | iterationCount grows by the number of requests if and only if the run did not stop at its limit and started no other instance |
| Orchestrator.Orchestrator.AddUsage | src/core/orchestrator.ts:394-402 | a reported usage adds to every total and to the call count |
| Orchestrator.Orchestrator.ShouldContinue | src/core/orchestrator.ts:521-526 | auto, continueOnLimit and unattended runs go on without asking; otherwise one question decides |
| Orchestrator.Orchestrator.SynthesizeReport | src/core/orchestrator.ts:971-992 | one request with the whole history; its trimmed text when it is longer than ten, the mechanical report otherwise or when it throws |
| Orchestrator.Orchestrator.SynthesizeSubagentPartialReport | src/core/orchestrator.ts:1588-1603 | the same for a subagent that is not continued |
| Orchestrator.Orchestrator.ValidateGoal | src/core/orchestrator.ts:585-588 | one audit request for the claim as it stands, and its verdict |
| Orchestrator.Orchestrator.SelfCheck | src/core/orchestrator.ts:773-784 | a nudge is given exactly when the average is low, there are two scores and the last nudge is three iterations back, and it is recorded |
| Orchestrator.Orchestrator.RunSubagent | src/core/orchestrator.ts:1108-1183 | invalid arguments start nothing; otherwise one child, never restarted, runs its loop to an end, and it is reported as limited exactly when it stopped at its limit or reported on a subagent of its own |
| Orchestrator.Orchestrator.Delegate | src/core/orchestrator.ts:644-714 | the observation is that of a subagent not stopped, of the one run that continues it when that is granted, or a report; exactly these instances are started; the outcome is a partial success after a report only |
| Orchestrator.Orchestrator.DispatchOne | src/core/orchestrator.ts:643-769 | one call, with its arguments as they stand at its turn, is handed to its tool or delegated, its observation is what came back, and it makes the specified step of the history |
| Orchestrator.Orchestrator.RunTool | src/core/orchestrator.ts:716-769 | the tool is used once on just this call, its step scored when scores are kept, its observation pushed and older snapshots collapsed |
| Orchestrator.Orchestrator.Turn | src/core/orchestrator.ts:630-769 | a response with calls makes the specified round of the history, every text in it what a tool or a delegation gave, until one throws; at most two instances for each subagent call |
| Orchestrator.Orchestrator.Act | src/core/orchestrator.ts:630-785 | the round ends with a nudge exactly when the scores, its own steps included, are low, there are two, and the last nudge is three iterations back |
| Orchestrator.Orchestrator.Consider | src/core/orchestrator.ts:577-628 | a claim is accepted on a passed audit, without one only when validation is off or its retries are used up, and sent back otherwise |
| Orchestrator.Orchestrator.Loop | src/core/orchestrator.ts:495-785 | of what the instance sent and used: request i is the history after i rounds and round i its reply; each text of a round is what its call was served with, in order, and nothing else was used or started; (R+1)*max requests when stopped after R grants, at most that otherwise; every claim audited once and as it stood, at most maxValidatorRetries rejected; one report when stopped; what is returned; a nudge exactly after the rounds where one is due; the outcome |
| Orchestrator.Orchestrator.PlanFirst | src/core/orchestrator.ts:465-476 | a plan is asked for exactly when the mode or two skills call for one, and the run goes on exactly when it came and was not turned down |
| Orchestrator.Orchestrator.RunPlanMode | src/core/orchestrator.ts:1234-1257 | one request for the plan; auto and non-interactive runs approve it unasked |
| Orchestrator.Orchestrator.RunPhases | src/core/orchestrator.ts:1371-1486 | phases in order, each told the summaries of those before it, each summed up from its own answer |
| Orchestrator.Orchestrator.RunPhasePlanning | src/core/orchestrator.ts:1333-1364 | the whole task as one phase when none are named, nothing started when they are turned down, the phases otherwise |
| Orchestrator.Orchestrator.Run | src/core/orchestrator.ts:428-825 | plan mode first, exactly when called for; then nothing more if it threw or was turned down, the loop with all its promises, or the phases, after an approved plan too; what is returned; the outcome: a partial success if and only if the loop stopped or reported on a subagent, rejected if a plan was turned down; books balanced over the whole tree |
| Orchestrator.SpacedCount | src/core/orchestrator.ts:773-777 | nudges three iterations apart are at most a third of the limit, rounded up |
| Runs.RunTask | src/core/orchestrator.ts:428-825 | a root's totals are the sum over all usage-reporting responses of its tree, each counted once; every request of the tree answers every call, before and after translation; the root's run is as `Run` says, phases and observations included, and every other instance is on record with a loop that keeps all the promises of `Loop`; subagents make at most max requests, the others their quota for the restarts granted; nudges are at most a third of the limit, rounded up |
| Runs.RequestIsHistory | src/core/orchestrator.ts:562 | request n of a loop is the history after n rounds |
| Runs.RequestsShowOneSnapshot | src/core/orchestrator.ts:753-769 | every request of a loop shows one current snapshot of each file, the last dispatched |
| Observations.ShownIsObserved | src/core/orchestrator.ts:732-769 | what a run shows of a file is what a tool gave back, word for word, for the call dispatched, in a use on the instance's record |
| Observations.TextIsServed | src/core/orchestrator.ts:643-751 | text k of round i is what serving the k-th call gave, read out of the history when its turn came |
| Runs.RequestsKeepArguments | src/core/orchestrator.ts:753-769 | in every request a call shows the model's own arguments exactly when nothing dispatched since supersedes them |
| Runs.IterationsOutrunRequests | src/core/orchestrator.ts:501-556 | an instance run twice and stopped twice counts 2*max + 2 iterations for 2*max requests |
| Runs.PhaseStopsUnseen | src/core/orchestrator.ts:1333-1349 | a root completes although its only phase was stopped at its limit |
| Runs.EndlessExists | src/core/orchestrator.ts:500-562 | there are models for which both of these happen, for every sound codec |
| Runs.EndlessModel | src/core/orchestrator.ts:500-562 | and one with a codec that is shown to be sound |
| PlainCodec.SoundCodec | src/core/contextCompaction.ts:68-84 | what compaction needs of the host's JSON can be met |
| DuplicateActions.FindDuplicateActions | src/core/duplicateActionDetector.ts:22-47 | the grouping and reporting loops give the specified reports |
| Lexing.PrintedPasses | src/core/duplicateActionDetector.ts:49-54 | printed text keeps its colons apart outside strings and closes its strings |
| Lexing.ColonsSplitOnce | src/core/duplicateActionDetector.ts:26 | a group key determines tool and arguments, whatever colons the tool name or the strings contain |
| DuplicateActions.KeysAgree | src/core/duplicateActionDetector.ts:26 | two calls share a group exactly when tool and canonical arguments agree |
| DuplicateActions.FlaggedExactly | src/core/duplicateActionDetector.ts:14-21 | an action is flagged exactly when it occurs twice or more and all its observations agree |
| DuplicateActions.ReportNamesFirst | src/core/duplicateActionDetector.ts:38-43 | a report names the first call of its action and counts them all |
| DuplicateActions.OneReportEach | src/core/duplicateActionDetector.ts:33-45 | no action is reported twice |
| DuplicateActions.NeverFlaggedAgain | src/core/duplicateActionDetector.ts:14-21 | after two different observations no longer history flags the action |
| StepScorer.HealthState.ScoreStep | src/core/stepScorer.ts:43-93 | the score of a step from its error, its repetition and its thought, and one entry more in each of the three histories |
| StepScorer.HealthState.RollingHealth | src/core/stepScorer.ts:96-100 | the loop sums the last scores and rounds their mean |
| StepScorer.ScoreBands | src/core/stepScorer.ts:49-90 | scores lie in 0..90; errors stay at 25 or below, clean steps at 55 or above |
| StepScorer.HealthIsRoundedMean | src/core/stepScorer.ts:99 | the health is the nearest integer to the mean, halves up |
| StepScorer.HealthBounds | src/core/stepScorer.ts:96-100 | it lies between the least and the greatest recent score |
| StepScorer.PenalisedExactly | src/core/stepScorer.ts:60-65 | a step is penalised exactly when its own action is flagged and the first call of the action printed the same text |
| StepScorer.NeverPenalisedAgain | src/core/stepScorer.ts:60-65 | after two different observations of an action no step of it is penalised |
| StepScorer.ReorderedRepeatEscapes | src/core/stepScorer.ts:102-104 | a repeat with its fields in another order is flagged but not penalised |
| RateLimiter.Limiter.Check | src/api/auth.ts:333-349 | the answer is the one a log that never forgets would give, for this bucket's window and maximum |
| RateLimiter.Limiter.Sweep | src/api/auth.ts:364-371 | a sweep changes no log, so no later answer |
| RateLimiter.ForgettingIsHarmless | src/api/auth.ts:354-361 | forgetting expired attempts is never noticed again |
| RateLimiter.WindowCap | src/api/auth.ts:337-347 | every interval as long as the window admits at most the maximum |
| RateLimiter.EveryBucketCapped | src/api/auth.ts:333-371 | so it is for every bucket of a limiter in use, sweeps included |
| RateLimiter.RetryAfterIsTight | src/api/auth.ts:340-344 | the wait is positive, at most a window, refused again any sooner, admitted then |
| Tokens.TokenStore.ValidateToken | src/api/auth.ts:107-115 | a token validates exactly when it was issued, not revoked and not expired, swept or not |
| Tokens.TokenStore.RevokeToken | src/api/auth.ts:120-122 | a live token is revoked, an unknown one is not |
| Tokens.TokenStore.Sweep | src/api/auth.ts:376-381 | exactly the expired tokens go, and no validation changes |
| Tokens.SweptTokenCannotBeRevoked | src/api/auth.ts:120-122 | revoking an expired token tells whether it was swept |
| Digits.PrintedInjective | src/indexing/indexer.ts:101 | no two numbers print alike |
| Indexer.DumpNamesDiffer | src/indexing/indexer.ts:100-102 | dump names are different for different numbers, past three digits too |
| Indexer.BuildIndex | src/indexing/indexer.ts:33-77 | the packing loop leaves the specified dumps and entries on disk |
| Indexer.RoundTrip | src/indexing/indexer.ts:85-98 | for distinct paths every readable file comes back byte for byte, and nothing else does |
| Indexer.DumpsAreBlocks | src/indexing/indexer.ts:46-66 | the dumps, one after the other, are the framed files in order |
| Indexer.PackingIsTight | src/indexing/indexer.ts:55-61 | a dump over the cap holds one block, and two neighbours together exceed the cap |
| Indexer.IndexNeedsBytes | src/indexing/indexer.ts:8-61 | so many dumps imply (cap + 1) times half as many bytes, rounded down |
| Fingerprint.HashContent | src/indexing/indexer.ts:104-111 | the wrapping loop computes a polynomial in 31 modulo 2^32 |
| Fingerprint.SameEnding | src/indexing/indexer.ts:107-109 | two texts collide exactly when they still do with the same ending |
| Fingerprint.SingleChangeDetected | src/indexing/indexer.ts:105-110 | changing one unit of a text always changes the fingerprint |
| Fingerprint.TwoChangesMissed | src/indexing/indexer.ts:105 | a pair of texts that can be exchanged anywhere unnoticed |
| Metering.UsageStore.RecordUsage | src/saas/usage.ts:19-22 | the tenant's counters grow, never shrink, and no other tenant's change |
| Metering.UsageStore.QuotaExceeded | src/saas/usage.ts:28-34 | over exactly when an existing tenant has used up either allowance |
| Metering.MeteredLlmClient.Begin | src/saas/metering.ts:11-17 | which calls pass by the meter, which are refused, which are metered |
| Metering.MeteredLlmClient.Finish | src/saas/metering.ts:18-20 | a metered call records its tokens and one request, others nothing |
| Metering.OvershootIsBounded | src/saas/metering.ts:16-19 | over every interleaving with at most K paid calls in flight and M tokens a call, at most limit - 1 + K*M tokens and limit - 1 + K requests |
| Metering.OvershootIsReached | src/saas/metering.ts:16-19 | some run reaches both bounds exactly |
| Metering.NoOwnKeyAllPlatform | src/saas/metering.ts:15-19 | for a tenant without own keys the bounded part is everything recorded |
| Metering.NothingStartsOver | src/saas/metering.ts:16-17 | a call the platform pays for starts exactly below both allowances; one with an own key always starts |
| ProjectStore.SlugIsSafe | src/api/projectStore.ts:50-60 | a folder name is letters and digits in words joined by single hyphens, never empty |
| ProjectStore.SlugIsIdempotent | src/api/projectStore.ts:53-60 | the folder name of a folder name is itself, and only such names are their own |
| ProjectStore.UniqueSlug | src/api/projectStore.ts:66-72 | the search ends on every set of taken names, with a free name of the least number |
| ProjectStore.Store.AddProject | src/api/projectStore.ts:128-166 | when a project is added, what is added, and that the store stays consistent |
| ProjectStore.Store.UpdateProject | src/api/projectStore.ts:179-196 | each refusal exactly when it is due, the renamed project in place otherwise |
| ProjectStore.Store.SetActiveProject | src/api/projectStore.ts:204-213 | exactly the owner's flags move, the store stays consistent |
| ProjectStore.Store.GetActiveProject | src/api/projectStore.ts:218-220 | an owner with a project has an active one |
| ProjectStore.Store.DeleteProject | src/api/projectStore.ts:222-237 | the project goes and its owner's first takes over if it was active, the store stays consistent |
| ProjectStore.ActivateKeeps | src/api/projectStore.ts:198-210 | activation keeps one active project per owner, unique names, paths and ids |
| ProjectStore.DeleteKeeps | src/api/projectStore.ts:228-234 | so does deletion with its promotion |
| ProjectStore.OthersSeeNoChange | src/api/projectStore.ts:198-203 | whatever is done to an owner's project, no other owner sees a change |

## Left out

- StepScorer.HealthState.RollingHealth: divides exactly where the source divides floating-point numbers; a negative window is not modelled.
- StepScorer.PenalisedExactly: is about plain data, as JSON.parse makes tool arguments; with undefined fields equal JSON texts need not mean the same group.
- EditDistance.LevenshteinSimilarity: works on rationals where the source uses floating point.
- Orchestrator.Orchestrator.RunTool: takes what a tool does to the workspace as part of the environment, which knows the time and the call.
- LlmCache.HitsAreEarlierAnswers: assumes sha256 injective, and that the backend returns only what was stored under a key and has not lost it in between.
- Breaker.FailingServerIsSpared: is about commands one after another; commands in flight together are not bounded by it.
- RateLimiter.RetryAfterIsTight: is about one bucket; of the three login buckets the unlimited ones record the attempt all the same, so no joint claim is made.
- RateLimiter.Limiter.Check: a bucket is named by its family and its subject, so that key texts of different families never coincide.
- Metering.OvershootIsBounded: is about one month at fixed allowances; a call that ends in the next month is recorded there.
- Indexer.RoundTrip: takes the bytes of the decoded text; bytes that are not UTF-8 are replaced before indexing.
- Fingerprint.HashContent: is the number; its hexadecimal print is not modelled.
- ProjectStore.Store.AddProject: takes the folders on disk and the success of creating folders as parameters; a store file that cannot be parsed, which reads as empty, is not modelled.
- Orchestrator.Orchestrator.SynthesizeReport: leaves out the shortcut for a final text, which is empty whenever a report is asked for; the wording of its request, with its counts of iterations and restarts, is a given function of the history and the task.
- Orchestrator.Orchestrator.DispatchOne: takes the score of a step from the environment; StepScorer says how it comes about.
- AgentWorld.World.Complete: stops answering after a number of requests chosen beforehand. Every finite run is a run for some such number; without it an auto run need not end, since the model could go on for ever, and subagents could nest for ever. What ends a loop whose restarts are not all granted is LoopTrace.TripsBounded, which does not use it.
- LoopTrace.TripsBounded: is about runs that can be stopped; an auto, continueOnLimit or unattended run restarts unasked and has no bound.
- Messages are values in a field that the loop and the compactor share. The sharing of call objects is kept by reading each call out of the history when its turn comes; other aliasing is not modelled.
- Texts the program writes (prompts, reports, warnings, nudges) are given functions; that compaction's texts carry their markers is assumed.
- Context captured for a Continue button, `getLastMessages` (whose field is never assigned), and the dormant memory health score.
- Routes, SQL, file writes, console, telemetry, subprocesses, ssh, docker and the clients of foreign services.
- Password hashing, encryption, URL and DNS checks, redaction patterns, role tables.
- The other engines that reuse the guard, the compactor and the scorer.
