# Replay, modelled

Replay reads the transcripts of coding agents, prices them, and acts on the results: it publishes what
the work cost, suggests what to change and checks whether a change helped, erases records on request,
and records a finished run so that it can be scored. This project models the algorithms and protocols
behind those results and proves what they promise. `dafny verify dfyconfig.toml` checks all of it.

One module stands for one component:

- `WorkerPool` is the pool that loads and analyses files concurrently and visits them in order, as a
  transition system over the atomic steps of the main goroutine and of one goroutine per file.
- `CostUnits`, `CostBreaks`, `CostFold`, `CostSummary` and `CostIndex` are the cost report: pricing one
  transcript, folding lanes into sessions, reducing rows to figures, and the index and request join in
  front of them.
- `UsagePricing` is the cost of an export that holds token counts only, and `Shares` says which model ran
  how much of a session's money, for it and for `CostFold`.
- `Observing`, `Suggesting` and `AdviceFile` are the advice: what a session contributes, how targets
  are ranked and judged, and the file two authors write.
- `Purge` and `OutcomeRecord` are the two protocols that must survive a stop at any point; `TreeIds` is the
  tree id that the second one relies on.
- `Fence`, `FlagHoist`, `Splice`, `WrapAt`, `TipFrequency` and `TtlPlan` are the smaller algorithms:
  the spend cap, argument hoisting, the generated block, wrapping, the rate of asking, and the choice
  of a cache lifetime.
- `Sorting`, `Strings` and `Wrappers` are shared: stable sorting and when it forgets the order of its input,
  blanks, sibling files and the order of strings.

Dollars and shares are reals, tokens are integers, times are integers with the zero time apart. A price
table, a record parser, an analysis and a hash are parameters: what is proved holds for every one.
Code that changes state is a class or a method, proved equal to a function of its inputs or its old
state; the lemmas then say what that function is worth. Maps that the program ranges over are walked in
an arbitrary order. File operations take an outcome that says whether they succeed and what a failing
one leaves behind, and a ghost history holds every state a stop could leave.

## Where the code differs from what it says

Each of these is a theorem here, at an input or for a family of them, with the exact condition under
which the promise does hold.

- A stray opening marker makes the second rewrite of a generated block eat the hand-written text behind
  it (`Splice.StrayBegin`, `Splice.PutPutExactly`).
- The choice of a cache lifetime can depend on the order of the sessions, through observations that tie
  on lesser and short cost but not on the long one (`TtlPlan.OrderCanDecide`,
  `TtlPlan.OrderMattersExactly`).
- Hoisting lets a last flag without a value take the first path for it, and leaves a terminator behind
  a path among the positional arguments (`FlagHoist.MissingValueTakesPath`, `FlagHoist.TerminatorStays`,
  `FlagHoist.HoistedParseExactly`).
- A mark that lands while `advise` runs is lost (`AdviceFile.MarkDuringRunIsLost`,
  `AdviceFile.InterruptedRunKeepsExactly`), and one that lands between its two reads of the decisions can
  leave a verdict no decision backs (`AdviceFile.MarkBetweenReadsIsUnbacked`,
  `AdviceFile.SplitReadBacksExactly`).
- A run rewrites the advice file in place, so a crash inside the write loses every decision; a mark writes
  through a sibling (`AdviceFile.TornRunForgets`, `AdviceFile.LastMarkSurvivesExactly`).
- The comments on the model column promise the model with the largest share of the money; the code takes
  that of the costliest single request, or lane (`UsagePricing.ModelNeedNotRunTheLargestShare`,
  `CostFold.ModelNeedNotRunTheLargestShare`). Going by what part of the money that one is, the promise is
  kept from a half on and can fail anywhere below (`Shares.HalfIsExact`); on all the costs the condition is
  in `UsagePricing.ModelRunsLargestShareExactly` and `CostFold.ModelRunsLargestShareExactly`. Which lane is meant depends on lane order
  when the costliest ones tie (`CostFold.ModelIgnoresOrderExactly`).
- Setting a session aside drops what it holds but not what is noted afterwards
  (`Observing.TargetsAfterSetAside`, `Observing.EmptyAfterSetAsideExactly`); the suggestions are safe
  because they skip the session by its flag.
- A transcript that grows between being read and being indexed is indexed with what it was before, under
  the size and time it has now (`CostIndex.GrownFileMisleads`, `CostIndex.SettledExactly`).
- Nothing keeps `--export` out of the ledger. Onto one of its files, or the sibling of one, the export or
  other sessions' lines are lost (`Purge.ExportOntoLedgerIsLost`, `Purge.ExportOntoOtherLedger`,
  `Purge.ExportOntoSiblingIsLost`); under a new name in it, such as the documented `out.jsonl`, the erased
  records are still there for the next run to find (`Purge.ExportIntoLedgerIsFoundAgain`,
  `Purge.OutInLedgerIsFoundAgain`). Every other removal is complete (`Purge.RemovalIsCompleteExactly`).
- Without `--yes` the command says that nothing was changed, and it has written the export, onto a ledger
  file if told to (`Purge.DryRunOntoLedger`, `Purge.DryRunChangesExactly`).
- The copy beside a recorded outcome is the tree as git stores it and not to the entry: an empty directory
  or other permissions that come up while it is copied are in it, and the three equal ids do not tell
  (`OutcomeRecord.EmptyDirectoryReachesCopy`, `OutcomeRecord.ChmodReachesCopy`,
  `OutcomeRecord.AgreeExactly`).

## Model

| member | source | states |
|---|---|---|
| `WorkerPool.Workers` | cmd/replay/main.go:452-458 | between one and eight workers, and one for fewer than two files |
| `WorkerPool.Analyse` | cmd/replay/main.go:472-488 | the three results a goroutine can store: an error alone, an error beside a session without requests, or a session with its report |
| `WorkerPool.ReachableInv` | cmd/replay/main.go:490-511 | the invariant of the protocol holds in every state any interleaving of main goroutine and workers reaches |
| `WorkerPool.PoolRefinesSequentialLoop` | cmd/replay/main.go:436-512 | under every interleaving the visits so far are a prefix of those of the plain loop, and a returned call has made the same visits, returned the same error and left the visitor in the same state as the plain loop |
| `WorkerPool.PoolBounds` | cmd/replay/main.go:490-511 | cursor <= next <= min(files, cursor + 2 * workers); the semaphore counts exactly the goroutines inside it, at most `workers`; at most 2 * workers results are live, the one being visited included; no channel is closed twice |
| `WorkerPool.SlotHandedOver` | cmd/replay/main.go:497-507 | whenever the main goroutine takes a slot, it holds that file's complete result and no goroutine can touch it again |
| `WorkerPool.GoroutineMoves` | cmd/replay/main.go:471-488 | a launched goroutine that is not finished can take a step of its own, or waits for a full semaphore one of whose holders can take one of its own |
| `WorkerPool.NeverStuck` | cmd/replay/main.go:471-511 | in every reachable state before the return some step is enabled: no deadlock |
| `WorkerPool.StepLowersMeasure` | cmd/replay/main.go:471-511 | every step lowers a natural-number measure |
| `WorkerPool.RunsAreBounded` | cmd/replay/main.go:471-511 | no interleaving is longer than eight steps per file and one return |
| `WorkerPool.NothingOutlivesTheCall` | cmd/replay/main.go:501-511 | on either return path every launched goroutine has closed its channel once, the semaphore and the result slots are empty, and no step is left |
| `WorkerPool.EveryRunCanReturn` | cmd/replay/main.go:436-512 | every reachable state can be completed to a return |
| `CostUnits.TotalIgnoresOrder` | cmd/replay/cost.go:490-528 | exact totals of rows do not depend on their order |
| `CostFold.AddLane` | cmd/replay/cost.go:282-343 | one lane merged into its session's row keeps the row the fold of the lanes seen so far |
| `CostFold.FoldSessions` | cmd/replay/cost.go:275-351 | the fold of lane rows is, session by session in order of first appearance, the row its lanes determine: sums, AND of unpriced, OR of mixed epochs, earliest time, costliest lane's model, the session's own transcript as path |
| `CostFold.SessionIgnoresLaneOrder` | cmd/replay/cost.go:275-351 | a session's row is the same for any order of all lanes, except for its tie-broken model and its path |
| `CostFold.FoldIgnoresLaneOrder` | cmd/replay/cost.go:275-351 | permuting the lanes permutes the session rows and changes nothing else in them but model and path |
| `CostFold.ModelIgnoresOrderExactly` | cmd/replay/cost.go:334-337 | the model shown is the same for every order of a session's lanes if and only if all its lanes of the highest cost carry one model |
| `CostFold.ModelIsOfCostliestLane` | cmd/replay/cost.go:334-337 | the model of a session's row is that of the first of the lanes that cost most |
| `CostFold.ModelRunsLargestShare` | cmd/replay/cost.go:215-217 | it ran the largest share of the money, which the comment promises, where all lanes ran one model, and where one lane is at least half of the cost |
| `CostFold.ModelNeedNotRunTheLargestShare` | cmd/replay/cost.go:334-337 | three lanes whose row names the model of three of seven dollars while the other model ran four |
| `Shares.HalfIsExact` | cmd/replay/cost.go:215-217 | going by what part of the money the costliest item is, its model is sure to have run the largest share if and only if that part is at least a half |
| `Shares.CostliestAgainstMost` | cmd/replay/cost.go:334-337 | three dollars of one model against two of two of another |
| `CostFold.OwnPathPreferred` | cmd/replay/cost.go:338-343 | the path of a row is the session's own transcript whenever a lane comes from one |
| `CostSummary.PercentileIsNearestRank` | cmd/replay/cost.go:543-573 | at least p of the sample is at or below the percentile and less than p of it is below, for every p and size but the even median |
| `CostSummary.P90NotBelowMedian` | cmd/replay/cost.go:543-573 | the ninetieth percentile is never below the median |
| `CostSummary.Summarise` | cmd/replay/cost.go:480-541 | dollars over the priced rows, requests and tokens over all rows, a withheld session withholding all its re-billed tokens, median and ninetieth percentile of the priced rows |
| `CostSummary.Publish` | cmd/replay/cost.go:1013-1065 | what the command publishes, by session or by lane, with the lanes behind priced rows and the route over every lane |
| `CostSummary.SummaryIgnoresRowOrder` | cmd/replay/cost.go:480-541 | the summary is the same for any order of the rows |
| `CostSummary.PublishedIgnoresLaneOrder` | cmd/replay/cost.go:1013-1065 | everything published is the same whatever order the lanes were read in, in either unit |
| `CostBreaks.AddBreaks` | cmd/replay/cost.go:954-982 | after a lane the deficit, the priced dollars and the unpriced deficit are those of all breaks so far; a break without a request or a price gives its tokens and no dollars |
| `CostBreaks.PriceReading` | cmd/replay/cost.go:890-997 | the unit of a transcript: every lane's breaks, errors and re-reads, each break at the rate of its own request |
| `CostBreaks.BreaksSplit` | cmd/replay/cost.go:954-982 | deficits split exactly into those of breaks a table prices and those of the rest |
| `CostBreaks.FoldConserves` | cmd/replay/cost.go:275-351 | folding conserves every figure: the totals of session rows are those of the lanes |
| `CostBreaks.PricedRowsSum` | cmd/replay/cost.go:490-528 | the dollars of a session report are those of every lane of every session with a priced lane |
| `CostBreaks.ReportTokens` | cmd/replay/cost.go:490-528 | the re-billed tokens outside the dollars are those of withheld rows plus the unpriced part of the kept ones |
| `CostBreaks.RebilledConserved` | cmd/replay/cost.go:935-990 | RebilledTokens minus UnpricedRebilledTokens is exactly the sum of the deficits of the breaks whose dollars are inside RebilledUSD, and 0 <= UnpricedRebilledTokens <= RebilledTokens, through loop, fold and summary and both gates |
| `CostIndex.RequestJoin.Add` | cmd/replay/overlap.go:60-72 | total, duplicated and unjoinable are functions of the multiset of ids offered: duplicated is measured ids minus distinct ones |
| `CostIndex.RequestJoin.AddCached` | cmd/replay/overlap.go:75-82 | replaying an index entry counts as offering its ids and its unjoinable requests would |
| `CostIndex.RequestIDs` | cmd/replay/cost.go:463-478 | the ids and the unjoinable count indexed for a file are those its requests offered to the join |
| `CostIndex.CostCache.Load` | cmd/replay/costcache.go:76-90 | only a file of this build's schema is loaded; anything else leaves the index empty |
| `CostIndex.CostCache.Get` | cmd/replay/costcache.go:107-117 | an entry answers only for a file of the same size and modification time |
| `CostIndex.CostCache.Put` | cmd/replay/costcache.go:119-127 | an entry is stored under the size and time the file has when it is stored, which may not be those it was read under |
| `CostIndex.CostCache.Save` | cmd/replay/costcache.go:130-146 | what is written is the entries without their paths; nothing is written when nothing changed; a write or a rename that fails leaves the file as it was |
| `CostIndex.HitDerives` | cmd/replay/cost.go:864-878 | an entry that answers for a file contributes what reading the file would |
| `CostIndex.PutStaysValid` | cmd/replay/costcache.go:119-127 | indexing what was just read keeps every entry true of its file, if the file still says what was read |
| `CostIndex.SettledExactly` | cmd/replay/costcache.go:119-127 | what was read is true of the file as it is when it is indexed if and only if that file yields the same unit, the same ids and the same number without one |
| `CostIndex.UnmovedIsSettled` | cmd/replay/costcache.go:119-127 | so it is whenever size and time did not move between the reading and the indexing |
| `CostIndex.GrownFileMisleads` | cmd/replay/costcache.go:107-127 | a file that came to yield another unit in between is indexed under its new size and time with the old one, and answered for with it |
| `CostIndex.Walk` | cmd/replay/cost.go:864-1000 | each file as it is when it is looked up, when it is read and when it is indexed: the warm and the cold pass together take what deriving every file anew takes from the files as they were met, and leave a valid index if no file changed between its reading and its indexing |
| `CostIndex.RunCost` | cmd/replay/cost.go:845-1065 | with any trusted index the published report, the unpriced and unreadable counts and the join totals are those of a fully cold run over the files as they were met; the index written is trusted again if no file changed between its reading and its indexing, and it always is by builds of another key |
| `CostIndex.DerivedIgnoresOrder` | cmd/replay/cost.go:864-1000 | what a walk takes does not depend on the order of its files |
| `CostIndex.ReportIgnoresFileOrder` | cmd/replay/cost.go:845-1065 | the cold report does not depend on the order the files were found in |
| `Splice.FindAcross` | cmd/replay/agents.go:138-160 | the first marker in a text joined at a line edge is the first one in either part |
| `Splice.OutsideSurvives` | cmd/replay/agents.go:138-160 | one write keeps the text before and behind the block byte for byte and leaves markers the next write finds |
| `Splice.RewritesKeepOutside` | cmd/replay/agents.go:138-160 | any number of writes of well-formed blocks keeps the text outside, and leaves the last block |
| `Splice.StrayBegin` | cmd/replay/agents.go:138-160 | a stray opening marker makes the second write take everything behind it for the block: hand-written text is lost |
| `Splice.StrayEnd` | cmd/replay/agents.go:138-160 | a stray or earlier closing marker makes every write append another block |
| `Splice.PutPutExactly` | cmd/replay/agents.go:138-160 | writing b1 then b2 is writing b2 if and only if the text has neither marker or its first opening marker precedes its first closing one |
| `Fence.UpperFence` | internal/advisor/guards.go:36-61 | the fence over the finite non-negative samples: refused below the floor, below four samples and without spread |
| `Fence.QuartilesSpread` | internal/advisor/guards.go:64-72 | with n mod 4 in each of its four cases: the quartiles are in order within the sample, and the order statistic that three quarters reach is at most Q3 + 1.5 * IQR |
| `Fence.AtMostAQuarterAbove` | internal/advisor/guards.go:36-61 | at most floor(n / 4) of the usable samples lie strictly above the cap, and Q1 <= median <= Q3 < cap |
| `Fence.AQuarterCanBeAbove` | internal/advisor/guards.go:36-61 | the bound is met at n = 4 |
| `Fence.NoSpreadNoCap` | internal/advisor/guards.go:36-61 | identical samples are offered no cap |
| `Fence.FenceIgnoresOrderAndDebris` | internal/advisor/guards.go:36-61 | the fence depends only on how often each finite non-negative sample occurs: not on order, and not on negative, infinite or undefined ones |
| `FlagHoist.HoistFlagsFor` | cmd/replay/main.go:300-333 | the hoisted command line is the flags with their values, then the paths |
| `FlagHoist.SplitPicks` | cmd/replay/main.go:300-333 | hoisting is a stable partition: marked arguments in order, then the others in order |
| `FlagHoist.HoistingPermutes` | cmd/replay/main.go:300-333 | nothing is lost or made up |
| `FlagHoist.SplitShape` | cmd/replay/main.go:300-333 | in the result every flag that wants a value is directly followed by it, but for a last one that has none |
| `FlagHoist.HoistingIsIdempotent` | cmd/replay/main.go:300-333 | hoisting twice is hoisting once, on every command line |
| `FlagHoist.FlagsAgree` | cmd/replay/main.go:301-309 | hoisting carries an argument along exactly when the parser reads it as a value |
| `FlagHoist.InterspersedIsFlagsThenPaths` | cmd/replay/main.go:287-299 | an interspersed parse makes the assignments the flags alone make, fails as they fail, and yields the paths without the terminator |
| `FlagHoist.HoistedParseExactly` | cmd/replay/main.go:287-333 | the stopping parse of the hoisted line equals the interspersed parse of the original if and only if a flag fails for another reason than a missing value, or a missing value finds no path to take, or all flags parse and no terminator follows a path |
| `FlagHoist.HoistedParse` | cmd/replay/main.go:287-333 | so it does whenever the last flag has its value and no terminator follows a path |
| `FlagHoist.MissingValueTakesPath` | cmd/replay/main.go:287-333 | a path followed by a valued flag without its value: the interspersed parse fails, the stopping parse of the hoisted line takes the path for the value |
| `FlagHoist.TerminatorStays` | cmd/replay/main.go:287-333 | a path followed by the terminator: the terminator is among the paths of the hoisted line and not among those of the original |
| `WrapAt.WrapAt` | cmd/replay/ollamaversion.go:53-70 | the output is the greedy lines joined by newline and indent, with widths in bytes |
| `WrapAt.GreedyIsLegal` | cmd/replay/ollamaversion.go:53-70 | the words are kept in order, and every line fits the width or is one word that cannot |
| `WrapAt.GreedyIsAhead` | cmd/replay/ollamaversion.go:53-70 | greedy breaking uses fewer lines than any other legal breaking, or as many with no more words on the last |
| `WrapAt.WrappingIsOptimal` | cmd/replay/ollamaversion.go:53-70 | no legal breaking of the same words has fewer lines, over-long words or not |
| `WrapAt.SameWordsExactly` | cmd/replay/ollamaversion.go:53-70 | the wrapped text read back has the same words if and only if the indent is blank or there is no second line |
| `TipFrequency.TipFile.TipSeed` | cmd/replay/tipfreq.go:49-68 | the stored seed, or a new one that is stored without touching the ask fields |
| `TipFrequency.TipFile.ShouldAsk` | cmd/replay/tipfreq.go:89-103 | due without a remembered ask, after thirty days, or at three times the last finding; the time between saturates |
| `TipFrequency.TipFile.NoteAsked` | cmd/replay/tipfreq.go:108-115 | an ask is recorded without touching the seed |
| `TipFrequency.TipFile.CostReport` | cmd/replay/cost.go:724-737 | the end of a cost report: the arm, whether the ask shows, and the state left behind |
| `TipFrequency.NextAsk` | cmd/replay/tipfreq.go:89-115 | behind a recorded ask the next one waits out the cooldown or finds three times as much |
| `TipFrequency.AsksInASpanTriple` | cmd/replay/tipfreq.go:89-115 | over any run under a clock that is not set back, the k-th of all recorded asks inside a span shorter than thirty days found at least 5 * 3^(k-1) dollars, whichever writes fail |
| `TipFrequency.AsksInASpanAreFew` | cmd/replay/tipfreq.go:12-28 | so findings below 5 * 3^m dollars make at most m recorded asks in such a span |
| `TipFrequency.ConsecutiveAsksTriple` | cmd/replay/tipfreq.go:89-115 | under any clock at all, the same holds of recorded asks with none outside the span between them |
| `TipFrequency.SetBackClockAsksAgain` | cmd/replay/tipfreq.go:89-115 | but not of all asks of a span once the clock is set back: one behind the cooldown lowers what is remembered, and a third ask finds fifteen dollars |
| `TipFrequency.ForgottenAsksRepeat` | cmd/replay/tipfreq.go:84-103 | if no write ever succeeds, every report over the floor shows the ask |
| `TipFrequency.ArmIsConstant` | cmd/replay/tipfreq.go:46-68 | once a seed is stored every later report uses its arm |
| `TipFrequency.FirstSeedSettlesTheArm` | cmd/replay/tipfreq.go:46-68 | the first report that stores its seed settles the arm for all later ones |
| `TtlPlan.HeaviestDecile` | cmd/replay/apply.go:518-546 | the verdict of the costliest tenth, by the lesser cost and then by the short one, none below ten observations or on a tie |
| `TtlPlan.ChooseTtlWithCoverage` | cmd/replay/apply.go:372-432 | the decision and its six refusals, in the order they are tested, with the counts and the margin each of them reports |
| `TtlPlan.TtlPlanFromInputs` | cmd/replay/apply.go:499-515 | the plan over the lanes priced under both lifetimes, with their share of the trusted spend |
| `TtlPlan.RecommendedExactly` | cmd/replay/apply.go:372-432 | a setting is recommended if and only if it is at least 1% cheaper in total, the costliest tenth does not cost more under it, and at least half of the trusted spend was priced |
| `TtlPlan.CoverageIsAShare` | cmd/replay/apply.go:499-515 | coverage lies between 0 and 1 |
| `TtlPlan.PlanScales` | cmd/replay/apply.go:372-546 | scaling every cost by a positive constant changes nothing in the plan |
| `TtlPlan.PrefixBounds` | cmd/replay/apply.go:518-546 | of all orders by weight, the one with tied observations dearer-under-long first gives the costliest tenth its highest long cost, the opposite one its lowest, and the short cost never moves |
| `TtlPlan.OrderMattersExactly` | cmd/replay/apply.go:499-546 | the plan is the same for every order of the inputs if and only if it is refused before the costliest tenth is looked at, there are fewer than ten observations, or the short cost of that tenth does not fall between its lowest and its highest long cost |
| `TtlPlan.OrderMattersAtExtremes` | cmd/replay/apply.go:499-546 | it is the same for every order if and only if it is the same for the two extreme arrangements of the ties |
| `TtlPlan.OrderMattersOnlyForTies` | cmd/replay/apply.go:499-546 | so it is whenever observations that tie on lesser and short cost agree on the long one |
| `TtlPlan.OrderCanDecide` | cmd/replay/apply.go:518-546 | ten sessions whose order decides between a recommendation and a refusal |
| `UsagePricing.MeasureBreak` | cmd/replay/costusage.go:190-213 | the break of a request behind the one before it: deficit, dollars if it is priced, and its cause or none |
| `UsagePricing.PriceSession` | cmd/replay/costusage.go:148-213 | one session walked in time order, unpriced requests keeping their place |
| `UsagePricing.BySession` | internal/usage/export.go:148-163 | sessions by first appearance, each stably sorted by time |
| `UsagePricing.SequenceEvidence` | internal/usage/export.go:174-192 | a sequence needs every record dated and the export declared complete |
| `UsagePricing.PriceUsage` | cmd/replay/costusage.go:137-258 | rows for the sessions that price something; the report is the totals of exactly those |
| `UsagePricing.SessionsPartition` | internal/usage/export.go:148-163 | every record is in the group of its session as often as it is in the export and in no other group, and each group is in order of time |
| `UsagePricing.EveryRequestCounted` | cmd/replay/costusage.go:165-183 | priced plus unpriced requests are all records of the export |
| `UsagePricing.RowsSumToReport` | cmd/replay/costusage.go:214-257 | with a sequence every row and the summary carry break figures, rows sum to the report's requests, dollars, breaks, tokens and re-billed dollars, and causes plus not-measured are the breaks; without one no row and no summary carries any and no cause is counted |
| `UsagePricing.UnpricedSessionLeavesNoTrace` | cmd/replay/costusage.go:214-219 | leaving out a session that prices nothing changes only the unpriced count |
| `UsagePricing.ExportOrderIsNoMatter` | internal/usage/export.go:139-163 | where times tell a session's requests apart, the order of the export changes no figure and no row |
| `UsagePricing.RowBeginsEarliest` | cmd/replay/costusage.go:184-189 | a row begins with its earliest dated record, and is undated if and only if none is dated |
| `UsagePricing.ModelIsOfCostliestRequest` | cmd/replay/costusage.go:161-183 | the model of a row is that of its costliest single request |
| `UsagePricing.ModelRunsLargestShare` | cmd/replay/costusage.go:161-183 | it ran the largest share of the money, which the comment promises, in a session of one priced model, and where one request is at least half of the cost |
| `UsagePricing.ModelNeedNotRunTheLargestShare` | cmd/replay/costusage.go:161-164 | a session whose row names the model of three of its seven dollars while the other model ran four |
| `Observing.KeyRoundTrip` | internal/advisor/advisor.go:315 | a key gives back the kind and target it was made from |
| `Observing.Observation.Note` | internal/advisor/advisor.go:327-347 | a target over the prompt sets the session aside; a small or empty one is passed over; else it is kept with its share and its cache dollars |
| `Observing.Observation.NoteReads` | internal/advisor/advisor.go:351-365 | reads of one file add up, at any size; over the prompt they set the session aside |
| `Observing.Observation.Observe` | internal/advisor/advisor.go:285-312 | a session's notes, one after another |
| `Observing.SetAsideExactly` | internal/advisor/advisor.go:327-365 | a session is set aside if and only if one note, or the reads of one file together, exceed the provider's prompt; otherwise a file holds the sum of its reads |
| `Observing.EmptyAfterSetAsideExactly` | internal/advisor/advisor.go:244-249 | a session that was set aside holds no target if and only if everything noted or read since was passed over: that it contributes nothing rests on the flag |
| `Observing.TargetsAfterSetAside` | internal/advisor/advisor.go:244-249 | a source over the prompt and then one that is not: the session is set aside and holds the second |
| `Observing.EventOrderIsNoMatter` | internal/advisor/advisor.go:308-311 | whatever order the maps of a session are walked in, the observation is the same |
| `Observing.KeptIsBounded` | internal/advisor/advisor.go:327-365 | every share kept lies between 0 and 1, and its tokens and dollars are not negative |
| `Observing.KeptIsStamped` | internal/advisor/advisor.go:327-365 | everything kept carries the time of its session |
| `Suggesting.MeanSeen` | internal/advisor/advisor.go:678-691 | the mean over the sessions that have a reading, and how many have one |
| `Suggesting.Track` | internal/advisor/advisor.go:614-670 | the verdict on one target from its readings in time order |
| `Suggesting.Suggest` | internal/advisor/advisor.go:520-608 | the ranked suggestions of all evidence, for every order in which its maps are walked |
| `Suggesting.OneResult` | internal/advisor/advisor.go:524-562 | map iteration leaves one possible result |
| `Suggesting.SetAsideContributesNothing` | internal/advisor/advisor.go:525-527 | leaving out the sessions that were set aside changes no suggestion |
| `Suggesting.ReadingOrderIsNoMatter` | internal/advisor/advisor.go:520-523 | the order in which sessions were read does not matter where their times tell those that count apart |
| `Suggesting.SuggestedExactly` | internal/advisor/advisor.go:563-600 | a target is suggested if and only if a session that counts holds it and, for a file, it was read three times |
| `Suggesting.SeenFromFirstToLast` | internal/advisor/advisor.go:571 | every session that counts and holds the target lies between FirstSeen and LastSeen |
| `Suggesting.Ranked` | internal/advisor/advisor.go:601-607 | ranked by predicted dollars, then by predicted tokens |
| `Suggesting.PredictionsAreWithinEvidence` | internal/advisor/advisor.go:571-592 | 0 <= PredictedShare <= Share <= 1, 0 <= PredictedTokens <= PromptTokens, 0 <= PredictedUSD <= WriteReadUSD |
| `Suggesting.ObservedPredictions` | internal/advisor/advisor.go:520-608 | so of every suggestion drawn from sessions that were observed: no assumption on the evidence is left, and each session that counts and holds the target lies between FirstSeen and LastSeen |
| `Suggesting.VerdictExactly` | internal/advisor/advisor.go:614-670 | a suggestion is judged if and only if its kind can be, the reader applied it, it was read both before and in the newest two sessions, and its mean fell to at most 0.8; verified if and only if the fall is moreover half of the prediction; applied and dismissed are never computed |
| `AdviceFile.ApplyDecisions` | internal/advisor/advisor.go:125-142 | in place: the reader's decision shown where the status is pending, nothing else touched |
| `AdviceFile.Store.ReadDecisions` | cmd/replay/triage.go:140-159 | only applied and dismissed, and only from a file of the current schema |
| `AdviceFile.Store.AppliedIDs` | cmd/replay/triage.go:167-175 | the ids whose decision is applied |
| `AdviceFile.Store.MarkAdvice` | cmd/replay/triage.go:23-80 | refused for a computed status, a missing or foreign file and an unknown id; else the status of the first such suggestion and the decision, through a sibling that is renamed |
| `AdviceFile.Store.RefuseNewer` | cmd/replay/advise.go:362-381 | refused for a strictly newer schema only |
| `AdviceFile.Store.RunAdvise` | cmd/replay/advise.go:112-224 | a run: decisions read from home, suggestions judged by them, both written to the chosen file unless that is newer |
| `AdviceFile.GeneratedIsBacked` | internal/advisor/advisor.go:614-670 | no computed status is applied or dismissed, and a verdict is given only for an applied id |
| `AdviceFile.RebuiltExactly` | cmd/replay/advise.go:211-215 | a rebuilt file is consistent with its decisions if and only if every verdict in it has its application among them |
| `AdviceFile.MarkKeepsConsistency` | cmd/replay/triage.go:50-66 | a mark leaves every status backed by a decision |
| `AdviceFile.LastMarkSurvivesExactly` | cmd/replay/triage.go:60-80 | over any history of runs and marks, an id's stored decision is its last accepted mark, or what was stored at the start, if and only if there is none or no run was torn at home since that mark |
| `AdviceFile.LastMarkSurvives` | cmd/replay/triage.go:60-80 | so over any history of runs and marks in which no run is torn, an id's stored decision is the reader's last one, whether or not runs in between found it again |
| `AdviceFile.TornRunForgets` | cmd/replay/advise.go:215-221 | a rewrite cut short leaves no decision at all: a run does not go through a sibling as a mark does |
| `AdviceFile.StatusesStayBacked` | cmd/replay/advise.go:112-224 | over any history, crashes included, from no file, a file of another schema or a consistent one: applied, verified and not verified imply the decision applied, dismissed implies dismissed |
| `AdviceFile.NewerFileIsKept` | cmd/replay/advise.go:362-381 | a newer file is never replaced by any sequence of runs and marks, at any path but a mark's own sibling |
| `AdviceFile.InterruptedRunKeepsExactly` | cmd/replay/triage.go:184-187 | a run that a history of marks and runs overlaps leaves the decision it finds when writing if and only if the last mark of that id accepted meanwhile, if any, says what was said at the start; or, behind a torn run, if nothing had been said |
| `AdviceFile.MarkDuringRunIsLost` | cmd/replay/triage.go:184-187 | a mark that lands while a run is under way is undone by it |
| `AdviceFile.SplitReadBacksExactly` | cmd/replay/triage.go:184-187 | with marks between a run's two reads, the written statuses are backed if and only if every target that the run would judge, and that was applied at the second read, was applied at the first one |
| `AdviceFile.VerdictsAreJudged` | internal/advisor/advisor.go:614-670 | the verdicts of a run lie within a set of ids if and only if the ids of all applied targets that would be judged do |
| `AdviceFile.MarkBetweenReadsIsUnbacked` | cmd/replay/triage.go:184-187 | three sessions in which a target falls from a half to a fifth, a mark between the two reads, and a verdict on disk that no decision backs |
| `Purge.Scan` | cmd/replay/purge.go:248-307 | the session's lines of every readable ledger file, and the rewrites that keep the others |
| `Purge.ScannedAreHitsAndKept` | cmd/replay/purge.go:268-307 | the non-blank lines of a file are those that match and those that are kept |
| `Purge.RewriteFile` | cmd/replay/purge.go:332-346 | one file through its sibling: written, then renamed, or stopped in between |
| `Purge.PurgeSession` | cmd/replay/purge.go:233-361 | on success the files are the rewritten ones and the counts reported are those of the records read, matched and not readable; a dry run writes the export and nothing else; and every state passed through, partial writes included, is one where a file is old, or new with the export complete |
| `Purge.SplitOfText` | cmd/replay/purge.go:268-287 | lines written with their newlines read back as those lines |
| `Purge.NoRecordIsLost` | cmd/replay/purge.go:296-346 | at every step and every failure point, each line that is not the session's is in its file as often as it was, and each record is in its file as often as it was or all of them are in the export |
| `Purge.RemovalIsComplete` | cmd/replay/purge.go:308-356 | after success a ledger file with hits is its other lines in order, any other ledger file is byte-identical, the export holds what was removed, and no record of the session is left in the ledger, provided the export stays out of it and off the siblings of rewritten files |
| `Purge.RemovalIsCompleteExactly` | cmd/replay/purge.go:248-356 | of runs that match something, exactly those: the removal is complete if and only if the export goes to no ledger name below the directory that can be read, existing or new, to no other one but a file that holds just the export, and to no sibling of a rewritten file |
| `Purge.WalkFindsExactly` | cmd/replay/purge.go:248-307 | a walk of a ledger directory, in any order, matches nothing if and only if no file of it that can be read holds a record of the session |
| `Purge.SecondRunFindsNothing` | cmd/replay/purge.go:248-317 | so after a complete removal another run, which walks the directory anew, matches nothing |
| `Purge.OtherNamesAreProper` | cmd/replay/purge.go:319-329 | an export whose name ends in neither .jsonl nor .tmp is always out of the way |
| `Purge.ExportIntoLedgerIsFoundAgain` | cmd/replay/purge.go:248-356 | an export sent to a new ledger name below the directory: nothing is lost, and another run finds exactly what was removed |
| `Purge.OutInLedgerIsFoundAgain` | docs/guide/commands.md:1088 | the documented export name in the ledger directory itself: the one record is erased, written there and found again |
| `Purge.ExportOntoLedgerIsLost` | cmd/replay/purge.go:319-346 | an export sent onto a file it is taken from: none of it is left there |
| `Purge.ExportOntoOtherLedger` | cmd/replay/purge.go:319-346 | an export sent onto any other ledger file, readable or not: every line of other sessions in it is gone |
| `Purge.ExportOntoSiblingIsLost` | cmd/replay/purge.go:319-346 | an export sent onto the sibling of a rewritten file is not there at the end |
| `Purge.DryRunChangesExactly` | cmd/replay/purge.go:319-356 | a dry run changes nothing if and only if there is no export or it was there already, and leaves every ledger file as it was if and only if the export goes to none of them, or to one that holds just the export |
| `Purge.DryRunOntoLedger` | cmd/replay/purge.go:319-356 | a dry run with an export onto a ledger file with another session's line: the line is gone |
| `TreeIds.EncodedTells` | internal/outcome/outcome.go:240-262 | two directories that are encoded alike have the same entries: the bytes of a tree object have one reading |
| `TreeIds.ListingIsUnique` | internal/outcome/outcome.go:247 | there is one order by sort key, so that a sort that is not stable will do |
| `TreeIds.LinesAre` | internal/outcome/outcome.go:182-245 | the object of a directory lists exactly the names at or below which a file or a link is: empty directories have no entry, at any depth |
| `TreeIds.TreeIdTellsExactly` | internal/outcome/outcome.go:164-262 | the recursive id of two trees is the same if and only if they have the same files and links at the same places, with the same bytes and the same leave to execute |
| `TreeIds.SameViewSameId` | internal/outcome/outcome.go:164-262 | whatever the hash, an id does not see the top-level .git, empty directories and other permissions |
| `OutcomeRecord.CheckRecordTree` | cmd/replay/outcome_record.go:313-330 | accepted if and only if there is no nested repository and no unsupported object outside the top-level .git |
| `OutcomeRecord.CopyRecordTree` | cmd/replay/outcome_record.go:334-373 | succeeds if and only if every entry was read and written; leaves no run.json in any state |
| `OutcomeRecord.RunOutcomeRecord` | cmd/replay/outcome_record.go:167-234 | recorded if and only if every check, the three ids and every write agree; every refusal behind the mkdir takes away what of the directory it can; run.json exists in no state but beside the whole provenance and the whole copy with three equal ids |
| `OutcomeRecord.RecordedIsSubstrate` | cmd/replay/outcome_record.go:174-181 | without --allow-modified-tree a recorded copy has the substrate's id |
| `OutcomeRecord.RecordedCopyIsTheTree` | cmd/replay/outcome_record.go:191-199 | where no two objects hashed for the three ids share a digest, the copy stores what the tree first seen and last seen stores, whatever the source did in between |
| `OutcomeRecord.AgreeExactly` | cmd/replay/outcome_record.go:191-199 | three ids agree if and only if the three trees store the same, where no two objects hashed for them share a digest |
| `OutcomeRecord.EmptyDirectoryReachesCopy` | internal/outcome/outcome.go:164-240 | an empty directory that comes up during any recording is in the copy, and the recording completes as before |
| `OutcomeRecord.ChmodReachesCopy` | internal/outcome/outcome.go:164-240 | so do other permissions that leave the owner's right to execute alone |
| `OutcomeRecord.UndisturbedIsRecorded` | cmd/replay/outcome_record.go:155-234 | a tree that holds still, met entry by entry, is recorded, and the copy is the tree without its .git |

## Left out

- Rendering, help text, notes and share cards, and the prose of refusals: no property of this kind lives there.
- The network, the proxy, probes, price updates and the quota and ceiling gates: effects over code outside the modelled files.
- Finding files and agent inventories: directory walks over fixed lists. The pool and the purge take the files a walk yields.
- Floating point: sums, quotients and quantiles are exact reals here, so an order-independence proved here is up to rounding there.
- JSON: files are values or unparseable. A line's session is what a parser parameter says of it.
- Sizes and modification times: an index entry is taken to identify content by them, as the index itself takes it, and its key to name the price function in force.
- Concurrent writers: the purge and each single mark run alone; overlapping runs and marks of the advice file are modelled where that matters.
- Paths: a file has one. Spellings and links by which an export reaches a ledger file under another name are not modelled, and whether a path can be reached and read is taken to be the same in the next run of a purge.
- Digests: where a property needs it, the digests in question, of the keys of one run or of the objects of the trees compared, are assumed to differ where the digested differs; the hash itself is a parameter. An experiment arm is any function of the seed.
- Observing.Observation.Observe: starts from the notes and reads, which the program takes off the labels of a lane and the bytes of its unused tool definitions.
- Suggesting.Suggest: the wording of a suggestion's title and action is not modelled.
- WrapAt.WrapAt: texts are characters, encoded in UTF-8 where the program counts bytes; bytes that encode no character are not modelled.
- FlagHoist.HoistedParseExactly: the flag package is modelled from its documented grammar (one or two dashes, `=` values, the terminator, help); the package itself is not part of this model.
- OutcomeRecord.RunOutcomeRecord: starts behind the checks of flags, reply and paths; what each walk of the source sees is given, and the umask is taken to leave permissions alone. Where executable bits cannot be observed the program refuses, and the model says nothing.
- UsagePricing.PriceUsage: the map of causes is a multiset, whose multiplicities are the counters.
- CostSummary.Publish: the comparison of two periods is left out, and the route line is represented by the set of models it is read from.
