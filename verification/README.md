# SchemaFlux v2: a verified model

This project models the parts of SchemaFlux v2 that hold logic of their own and proves what they promise: the
conversion of errors, the sums of records and of batched runs, a conversation with its grammar, a budget shared by
many callers, speculation beside a decision, the marks of the flow combinators, fallback over routes, chains of
middleware, and the smaller protocols around them. Every file is one module or two that belong together.

| files | what they model |
|---|---|
| `Kinds`, `ChainWalk`, `ErrorGraph`, `Classifier` | the two taxonomies of a failure, the bounded walk over an error graph that may be cyclic, the unbounded searches the call path makes beside it, and the classifier |
| `ErrorConvert`, `ErrorConvertLaws`, `KindLaws`, `FactLaws`, `FiniteChains`, `MoreSteps`, `ConvertEnds`, `ProviderRoundTrip` | what a caller is given for any error, kind by kind and field by field, when it is given it, and the way of a provider's failure to a caller |
| `Records`, `RecordLaws`, `RecordMeaning`, `Recorders` | the sum of many records, in parts and in any order, and the recorder that takes it |
| `Text`, `Transcript`, `ChatTurns`, `ChatLaws`, `ChatOutcomes`, `ChatSession` | the grammar of a conversation, its check, a turn, runs of turns and edits, how a turn ends, and the session on the heap |
| `Budget`, `BudgetLaws` | the ledger of a budget, over every interleaving of its callers, and what each request does to it |
| `Ahead` | steps started beside the decision that picks between them, over every interleaving |
| `MetaSum`, `MetaSumLaws`, `Chunks` | the envelope of a run of many requests, and what becomes of batches |
| `Fallback`, `FallbackDefault` | the relabelling that makes a selector of two kinds follow the caller's list, and the default where there is none |
| `FlowErrors`, `FlowFailures`, `Flows`, `FlowLaws`, `FlowUntil`, `FlowOutcomes` | the mark a step's own error travels under, and programs of combinators nested in any way, as written and as meant, and how each of them ends |
| `Chain`, `ChainErrors`, `Readings`, `HandedErrors`, `EndedWaits` | chains of middleware taken apart; errors at a join, what is told and what is read of any of them, and the error a Retry puts in front of one |
| `ChainLayers`, `LayerLaws`, `ChainFusion`, `ChainDiffers`, `DeepFailures`, `ChainWords` | what layers do with what is under them, and a chain converted once and one converted at every join, layer by layer: where they are alike and where they differ |
| `LogGuard`, `Scheduler`, `Stream`, `Labels` | the log guard's lazy rewrite, the scheduler that may be closed before it is made, the yield protocol of a stream, and the checks of labels, routes and scales |

Errors are values in a heap that only grows, and a reference is an index into it, so that a chain may be cyclic and
"the identical error" means the same index. A search that has no budget in the source has a number of steps here,
and is `Hung` when they do not suffice: a search that never returns is one that is `Hung` for every number. Methods
carry the loops and the fields of the source; each is proved against a function or a predicate, and the laws are
about those. Concurrent code is a state machine over its atomic sections, and the laws are about every trace.

## What the proofs found

- The walk over a chain is bounded and the searches beside it are not. An error that wraps itself is never
  converted, although the comment at v2/errors_convert.go:122-124 says such a chain cannot hang the walk:
  `types.CallOf`, which factsOf asks at v2/errors_convert.go:394, does not return. `ConvertReturnsIff` says for every
  error exactly when its conversion returns, and `SelfWrappingNeverConverts` is the example.
- A provider's failure keeps its kind, id, wait and route on the way to a caller, however long its chain is; its
  status and its code it keeps exactly when they are stated within the walk's 256 errors less the one or two put in
  front of it (`ProviderFailureSurvives`). `StatusIsToldIff` has the chains on either side of the bound, with a wait
  and without.
- A chain that converts once and one that converts at every join answer alike (`FusionIsUnseen`), as far as they are
  modelled, but in four things. A layer's name is lost as the Op (`OpIsLostIff`). A failure that states no route, such
  as a refusal of a layer's, is told with none, and after a join with the provider's name and the request's model
  (`RouteIsFilledInIff`). The layers read another kind of some failures after a join: an open
  circuit is repeated and answered (`OpenCircuitIsRepeatedAfterAJoin`), and a layer that was set up wrong beneath a
  Fallback is refused, where without the join the next route answers for it (`MisconfiguredIsAnsweredForIff`);
  `DecidedAlikeIffSurvives` says of every failure whether it is one of those, and `DecidedAlikeIffUnseen`,
  `RetryIsAlikeIff` and `FallbackIsAlikeIff` that the chains do differ by it. And a Retry whose wait is ended puts three errors in front of the failure, past which a status
  stated deep in its chain is lost without a join and kept with one (`EndedAlikeIff`, `DeepStatusIsLost`).
- Retries and cache hits are counted once for each item of a batched chunk: itemMetaFromChunk
  (v2/internal/ops/plan_many.go:417-432) sets the other figures of the later items to nothing and leaves these two,
  while sumMetas promises what was spent. `ConservedIff` says exactly which runs are recorded as what was spent, and
  `RetriesAreCountedAgain` and `RequestsAreLost` are examples.
- `isDefect` (v2/flow/errors.go:133-136) reads the first `*Error` of a chain. A defect beneath another `*Error` is
  not seen, and is tried again as what that one says: `DefectBeneathIsNotSeen`, and `StopsIff` for the exact reading
  of any error.
- The default of Fallback is as it is documented for every failure of a program's own provider that no internal
  error decided (`RelayedIsAsDocumented`), and `DefaultIsAsDocumentedIff` says of every failure whether it is. One that
  Fallback is given is not: a layer beneath it that was set up wrong fails with a bare `*Error` of ErrConfiguration
  (v2/mw/mw.go:362-377), which is documented to stop the request and is gone on from, since the selector reads internal
  kinds and finds none (`MisconfiguredIsGoneOnFrom`). An exhausted repair is not either (`ExhaustedIsNotGoneOnFrom`),
  but is made above the seam, at v2/internal/ops/op.go:335-337 and v2/internal/ops/combinators.go:186-191.
- A budget with no limit still asks the caller's Cost for an estimate, which the comment at v2/mw/budget.go:80-83
  says it does not; the estimate decides nothing then: `AsksAsDocumentedIff`.
- `bind.Optional` says it looks through at most 64 wrappers and finds what is beneath 63: `BaseIsFoundIff`.
- The Elapsed of a sum taken in parts may be too large when a record has no start: `ElapsedIsExactIff` and
  `ElapsedOverestimates`. The zero Record is no identity of the sum: `ZeroRecordIsNoIdentity`.

## Model

| member | source | states |
|---|---|---|
| Kinds.KindFromInternal | v2/errors_convert.go:30-73 | the table from an internal kind and its mark to a kind: nothing but an unknown kind with no mark has none; which kind each has is in KindLaws.ErrorIsTold |
| Kinds.KindToInternal | v2/errors_convert.go:80-120 | the table the other way, which the first brings back for every kind; which kind and mark each has is in KindLaws.FailureTravelsAs |
| ChainWalk.Walker.Node | v2/errors_convert.go:134-153 | one visit with the shared budget: what was seen before, then this part of the walk, and what is left of the budget |
| ChainWalk.Walker.Wrapped | v2/errors_convert.go:142-153 | the same for the errors one error wraps, in order, and none after a visit that stops |
| ChainWalk.WalkChain | v2/errors_convert.go:122-132 | the errors visited are the pre-order sequence cut at the first that stops the visit, or at 256, on every graph |
| ChainWalk.WalkIsPreOrder | v2/errors_convert.go:134-153 | the recursion with its shared budget is the walk with an explicit stack |
| ChainWalk.SmallerBudgetSeesPrefix | v2/errors_convert.go:122-132 | a walk with a smaller budget sees a prefix of what one with a larger budget sees |
| ChainWalk.VisitAllIsCut | v2/errors_convert.go:134-153 | whether a walk went on, what it saw and what it left, for any errors a visit stops at |
| ChainWalk.SeekIsFirstGoal | v2/internal/types/errorkind.go:469-489 | a search finds the first goal of the pre-order sequence, and is over without one exactly when the chain is |
| ChainWalk.SeekReturnsIff | v2/internal/types/errorkind.go:469-489 | a search returns exactly when the chain is finite or holds a goal where it looks |
| ErrorGraph.GatherFacts | v2/errors_convert.go:345-392 | each fact is the first the walked errors state |
| ErrorGraph.FactsOverConcat | v2/errors_convert.go:345-392 | what two stretches of a walk state, the earlier first |
| KindLaws.ErrorIsTold | v2/errors_convert.go:30-73 | what a caller is told of an OperationError, of a carrier, of a review and of a kind's sentinel, kind by kind: a guard's sentinel anywhere in the chain is a defect, else the mark decides, else each kind that can be told stands for one, two or six kinds of the call path |
| KindLaws.OneStandsFor | v2/errors_convert.go:37-73 | no two kinds that can be told stand for the same kind of the call path |
| KindLaws.SentinelIsTold | v2/errors_convert.go:247-298 | of a chain nothing classified, the first of the thirteen sentinels that is in it decides, and which kind each of them is told as |
| KindLaws.TransportIsTold | v2/internal/llm/classify.go:21-121 | of a chain nothing classified that holds no sentinel: a cancelled context, a deadline, a rate limit's or an HTTP status, a network failure or a phrase, each told as its kind, and a defect where there is none |
| KindLaws.MarkIsRead | v2/internal/types/errorkind.go:491-533 | the mark that is read of a chain: its first OperationError's, or that of a carrier with one before it |
| KindLaws.FailureTravelsAs | v2/errors_convert.go:75-120 | the kind of the call path, and the mark, that each of the eighteen kinds travels under when a provider's failure is relayed, and which of them an `*Error`, a bare Kind or a failure of the transport has |
| FactLaws.ErrorIsPlaced | v2/errors_convert.go:343-406 | each field a caller is told is that of the first of 256 errors that gives it, by which kind of error gives which field, else that of the first route that was noted; the message is the first that is given, or the text of the carrier that decided, in the words of version 2 |
| FactLaws.ErrorIsCompleted | v2/errors_convert.go:502-527 | an `*Error` keeps what it says and is told with what its cause gives for the rest, as itself exactly when that is nothing |
| FactLaws.RelayIsPlaced | v2/provider_adapter.go:342-388 | the route, the id and the wait that a relay carries, and what it is around: the failure, and a rate-limit error with the wait when no error of the chain is one |
| ErrorConvertLaws.ConvertIdempotent | v2/errors_convert.go:455-527 | converting again what a conversion under an operation made returns the identical error, on every graph |
| ErrorConvertLaws.ConvertWraps | v2/errors_convert.go:476-527 | a conversion returns the error itself or one new `*Error` around it, and overwrites nothing |
| ErrorConvertLaws.ConvertKeepsFields | v2/errors_convert.go:506-527 | no field an `*Error` filled in is changed |
| ErrorConvertLaws.FirstVerdictIsFirst | v2/errors_convert.go:180-212 | the verdict on a sequence is that of its first error that decides one |
| ErrorConvertLaws.ClassifiedByIsFirst | v2/errors_convert.go:180-212 | the verdict on a chain is that of the first classified error within 256 |
| ConvertEnds.OtherDecidesNothing | v2/errors_convert.go:229-245 | of an error of none of the library's types, whatever it wraps, the visit decides nothing: a kind it carries is that of something beneath it |
| ConvertEnds.VerdictIs | v2/errors_convert.go:180-212 | the visits of a walk end up to the first error that decides, and the verdict is that error's |
| ConvertEnds.ConvertReturnsIff | v2/errors_convert.go:476-527 | exactly when the conversion of any error of any heap returns, as which of its unbounded searches end |
| ConvertEnds.SelfWrappingNeverConverts | v2/errors_convert.go:122-153 | an `*Error`, or any other error, that wraps itself: its walk ends at 256 errors and its conversion never does |
| FiniteChains.FiniteConverts | v2/errors_convert.go:476-500 | a chain that ends is always converted, however long it is |
| FiniteChains.FiniteFails | v2/provider_adapter.go:342-388 | and always relayed |
| ProviderRoundTrip.RelayedRoundTrip | v2/provider_adapter.go:342-388 | a failure the library or nothing decided is relayed, and the relay converts to its kind, id, wait and route, with the status and the code the walk of the relay comes to |
| ProviderRoundTrip.PassedThroughRoundTrip | v2/provider_adapter.go:342-352 | a failure an internal error decided is returned as it is and keeps its kind and facts |
| ProviderRoundTrip.ProviderFailureSurvives | v2/provider_adapter.go:330-388 | any failure without a trust-guard sentinel, of any length, reaches the caller with its kind, request id and wait, on the route its chain states; and its status and its code do exactly when it is passed on as it is or they are stated within 256 errors less the one or two put in front |
| ProviderRoundTrip.StatusIsToldIff | v2/provider_adapter.go:342-388 | of a chain of n + 1 errors the last of which states the status, the caller is told it exactly when n is below 255, or below 254 when a wait is stated |
| ProviderRoundTrip.EndlessNeverReaches | v2/errors_convert.go:270-298 | the relay of a chain that never ends and holds no guard sentinel is never converted |
| Records.SumInt | v2/internal/types/limits.go:53-79 | the sum of two machine integers, held at the largest and the smallest |
| Records.SumIntOfCounts | v2/internal/types/limits.go:53-79 | of counts the sum with its wrap-around test is the sum held at the largest int |
| Records.NegativeCountsDependOnOrder | v2/internal/types/limits.go:53-79 | sums of negative counts depend on the order, which is why the laws are of counts |
| Records.MergeAssociates | v2/record_convert.go:256-328 | what records come to does not depend on how they are grouped |
| Records.SummarizeConcat | v2/record_convert.go:256-328 | what two lists come to is what the two come to together |
| Records.NamesAgree | v2/record_convert.go:347-357 | a field of a sum is what every record says of it, or nothing |
| RecordLaws.TotalOfPermutation | v2/record_convert.go:256-345 | every field of a sum but Err is the same in any order |
| RecordLaws.TotalOfTotals | v2/record_convert.go:256-345 | a sum of sums is the sum of all in every field but Elapsed, never smaller in that, and equal in all when every record has a start |
| RecordLaws.ElapsedIsExactIff | v2/record_convert.go:327-328 | exactly when Elapsed is the same for a sum taken in any number of parts: no part seems to reach further than the joined span is long |
| RecordLaws.ElapsedOverestimates | v2/record_convert.go:327-328 | records for which it is too large |
| RecordLaws.ZeroRecordIsNoIdentity | v2/record_convert.go:256-345 | a field every record agrees on is lost beside the zero Record |
| RecordLaws.AgreedOn | v2/record_convert.go:347-357 | the loop of agreed gives what all records agree on |
| RecordLaws.AgreedNames | v2/record_convert.go:330-343 | the same for every field a sum carries in this way |
| RecordLaws.Stretch | v2/record_convert.go:274-283 | the earliest start, the latest finish and the longest record with no start |
| RecordLaws.Poll | v2/record_convert.go:305-315 | a flag every record with a vote has to say |
| RecordLaws.SumRecords | v2/record_convert.go:255-345 | the loop gives the sum that the laws are about |
| RecordMeaning.CountsAreHeldSums | v2/recorder.go:171-175 | every count, token figure and duration is the sum, held at the largest int |
| RecordMeaning.CostsAreSums | v2/recorder.go:171-175 | every part of the cost is the sum |
| RecordMeaning.PricedAndReusedIff | v2/recorder.go:179-183 | priced, and reused, exactly when some record votes and every one that does says so |
| RecordMeaning.TotalSpans | v2/recorder.go:175-177 | no record starts before Start or finishes after Start plus Elapsed |
| RecordMeaning.TotalIsTight | v2/recorder.go:175-177 | Start and Elapsed are those of records, and not more |
| RecordMeaning.AnyIsEnough | v2/recorder.go:178 | Hedged and Estimated are true if true of any |
| RecordMeaning.TypedNeedsAll | v2/recorder.go:187 | Typed is true if true of all |
| RecordMeaning.WeakestAre | v2/recorder.go:183-184 | Requested and Delivered are the weakest, and reached |
| RecordMeaning.ErrIsFirst | v2/recorder.go:177-178 | Err is the first error |
| RecordMeaning.NoErrorIsNone | v2/recorder.go:177-178 | and none when there is none |
| Recorders.Recorder.constructor | v2/recorder.go:27-65 | a recorder that has not been used has no settings and no records |
| Recorders.Recorder.Read | v2/recorder.go:79-93 | the settings are what the fields were at the first use: a body is kept when asked for under a size that is not negative, and the size zero is 4096 |
| Recorders.Recorder.Add | v2/recorder.go:124-140 | a record is handed to Handle or kept last; with a Handle nothing is ever kept |
| Recorders.Recorder.Total | v2/recorder.go:190-197 | the sum of the records kept |
| Recorders.Recorder.Reset | v2/recorder.go:199-207 | no record is kept |
| Recorders.TotalOfOneMore | v2/recorder.go:171-197 | the total so far stands for the records it is of, when one more comes |
| Text.TrimIsEmptyIff | v2/internal/ops/session.go:98 | text trims to nothing exactly when there is nothing in it |
| Transcript.CheckCalls | v2/internal/ops/session.go:120-134 | the calls of a message have ids of their own, names, and objects for arguments |
| Transcript.CheckUser | v2/internal/ops/session.go:94-105 | a user message may stand where it stands |
| Transcript.CheckAssistant | v2/internal/ops/session.go:107-134 | an assistant message may |
| Transcript.CheckTool | v2/internal/ops/session.go:136-153 | a tool message answers one waiting call of the assistant message before it |
| Transcript.CheckMessage | v2/internal/ops/session.go:92-158 | one message against the grammar, and what the check knows after it |
| Transcript.CheckTranscript | v2/internal/ops/session.go:67-161 | nothing is wrong exactly when the whole history satisfies the grammar; otherwise the first message that does not |
| Transcript.WaitingIff | v2/internal/ops/session.go:84-90 | the check's count is above zero exactly when some call of some message is unanswered |
| ChatTurns.CheckSettings | v2/internal/ops/session.go:201-244 | the settings a turn can be called with, tools with distinct names that say something among them |
| ChatTurns.CheckReply | v2/internal/ops/session.go:294-374 | a reply is kept exactly when it says something, or every call of it is declared, new and an object |
| ChatTurns.MakeAnswers | v2/chat/session.go:129-160 | the answers in the order of the calls, or how many calls and results do not match |
| ChatTurns.CountUnknown | v2/chat/session.go:148-153 | the results that answer no call, in whatever order a map gives them |
| ChatLaws.RunTurn | v2/chat/session.go:167-218 | the steps of a turn, in order, are the turn that the laws are about |
| ChatLaws.TurnLeaves | v2/chat/session.go:93-160 | a turn that replies leaves the history there was, then the caller's text word for word, or each result under its call's id in the order of the calls, then what the model answered, and returns that |
| ChatOutcomes.RepliesIff | v2/internal/ops/session.go:294-374 | a Send whose request was answered replies exactly when the answer says something, or every call of it is of a declared tool, with an object and a new id of its own |
| ChatOutcomes.MismatchIff | v2/chat/session.go:136-160 | when a SendResults is refused for its results, and that it says how many calls have none and how many answer no call |
| ChatLaws.FirstBadIs | v2/internal/ops/session.go:67-82 | the position a refusal names is the first bad one |
| ChatLaws.AnswersSit | v2/chat/session.go:118-147 | answers in call order fit the grammar one by one, and answer just the calls so far |
| ChatLaws.ReplySits | v2/internal/ops/session.go:294-374 | a reply that is kept fits the grammar |
| ChatLaws.TurnKeepsGrammar | v2/chat/session.go:79-160 | a turn that succeeds leaves a history within the grammar that ends in the reply and begins with what it was; one that fails changes nothing |
| ChatLaws.SendGetsThroughIff | v2/chat/session.go:98-116 | exactly when Send gets its request through |
| ChatLaws.ResultsGetThroughIff | v2/chat/session.go:118-160 | SendResults does exactly when the ids of the results are the ids that wait |
| ChatLaws.WaitingRefusesText | v2/chat/session.go:103-105 | no text gets through while calls wait |
| ChatLaws.AnsweredExactlyOnce | v2/chat/session.go:79-87 | every call before the last reply is answered by one message only |
| ChatLaws.EveryRunKeeps | v2/chat/session.go:79-91 | over every run from nothing: the grammar, a reply at the end, and answers in call order right after each message |
| ChatLaws.EditsAreChecked | v2/chat/session.go:79-91 | over every run with edits, a turn that succeeds leaves the whole history within the grammar |
| ChatOutcomes.SendEnds | v2/internal/ops/session.go:251-292 | how every Send ends, and which of several faults is told: the text, the settings, the first bad message, the request, the answer |
| ChatOutcomes.ResultsEnd | v2/chat/session.go:129-160 | and every SendResults: no calls that wait, results that do not match, and then the rest |
| ChatOutcomes.GrammarSays | v2/internal/ops/session.go:66-81 | what is so of every message of a conversation within the grammar |
| ChatSession.CopyOf | v2/chat/session.go:234-247 | a message that says the same and shares neither its list of calls nor the bytes of any |
| ChatSession.Keep | v2/chat/session.go:211-218 | the history in a new array that begins with the elements of the old, and a reply that shares no list and no bytes with any message of it |
| ChatSession.Session.constructor | v2/chat/session.go:24-38 | a session starts with no history and no turn running |
| ChatSession.Session.Turn | v2/chat/session.go:162-218 | a turn on the heap writes no array there was before, replaces the history or leaves it, and is refused while another runs |
| ChatSession.HistorySays | v2/chat/session.go:205-218 | what each message of the session says after a turn that replied |
| ChatSession.OneTurnAtATime | v2/chat/session.go:173-218 | over every interleaving one turn is inside, its three reads of the history give the same, and the history is that of the turns let in, one after another |
| ChatSession.RefusedHasNoEffect | v2/chat/session.go:173-180 | a turn that finds another inside changes nothing |
| BudgetLaws.SentIff | v2/internal/runtime/mw/budget.go:207-238 | exactly when a request is sent, with what reserved, and why it is refused when it is not, for every limit and price |
| BudgetLaws.EndCosts | v2/internal/runtime/mw/budget.go:240-276 | what the end of a request leaves in the ledger and adds to the spend: nothing for a failure or a panic, the price of an answer that can be measured, and its reservation, or nothing, for any other |
| BudgetLaws.FailuresLeaveNothing | v2/mw/budget.go:60-65 | over every interleaving, requests that all fail spend nothing, and once they are over every later request is sent or refused as by an empty ledger |
| Budget.EstimatedTokens | v2/internal/runtime/mw/budget.go:312-317 | four bytes to a token, rounded up, and the ceiling or 500 |
| Budget.Estimate | v2/internal/runtime/mw/budget.go:301-323 | an estimate is a price exactly when the cost function gave a usable amount |
| Budget.Ledger.constructor | v2/internal/runtime/mw/budget.go:123-127 | the ledger of a chain starts with nothing |
| Budget.Ledger.Admit | v2/internal/runtime/mw/budget.go:207-238 | the check and the reservation, no admission past the limit, and whether the caller's cost function was asked |
| Budget.AsksAsDocumentedIff | v2/internal/runtime/mw/budget.go:207-217 | the cost function is asked as it is documented to be exactly when the limit is not zero; with no limit it is asked too and decides nothing |
| Budget.Ledger.Finish | v2/internal/runtime/mw/budget.go:240-276 | a failure or a panic gives its reservation back; an answer that can be measured costs its price; and any other its reservation, or nothing |
| Budget.Ledger.Settle | v2/internal/runtime/mw/budget.go:400-413 | settle, with its clamp |
| Budget.EndIsExact | v2/internal/runtime/mw/budget.go:403-413 | the clamp never acts |
| Budget.EveryTraceKeeps | v2/mw/budget.go:66-69 | over every interleaving the ledger is the cost of what is over and the reservations of what is in flight |
| Budget.SpendBound | v2/mw/budget.go:66-73 | the spend passes the limit by at most what requests in flight at the latest admission cost beyond their estimates |
| Budget.FairNeverPasses | v2/mw/budget.go:73-74 | exact or high estimates never take the spend past the limit |
| Budget.BoundIsReached | v2/mw/budget.go:69-73 | of a crowd as many are admitted as the limit holds, and the spend is what they all cost |
| Budget.MergeOptions | v2/mw/budget.go:124-144 | the last cost function, and only the first value loosens |
| Ahead.TheDecidedBranchReturns | v2/flow/ahead.go:80-149 | over every interleaving under a live context BranchAhead and BranchBoth return yes exactly when the decision says so, and no when it does not, or the decision's own failure |
| Ahead.TheDecidedRouteReturns | v2/flow/ahead.go:151-227 | and RouteAhead the route that was decided, whichever was thought likely |
| Ahead.SpeculationIsTransparent | v2/flow/ahead.go:29-49 | over every interleaving under a live context the result is that of deciding and then running the step that was picked |
| Ahead.NothingOfTheLoser | v2/flow/ahead.go:107-131 | nothing of a step that was not picked is returned, whatever becomes of the context |
| Ahead.NoRunOutlivesTheCall | v2/flow/ahead.go:66-73 | when the call is over every step that was started has returned, and a step not started early ran only if it was picked |
| Ahead.OnlyExitsLeave | v2/flow/ahead.go:68-73 | no result is missing unless the decision, or a step on the caller's goroutine, ended that goroutine |
| Ahead.OverBeforeTheDecision | v2/internal/ops/flow.go:468-487 | a context over before the decision returned is the error of the call |
| Ahead.AlwaysGoesOn | v2/internal/ops/flow.go:452-466 | a call that is not over is never stuck |
| Ahead.EveryCallEnds | v2/internal/ops/flow.go:555-709 | and is over after a bounded number of events |
| Ahead.AheadAndBothAgree | v2/flow/ahead.go:80-149 | BranchAhead and BranchBoth return the same for the same steps |
| MetaSum.WeakestLevels | v2/op/call.go:341-353 | the weakest level requested and the weakest delivered |
| MetaSum.AgreedOn | v2/op/call.go:389-399 | what all requests agree on |
| MetaSum.AddAll | v2/op/call.go:242-272 | the first loop |
| MetaSum.AddBills | v2/op/call.go:289-314 | the second loop |
| MetaSum.TierAndDrift | v2/op/call.go:322-336 | the tier all agree on, and any drift |
| MetaSum.SumMetas | v2/op/call.go:227-339 | the envelope of a run, field by field |
| MetaSumLaws.RestIsAgreed | v2/op/call.go:321-337 | provider, model, requested model, schema and tier are each what every request that was made says of it, or nothing; and any drift is the run's |
| MetaSumLaws.MadeAreSent | v2/op/call.go:262-263 | the requests that were made are the items with an attempt |
| MetaSumLaws.RefusedIsSum | v2/op/call.go:262-279 | the failed checks of a run are those of the requests that were made |
| MetaSumLaws.ServiceTierIsLast | v2/op/call.go:253-255 | the service tier is the last that any item names |
| MetaSumLaws.CurrencyIsFirst | v2/op/call.go:301-318 | the currency is the first that a priced request names, with where its prices are from, which only a run that is priced says |
| MetaSumLaws.FiguresAreSums | v2/op/call.go:232 | attempts, repairs, retries, hits, five token counts and every phase are sums |
| MetaSumLaws.ReusedIff | v2/internal/types/timing.go:66-81 | reused exactly when some call was timed and all that were say so |
| MetaSumLaws.HedgedIff | v2/op/call.go:242-272 | hedged exactly when some item was |
| MetaSumLaws.PricedIff | v2/op/call.go:232-234 | priced exactly when some request that was made was priced and every other used nothing |
| MetaSumLaws.QualityIsWorst | v2/op/call.go:355-387 | the quality is the worst of the voters' |
| MetaSumLaws.SpendIsWhatWasPaid | v2/op/call.go:232-234 | every part of the spend is what the priced requests say of it |
| MetaSumLaws.LevelsAreWeakest | v2/op/call.go:341-353 | no item has a weaker level than the run, and some item has each |
| MetaSumLaws.AnyOrder | v2/op/call.go:227-339 | figures, spend, quality and priced do not depend on the order |
| Chunks.ChunksAreConserved | v2/internal/ops/plan_many.go:412-432 | a batched run sums to one request for each chunk in every field but retries and hits, and how much those are more |
| Chunks.ConservedIff | v2/op/call.go:227-232 | exactly which batched runs are recorded as what was spent |
| Chunks.RetriesAreCountedAgain | v2/internal/ops/plan_many.go:417-432 | one request of two items, retried once, is recorded as retried twice |
| Chunks.RequestsAreLost | v2/record_convert.go:226-232 | two requests, one answered by a cache, are recorded as none sent |
| Fallback.SelectorFollowsTheList | v2/mw/fallback.go:159-191 | for any nesting, with lists or without, the gates and the peeling do what the list says |
| Fallback.NoLabelEscapes | v2/mw/fallback.go:220-263 | no label is visible outside |
| Fallback.TrailIsInOrder | v2/mw/fallback.go:104-107 | routes are tried in order, each once |
| Fallback.EveryTryIsDue | v2/internal/runtime/mw/fallback.go:226-305 | every alternate that is tried was sent the caller's request under its own model, or the caller's where it has none, and answered that; the policy allows the model it sends; it enforces a schema the primary enforces, or may do without; and the failure before it is of a kind that goes on |
| Fallback.LastTriedComesOut | v2/mw/fallback.go:110-114 | an answer that comes out is that of the route tried last, an alternate filled in with its own provider and model where the answer names none; a failure is that of the route tried last, or the context's error |
| Fallback.PrimaryIsFirst | v2/internal/runtime/mw/fallback.go:226-231 | the primary is asked first, for the request itself, and its answer comes out as it is |
| Fallback.NoneIsPassedOver | v2/internal/runtime/mw/fallback.go:226-284 | no route that may be asked is left when a failure that goes on comes out |
| FallbackDefault.RelayedIsAsDocumented | v2/mw/fallback.go:60-81 | from any failure of a program's provider that no internal error decided, the default goes on exactly when the kind its caller would be told is documented to |
| FallbackDefault.DefaultIsAsDocumentedIff | v2/internal/runtime/mw/fallback.go:307-338 | of every failure a selector may be given, exactly which are treated as documented, by what decided the kind that is told and what is read of the chain |
| FallbackDefault.LibraryIsAsDocumentedIff | v2/internal/runtime/mw/fallback.go:318-338 | an `*Error` or a bare Kind around nothing that says more is treated as documented exactly when its text holds a phrase that stops and its kind is one that stops, or neither |
| FallbackDefault.MisconfiguredIsGoneOnFrom | v2/mw/mw.go:362-377 | the error of a layer that was set up wrong is told as a configuration error, documented to stop, and is treated so exactly when its text holds a phrase of the library's that stops |
| FallbackDefault.ExhaustedIsNotGoneOnFrom | v2/internal/runtime/mw/fallback.go:318-338 | an exhausted repair is told as an invalid answer, documented to go on, and is not gone on from |
| FallbackDefault.ListsAreComplete | v2/mw/fallback.go:60-81 | every kind is in exactly one of the two lists of the documentation |
| FallbackDefault.KindIsAsDocumented | v2/mw/fallback.go:60-81 | every kind as the library marks it is treated as documented |
| Fallback.MergeOptions | v2/mw/fallback.go:193-218 | kinds are joined, each once; only the first value loosens |
| Classifier.OldClassify | v2/internal/llm/classify.go:21-67 | what the classifier says of a chain does not depend on errors made after it |
| FlowErrors.KindIsReadThroughTheMark | v2/flow/errors.go:25-71 | what the classifier reads through a mark is what is filed beside the error, or what it reads of the error itself |
| FlowErrors.DefectStops | v2/flow/errors.go:34-40 | a defect is read as terminal and not reviewable, though the kind it is filed under is neither |
| FlowErrors.StopsIff | v2/internal/ops/combinators.go:202-211 | exactly which caller's errors stop a combinator: defects, terminal kinds, `*Error`s of such a kind, and of what has neither what the classifier knows |
| FlowErrors.UnreadStopsIff | v2/internal/llm/classify.go:31-66 | of an error with no kind: a cancelled context, the status of a rate limit or an HTTP error, or one of the library's phrases, in that order |
| FlowErrors.ContextAndStatusAreRead | v2/internal/llm/classify.go:31-95 | a cancelled context and a 401 stop with no kind and no `*Error` in sight; a deadline and a 503 do not |
| FlowErrors.DefectBeneathIsNotSeen | v2/flow/errors.go:131-136 | a defect beneath a timeout is tried again |
| FlowUntil.Until | v2/internal/ops/combinators.go:147-192 | the loop, with its marks, is the program the laws are about |
| FlowUntil.AttemptsDecide | v2/internal/ops/combinators.go:135-192 | attempts go on exactly while each is missed, the context is live and some are left, and how Until ends is decided by the last |
| FlowFailures.OwnReads | v2/flow/errors.go:59-71 | what another combinator reads of a failure of a combinator's own |
| FlowLaws.FlowIsMeant | v2/flow/escalate.go:77-199 | any program of Until, Escalate, Approve and Gather, nested in any way, comes to what it does with no marks and no words |
| FlowLaws.CallersErrorComesOut | v2/flow/errors.go:73-95 | of any such program: the error that comes out is the identical one of the step or gate that decided, or a new `*Error` for a failure of a combinator's own, under its name |
| FlowLaws.ComesFromAStep | v2/flow/errors.go:11-22 | and an error that was there before was returned by a step or a gate |
| FlowLaws.ApproveAsksIff | v2/internal/ops/review.go:74-142 | exactly when Approve ends in a review: the gate declines, the step asked for one, or its failure is read as one of four kinds; any other error of the step's or the gate's comes out as it is |
| FlowOutcomes.CallersIsRead | v2/flow/errors.go:25-71 | what a combinator reads of a step's own error: a defect as a misconfiguration, else the kind the call path has for it, else what the kind of its first `*Error` travels as, else what the transport says |
| FlowOutcomes.NothingRuns | v2/flow/escalate.go:128-189 | under a context that is over, or with a number of attempts that is not from 1 to 1000, no step runs, and with which kind, under which name, it ends |
| FlowOutcomes.EscalateEnds | v2/internal/types/errorkind.go:324-335 | which value, failure or step an Escalate comes to: eleven kinds of failure end it as they are, and any other brings the stronger step in |
| FlowOutcomes.GatherEnds | v2/flow.go:166-212 | a Gather comes to the results of all its steps in order, or to the failure of the first to fail, or to a defect for one that panicked |
| FlowOutcomes.ExhaustedIsReviewed | v2/internal/ops/review.go:128-142 | Approve around an Until whose attempts ran out asks for a review, under its own name |
| FlowOutcomes.TurnedDownIsReviewed | v2/internal/ops/combinators.go:135-192 | from the steps up: answers that are all turned down, over any number of attempts, are an ErrInvalidAnswer, and a review under Approve |
| FlowLaws.TwoMarksGiveTheFirst | v2/flow/escalate.go:89-126 | of the words around both marks of an Escalate the first step's error would be found, which is why the stronger's is kept |
| FlowLaws.NoMarkEscapes | v2/flow/errors.go:23-25 | no mark of either package is in the chain of what comes out, however far it is searched |
| Chain.UsageComesBack | v2/provider_convert.go:139-179 | a count through a join and back is what it was, with a total that was not given filled in, once, as the sum held at the machine's ends |
| Chain.Chain | v2/mw/mw.go:33-42 | the loop makes the chain the laws are about |
| Chain.ChainOfConcat | v2/mw/mw.go:26-42 | a chain of two lists is a chain around a chain |
| Chain.NilIsNeutral | v2/mw/mw.go:28-29 | a nil middleware is neutral |
| Chain.UnwrapsToTheBase | v2/mw/mw.go:261-265 | Unwrap walks back to the base |
| Chain.ChainsAreNamed | v2/mw/mw.go:181-195 | a layer names the package's layers next to each other from it down |
| Chain.Optional | v2/internal/bind/hooks.go:299-312 | the first of 64 that is what is looked for |
| Chain.BaseIsFoundIff | v2/internal/bind/hooks.go:280-312 | what only the base can do is found exactly through fewer than 64 layers |
| Chain.RetriesComeBack | v2/mw/mw.go:267-282 | the two conventions of a retry count say the same through any number of joins |
| ChainErrors.JoinKeeps | v2/provider_adapter.go:228-241 | through a join, an error keeps its kind, id, status, code and wait, has a route filled in where it states none, and loses its Op |
| Readings.RefusalIsNamed | v2/mw/mw.go:228-250 | a layer's refusal is handed on with its kind and the name of the layer |
| Readings.LibraryIsReadByItsText | v2/internal/llm/classify.go:21-66 | an `*Error` or a bare Kind around nothing that says more is read by the phrases in its text, and never by its kind |
| Readings.ToldIsHandedOn | v2/errors_convert.go:278-301 | the kind a caller is told of any error: the first that decides one, the sentinels, the classifier, or an outage |
| Readings.ReadAlikeIff | v2/internal/runtime/mw/circuitbreaker.go:143-180 | for every kind that is told, exactly which readings Retry, CircuitBreaker, Decisions and Fallback decide by as by it |
| Readings.JoinIsDecidedAlikeIff | v2/internal/runtime/mw/retry.go:211-221 | of every error a handler may return, exactly when those layers decide on it after a join as without one, by what decided its kind |
| EndedWaits.EndedTells | v2/internal/runtime/mw/retry.go:159-172 | of a failure whose wait the context ended the caller is told that it ended, by Retry, and what the first 253 errors of the failure state |
| EndedWaits.JoinStatesEarly | v2/provider_adapter.go:342-388 | what has come through a join states all that is told of it in its first errors, within any walk of four errors or more |
| ChainLayers.LayerCarries | v2/internal/runtime/mw/retry.go:129-176 | a layer that refuses itself with any error, repeats, gives up a wait, or goes on to other routes answers alike over what answers alike |
| ChainLayers.EndedAlikeIff | v2/internal/runtime/mw/retry.go:159-172 | the waits for two failures that are alike are ended alike exactly when what is told of the one is stated within 253 errors, but for a route that a join would fill in |
| LayerLaws.RetryEnds | v2/internal/runtime/mw/retry.go:129-176 | what a request comes to at a Retry: its first attempt that is answered, cannot be cured or is the last, or the failure whose wait the context ended |
| LayerLaws.FailoverEnds | v2/internal/runtime/mw/fallback.go:226-284 | and at a Fallback: the first answer, or failure not to go on from, of the routes that may be asked, in their order, or the context's error when one is due |
| LayerLaws.RefusalsAreNamed | v2/mw/mw.go:214-250 | the name each layer's refusal is told under |
| ChainFusion.FusionIsUnseen | v2/mw/mw.go:160-195 | for any base and any chain of such layers, answering, refusing, repeating and failing, and of others that answer alike over what answers alike: the chain that converts once answers as the one that converts at every join, and fails with what is told alike, a stated route included, as long as the failures at the joins are decided alike and there is room in front of those whose wait is ended |
| ChainFusion.CallersAreToldAlike | v2/mw/mw.go:197-212 | the caller of either is given the same answer, or an `*Error` of the same kind, id, status, code and wait, with the Op or none; with the same model, or the request's where none is stated; and with the same provider, or where none is stated the name, or where layers rename one of the names, that was filled in |
| ChainWords.WordedStates | v2/errors_convert.go:122-153 | with words put around it an error states and decides what it did, one error deeper |
| ChainWords.StatedIsTaken | v2/provider_adapter.go:342-388 | an error that states what is told of it within 254 errors is taken at a join with nothing lost |
| ChainWords.WordsFit | v2/mw/mw.go:307-324 | a chain with layers of the program's that put words around errors is one the law of chains applies to |
| ChainDiffers.OpIsLostIff | v2/mw/mw.go:228-250 | of a failure that is handed on as it is above a join, the two chains tell Ops that differ exactly when a layer named itself below |
| ChainDiffers.RouteIsFilledInIff | v2/provider_adapter.go:342-388 | of a failure that is handed on as it is above a join, the two chains tell providers and models that differ exactly when none is stated and there is one to fill in; where layers rename, a provider that is none of the names is told as it is |
| ChainDiffers.BudgetLosesItsName | v2/mw/mw.go:214-226 | a budget beneath a Fallback, around any base: named, and told without a route, by the one chain, and by the other not named and told with the base's name and the request's model |
| ChainDiffers.DecidedAlikeIffSurvives | v2/internal/runtime/mw/circuitbreaker.go:143-180 | of every error a handler may return, whether it is decided alike at a join, by what decided its kind and what is read of it |
| ChainDiffers.DecidedAlikeIffUnseen | v2/mw/mw.go:160-179 | a failure is decided alike exactly when no layer that decides by it tells the two chains apart, in any world |
| ChainDiffers.FallbackIsAlikeIff | v2/internal/runtime/mw/fallback.go:307-338 | Fallback tells the two chains apart by a failure exactly when its own reading of it is another after a join |
| ChainDiffers.RetryIsAlikeIff | v2/internal/runtime/mw/retry.go:211-221 | and so does Retry |
| ChainDiffers.OpenCircuitIsRepeatedAfterAJoin | v2/internal/runtime/mw/retry.go:211-221 | a Retry over a breaker that is open for one request: refused by the one chain and answered by the other |
| ChainDiffers.MisconfiguredIsAnsweredForIff | v2/mw/mw.go:346-377 | a Fallback over a layer that was set up wrong: answered by the next route in the one chain, but for a phrase that stops, and refused in the other |
| DeepFailures.DeepStatusIsLost | v2/internal/runtime/mw/retry.go:159-172 | a Retry whose wait is ended over a status n errors deep: told by the one chain exactly when n is below 252, and by the other below 255 |
| LogGuard.BoundedFits | v2/internal/types/limits.go:23-51 | a bounded value fits, and is the value exactly when that does |
| LogGuard.Bound | v2/internal/types/limits.go:23-51 | the loops of Bound |
| LogGuard.RewrittenIsWritten | v2/logguard.go:69-116 | what is written for each attribute at any depth: a kind's name, that a text is withheld, a provider of 64 bytes, a model or an id of 128, and anything else as it is |
| LogGuard.RewrittenIsClean | v2/logguard.go:10-24 | nothing that may not be carried survives at any depth, and what carries none of it is left as it is |
| LogGuard.GuardingIsIdempotent | v2/logguard.go:55-62 | guarding twice is guarding once |
| LogGuard.GuardedAttr | v2/logguard.go:69-108 | the lazy copy is the simple rewrite, and its flag is true exactly when something differs |
| LogGuard.GuardedMembers | v2/logguard.go:73-88 | the same for the members of a group |
| LogGuard.BoundedAttr | v2/logguard.go:110-116 | the same for a name |
| LogGuard.Handle | v2/logguard.go:36-53 | the line that is passed on, as it is or made again, is the simple rewrite |
| LogGuard.WithAttrs | v2/logguard.go:55-62 | so are the attributes a handler is given |
| Scheduler.Scheduler.constructor | v2/scheduler.go:25-52 | nothing is made |
| Scheduler.Scheduler.Gate | v2/scheduler.go:93-113 | the one scheduler inside, made the first time, closed at once when Close came first |
| Scheduler.Scheduler.Close | v2/scheduler.go:115-138 | what is inside is closed, or nothing is for a call that is refused |
| Scheduler.OneIsMade | v2/scheduler.go:93-113 | over every interleaving at most one is made |
| Scheduler.OpenUntilClosed | v2/scheduler.go:93-113 | until a Close has begun, what any gate hands out is open, and stays so |
| Scheduler.ClosedStaysClosed | v2/scheduler.go:93-138 | once a Close has returned, what a later gate hands out is closed |
| Scheduler.ClosingMakesNothing | v2/scheduler.go:115-118 | closing makes nothing |
| Stream.CompleteStream | v2/provider_adapter.go:165-201 | the loop with its flag and its recover is the stream the laws are about |
| Stream.YieldIsPolite | v2/provider_adapter.go:177-200 | yield is not called again after it said stop, panicked or was given an error |
| Stream.HeardInOrder | v2/provider_adapter.go:189-200 | what is heard is the provider's items in order |
| Stream.NothingHeldBack | v2/provider_adapter.go:189-200 | and all of them unless the consumer stopped or an error was heard |
| Stream.PanicsIff | v2/provider_adapter.go:177-191 | exactly which panics come out of a stream |
| Stream.PanicIsOneError | v2/provider_adapter.go:177-191 | a provider's panic is heard as one error, the last |
| Labels.UsableIff | v2/decide.go:384-413 | a list is usable exactly when no label is blank and no two are the same without the space around them |
| Labels.FirstWrongIsNamed | v2/decide.go:389-413 | the position named is the first that is wrong, and what is wrong there |
| Labels.OneVerdict | v2/decide.go:384-413 | there is one verdict on a list |
| Labels.LookUp | v2/decide.go:389-402 | the check with a map gives it |
| Labels.Compare | v2/decide.go:403-413 | the pairwise check gives it |
| Labels.RefuseUnusableLabels | v2/decide.go:384-413 | so which is made is not seen |
| Labels.RoutesAreUsableIff | v2/internal/ops/flow.go:76-104 | when routes can be chosen between, and which is the first that is wrong |
| Labels.RouteFault | v2/internal/ops/flow.go:76-104 | the first route that is wrong, and what is wrong with it |
| Labels.RefuseScale | v2/decide.go:417-429 | over the whole int range the scales that fit have 2 to 100 levels |
| Labels.SignedWidthWraps | v2/decide.go:417-420 | the width worked out signed would let the widest scale pass |

## Left out

- Operations that only begin a record, merge options, check arguments and call `internal/ops`: they would add easy members.
- The text of messages and refusals, but for which message, label or route it names: noModelMessage, inVersion2Words, the text of an error and which of the library's phrases a text holds are parameters.
- Errors that are nil pointers of a type of their own inside a chain, and errors with an Is or As method of their own beyond the kinds and sentinels.
- JSON: whether arguments are a JSON value is a parameter of the grammar; that they are trimmed and begin with a brace is modelled.
- ProviderRoundTrip.ProviderFailureSurvives: a chain that holds a trust-guard sentinel, whose relay is told as a defect whatever it was, is left out, as the conversion's own promise leaves it out.
- FlowLaws.CallersErrorComesOut: the errors of steps and gates are there before the program runs, so a step that runs a program and puts words of its own around what came out of it is not told from one that returns another error; the steps of a Gather are run one after another, with which failed first a parameter; Branch and Select, which put no mark on anything, Each, Vote, Checkpoint and MapReduce are not modelled.
- FlowUntil.Until: nil steps and conditions, which are refused before anything runs.
- ChainFusion.FusionIsUnseen: a layer is a function of what is under it and of the request, so what it remembers between requests is not captured; that a program's own layer, or one of the package that neither refuses, repeats nor goes on to another route, answers alike over what answers alike is asked of it, which WordsFit proves of words; an error of a provider's with a trust-guard sentinel, or with a chain that never ends, is left out; the check of the context at each join, which refuses a call that is over, and the recovery of a provider's panic at each (v2/mw/mw.go:123-133, v2/provider_adapter.go:59-80) are not modelled, nor are streams, names and warming through a chain.
- ChainWords.WordsFit: says nothing of 254 layers of words or more on one wrapper, past which a status may be lost in one chain and not in the other.
- Recorders.Recorder.Add: how the record is made from the outcome of the call, but for the settings it is made by.
- ChatSession.OneTurnAtATime: a caller who assigns History while a turn runs, which the session is documented not to support.
- MetaSum.SumMetas: the integers of sumMetas, which may wrap round, are unbounded, and the ratio of cache hits, which follows from two of the figures, is not carried.
- Records.SumInt: is modelled with the machine's wrap-around; moments and spans of time are unbounded, and the text of an error is an identity.
- Budget.SpendBound: costs are real numbers, so the rounding of floating point is not captured; the bytes of a request, which the estimate counts, are a parameter.
- Fallback.SelectorFollowsTheList: the kind the converter gives a failure, what a policy allows and the model a route sends are parameters; a kind in a list that is not one of the library's, and a route with no provider, are refused before this and are not modelled.
- LogGuard.RewrittenIsClean: a value that resolves itself when it is written is passed on as it is, as the code does.
- Scheduler.Scheduler.Close: whether a bound is one no scheduler can hold is a parameter, and the wait for what is in flight and its context are not modelled.
- Stream.CompleteStream: a provider that goes on calling the loop body after it was told to stop, which the language itself makes a panic.
- Middleware other than Budget and Fallback (retry, breaker, rate limit, bulkhead, hedge, cache, redaction), the scheduler's queue, the trap of a descriptor's panics, and the conversion of requests and chunks field by field.
- Providers, network, environment, clocks, logging and reflection.
