# harness-api: a verified model of the agent server

harness-api puts an agent behind a chat-completion endpoint. A request starts a run: the
server sends the conversation to a provider, executes the tool calls that come back in a
workspace, appends the results and asks again, compacting the conversation when it grows
too large. This project models that machinery in Dafny and proves what it promises over
every run, every interleaving and every input.

`dafny verify dfyconfig.toml` checks everything. Sources are cited relative to the root of
the harness-api repository.

## How the model is built

The parts, from the bottom up:

* **Messages, Text, Strings, Wrappers**: messages and the pairing of tool calls with
  results, stated twice (by scanning and by position); Go's string functions.
* **Ledgers, FileTools, ToolEffects, Sessions**: the observation ledger, the read, edit and
  write tools over a file system that is a map, exactly when each succeeds and what it then
  leaves behind, and arbitrary changes by shell commands.
* **Scheduler**: the batches of `runToolCalls`, with goroutines as atomic steps in any
  order.
* **Estimators, Compaction**: the self-correcting token estimate (over reals), pruning,
  summaries and the choice of the retained tail.
* **AgentRun, RunOutcomes, Loop**: the run as a state machine whose inputs are everything the
  provider, the clock and the disk decide; what it makes of every answer; and the imperative
  loop that refines it.
* **Sightings, LostUpdates, Evidence, RunLimits, GivingUp**: what every run and every
  session keeps: no overwrite is blind (for all inputs whatever), and every live
  observation is still in view (where, exactly, is in RunLimits); runs that end too soon.
* **Quirks, Bodies, Client**: the provider transform, what goes out after it, and the
  learn-and-retry client.
* **Deltas, EventStream, AnswerStream**: reassembly of fragmented tool calls, the
  event-stream decoder against section 9.2.6 of the WHATWG HTML Living Standard, the
  printer, and a whole streamed answer from server to client.
* **IgnoreRules, IgnoreWalk, GrepWalk, ShellOutput, Paging, Fisher**: fast forms against
  simple ones (the pruned walks of glob and grep, the tail ring and the lazy overflow file,
  paged views) and Fisher's exact test over naturals.

Whatever the code changes in place is a class or an array here, and each such method is
proved equal to a specification function; the properties are then proved of that function.
Things the code calls but does not define (SHA-256, path normalisation, rendering, glob
matching, the fix inferred from an error text, JSON) are functions passed in as parameters,
so each theorem holds for all of them, subject only to what it states.

## Where the code falls short of what it says

Each of these is a theorem here: the exact condition, for all inputs, and an input that
shows the failure.

* `compact.go:229-231` means to keep something of the conversation: the retained tail is
  empty exactly when only tool results follow its starting point (`TailIsEmptyIff`,
  `TailCanBeEmpty`).
* After an overflow the turn is retried only if the forced compaction shortened the list of
  messages (`loop.go:230`). It does exactly when the pruned conversation is still estimated
  at or above the limit, a summary can be made and has some text, and it stands for at
  least two messages (`RetriesAfterOverflowIff`); a run in which pruning alone frees most of
  the conversation ends instead (`PruningAloneGivesUp`).
* The ledger outlives a request while the turn counter restarts (`loop.go:132`), and a
  client is sent no tool results it could send back. A run with fresh ids and normal paths,
  of a request without tool results, has evidence at every request exactly when the
  compaction ahead of its first turn clears the ledger, whatever was shown before
  (`RunIsEvidentIff`): untouched, if there is no live claim to begin with; pruned, if each
  is of a path some dropped result named; summarised, if none carries this turn or a later
  one (`CompactionClearsIff`). Over all runs, a session's next request is sure of evidence
  exactly when its ledger makes no live claim (`NextRequestIsSureIff`). The inputs are
  `PlainestRunFails` and `SecondRequestIsUnbacked`; a conversation that does repeat a result
  can have evidence (`RepeatedResultIsEvidence`).
* Pruning reports the path as the model spelled it and looks it up by call id: it leaves a
  live claim alone exactly unless a result it drops answers an id whose last named path is
  spelled like the claim's (`PruningKeepsClaimIff`, and with unique ids
  `PruningKeepsClaimIffUnspelled`). `OneSpelling` is a file read as `./a` and `OneReusedId`
  an id used twice.
* `ignore.go:39` says the built-in rules apply regardless of `.gitignore`; the last match
  wins, so at any depth they do exactly unless no directory above is ignored and the last
  line of `.gitignore` that applies is a negation (`AlwaysIgnoredIff`,
  `AlwaysIgnoredCanBeNegated`).
* The event-stream decoder keeps `[DONE]` in its buffer (`EventAfterSentinelIsSpoiled`) and
  ends an event at a line of spaces (`WhitespaceLineSplitsEvent`). It agrees with the
  standard exactly when every event comes out whole. With no sentinel kept, that is when
  its data is not cut by such a line, or is cut in two of which the first is the sentinel
  (`BothFaultsCanCancel`); with one kept, when it has no data, or is cut in two of which the
  second is a sentinel and the kept one in front of the first reads the same
  (`DecoderMeetsStandardIff`). Each fault alone spoils the stream.
* A tool-call fragment with neither index nor id goes to slot 0. Without indices, every
  fragment is filed with the call it continues exactly when each nameless one comes while
  the first id is still the last named (`NamelessFiledRightIff`,
  `NamelessContinuationIsMisfiled`).
* A page reports a long line as shortened even when the line then did not fit the page: the
  count is wrong exactly when there is a next line, the line limit has room for it, and it
  is long (`LongLinesAreOnThePageIff`, `LongLinesCanOvercount`).
* A cancelled request hides errors after the tool recorded what it found: the ledger holds
  exactly what the model was told unless the request was cancelled, the call was let through
  to read or edit, with fit arguments, a path in the jail where nothing is, and that was
  news (`NothingUntoldIff`, `AbsenceCanGoUntold`).
* The overflow file exists exactly when output was cut only for a positive tail size, which
  the configuration check demands (`SpillMatchesTruncationIff`).

## Model

| member | source | states |
|---|---|---|
| Messages.PairedIffByPosition | internal/contextmgr/compact.go:212-250 | the left-to-right scan accepts a history exactly when each message with calls c1..cn is an assistant message followed by n results answering them in order and no other tool message exists |
| Messages.PairedCut | internal/contextmgr/compact.go:241-250 | cutting a paired history in front of a message that is no tool result leaves both halves paired |
| Messages.WithoutSystemScan | internal/agent/prompt.go:104-116 | taking the caller's system messages out leaves calls and results paired |
| Ledgers.GrantedIff | internal/workspace/ledger.go:187-264 | a change is authorised iff the file exists and its digest is that of a live observation, or it does not exist and nothing live says it does |
| Ledgers.RefusalsAre | internal/workspace/ledger.go:187-264 | which refusal a change gets: never read, summarised away, appeared, deleted or changed since, each exactly under its own condition |
| Ledgers.Ledger.constructor | internal/workspace/ledger.go:70-72 | a new ledger knows nothing |
| Ledgers.Ledger.Observe | internal/workspace/ledger.go:91-102 | the path's entry becomes a live observation of exactly these bytes in this turn; no other entry changes |
| Ledgers.Ledger.ObserveAbsent | internal/workspace/ledger.go:106-110 | the path's entry becomes a live observation of absence; no other entry changes |
| Ledgers.Ledger.MarkStaleBefore | internal/workspace/ledger.go:143-156 | in whatever order the map is visited, exactly the entries of earlier turns become stale, and the count is of those that were live |
| Ledgers.Ledger.MarkStale | internal/workspace/ledger.go:164-179 | exactly the listed paths become stale, each counted once however often it is listed |
| Ledgers.Ledger.Authorize | internal/workspace/ledger.go:187-264 | the verdict, with the reason for each refusal, is that of the specification GrantedIff is about |
| Strings.FindLeftmost | internal/tools/edit.go:127-150 | the match found is the leftmost one, and none is found only if there is none |
| Strings.ReplaceChangesOnlyMatches | internal/tools/edit.go:127-160 | a replacement cuts the text at occurrences of the old string into pieces free of it and changes only what stood between the pieces |
| FileTools.LedgerFollowsReplies | internal/tools/registry.go:131-167 | after any list of calls the ledger is the fold of what the tools found, and the model is told each of those replies unless the request was cancelled and the reply an error |
| FileTools.NothingUntoldIff | internal/tools/registry.go:152-163 | a call leaves in the ledger exactly what its reply says, unless the request was cancelled, the call was to read or edit a path where nothing is, and the ledger did not know that already |
| FileTools.FindsNothingIff | internal/tools/read.go:74-108 | a call reports a missing file exactly when it is let through, reads or edits with arguments that make sense, and names a path in the jail where nothing is; and it reports that path |
| FileTools.RunInOrderSplit | internal/agent/loop.go:362-402 | running a list of calls in order is running any front part and then the rest |
| FileTools.OverwriteIsWitnessed | internal/tools/write.go:87-130 | whenever edit or write may replace an existing file, the bytes it destroys have the digest of the path's latest observation, and that is not stale |
| FileTools.OnlyPlannedWrites | internal/tools/edit.go:127-186 | a call other than a command changes no path but the one it was authorised for |
| FileTools.UnwitnessedChangeIsRefused | internal/workspace/ledger.go:246-264 | a file whose path has no live entry with the digest of its bytes makes edit and write fail with files and ledger unchanged |
| FileTools.EditPlanChangesOnlyMatches | internal/tools/edit.go:127-160 | the bytes an edit writes differ from the old ones only at occurrences of old_string |
| FileTools.EditChangesOnlyMatches | internal/tools/edit.go:127-186 | after a successful edit the file differs from before only at occurrences of old_string, exactly one of them unless replace_all was set |
| ToolEffects.WriteWrites | internal/tools/write.go:72-140 | write succeeds exactly when it is let through, with a path in the jail, entitled by the ledger, on a disk that takes it; then the file holds exactly what was given, the ledger has seen just those bytes, and the reply says whether the file is new; a failure leaves files and ledger alone but for a write cut short |
| ToolEffects.EditEdits | internal/tools/edit.go:100-186 | edit succeeds exactly when it is entitled and old_string occurs, once or with replace_all; then file, ledger and reply agree on the bytes; a failure leaves files and ledger alone but for a write cut short |
| ToolEffects.CountsMatches | internal/tools/edit.go:127-150 | the count an edit goes by is zero exactly if old_string does not occur |
| ToolEffects.ReadReads | internal/tools/read.go:74-136 | read succeeds exactly on a regular file in the jail that is not binary, shows its bytes and records them; no file changes |
| ToolEffects.BinaryIff | internal/tools/truncate.go:229-235 | a file counts as binary exactly if a NUL starts within its first 8192 bytes |
| ToolEffects.OthersAreAsTheySay | internal/tools/registry.go:131-167 | a refused call, a search and a call no tool accepts change nothing; a command changes files and not the ledger; each reply says so |
| ToolEffects.CancellationStops | internal/tools/registry.go:131-167 | cancellation changes no effect of a call, and of its reply only an error, which becomes a stop unless there was no such tool |
| Sessions.Session.ReadFile | internal/tools/read.go:74-136 | files are untouched and the ledger records what was shown or found missing |
| Sessions.Session.EditFile | internal/tools/edit.go:100-186 | reply, files and ledger are those of the specification EditEdits is about on every path: refusal, no match, ambiguous match, failed write, success |
| Sessions.Session.WriteFile | internal/tools/write.go:72-140 | reply, files and ledger are those of the specification WriteWrites is about, failed writes included |
| Sessions.Session.Dispatch | internal/tools/registry.go:131-167 | a call with its guards, any disk behaviour and any cancellation refines one step of the specification |
| Scheduler.SafeRun | internal/agent/loop.go:406-412 | calls that may overlap, run in order, all answer from the starting files and add one sight per path read |
| Scheduler.OverlapsAreHarmless | internal/agent/loop.go:406-412 | exactly reads, searches and unfit calls of tools that say so may overlap, and such a call changes no file |
| Scheduler.BatchIsOrdered | internal/agent/loop.go:362-402 | once every call of a batch has recorded, in whatever order, the state is that of running them in order |
| Scheduler.RunBatch | internal/agent/loop.go:374-400 | for every interleaving of the goroutines' steps the slots and the state equal running in order, and the batch terminates |
| Scheduler.RunToolCalls | internal/agent/loop.go:362-402 | for every limit and interleaving the results array, files and ledger equal sequential execution; batches tile the list, none exceeds the limit, every unsafe call is alone |
| Scheduler.BatchEnd | internal/agent/loop.go:366-390 | a batch is one call, or a run of safe calls no longer than the limit |
| Scheduler.RunSpan | internal/agent/loop.go:374-400 | one batch, direct or parallel, refines running its calls in order |
| Estimators.RatioStaysPlausible | internal/contextmgr/estimate.go:98-111 | no sequence of usage reports moves the ratio out of [1.5, 8.0] |
| Estimators.TokensAre | internal/contextmgr/estimate.go:80-90 | the estimate is the bytes over the ratio rounded down, with 15 percent on top until three reports are in |
| Estimators.EveryTextCounts | internal/contextmgr/estimate.go:134-147 | every text of a message counts for its bytes and every call for its three texts and eight bytes more; what is left is the role and sixteen bytes |
| Estimators.RatioConverges | internal/contextmgr/estimate.go:98-111 | if every accepted sample lies in an interval, the distance to it is at most 0.7 to the power of the accepted reports times the first |
| Estimators.ConstantTokenizer | internal/contextmgr/estimate.go:98-111 | after n equal accepted samples the error is exactly 0.7 to the n times the first |
| Estimators.Estimator.Observe | internal/contextmgr/estimate.go:98-111 | the fields become those of the specification, unchanged by an implausible report |
| Compaction.CompactionKeepsPairing | internal/contextmgr/compact.go:143-207 | any compaction, forced or not, of a paired history is paired |
| Compaction.CompactionKeepsHeadAndTail | internal/contextmgr/compact.go:324-394 | the prompt and a leading user task stay word for word at the front, and the retained tail word for word at the end |
| Compaction.SummaryTakesThePlace | internal/contextmgr/compact.go:324-394 | a forced compaction that drops the middle puts exactly one user message with the trimmed summary in its place, between the head and the tail; otherwise it only prunes |
| Compaction.PrunedIs | internal/contextmgr/compact.go:268-287 | exactly the tool results over 2048 bytes ahead of the tail become a note with path, size and the advice to read again; everything else is as it was |
| Compaction.SharesOfTheWindow | internal/contextmgr/compact.go:80-99 | shares strictly between 0 and 1 are kept and others become 0.8 and 0.16; limit and retain budget are those shares of the window, rounded down |
| Compaction.RetainedTailFits | internal/contextmgr/compact.go:216-239 | the retained tail's estimate fits the retain budget or the tail has at most two messages |
| Compaction.RetainedTailIsLongest | internal/contextmgr/compact.go:216-239 | the tail is the longest possible: from any earlier place but the first two it would exceed the budget or begin with a tool result |
| Compaction.TailIsEmptyIff | internal/contextmgr/compact.go:216-250 | the tail is empty exactly when every message from its starting point on is a tool result |
| Compaction.TailCanBeEmpty | internal/contextmgr/compact.go:216-250 | a concrete conversation of which nothing is retained |
| Compaction.ReadPathsExact | internal/contextmgr/compact.go:254-267 | with unique ids a result is looked up under exactly the path its call named |
| Compaction.PruningReportsPath | internal/contextmgr/compact.go:254-291 | every message pruning changes is a large tool result ahead of the retained tail, becomes its stub, and has its path among those reported |
| Compaction.StubIsSmall | internal/contextmgr/compact.go:268-287 | with a bounded label the stub is smaller than any result that is pruned |
| Compaction.PruneIdempotent | internal/contextmgr/compact.go:254-291 | pruning twice is pruning once and reports nothing the second time |
| Compaction.PruneNeverGrows | internal/contextmgr/compact.go:254-291 | pruning never raises the byte count |
| Compaction.Compactor.constructor | internal/contextmgr/compact.go:80-99 | out-of-range settings become the defaults |
| Compaction.Compactor.FindRetainIndex | internal/contextmgr/compact.go:216-239 | the backwards loop computes the specified index |
| Compaction.Compactor.FindSafeCut | internal/contextmgr/compact.go:243-250 | the forward loop computes the specified cut |
| Compaction.Compactor.PruneToolResults | internal/contextmgr/compact.go:254-291 | the loop computes the pruned copy and the reported paths |
| Compaction.Compactor.CollectPaths | internal/contextmgr/compact.go:258-267 | the map from call id to path, later calls winning |
| Compaction.Compactor.ForceCompact | internal/contextmgr/compact.go:161-207 | prune, measure, summarise, and what is kept when the summary fails, as in the specification SummaryTakesThePlace and PrunedIs are about; a summary is asked for exactly when pruning is not enough, there is something to summarise and someone to do it |
| Compaction.Compactor.MaybeCompact | internal/contextmgr/compact.go:143-157 | nothing happens and nothing is asked below the threshold, a forced compaction at or above it |
| AgentRun.EveryRequestIsPaired | internal/agent/loop.go:113-191 | if the client's messages are paired, so is every request of every run, through any turns, prunes, summaries and overflow retries |
| AgentRun.RunKeepsPairing | internal/agent/loop.go:134-191 | any steps from a paired state keep the history and everything sent paired |
| AgentRun.HeadSurvivesRun | internal/agent/loop.go:113-149 | the system prompt and a leading user task are at positions 0 and 1 of every request of the run |
| AgentRun.TaskSurvivesRun | internal/agent/loop.go:113-149 | a run whose conversation opens with the user's task sends prompt and task, word for word, as the first two messages every time |
| AgentRun.RunIsAffordable | internal/agent/loop.go:134-160 | a run begins at most MaxIterations turns, sends at most two requests in each and asks upstream at most four times in each |
| AgentRun.RetriesAfterOverflowIff | internal/agent/loop.go:217-237 | after an overflow there is a second request exactly when the pruned conversation is still estimated at or above the limit, a summary can be made and comes back with some text, and it replaces at least two messages |
| AgentRun.ForceSummarizesIff | internal/contextmgr/compact.go:161-207 | a forced compaction is a summary exactly when pruning is not enough by the estimate, there is something to summarise, and the summary has some text |
| RunOutcomes.ReplyIsToTheLastRequest | internal/agent/loop.go:217-237 | the first request is the history as it stands; the reply is that to the last request sent; a second is sent only after an overflow |
| RunOutcomes.TurnTakesTheAnswer | internal/agent/loop.go:158-188 | history and messages returned grow by the answer, as the assistant's, and the result of each call under its id, marked if it failed; the run completes exactly if the answer calls nothing; tokens grow by its cost |
| RunOutcomes.TurnLearns | internal/agent/loop.go:158-163 | the estimator learns from a turn exactly if a report comes with the reply, and then the size of the request answered, tools included, against the prompt tokens reported |
| RunOutcomes.AnswersAreProduced | internal/agent/loop.go:134-191 | over any run the assistant's messages returned are the answers that came back, each once and in order, and the tokens are what all replies cost |
| RunOutcomes.CompletionIsTheLastAnswer | internal/agent/loop.go:134-191 | a run that completes ends with its last answer, which calls nothing, in the messages returned and in the history |
| RunOutcomes.RequestsAreWhole | internal/agent/loop.go:113-191 | without a compactor every request of a run is our prompt, the client's conversation without its instructions, and what the run has produced so far |
| GivingUp.PruningAloneGivesUp | internal/agent/loop.go:217-237 | a concrete first turn: sent as it is, too long for the provider, and although pruning frees bytes the run ends without a second request |
| Sightings.SightsAreLatest | internal/tools/read.go:74-136 | the record of what the model was shown holds, path by path, the bytes of the last reply that showed the path |
| LostUpdates.TurnStaysTied | internal/workspace/ledger.go:91-110 | after any calls each live observation of a file has the digest of the bytes the path was last shown to hold, however ids and paths are spelled |
| LostUpdates.EveryOverwriteIsListed | internal/tools/write.go:87-130 | every change a call other than a command makes to an existing file is recorded as an overwrite |
| LostUpdates.OverwritesFaithful | internal/workspace/ledger.go:187-264 | each overwrite of a turn destroys bytes with the digest of what an earlier call of the turn showed last, or else of what was shown last before the request and is still vouched for |
| LostUpdates.RunNeverOverwritesBlindly | internal/agent/loop.go:132-191 | no lost update over runs: for all inputs, every overwrite in every run destroys the bytes the path was last shown to hold, and every live observation at every request is of those bytes |
| LostUpdates.SessionNeverOverwritesBlindly | internal/agent/loop.go:89-191 | the same over any number of requests of one session, with anything happening to the files in between |
| LostUpdates.ForeignChangeIsRefused | internal/workspace/ledger.go:187-264 | after any run and any calls of the next turn: a file whose bytes differ from those last shown for its path, or that was never shown, makes edit and write fail with files and ledger unchanged |
| Evidence.PruningKeepsEvidence | internal/contextmgr/compact.go:254-291 | after pruning and staling the reported paths, every live observation is still backed by an unstubbed result |
| Evidence.CompactionKeepsEvidence | internal/agent/loop.go:247-291 | no compaction, of any kind, leaves a live observation without its result in the messages |
| Evidence.TurnKeepsEvidence | internal/agent/loop.go:162-188 | after a turn's calls each live observation is backed by the result of the call that last observed its path |
| Evidence.RunKeepsInvariant | internal/agent/loop.go:132-191 | over any run with fresh ids and with normal paths where files are read, edited or written, from any state with evidence, at every request each live observation of a file is backed by the result of the call that last observed it, in that request and not stubbed |
| Evidence.RunIsJustified | internal/agent/loop.go:132-191 | in such a run every overwrite is of bytes shown by an earlier call of the turn or standing unabridged in the request the model answered |
| Evidence.SettledSessionRuns | internal/agent/loop.go:89-191 | a request of any session whose ledger makes no live claim has both properties, whatever the conversation and whatever was shown before |
| RunLimits.RunIsEvidentIff | internal/agent/loop.go:113-191 | any run with fresh ids and normal paths, of any request of a session that carries no tool results, has evidence at all its requests exactly when the compaction ahead of the first turn clears the ledger, whatever was shown before |
| RunLimits.FirstRequestIsEvidentIff | internal/agent/loop.go:134-149 | the first request of such a run has evidence exactly when the compaction ahead of it clears the ledger |
| RunLimits.CompactionClearsIff | internal/agent/loop.go:247-291 | what decides whether a compaction leaves no live claim: untouched, none to begin with; summarised, none of this turn or later; pruned, each of a path that a dropped result named |
| RunLimits.PruningClearsIff | internal/contextmgr/compact.go:254-291 | pruning clears the ledger exactly when every live claim is of a path that some dropped result answered for |
| RunLimits.RepeatedResultIsEvidence | internal/agent/loop.go:113-132 | a conversation that repeats a call and its result is evidence if the record of what was shown is kept, and none without it |
| RunLimits.NextRequestIsSureIff | internal/agent/loop.go:113-132 | whatever was shown before, all runs with fresh ids and normal paths from a session have evidence at all their requests exactly when the session's ledger makes no live claim |
| RunLimits.PlainestRunFails | internal/agent/loop.go:113-149 | with any live claim in the ledger, a one-line request answered at once is sent without evidence |
| RunLimits.SummaryClearsIff | internal/agent/loop.go:270-280 | a summary clears every claim exactly when none carries this turn or a later one |
| RunLimits.SecondRequestIsUnbacked | internal/agent/loop.go:132-149 | a concrete second request whose ledger vouches for a file its messages do not show |
| RunLimits.PruningKeepsClaimIff | internal/contextmgr/compact.go:254-291 | in any conversation, cut anywhere, a live claim survives pruning exactly unless a dropped result answers an id whose last named path is spelled like the claim's path |
| RunLimits.PruningKeepsClaimIffUnspelled | internal/contextmgr/compact.go:254-291 | with unique ids it survives exactly unless a dropped result answers a call that spelled the path that way |
| RunLimits.ReadPathsIff | internal/contextmgr/compact.go:258-267 | the lookup gives an id the path it named last, and nothing to an id that names none |
| RunLimits.OneSpelling | internal/contextmgr/compact.go:258-287 | one call and its result: pruning the result withdraws the claim exactly if the argument is spelled like the path |
| RunLimits.OneReusedId | internal/contextmgr/compact.go:258-267 | two calls with one id: pruning the first result withdraws the second call's path and not the first's |
| Loop.Tracker.BeginIteration | internal/agent/budget.go:105-121 | the first exhausted budget in the code's order stops the run, otherwise one more iteration is counted |
| Loop.Tracker.AddUsage | internal/agent/budget.go:124-131 | usage adds up, and absent usage counts nothing |
| Loop.AgentLoop.Compact | internal/agent/loop.go:247-291 | history, ledger and the number of summaries asked for are those of the machine |
| Loop.AgentLoop.CompleteWithOverflowRecovery | internal/agent/loop.go:217-237 | what is sent, what comes back, and how often upstream is asked are as in the machine |
| Loop.AgentLoop.Act | internal/agent/loop.go:162-188 | the parallel tool calls and their results are the machine's sequential step |
| Loop.AgentLoop.Absorb | internal/agent/loop.go:155-191 | usage, estimator, messages added and the finished-or-continue decision are those of the machine TurnTakesTheAnswer and TurnLearns are about |
| Loop.AgentLoop.Respond | internal/agent/loop.go:150-191 | after an answer, a reply without choices or a failure the session, the counters and the estimator are the machine's; a reply without choices is paid for |
| Loop.AgentLoop.Charge | internal/agent/loop.go:158-163 | usage reaches the counter and the estimator as in the machine |
| Loop.AgentLoop.TakeTurn | internal/agent/loop.go:134-191 | one pass of the loop is one step of the machine: status, session, messages produced, requests sent, summaries asked for, counters and estimator |
| Loop.AgentLoop.Drive | internal/agent/loop.go:134-191 | the loop from any state it is in is a run of the machine |
| Loop.AgentLoop.RunWithEvents | internal/agent/loop.go:89-197 | a whole request is a run of the machine: it sends exactly its requests, asks upstream as often, returns its messages, status and token count, leaves its files, ledger and estimator, ends within MaxIterations + 1 passes and asks upstream at most 4 MaxIterations times; the assistant's messages it returns are the answers that came back, its tokens what the replies cost, and if it completes its last message is the last answer, which calls nothing; a conversation without messages is an error that changes nothing |
| Quirks.FoldIntoFirstUser | internal/upstream/quirks.go:128-139 | the list given, or a new one, holds the text ahead of the first user message or in a message of its own |
| Quirks.ApplyMessages | internal/upstream/quirks.go:70-107 | the shaped list OnlyTheProfilesSystemRole and TextIsConserved are about, in fresh memory unless the input was empty; the caller's list is not written to |
| Quirks.ApplyTools | internal/upstream/quirks.go:142-152 | strict is dropped on a copy, or the list itself is returned |
| Quirks.ApplyTokenLimit | internal/upstream/quirks.go:51-67 | the limit ends up in the field the profile names and in no other |
| Quirks.Apply | internal/upstream/quirks.go:18-47 | a new request shaped by the profile, as the laws on shaping below describe it; the caller's request, messages and tools are exactly as before |
| Quirks.BuildBody | internal/upstream/client.go:216-254 | the body is a copy in which every message lost its reasoning and the banned members, and the request its extension object, its harness member and unasked stream options |
| Quirks.Without | internal/upstream/client.go:229-251 | the loop over a map keeps exactly the members that are not banned, in any order of the map |
| Quirks.WireHidesThoughts | internal/upstream/client.go:208-263 | no message of a body carries a chain of thought under any of its names, and every other member goes out as it was |
| Quirks.ShapingIsIdempotent | internal/upstream/quirks.go:11-47 | for every profile and request, shaping twice is shaping once |
| Quirks.OnlyTheProfilesSystemRole | internal/upstream/quirks.go:78-95 | an instruction goes out as developer if the profile says developer, not at all if it says user, and as system otherwise |
| Quirks.OnlyAllowedParams | internal/upstream/quirks.go:23-67 | the output limit goes out in exactly the field the profile reads, completion limit first; sampling, parallel calls, stop sequences and stream options only as far as the profile allows |
| Quirks.TextIsConserved | internal/upstream/quirks.go:70-139 | with a system role every message stays in place and says what it said; without one all non-blank instructions survive, trimmed and in order, ahead of the first user message |
| Quirks.ShapingKeepsPairing | internal/upstream/quirks.go:70-139 | a paired conversation is paired after any profile and the clean-up of the body |
| Quirks.EveryBodyIsPaired | internal/agent/loop.go:113-191 | every body sent in every run is paired, whatever profile is in force when each is sent |
| Bodies.MakeBody | internal/upstream/client.go:177-179 | the body is made by BuildBody from what Apply makes of the request, and the caller's request is as before |
| Bodies.BodyFits | internal/upstream/client.go:177-179 | every body is fit for its profile: instructions under the profile's role, the words of the conversation kept, paired if it was, no thoughts, blank call contents in the profile's style, one limit field, only accepted parameters, and the client's tools and model |
| Client.CompleteLearns | internal/upstream/client.go:111-174 | each model's profile is the configured one with at most three distinct fixes applied in order; a completion touches only its own model and fails only with an error that teaches nothing more |
| Client.LessonIff | internal/upstream/client.go:111-151 | something is learned exactly from a 400, however wrapped, whose text implies a fix the model does not have while it has fewer than three |
| Client.FixTakesEffect | internal/upstream/quirks.go:200-270 | under each fix the thing complained of is gone from every body, and nothing else about the profile has changed |
| Client.FirstLastingAnswerDecides | internal/upstream/client.go:265-337 | the first answer that is neither a lost connection nor a 408, 409, 425, 429 or 5xx and up decides; giving up needs a retry that was cancelled; exhaustion is exactly all allowed attempts failing in passing, with the last failure as its cause |
| Client.TriesAreBounded | internal/upstream/client.go:265-315 | one request makes at most MaxRetries + 1 attempts |
| Client.CompleteIsBounded | internal/upstream/client.go:166-174 | a completion costs one request and one more for each fix it learned |
| Client.CallsAreBounded | internal/upstream/client.go:98-174 | any sequence of completions costs at most (calls + fixes learned) times MaxRetries + 1 attempts |
| Client.RunAttemptsAreBounded | internal/agent/loop.go:134-160 | the completions of a run make at most (4 MaxIterations + 3 M)(MaxRetries + 1) attempts for M model names |
| Client.Client.LearnFrom | internal/upstream/client.go:111-151 | a fix is adopted for one model exactly when a 400 implies one that is new and there is room |
| Client.Client.Do | internal/upstream/client.go:265-315 | which answer ends the loop, with what error, after how many attempts; every one of them with the body it was given, under the profile then in force |
| Client.Client.Complete | internal/upstream/client.go:166-179 | the learn-and-retry loop ends on the measure of three minus the fixes applied, with the specified outcome; every body it sends is what BuildBody makes of Apply under the profile in force at that moment and fit for it, and each next profile is the last one with the lesson of its failure |
| Deltas.FedThen | internal/oai/delta.go:41-63 | feeding chunk after chunk is feeding all fragments at once |
| Deltas.InterleavingDoesNotMatter | internal/oai/delta.go:41-93 | with indices, the slots depend only on each index's own subsequence |
| Deltas.FragmentationRoundTrip | internal/oai/delta.go:120-161 | any calls, cut into fragments and mixed in any way, come back exactly, in index order |
| Deltas.FinishFillsIn | internal/oai/delta.go:120-161 | a finished call has an id, a type and arguments that can be decoded: blank ones become an empty object, and what was there is as it was |
| Deltas.IndexlessNumbered | internal/oai/delta.go:66-110 | with ids and no indices, slots are contiguous and ids distinct, in order of first appearance |
| Deltas.IndexlessSlots | internal/oai/delta.go:66-93 | each slot is the fold of its own id's fragments |
| Deltas.IndexlessCalls | internal/oai/delta.go:120-161 | the finished calls are the ids in order of first appearance with their own arguments concatenated |
| Deltas.NamelessFiledRightIff | internal/oai/delta.go:66-93 | without indices and with an id first, the slots are contiguous with distinct ids, and every fragment is filed with the call it continues exactly when each nameless one continues the first id |
| Deltas.NamelessSlots | internal/oai/delta.go:66-93 | and then each slot is the fold of the fragments that continue its id, nameless ones included |
| Deltas.NamelessContinuationIsMisfiled | internal/oai/delta.go:66-93 | a concrete stream: a continuation without index and id is appended to the first call although it continues the second |
| Deltas.ToolCallAccumulator.Add | internal/oai/delta.go:41-63 | the slots after a chunk are the old ones fed with its fragments |
| Deltas.ToolCallAccumulator.EntryFor | internal/oai/delta.go:66-93 | the fragment's slot is the one the resolution rule names, created if new |
| Deltas.ToolCallAccumulator.IndexOfID | internal/oai/delta.go:95-102 | a slot with the id is found, in any order of the map, exactly if there is one |
| Deltas.ToolCallAccumulator.NextFreeIndex | internal/oai/delta.go:104-110 | the least free index is found within as many probes as there are entries |
| Deltas.ToolCallAccumulator.Finalize | internal/oai/delta.go:120-161 | one finished call per slot, in ascending index order |
| Deltas.StreamAccumulator.Add | internal/oai/delta.go:185-241 | content, reasoning and fragments of choice 0 are appended in order, the first non-empty identity, the last role and usage and the first finish reason are kept, and one chunk is counted |
| Deltas.StreamAccumulator.Message | internal/oai/delta.go:248-271 | an assistant message unless another role was named, the finished calls, and a null content exactly if there are calls and no text |
| EventStream.LinesAgree | internal/upstream/sse.go:197-219 | on LF and CRLF streams the reader's lines are the standard's |
| EventStream.PieceBoundariesVanish | internal/upstream/sse.go:197-219 | a line arriving in any number of pieces is read whole |
| EventStream.DecodingIgnoresPieces | internal/upstream/sse.go:73-135 | decoding does not depend on where lines were cut into pieces |
| EventStream.DecoderFollowsEvents | internal/upstream/sse.go:73-151 | on any lines the forced decoder returns what carrying unemitted buffers makes of the standard's events |
| EventStream.DecoderMeetsStandardIff | internal/upstream/sse.go:73-151 | on all LF and CRLF streams that are not rejected: the payloads are the standard's data buffers, trimmed, blank ones dropped, an unterminated last one included, exactly when every event comes out whole; if the stream has at most one of the two faults, exactly when it has neither |
| EventStream.CarriedIsExpectedIff | internal/upstream/sse.go:95-151 | no event yields fewer payloads than it should, so nothing makes up for one that does not come out whole |
| EventStream.OneFaultSpoils | internal/upstream/sse.go:95-151 | in a stream with at most one kind of fault, events cut by lines of whitespace or data after a sentinel, every event comes out whole exactly if there is none |
| EventStream.GroupsJoin | internal/upstream/sse.go:95-120 | the standard's events are the decoder's, joined where a line of whitespace cut them |
| EventStream.GroupsFlatten | internal/upstream/sse.go:95-120 | the pieces, one after another, are the standard's events of the stream in which lines of whitespace count as empty |
| EventStream.WhitespaceLineSplitsEvent | internal/upstream/sse.go:95-120 | a line of spaces ends an event for the decoder and not for the standard |
| EventStream.EventAfterSentinelIsSpoiled | internal/upstream/sse.go:114-129 | an event after the sentinel comes out with the sentinel in front of it |
| EventStream.BothFaultsCanCancel | internal/upstream/sse.go:95-129 | one event with the sentinel, a line of whitespace and more data: the two faults cancel and the event comes out whole |
| EventStream.SmallStreamsFit | internal/upstream/sse.go:110-130 | a stream below the event limit is never rejected |
| EventStream.SniffedIsForced | internal/upstream/sse.go:158-176 | a sniffed stream whose first conclusive line is SSE decodes as if forced to SSE |
| EventStream.PrintedFramesComeBack | internal/server/stream.go:86-117 | any frames with any keepalives between them decode to the payloads in order and then end, sniffed or forced |
| EventStream.RowsComeBack | internal/upstream/sse.go:81-104 | bare JSON, one object or array a line with empty lines between, told or guessed from its first row, comes back row by row, up to the end or to a sentinel with anything behind it |
| EventStream.SplitRunes | internal/server/stream.go:239-263 | non-empty pieces of at most n that add up to the text |
| EventStream.Decoder.NextLine | internal/upstream/sse.go:197-219 | one line, the end, or too large, with the rest of the stream intact |
| EventStream.Decoder.Next | internal/upstream/sse.go:73-135 | the payload returned is the first of what remained to be decoded |
| EventStream.SseStream.Raw | internal/server/stream.go:106-117 | text is written until the first failure and never after it |
| EventStream.SseStream.SendAll | internal/server/stream.go:86-104 | a connection that takes everything has been given the printed frames and the terminator |
| AnswerStream.AnswerFrames | internal/server/chat.go:99-138 | the frames of a streamed answer carry the role, the events with keepalives between them, the text in pieces of at most 48 runes, the finish and perhaps the usage, in that order, and every keepalive is one line |
| AnswerStream.StreamAnswer | internal/server/chat.go:99-138 | a connection that takes everything has been given exactly those frames and the terminator, and from end to end: if the encodings are printable and can be decoded, what was written decodes, and a client adds it up to an assistant's message with the text, the finish reason, the usage, no reasoning and no calls |
| AnswerStream.ChunksComeBack | internal/server/stream.go:86-117 | any chunks, with keepalives anywhere between them, are read back as they were sent |
| AnswerStream.AnswerComesBack | internal/server/stream.go:146-187 | whatever pieces and keepalives, what a client reads back from a whole stream is the identity, an assistant's text equal to the answer, the finish reason and the usage, and no reasoning or calls |
| AnswerStream.ReadAnswer | internal/oai/delta.go:185-241 | a client that accumulates every chunk holds what reading them comes to: identity, role, text, reasoning, finish, usage, and the slots of all fragments |
| IgnoreRules.CompileIgnore | internal/workspace/ignore.go:69-77 | the rules of the lines that make one, in order |
| IgnoreRules.RuleRoundTrip | internal/workspace/ignore.go:79-115 | a rule written with its marks and trailing blanks is read back; it is tied to the root exactly if a slash stands in or before the pattern |
| IgnoreRules.NoRuleIff | internal/workspace/ignore.go:79-108 | exactly which lines make no rule |
| IgnoreRules.LaterRulesDecide | internal/workspace/ignore.go:142-153 | earlier rules decide only where no later rule applies |
| IgnoreRules.AlwaysIgnoredIff | internal/workspace/ignore.go:39-66 | at any depth a built-in directory is ignored exactly unless no directory above it is ignored and the last line of .gitignore that applies to it is a negation |
| IgnoreRules.AlwaysIgnoredCanBeNegated | internal/workspace/ignore.go:39-66 | one line that takes it out |
| IgnoreWalk.Ignore.Exact | internal/workspace/ignore.go:142-153 | the loop computes last match wins |
| IgnoreWalk.LastMatchWins | internal/workspace/ignore.go:142-153 | a path is ignored by the rules alone exactly if the last rule that applies to it exists and is no negation |
| IgnoreWalk.DirectoryRulesSpareFiles | internal/workspace/ignore.go:142-153 | a rule with a trailing slash ignores exactly what matches as a directory and what lies beneath such a directory, never a file for its own name |
| IgnoreWalk.Ignore.Matches | internal/workspace/ignore.go:118-139 | ignored iff the path or an ancestor directory matches |
| IgnoreWalk.BeneathIgnored | internal/workspace/ignore.go:128-138 | everything beneath an ignored directory is ignored |
| IgnoreWalk.NegationsCannotRescue | internal/workspace/ignore.go:128-138 | later rules that miss the directory, negations included, bring back nothing beneath it |
| IgnoreWalk.PruningIsFiltering | internal/tools/glob.go:161-200 | over any tree and rules the pruned walk keeps exactly the entries of the filtered full walk, in the same order |
| IgnoreWalk.GlobIsFiltering | internal/tools/glob.go:161-214 | within the scan limit, the first matches of the filtered walk, their full count, truncated iff some are missing, and as ignored all it came by that the filter keeps out |
| IgnoreWalk.GlobStopsAtLimit | internal/tools/glob.go:186-214 | beyond the scan limit only the first entries are reported, and it says so |
| IgnoreWalk.GlobWalk.OnPath | internal/tools/glob.go:161-205 | one callback does what the tally specifies and skips exactly ignored directories |
| IgnoreWalk.GlobWalk.Walk | internal/tools/glob.go:161-214 | the walk visits what the specification visits |
| GrepWalk.SearchIsFiltering | internal/tools/grep.go:185-250 | over any tree and scan limit the search opens the fitting files of the filtered full walk in order up to the limit, reports every one that matches, counts the unsuitable ones, and stops exactly when there are more |
| GrepWalk.Searcher.OnPath | internal/tools/grep.go:197-244 | one callback does what the search specifies and skips exactly ignored directories |
| GrepWalk.Searcher.Walk | internal/tools/grep.go:185-250 | the walk visits what the specification visits |
| GrepWalk.Account | internal/tools/grep.go:267-285 | the front of the matches up to the limit, the full count, and truncated iff something was left out |
| ShellOutput.TailWriter.constructor | internal/workspace/shell.go:98-103 | a size that is not positive becomes 32 KB |
| ShellOutput.TailWriter.Write | internal/workspace/shell.go:105-120 | after any writes the buffer is the last n bytes of the whole stream and the total its length |
| ShellOutput.TailWriter.String | internal/workspace/shell.go:124-132 | what is shown is the one-shot tail of the whole stream |
| ShellOutput.TailWriter.Truncated | internal/workspace/shell.go:134 | truncated iff the stream is longer than the ring |
| ShellOutput.TailIsAWholeLineSuffix | internal/tools/truncate.go:211-224 | the tail is a suffix of at least half the limit that starts at the earliest line start in the first half of what fits, or else fills the limit |
| ShellOutput.SpillFile.Write | internal/tools/bash.go:329-351 | whatever the disk does the file is a prefix of the stream within the limit; on a disk that works it is the specified one |
| ShellOutput.SpillFile.WriteOut | internal/tools/bash.go:370-383 | bytes are appended up to the limit and a short write stops the file for good |
| ShellOutput.Capture | internal/workspace/shell.go:156-195 | for any writes: the tail, the total, truncated iff cut, and the overflow file present iff the stream exceeds the threshold, holding its first limit bytes |
| ShellOutput.SpillMatchesTruncationIff | internal/tools/bash.go:170-181 | file present and output cut coincide for every output exactly when the configured tail size is positive |
| ShellOutput.TailAndSpillCover | internal/tools/bash.go:301-307 | up to their joint size, file and tail together hold every byte at its place |
| Paging.SplitLinesRoundTrip | internal/tools/truncate.go:184-195 | the lines joined are the normalised content and none holds a newline |
| Paging.NormalizedIs | internal/tools/truncate.go:184-195 | normalising drops exactly the carriage returns right ahead of a line feed |
| Paging.ClippedLineFits | internal/tools/truncate.go:24-39 | a clipped line fits a page whatever its characters |
| Paging.PagesAreSmall | internal/tools/truncate.go:82-104 | every page is within the byte and line limits, the always-shown first line included |
| Paging.LimitHolds | internal/tools/truncate.go:67-104 | a limit from 1 to 2000 holds and any other counts as 2000; a page that stops early for no other reason has that many lines |
| Paging.PageIsDetermined | internal/tools/truncate.go:67-110 | the page's promise determines the page |
| Paging.BuildView | internal/tools/truncate.go:67-110 | clipped lines from the offset, at least one if there is one, within both limits, stopping early only where the next line would break one; truncated iff lines remain |
| Paging.LongLinesAreOnThePageIff | internal/tools/truncate.go:51-101 | the page ends where the lines and the limits say, and the number reported as shortened is that of shortened lines shown exactly unless there is a next line, the line limit has room for it, and it is long |
| Paging.PagesEndThere | internal/tools/truncate.go:82-104 | a page takes lines until there are no more, or enough, or the next is too much |
| Paging.LongLinesCanOvercount | internal/tools/truncate.go:89-101 | a file of seven lines, six shown and seven reported |
| Paging.ReadThrough | internal/tools/truncate.go:57-63 | following NextOffset with any limits terminates and shows every line once, clipped, in order |
| Paging.PagesCoverTheFile | internal/tools/truncate.go:57-110 | any chain of pages linked by NextOffset adds up to the clipped file |
| Fisher.WaysIsChoose | internal/eval/compare.go:283-293 | the quotient of factorials is the binomial coefficient |
| Fisher.Vandermonde | internal/eval/compare.go:264-272 | the weights of all tables with given margins add up to the number of tables |
| Fisher.RangeIsEverything | internal/eval/compare.go:265-267 | the range from low to high leaves out only impossible tables |
| Fisher.PValueIsAProbability | internal/eval/compare.go:249-274 | the p-value is positive and at most one without the clamp |
| Fisher.SwappingReports | internal/eval/compare.go:249-274 | swapping the two reports leaves it unchanged |
| Fisher.SwappingOutcomes | internal/eval/compare.go:249-274 | swapping passes and failures leaves it unchanged |
| Fisher.FallsToTheRight | internal/eval/compare.go:277-281 | log-concavity: weights only fall to the right of a table whose right neighbour is no likelier |
| Fisher.PValueIsOneIff | internal/eval/compare.go:249-274 | it is one iff bc <= (a+1)(d+1) and ad <= (b+1)(c+1) |
| Fisher.EqualRatesAreNoEvidence | internal/eval/compare.go:249-274 | equal pass rates give exactly one |
| Fisher.SelfComparison | internal/eval/compare.go:249-274 | a report compared with itself gives exactly one |
| Fisher.FisherExact | internal/eval/compare.go:249-274 | the loop over quotients of factorials, with its guards and clamp, returns that p-value |

## Left out

- HTTP, timers, backoff delays, logging, audit, configuration loading and the command line: plumbing around the logic modelled here. Cancellation and the wall clock are inputs of each step.
- JSON: an inverse pair of functions. Tool calls carry their decoded arguments, and a call no tool accepts is one of the cases.
- SHA-256, path normalisation, rendering of results, glob and regular-expression matching, and the fix inferred from an error text are parameters. Overwrite theorems are up to equal digests.
- Real file systems: symbolic and hard links, permissions, modification times, parent directories created by write, the ordering of search hits by time. The file system is a map and each tool call is atomic.
- Invalid UTF-8, byte-order marks and lone carriage returns. Text is a sequence of Unicode scalar values; shell output is bytes.
- Guards are inputs: a denial arrives as part of a call's surroundings, and the chain of guards is not modelled. Events, result assembly and prompt text are left out as well.
- Names containing backslashes in ignore matching, since paths are lists of clean components, and the reading of the .gitignore file itself.
- Message and request members no code path looks at (seeds, response format); members the code does not know are kept as a map.
- A tool that panics: the recovery of Registry.Invoke (registry.go:142-152) turns it into an error reply, and the tools modelled here do not panic.
- Images in a message into which instructions are folded: the fold replaces the content by text (quirks.go:133), and TextIsConserved is about text.
- The inline reasoning blocks of StripThink, which are a regular expression.
- Session eviction: lookup and locking are separate critical sections, so nothing is claimed about a session being destroyed while in use.
- The tolerance and rounding of the floating-point p-value and estimate.
- EventStream.SniffedIsForced: one direction. A sniffed stream whose first conclusive line looks like NDJSON is decoded as NDJSON, which may or may not give the same payloads.
- Client.RunAttemptsAreBounded: about a positive MaxIterations. Without one the code sets no bound on a run either.
- RunLimits.RunIsEvidentIff: about requests without tool results, which is all that what the server sends back (internal/agent/loop.go:482-500, internal/server/chat.go:99-138) lets a client build. One that holds tool messages all the same is covered by Evidence.RunKeepsInvariant where the claims are older than the turn, and by the overwrite theorems in any case.
- Evidence.RunKeepsInvariant: about runs whose call ids are fresh and whose read, edit and write calls have path arguments in normal form, because the code looks results up by id and by the spelling of the path; RunLimits.PruningKeepsClaimIff is what happens otherwise. That no overwrite is blind needs neither (LostUpdates).
- Loop.AgentLoop.RunWithEvents: asks for a positive MaxIterations, as the configuration check does (internal/config/config.go:428), because without one the code's loop need not end. The machine it refines (AgentRun.Run) has no such limit, and every invariant is proved of that.
- Client.Client.Complete: locking is not modelled; concurrent requests learn one after the other.
