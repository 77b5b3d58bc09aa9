# Miniagent, verified

A Dafny model of the parts of miniagent whose correctness is not obvious from reading one function,
with proofs. `dafny verify dfyconfig.toml` checks all of it.

Miniagent is an LLM agent: a loop that calls a model, runs the tools the model asks for and appends
everything to a transcript; a compaction engine that keeps the transcript within the model's context
window; and a few stateful engines around them. The project follows that division.

**Transcript and compaction.** `Transcript` defines messages, the pairing of tool calls with their
results, and *block structure*: every assistant message is followed at once by exactly one result per
call, in call order, with distinct ids. `Rounds` splits and joins transcripts, `Estimate` counts
tokens, `Passes`, `Dedup` and `Strips` are the rewriting passes and their pipeline, `Tail` selects the
tail that survives a compaction, `UsageAnchor` decides which reported usage may still be used,
`Compaction` summarises the middle, `Views` says what a view of a transcript owes to it, and
`FitHistory` puts the branches together.

**The loop.** `Loop` and `Run` model the ReAct loop with every exit: hook errors, panics, cancellation,
the iteration limit, downgrade and recovery. Hooks, model, tools and clock are functions that the
theorems quantify over. `Policy` holds the default hooks and puts the assembled configuration together.
`ToolsParallel` is the goroutine-per-call execution of one step's tools.

**Engines.** `TurnBus` and `TurnRegistry` are the replay-plus-live broadcast of a turn and its session
slots; `Utf8` and `Output` re-chunk a command's output on character boundaries into a sliding window;
`ToolFragments` and `Stream` aggregate a streaming response and retry it; `Session` is the append-only
session log with crash healing; `Edit` and `EditLocks` are exact replacement under per-path locks;
`Glob` matches `**` patterns. `Codes` shows that the laws asked of the JSON codecs can be met. `Seqs`,
`Newlines` and `Decimal` are small helpers.

Code that changes things step by step is a method or a class tied to a specification on values;
concurrent code is a state machine whose theorems hold for every sequence of atomic steps. Integers are
unbounded, and a string stands for the source's characters in the transcript modules (its lengths count
runes there) and for its bytes in `TurnBus`, `ToolFragments`, `Stream`, `Session`, `Edit` and `Glob`.

## What the proofs turned up

Where the code does not do what its documentation says, the model follows the code, a lemma shows the
gap, and another says exactly when the promise holds.

- `escapeNonUTF8` is documented as free of information loss. A rendering can be traced back to one
  stream exactly if that stream is valid and holds nothing that looks like an escaped byte
  (`EscapeDeterminesIff`); the byte 0xFF and the text "FF " are shown alike (`FFTwice`).
- The view that is sent is meant to keep the latest results. Without a summary it ends with the last
  round word for word, but for a cut of its reasoning, exactly if no superseded command in front of the
  window has the id of one of that round's results, one that is not the marker already
  (`PipelineKeepsEnd`, `ViewEndsCut`); ids that no earlier call has are enough (`FreshViewEndsCut`). Ids
  that a run synthesises repeat in the next run, and then a result just returned may be replaced by the
  marker for a superseded one (`ReusedIdLosesLastResult`). A summarised view always ends so
  (`FittedFollows`).
- Folding repeated shell commands twice is folding them once exactly if no kept run reads like the marker
  while a folded one stands behind it (`DedupShellIdempotentIff`); `MarkerRunFoldsTwice` is such a run.
- An edit without `replace_all` is documented to need a unique match, but matches are counted without
  overlaps. One counted match means one occurrence in every file exactly if the searched text has no
  border (`CountedOnceIsUnique`).
- A session record that lacks only its newline after a crash is loaded, but the next append heals it
  away. Exactly then does healing change what loading returns, unless the messages are unpaired with the
  record and without it (`HealingDropsTheUnterminated`). If the record is a tool result, the session
  loads before it is healed and fails afterwards, for want of that result (`HealingBreaksASession`).
- Usage reported before a compaction is meant to be ignored after it. It is, exactly if every report
  kept in the view is stamped before the summary (`OldUsageForgotten`); then nothing forces the next step
  (`NoForceFromOldUsage`) and the gate sees the local estimate (`ThresholdAfterSummary`). An answer of the
  same millisecond, or a clock set back, brings old usage back (`LateStampKeepsOldUsage`). "Not older than
  the last summary" means "not older than any summary" exactly if the last summary is the newest one
  (`AnchorIsFreshIff`).
- A response whose calls share an id after naming cannot be recorded in a form that the validator
  accepts (`BlockPairedIffDistinct`); `NamedDistinctIff` says which responses those are. The theorem
  about `Run` assumes there are none.
- After a hook panics among the calls of a step, and only then, the new messages of the step are not well
  paired: they end in a block that breaks off (`FinishStep`, `BrokenOffBlock`). The transcript itself stays
  block-structured.
- `ValidateToolPairing` accepts transcripts in which another message stands between a call and its
  result (`PairedNeedNotBeBlockStructured`).

## Model

| member | source | states |
|---|---|---|
| `Transcript.ValidateToolPairing` | miniagent/message.go:64-86 | accepts a transcript exactly if, id by id, calls and results strictly alternate and nothing stays open |
| `Transcript.OpenCalls` | miniagent/message.go:68-74 | an assistant's calls enter the pending set, or one of them is a duplicate and no continuation can be accepted |
| `Transcript.AcceptsIffAlternates` | miniagent/message.go:64-86 | the one-pass pending set decides the id-by-id alternation, from any pending set |
| `Transcript.BlockStructuredIsPaired` | miniagent/message.go:59-86 | block structure implies that the validator accepts |
| `Transcript.PairedNeedNotBeBlockStructured` | miniagent/message.go:64-86 | the converse fails: a concrete accepted transcript without block structure |
| `Transcript.BlockPairedIffDistinct` | miniagent/tool_handler.go:14-80 | an assistant message with its results in order is accepted exactly if its call ids are distinct |
| `Transcript.BrokenOffBlock` | miniagent/loop.go:39-59 | behind complete blocks the first k messages of a block are well paired exactly if they are the whole block |
| `Transcript.BlockStructuredConcat` | miniagent/tool_handler.go:14-80 | appending whole blocks keeps block structure |
| `Transcript.SameShapeKeepsBlocks` | miniagent/compaction/budget.go:174-202 | rewriting only reasoning, arguments and result contents keeps block structure |
| `Rounds.SplitRounds` | miniagent/compaction/compaction_split.go:192-214 | the accumulating loop computes the recursive division into rounds |
| `Rounds.FlattenRounds` | miniagent/compaction/compaction_split.go:216-222 | joins the rounds in order |
| `Rounds.FlattenRoundsOf` | miniagent/compaction/compaction_split.go:192-222 | flatten(splitRounds(m)) = m for every transcript, and no round is empty |
| `Rounds.RoundsAreBlocks` | miniagent/compaction/compaction_split.go:192-214 | in a block-structured transcript every round is one self-paired block |
| `Rounds.RoundsOfFlatten` | miniagent/compaction/compaction_split.go:192-222 | splitRounds(flatten(r)) = r for every list of blocks |
| `Rounds.FlattenBlocks` | miniagent/compaction/compaction_split.go:216-222 | any list of blocks joins to a block-structured transcript |
| `Rounds.BlockSuffix` | miniagent/compaction/split.go:19-26 | cutting in front of a message that is not a tool result keeps block structure |
| `Rounds.ApplyCompactionBarrier` | miniagent/compaction/split.go:19-26 | returns the transcript from its last summary on, or all of it if there is none |
| `Rounds.CompactHistory` | miniagent/compaction/compaction_split.go:226-234 | the lossy fallback: the first round and the last keepRecent ones, or everything |
| `Rounds.TrimRecentRounds` | miniagent/compaction/compaction_split.go:238-265 | the last keepRecent rounds, with the latest summary put back in front if it would be lost |
| `Estimate.CountCharsLocal` | text/text.go:23-33 | counts wide and other characters, every character once |
| `Estimate.WideIs` | text/text.go:23-33 | the wide characters counted are those at the places that hold one |
| `Estimate.TruncateHeadTailBounds` | text/text.go:65-79 | what head-tail truncation keeps, that it keeps both ends, and how long the result can be |
| `Estimate.EstimateTokens` | miniagent/policy/estimate.go:37-63 | a quarter of the narrow and half of the wide characters, plus 400, 4 a message, 20 a call, and the schemas |
| `Estimate.TextParts` | miniagent/policy/estimate.go:43-58 | a message counts with its content, reasoning, reasoning state and the arguments of each call |
| `Estimate.SchemaTokensCompute` | miniagent/policy/estimate.go:73-97 | the tool schemas' share of the estimate |
| `Estimate.SchemaTextIs` | miniagent/policy/estimate.go:73-97 | the schemas count as one joined text, and not at all as text if one of them does not encode |
| `Estimate.MarginalSlack` | miniagent/compaction/budget_tail.go:82-84 | for k rounds, the marginal estimates sum to at most the whole estimate less its fixed overhead, which exceeds the sum by at most 3k/4 + k/2, both rounded down |
| `Estimate.MarginalSlackTight` | miniagent/compaction/budget_tail.go:82-84 | that bound is reached for every k |
| `Estimate.RequestSlack` | miniagent/policy/estimate.go:37-63 | the same bound with a system prompt and tools |
| `Passes.WindowStartOf` | miniagent/compaction/history_dedup.go:26-40 | the first index of the retention window: exactly the messages before it have keepN assistants at or after them |
| `Passes.OutsideIs` | miniagent/compaction/history_dedup.go:26-40 | a message is outside the window exactly if at least keepN assistant messages follow it |
| `Passes.StripStaleReasoning` | miniagent/compaction/history_reasoning.go:22-55 | P1: reasoning is removed from exactly the assistants outside the window |
| `Passes.TruncateKeptReasoning` | miniagent/compaction/history_reasoning.go:71-110 | P7: long reasoning is shortened exactly inside the window |
| `Passes.StripStaleToolArgs` | miniagent/compaction/history_args.go:24-87 | P4: the compressor is applied to exactly the large-argument calls outside the window whose scan finds something to compress |
| `Passes.CompressChangesIffLarge` | miniagent/compaction/history_args.go:95-173 | arguments change under compression exactly if the pre-scan finds a large field |
| `Passes.CompressesTo` | miniagent/compaction/history_args.go:128-173 | exactly the texts of more than 600 characters in the named fields become their first 200 and the marker; every other field stays |
| `Passes.CompressKeepsPath` | miniagent/compaction/history_args.go:128-173 | compression keeps the path and every other field, is idempotent, and leaves no large field |
| `Codes.ArgCodecExists` | miniagent/compaction/history_args.go:128-173 | the law asked of the argument codec can be met: with numbers as float64 and texts of any characters there is a codec that reads every object back as written |
| `Passes.ReadKeyInjective` | miniagent/compaction/history_dedup_read.go:16-80 | the composed read key tells any two (path, offset) pairs apart |
| `Dedup.CollectKeys` | miniagent/compaction/history_dedup_read.go:16-40 | collects each call's key by its id |
| `Dedup.DedupReadResults` | miniagent/compaction/history_dedup_read.go:16-80 | P6: a result is folded exactly if it is outside the window and a later result has its key |
| `Dedup.SuccessWriteEditPaths` | miniagent/compaction/history_dedup.go:103-130 | lists, for every path, exactly the messages with a write or edit of it that did not fail |
| `Dedup.FoldStaleReadResults` | miniagent/compaction/history_dedup_read.go:92-140 | P11: a read result is folded exactly if it is outside the window and its path is written later |
| `Dedup.FoldStaleWriteEditArgs` | miniagent/compaction/history_dedup.go:140-205 | P8': a write's arguments are folded exactly if it is outside the window and its path is written later |
| `Dedup.ListShellCalls` | miniagent/compaction/history_dedup_shell.go:17-116 | the list of keyed shell calls is complete and in transcript order |
| `Dedup.DedupShellCommands` | miniagent/compaction/history_dedup_shell.go:17-116 | P9b: a command and its result are folded exactly if outside the window and the command runs again later |
| `Strips.ApplyContextStrips` | miniagent/compaction/budget.go:174-202 | the seven passes in their order; length, roles, ids, names and pairing are kept |
| `Strips.ReadFoldedIff` | miniagent/compaction/history_dedup_read.go:16-80 | in terms of reads: with unique ids a read of (path, offset) is folded iff it is outside the window and the same is read later, so the newest result stays verbatim |
| `Strips.DedupReadIdempotent` | miniagent/compaction/history_dedup_read.go:16-80 | P6 applied twice is P6 applied once |
| `Strips.WritesToIff` | miniagent/compaction/history_dedup.go:103-130 | a message counts as writing a path iff one of its calls does and the answer to that call is not an error |
| `Strips.StaleReadFoldedIff` | miniagent/compaction/history_dedup_read.go:92-140 | P11 folds a read before the window iff a later successful write to its path exists |
| `Strips.FoldReadsIdempotent` | miniagent/compaction/history_dedup_read.go:92-140 | P11 applied twice is P11 applied once |
| `Strips.NewestWriteKept` | miniagent/compaction/history_dedup.go:140-205 | P8' folds a write outside the window iff a later successful write to the path exists; so never the newest one |
| `Strips.FoldWritesIdempotent` | miniagent/compaction/history_dedup.go:140-205 | P8' applied twice is P8' applied once |
| `Strips.LastRunKept` | miniagent/compaction/history_dedup_shell.go:17-116 | P9b folds a command together with its result iff it is outside the window and runs again later; the last run keeps both |
| `Strips.DedupShellIdempotentIff` | miniagent/compaction/history_dedup_shell.go:17-116 | P9b applied twice is P9b applied once exactly if no kept run in front of the window reads like the marker while a folded call stands behind it |
| `Strips.MarkerRunFoldsTwice` | miniagent/compaction/history_dedup_shell.go:17-116 | such a run: a first command that is the marker itself, another that runs twice behind it; P9b then changes its own output |
| `Strips.ShellWindowIff` | miniagent/compaction/history_dedup_shell.go:17-116 | P9b changes a message of the window exactly if it is a result that shares its id with a superseded call in front of the window |
| `Strips.ShellWindowKept` | miniagent/compaction/history_dedup_shell.go:17-116 | with unique ids there is no such result: P9b leaves every message of the retention window as it is |
| `Strips.PipelineKeepsEnd` | miniagent/compaction/budget.go:174-202 | all seven passes together leave the last round as it is, but for the cut of its reasoning, exactly if no superseded command in front of the window has the id of one of its results (one that is not the marker already); the condition reads the input only |
| `Strips.FreshIsNotStale` | miniagent/compaction/history_dedup_shell.go:17-116 | ids that no earlier call has are enough for that |
| `Strips.ReusedIdLosesLastResult` | miniagent/compaction/budget.go:174-202 | a transcript where it fails: with the default settings, three runs of one command under one id lose the newest result |
| `Tail.JointBudgetFits` | miniagent/compaction/budget_tail.go:57-77 | a positive joint budget, the request's fixed part, the head and the summary fit the target together |
| `Tail.ShrinkRoundToolContents` | miniagent/compaction/split.go:114-136 | only the tool contents of an over-budget round change, each cut to the scaled length |
| `Tail.ShrunkKeepsShape` | miniagent/compaction/split.go:114-136 | shrinking keeps roles, ids and pairing |
| `Tail.SplitOrShrinkToRound` | miniagent/compaction/split.go:97-106 | returns the shrunk round exactly if it then fits what remains of the budget |
| `Tail.SelectTailByTokens` | miniagent/compaction/split.go:37-88 | middle and tail are the rounds in order except for at most one shrunk boundary round; the last round is verbatim in the tail, at most maxTurns rounds are kept, their marginals sum to at most max(budget, last round), and no further round could have been kept |
| `Tail.CutPartition` | miniagent/compaction/split.go:37-88 | middle ++ tail has the shape of the flattened rounds: nothing is lost, repeated or reordered |
| `UsageAnchor.LastApplicableUsageIndex` | miniagent/compaction/compaction_split.go:105-121 | the early-exit backward scan finds the last assistant with usage not older than the last summary |
| `UsageAnchor.AnchorIsFreshIff` | miniagent/compaction/compaction_split.go:105-121 | "not older than the last summary" is "not older than any summary" exactly if the last summary is the newest |
| `UsageAnchor.SortedStampsSuffice` | miniagent/compaction/compaction_split.go:105-121 | non-decreasing summary stamps are enough for that |
| `UsageAnchor.OldUsageForgotten` | miniagent/compaction/compaction_split.go:105-136 | with a last summary in the view no old usage is used exactly if every usage report kept is stamped before that summary |
| `UsageAnchor.NewUsageAnchors` | miniagent/compaction/compaction_split.go:105-136 | the next answer's usage is used at once |
| `UsageAnchor.LateStampKeepsOldUsage` | miniagent/compaction/compaction_split.go:105-121 | any kept answer stamped at or after the summary, in the same millisecond or by a clock set back, is used again, or a later one is |
| `UsageAnchor.EstimateTokensFromUsage` | miniagent/compaction/compaction_split.go:126-136 | the anchor's usage plus the estimate of exactly the messages after it |
| `UsageAnchor.EstimateThreshold` | miniagent/compaction/compaction_split.go:139-146 | with real usage asked for, the estimate from the anchor if there is one; otherwise the local estimate |
| `UsageAnchor.ThresholdAfterSummary` | miniagent/compaction/compaction_split.go:139-146 | after a compaction the gate sees the local estimate exactly if all kept reports are older than the summary, else a report as late as the summary is part of it |
| `UsageAnchor.ForceNotBelowGate` | miniagent/compaction/compaction_split.go:175-181 | the forced threshold lies between 4/5 of the window and the window |
| `Compaction.CompactWithSummary` | miniagent/compaction/split.go:157-231 | either nothing changes, for a stated reason, or the result is the first round (unless it is a summary), one message with the model's answer about the stripped middle, and the selected tail; the text of a summary that is the whole first round is handed on to the model, and nothing else is; on a block-structured transcript only callbacks or a lack of rounds prevent it |
| `Compaction.AskForSummary` | miniagent/compaction/split.go:199-220 | the model for compactions is asked about the fully stripped middle, with the prompt and the lines that the hook gives, and with the previous summary as text |
| `Compaction.MiddleOfBlocks` | miniagent/compaction/split.go:178-198 | the middle that is summarised is never empty and always well paired |
| `Compaction.SummaryRoundTrip` | miniagent/compaction/split.go:179-226 | the text put into a summary message is recovered from it as the next summary's predecessor |
| `Compaction.PreviousHandsOn` | miniagent/compaction/split.go:179-189 | if the first round is one summary message, its text is handed on; a first round of anything else hands on nothing |
| `Compaction.CompactedFits` | miniagent/compaction/split.go:177-230 | with room for the last round and a summary cap of at least 2 the result is estimated at most at 4/5 of the window, plus 27, plus a slack linear in the kept rounds |
| `Compaction.DerivedCompactionFits` | miniagent/compaction/assemble.go:222-246 | the same bound with the derived summary cap and the text cut to it, whatever the model answers |
| `Views.TrimFollows` | miniagent/compaction/compaction_split.go:238-265 | the final trim keeps block structure, the one summary, and the last round word for word |
| `Views.ViewEndsCut` | miniagent/compaction/budget.go:174-202 | a stripped view of a block-structured transcript ends with the transcript's last round, its reasoning cut and nothing else changed, exactly if no superseded command in front of the window has the id of one of its results (one that is not the marker already) |
| `Views.FreshViewEndsCut` | miniagent/compaction/budget.go:174-202 | ids in the last round that no earlier call has are enough for that |
| `Views.UniqueIsFresh` | miniagent/tool_handler.go:15-21 | unique call ids give ids in the last round that no earlier call has |
| `FitHistory.LossyFollows` | miniagent/compaction/compaction_split.go:226-234 | the lossy fallback keeps block structure, the head and the summary count |
| `FitHistory.LossyEnds` | miniagent/compaction/compaction_split.go:226-234 | the lossy fallback keeps the last round word for word |
| `FitHistory.CompactedFollows` | miniagent/compaction/split.go:157-231 | a compacted transcript is block-structured and holds exactly the new summary |
| `FitHistory.CompactedEnds` | miniagent/compaction/split.go:157-231 | a compacted transcript ends with the last round word for word, and that round stands behind the summary |
| `FitHistory.StripTailReasoning` | miniagent/compaction/budget.go:126-143 | exactly the two reasoning passes on what follows the first summary; everything up to it stays |
| `FitHistory.CompactOrTrim` | miniagent/compaction/budget.go:108-143 | the transcript compacted around the model's answer, with its tail's reasoning stripped and the usage of that call, or else, for a stated reason, the stripped lossy cut |
| `FitHistory.FittedFollows` | miniagent/compaction/budget.go:112-143 | summarised or trimmed, the result is block-structured, holds the one summary it should and ends with the last round unchanged but for the cut of its reasoning: always after a summary, otherwise exactly if P9b finds no stale result in the last round of what was stripped |
| `FitHistory.Commit` | miniagent/compaction/budget.go:108-158 | a commit is the fitted transcript, trimmed to the recent rounds exactly if it is over the line, and an error exactly if it still is |
| `FitHistory.FitHistory` | miniagent/compaction/budget.go:79-159 | every branch returns a block-structured view that holds exactly the new summary, else the old one, and ends with the most recent round unchanged but for the cut of its reasoning: always after a summary, otherwise exactly if P9b finds no stale result in the last round of what was stripped; it compacts exactly when forced or over the line, and what it then commits |
| `FitHistory.Before` | miniagent/compaction/compacting.go:106-130 | the hook's output: the view ends with the transcript's last round unchanged but for the cut of its reasoning: always after a summary, otherwise exactly if P9b finds no stale result in the last round of what was stripped; a committed one fits the window, a summary is persisted iff one was made; silent overflow forces a compaction, and nothing else but a view over the line leads to one; output, usage and error are those of fitting the barriered transcript |
| `FitHistory.NoForceFromOldUsage` | miniagent/compaction/compacting.go:106-113 | a step is never forced by reports older than the last summary |
| `FitHistory.FitMeetsStepPromise` | miniagent/compaction/compacting.go:118-130 | what FitHistory promises about the barriered transcript carries over to the transcript itself |
| `FitHistory.BarrierFollows` | miniagent/compaction/split.go:19-26 | the barrier keeps block structure and the last round word for word |
| `Loop.MergePersisted` | miniagent/loop_extra.go:144-162 | the persisted messages come first; of the new ones exactly those of other kinds stay, in order |
| `Loop.WithoutKindsKeeps` | miniagent/loop_extra.go:144-162 | dropping messages of the persisted kinds keeps exactly the others, in order |
| `Loop.WithoutSummaries` | miniagent/loop_extra.go:144-162 | dropping superseded summaries keeps block structure |
| `Loop.SynthIdInjective` | miniagent/tool_handler.go:15-21 | synthesised ids differ for different steps or positions |
| `Loop.NamedDistinctIff` | miniagent/tool_handler.go:15-21 | the ids after synthesis are distinct iff the given ones are and none of them is a synthesised one |
| `Loop.CallBlockIsBlock` | miniagent/tool_handler.go:14-88 | the assistant message with its results or placeholders is one block |
| `Loop.NotifyUses` | miniagent/tool_handler.go:25-38 | every use is announced unless a hook fails, exactly the refused ids are denied, and a failure is the one of the first hook that fails |
| `Loop.SubmitResults` | miniagent/tool_handler.go:46-79 | results are announced and shaped in order; it stops early only for a hook error or panic at that index, says which, and after a panic a result is always missing |
| `Loop.HandleToolCalls` | miniagent/tool_handler.go:14-80 | whatever a hook does, one whole block is appended: the answer with its calls, under each call what its tool returned for it (as shaped), and errors that say so from the failing index on; it goes on exactly if every hook lets everything pass, and else says which failed; after a panic the transcript is untouched and the new messages break off inside the block |
| `Loop.BlockRecords` | miniagent/tool_handler.go:14-88 | the block holds result i under call i, by id, text and error flag, and a placeholder under each call from the failing index on |
| `Loop.FillPlaceholderTail` | miniagent/tool_handler.go:84-88 | the placeholders complete the block from the given index |
| `Run.CallLLM` | miniagent/loop_extra.go:15-69 | at most one more request, without thinking, exactly when the first answer was burned by thinking; the answer is what the model says to the last of the requests, and each is counted and kept |
| `Run.ApplyBeforeLLM` | miniagent/loop_extra.go:108-139 | an output is folded into the loop's state as a whole (view, commit, persisted messages, usage, flag), an empty view never replaces the transcript, a failure changes nothing and is passed on as it is, and everything stays block-structured |
| `Run.RecordStepUsage` | miniagent/loop_extra.go:178-190 | adds the reported usage, lets the budget hook replace the sum, and goes on only if that hook agrees; its refusal is passed on as it is |
| `Run.CallWithRecovery` | miniagent/loop.go:148-177 | one model call on what it is given, and a second one on the recovered transcript exactly if the first failed and the hook asks for it; which answer or which failure comes back |
| `Run.Step` | miniagent/loop.go:125-210 | the first request is the view the hook made, or the transcript; a step adds its last answer, with a result under each call, and that answer's usage to what the hooks made of the state, and nothing else; why it ends with an error and with how many steps; a cancelled step calls nothing; the transcript stays sound |
| `Run.FinishStep` | miniagent/loop.go:193-202 | a step ends the run exactly if its answer has no calls, and then reports that answer's text and records it with its reasoning and usage; otherwise it appends one block, or fails for a failing hook; the new messages are well paired exactly if no hook panicked |
| `Run.SummarizeAtLimit` | miniagent/loop.go:79-123 | at the limit the request is the transcript with the internal message behind it, which never enters the transcript; at most the answer does, and it is accounted for whether it is used or not |
| `Run.Iterate` | miniagent/loop.go:125-218 | the loop over steps: bounds on steps and calls, what holds when it is over (answer, usage, thinking, transcript), and why it ends with an error; a cancellation is never reported as reaching the limit |
| `Run.Run` | miniagent/loop.go:20-219 | on every exit the transcript is block-structured and accepted by the validator; a stop reports, and records last with reasoning and usage, exactly what the model said to the last request; without rewriting hooks the transcript is the history, the prompt and what followed; requests are calls plus one if downgraded, at most 2 * limit + 2; the usage is the sum over the answers used, one a step, where neither compaction nor a budget hook has a say, and within a guarded limit; an error has one of the stated causes; every request is well paired if the views of BeforeLLM are |
| `Policy.TrimHistoryForContext` | miniagent/policy/history_util.go:24-38 | the loop trims every message as specified |
| `Policy.TrimmedHistory` | miniagent/policy/history_util.go:24-38 | trimming deletes no message, clears reasoning, cuts every tool result to the configured length (2000 by default) and keeps transcripts sound |
| `Policy.EstimateResponseTokens` | miniagent/policy/estimate.go:101-120 | the estimate of a response is that of its joined text |
| `Policy.BudgetPolicy.OnBudget` | miniagent/policy/loop_hooks_default.go:40-69 | each side reported as zero is estimated, and the run is stopped exactly if the total then exceeds a positive limit |
| `Policy.DefaultsAreSafe` | cmd/miniagent/emit.go:61-84 | the hooks as the command assembles them, compaction included, meet what the theorem about Run assumes |
| `Policy.StepShowsLastRound` | cmd/miniagent/emit.go:61-84 | what a step of the assembled run sends is well paired, fits the window when it was compacted, and ends with the transcript's last round unchanged but for the cut of its reasoning: always after a summary, otherwise exactly if P9b finds no stale result in the last round of what was stripped |
| `Policy.RunAssembled` | cmd/miniagent/emit.go:61-84 | a run with the assembled hooks sends only well-paired requests, returns a well-paired transcript on every exit, reports what the model said to its last request, and without error stays within a positive token limit |
| `ToolsParallel.EveryInterleaving` | miniagent/loop_tools.go:41-81 | in every interleaving at most `parallel` tools are in flight and every slot is written at most once and by its own call, exactly once on return |
| `ToolsParallel.CancelledNeverRuns` | miniagent/loop_tools.go:59-74 | a call that has not passed its first look at the context when it is cancelled never runs its tool |
| `ToolsParallel.StepsGetNearer` | miniagent/loop_tools.go:41-81 | every step that changes anything lowers the measure |
| `ToolsParallel.NeverStuck` | miniagent/loop_tools.go:41-81 | until the function returns some step other than a cancellation is possible |
| `ToolsParallel.Terminates` | miniagent/loop_tools.go:41-81 | in every schedule at most 5n + 2 steps do something, and it comes to rest, cancellation apart, exactly when it has returned, with every slot written once |
| `ToolsParallel.SlotsInCallOrder` | miniagent/loop_tools.go:41-81 | in every schedule the slots returned are the results of the calls in call order: refused, unknown, cancelled, or what the call's own tool returned; without a cancellation every dispatched call has run its tool |
| `ToolsParallel.LoopGetsTheSlots` | miniagent/tool_handler.go:39-48 | the results the loop is given are the slots any schedule returned, and the message recorded under each call shows that call's slot |
| `ToolsParallel.ScheduleDoesNotMatter` | miniagent/loop_tools.go:41-81 | two schedules without a cancellation return the same results |
| `TurnBus.SubscriberGetsARun` | cmd/miniagent/web_bus.go:141-202 | in every interleaving a subscriber's replay and lines are one contiguous run of the log, reaching its newest line while open, the turn's end if closed by it, and missing a line if cut for lagging |
| `TurnBus.SubscriptionStart` | cmd/miniagent/web_bus.go:180-195 | in every interleaving a subscription starts at the oldest line that the buffer still holds |
| `TurnBus.EndClosesAll` | cmd/miniagent/web_bus.go:104-111 | the end of a turn closes exactly the channels still attached and open |
| `TurnBus.ExecutionSound` | cmd/miniagent/web_bus.go:141-202 | always: the buffer is the last retained lines, dropped + buffered = all, and no channel is sent on or closed after it was closed |
| `TurnBus.LogIsTheStream` | cmd/miniagent/web_bus.go:141-176 | the lines depend only on the bytes written, whatever the splitting and whatever subscribers do |
| `TurnBus.WriteSplits` | cmd/miniagent/web_bus.go:141-176 | writing a payload in two parts is writing it at once, channels included |
| `TurnBus.TurnEntry.Write` | cmd/miniagent/web_bus.go:141-176 | the in-place loop does the specified step and keeps the invariant |
| `TurnBus.TurnEntry.FanOut` | cmd/miniagent/web_bus.go:160-173 | one line to every subscriber in any order; those that lag by 256 lines are cut; only open channels are touched |
| `TurnBus.TurnEntry.Subscribe` | cmd/miniagent/web_bus.go:180-195 | hands out the retained lines, headed exactly if lines were evicted by a marker naming their count, with a channel that starts behind the evicted lines and carries on where the retained ones end |
| `TurnBus.TurnEntry.Leave` | cmd/miniagent/web_bus.go:197-202 | removes the subscriber and closes nothing |
| `TurnBus.TurnEntry.Close` | cmd/miniagent/web_bus.go:104-111 | closes every remaining channel at the log's end |
| `Newlines.LinesJoin` | cmd/miniagent/web_bus.go:144-159 | dividing bytes into lines and a rest loses nothing |
| `Newlines.LinesConcat` | cmd/miniagent/web_bus.go:144-159 | cutting the stream between two writes changes neither lines nor rest |
| `Newlines.LinesWhole` | cmd/miniagent/web_bus.go:144-159 | every line is whole and the rest holds no newline |
| `TurnRegistry.HeldOnceClosedOnce` | cmd/miniagent/web_bus.go:69-112 | in every interleaving of reservations and the two halves of finish, a session holds at most one entry and no done channel is closed twice |
| `TurnRegistry.SlotIsKept` | cmd/miniagent/web_bus.go:69-112 | a reserved slot refuses every other reservation until a finish takes it |
| `TurnRegistry.TurnSlots.Reserve` | cmd/miniagent/web_bus.go:69-90 | busy exactly if an entry of the session is held; otherwise the new entry is held |
| `TurnRegistry.TurnSlots.Detach` | cmd/miniagent/web_bus.go:96-103 | takes the session's entry, which is then not yet closed and in nobody else's hands |
| `Utf8.Utf8FullRune` | miniagent/tools/run_limited.go:91-117 | true exactly if the bytes end with a leading byte and just the tail bytes that it announces |
| `Utf8.RuneLenIff` | miniagent/tools/run_limited.go:68-84 | decoding finds a character exactly where the encoding of a Unicode scalar value stands |
| `Utf8.CutPoint` | miniagent/tools/run_limited.go:41-48 | cuts at the last rune boundary but holds back at most four bytes, and no character of the stream, whatever follows, reaches over the cut |
| `Utf8.EscapeSplits` | miniagent/tools/run_limited.go:28-63 | a safe cut divides the rendering: it does not depend on how the stream is cut up |
| `Utf8.ValidSplits` | miniagent/tools/run_limited.go:28-63 | a safe cut of valid text leaves two valid texts |
| `Utf8.EscapeNonUTF8` | miniagent/tools/run_limited.go:68-84 | the loop with its fast path renders as specified |
| `Utf8.EscapeIs` | miniagent/tools/run_limited.go:68-84 | encoded characters are kept, and a byte that begins none is written in hexadecimal |
| `Utf8.EscapeKeepsExactlyValid` | miniagent/tools/run_limited.go:68-84 | valid UTF-8 is kept as it is, and nothing else is |
| `Utf8.EscapeIsValid` | miniagent/tools/run_limited.go:68-84 | what is shown is always valid UTF-8 |
| `Utf8.EscapeDeterminesIff` | miniagent/tools/run_limited.go:50-52 | no other stream is rendered the same way exactly if the stream is valid and holds nothing that looks like an escaped byte |
| `Utf8.FFTwice` | miniagent/tools/run_limited.go:50-52 | the shortest failing pair: the byte 0xFF and the text "FF " are shown alike |
| `Output.DrainPipe` | miniagent/tools/run_limited.go:35-63 | for any bytes in any reads the chunks written join to the rendering of the whole stream; valid UTF-8 comes through unchanged in chunks that are each valid |
| `Output.OutputAccum.Write` | miniagent/tools/output_accum.go:57-93 | after every write the chunks are the window over everything written, with its counters and `cut` |
| `Output.OutputAccum.Evict` | miniagent/tools/output_accum.go:84-91 | evicts the oldest chunks just until the rest fits or one is left |
| `Output.WindowUnique` | miniagent/tools/output_accum.go:51-93 | the window is determined by the chunks written: the longest suffix that fits, or the last chunk |
| `Output.OutputAccum.Finalize` | miniagent/tools/output_accum.go:125-137 | shows a tail of the output, all of it unless something was evicted, and says so if it was |
| `ToolFragments.AcceptedIff` | provider/openai/stream_parse.go:144-232 | fragments are accepted exactly if no index mixes two ids or two names and the byte limit is kept; each call is then assembled from its index's fragments alone |
| `ToolFragments.CallsInOrder` | provider/openai/stream_parse.go:235-249 | the response's calls come in strictly ascending index, one for each index that occurs |
| `ToolFragments.FragmentsOfIndex` | provider/openai/stream_parse.go:184-222 | the fragments of an index are exactly the pieces that carry it, in the order they came in |
| `ToolFragments.AssembledArgs` | provider/openai/stream_parse.go:216-221 | a call's arguments are those of its fragments, joined in that order |
| `ToolFragments.InterleavingInvariant` | provider/openai/stream_parse.go:184-249 | the interleaving of indices and text changes neither the calls nor, for the same amount of text, acceptance |
| `ToolFragments.StoredWithinLimit` | provider/openai/stream_parse.go:226-232 | stored bytes never exceed the counted ones, nor those 4 MiB |
| `Stream.StreamAccum.GuardAdd` | provider/openai/stream_parse.go:226-232 | counts the bytes exactly if they fit the limit |
| `Stream.StreamAccum.AddFragment` | provider/openai/stream_parse.go:184-221 | accepts a fragment exactly when the specification does and merges it into its index |
| `Stream.Apply` | provider/openai/stream_parse.go:144-223 | a chunk's text goes into the response and to the caller alike; it fails only for a refused piece or a refusing callback |
| `Stream.ParseSSE` | provider/openai/stream_parse.go:83-142 | on success, and beside the dropped-connection and parse errors, the deltas handed out join to the text and reasoning of the response, which holds the calls, usage and finish reason of the chunks; which streams count as terminated; which failure comes back and with which response; reading stops at the first delta that the caller refuses |
| `Stream.ChunksAre` | provider/openai/stream_parse.go:86-124 | payloads are applied in order up to the end marker, a payload that does not parse or an error chunk, and nothing behind it counts |
| `Stream.LastOneCounts` | provider/openai/stream_parse.go:144-156 | usage and finish reason are the last ones that a chunk gives |
| `Stream.TextGrows` | provider/openai/stream_parse.go:157-183 | each chunk adds its first choice's content to the text, and its reasoning, under either name, to the reasoning |
| `Stream.PayloadOf` | provider/openai/stream_parse.go:89-106 | which lines carry a payload, which end the stream and which are skipped |
| `Stream.DoStream` | provider/openai/stream.go:97-224 | after any retries the caller has seen the deltas of one attempt only, none behind one it refused, and on success they join to exactly the text and reasoning of the response; a relaxed success needs the opt-in, a truncated one a transient failure behind what was shown; it retries just the retryable failures that showed nothing; which failure comes back, in particular context-length and thinking errors exactly for their statuses |
| `Stream.WhatIsTransient` | provider/openai/stream.go:234-243 | read errors and answers without choices are transient unless the context ended them |
| `Session.LoadSession` | miniagent/session/session.go:58-133 | the line loop decides as specified: torn last line tolerated, torn line before others reported, pairing checked at the end |
| `Session.LoadLog` | miniagent/session/session.go:58-133 | a log cut anywhere is loaded to its whole messages, or reported as not paired |
| `Session.CorruptInside` | miniagent/session/session.go:84-129 | a line that is no JSON is tolerated exactly if only blank lines follow it |
| `Session.BadLine` | miniagent/session/session.go:107-124 | a metadata or message line that does not parse, or a message that may not be loaded, fails the load wherever it stands |
| `Session.NeverCorrupt` | miniagent/session/session.go:169-263 | after any number of appends, each cut at any byte, loading never reports corruption |
| `Session.OneCrash` | miniagent/session/session.go:169-230 | one append cut at any byte leaves the old messages and a whole-message prefix of the new ones; uncut, all of them |
| `Session.HealingDropsTheUnterminated` | miniagent/session/session.go:236-263 | healing keeps the whole lines, and changes what loading returns exactly if the torn record lacks only its newline and the messages are paired with it or without it |
| `Session.HealingBreaksASession` | miniagent/session/session.go:236-263 | a file whose last line is a tool result without its newline loads, and fails to load as unpaired once it is healed |
| `Codes.SessionCodecExists` | miniagent/session/session.go:58-133 | the law asked of the session codec can be met |
| `Session.SessionFile.EnsureTrailingNewline` | miniagent/session/session.go:236-263 | cuts the file after its last newline and nowhere else |
| `Session.SessionFile.AppendMessages` | miniagent/session/session.go:169-230 | heals and appends every message on a line of its own, also when the process dies in the middle; refused exactly over the limit, before healing or for what would be written, and then nothing is written |
| `Session.PendingText` | miniagent/session/session.go:191-214 | what is written: the metadata line in an empty file only, tagged, and then each message on its line, in order |
| `Session.SessionFile.RewriteMessages` | miniagent/session/session_rewrite.go:18-75 | the file holds the old text or the new one, refused exactly over the limit |
| `Session.RewriteRoundTrip` | miniagent/session/session_rewrite.go:18-75 | loading a rewritten file gives back the same messages exactly if they are loadable and paired, the tag is right and the size is within the limit |
| `Edit.CheckEditSize` | miniagent/tools/tool_edit.go:166-176 | the estimate and its comparison with the limit |
| `Edit.ApplyOne` | miniagent/tools/tool_edit.go:178-193 | a result joins the text between the matches by the new string, has exactly the estimated length and keeps the limit; without replace_all there was one match; each refusal exactly under its condition |
| `Edit.GapsJoin` | miniagent/tools/tool_edit.go:181-193 | the content is the text between the matches joined by the searched string |
| `Edit.ReplaceAllJoins` | miniagent/tools/tool_edit.go:189-192 | replacing all joins the same text by the new string |
| `Edit.GapsLeftmost` | miniagent/tools/tool_edit.go:181-193 | the matches are the leftmost ones that do not overlap |
| `Edit.ReplaceLength` | miniagent/tools/tool_edit.go:163-176 | n replacements change the length by n times the difference |
| `Edit.CountedOnceIsUnique` | miniagent/tools/tool_edit.go:178-193 | a count of one means a single occurrence in every content exactly if the searched string has no border |
| `Edit.ApplyEdits` | miniagent/tools/tool_edit.go:236-271 | the edits are applied in order, each to the result before it, and the first that fails is reported with its place; the content after each edit keeps the limit |
| `EditLocks.NoLostUpdate` | miniagent/tools/tool_edit.go:25-44 | in every interleaving each file is its first content with the successful edit lists applied one after the other in the order of lock acquisition |
| `EditLocks.EveryWriteIsLogged` | miniagent/tools/tool_edit.go:118-127 | a call is in the log exactly if its write succeeded, once, under its own path |
| `EditLocks.FailsForAReason` | miniagent/tools/tool_edit.go:100-127 | in every interleaving a call that has not written gave up, or its file was missing, or at some moment too large for it or not matched by its edits |
| `EditLocks.EditedFilesFit` | miniagent/tools/tool_edit.go:241-262 | in every interleaving a file that was edited was within the size limit before, and is within it |
| `EditLocks.Terminates` | miniagent/tools/tool_edit.go:25-44 | in every schedule at most 5n steps do something, and only when every call has finished is there nothing left but giving up: no deadlock |
| `EditLocks.Exclusive` | miniagent/tools/tool_edit.go:118-127 | two calls for one cleaned path are never between lock and unlock together |
| `Glob.MatchSegs` | miniagent/tools/tool_glob.go:144-177 | the backtracking loop with collapsed ** decides the recursive definition, on every path |
| `Glob.Collapse` | miniagent/tools/tool_glob.go:147-150 | consecutive ** mean the same as one, on every path |
| `Glob.MatchIsDivision` | miniagent/tools/tool_glob.go:141-177 | on clean paths it matches exactly if the components can be divided so that each ** takes any number and every other segment matches one |
| `Glob.GlobMatchPath` | miniagent/tools/tool_glob.go:133-139 | a pattern without a slash is matched against the name, any other by division of the components |
| `Glob.SplitJoin` | miniagent/tools/tool_glob.go:151-153 | splitting joined components gives them back |
| `Decimal.ItoaInjective` | miniagent/tool_handler.go:19 | decimal printing tells numbers apart |
| `Decimal.ItoaValue` | miniagent/tool_handler.go:19 | what is printed reads back as the number |

## Left out

- Tail.ShrinkRoundToolContents: the floating-point ratio is any function that yields a length from 1 to the content's; fit is checked again afterwards, in the source and in the model.
- Compaction.CompactWithSummary: building the summary request, its retry on a garbage answer and the prompt texts are one function parameter that yields a text or a failure.
- Strips.ReadFoldedIff: assumes globally unique call ids, as do the statements about which call P8', P9b and P11 fold; synthesised ids repeat between runs.
- Run.Run: assumes distinct call ids in each response after naming, and hooks that keep transcripts sound; DefaultsAreSafe shows that the assembled hooks do. Logging, replay and step metrics are not modelled.
- TurnBus.TurnEntry.Close: closing the channels and closing `done` are one atomic step, so whether a subscriber sees `done` yet when its channel ends is not modelled.
- Session.SessionFile.AppendMessages: a single writer; file locks between processes and renames under a lock are not modelled, nor failing writes other than a cut.
- Session.LoadSession: the line numbers in error messages.
- Stream.ParseSSE: error texts are their fixed parts; the ids and names in the two tool_call errors, the byte limit and the status numbers are left out of them.
- Stream.DoStream: building the request, headers, the lengths of the waits and Retry-After; the context, the endpoint's answers and whether a wait is interrupted are parameters.
- EditLocks.NoLostUpdate: the write tool takes no lock and its race with edits is outside; two cleaned paths that are links to one file count as two files.
- Output.OutputAccum.Finalize: decoding bytes into characters is a parameter; spilling the head to disk is off, as in the only call site.
- Glob.GlobMatchPath: clean relative paths only, as the walk produces them; MatchSegs and Collapse hold for all.
- JSON: call arguments go through a codec with the laws that encoding and decoding need; session records through an injective one-line codec none of whose strict prefixes decodes, on Unicode texts (`Codes` shows that both laws can be met); SSE payloads through a decoding function.
- Unicode tables and strings.TrimSpace: parameters. `filepath.Match` is an opaque predicate, `filepath.Clean` any function.
- The scan in front of P4 that avoids copying when nothing changes is modelled by what it decides; sharing of slices between transcripts is not modelled.
- Integer overflow: counters and token sums are unbounded; the source uses 64-bit integers far from their limits.
- The lifecycle broadcast of the event bus: the same fan-out as for a turn's subscribers, without replay.
- HTTP serving, configuration, model listing, event formatting, prompts, subprocess control, the file read and write tools, grep, and the browser user interface.
