# The harness run loop, modelled and proved

This project models the headless agent run of the harness and the self-contained
algorithms around it, and proves what they keep over every input and every run.

**The run loop** (`Run.dfy` over `State.dfy`, `Budget.dfy`, `Request.dfy`, `LogFile.dfy`,
`Snapshot.dfy`, `Proof.dfy`, `Events.dfy`). `RunCtx`, `LoopState`, `BudgetGuard`,
`LogWriter`, `TreeService` and `Emitter` are classes with the source's fields, and their
methods are the source's steps. Provider answers, tool effects, hooks, the clock and the
cancel flag are arbitrary at every point where the code reads them; the clock never runs
back and the cancel never falls. The predicate `AtHead` is what holds at every loop head,
and is read in parts:

- `Mirrored`: the file is the synced prefix of the in-memory log, although rows are edited in place: exactly, unless
  text was put on a row already written (`drifted`), and then up to that text; every request sent carried, up to free
  text, the fold of the log of that moment from its checkpoint on, and was well paired when that log has distinct call
  ids in every batch (`DistinctLog`), and without a summary only then; and the conversation in the log (answers, calls
  and results) is what the run was told;
- `Lined`: the log is valid and its turns alternate;
- `Paired`: calls and results pair up in the log exactly when every batch so far had distinct call ids;
- `Asked`: each request used up an admission, and none left before the file held the log;
- `Framed`: every frame was emitted with the whole log of that moment on disk, the row it reports in it: the newest
  agent row for a message, a row written since that one for a tool call;
- `Surviving`: counters are those of the calls of surviving batches, and the work tree is what those batches made of
  the start tree, each by its calls or by the fragments that its verdict kept, in every configuration;
- `Sane`: the budget's accounting and the meter's fold.

The writer is open exactly when a log path is configured. `Concluded` is what every finished run leaves behind. Distinct
call ids are not assumed anywhere: whether every batch had them is read off the log (`DistinctLog`), and the pairing
results are stated against that. A repeated id drops its second answer (crates/agent-loop/src/verify.rs:221-227), after
which the log never pairs again; and the file drifts from the log exactly when an answer is dropped while a notice or
directive falls due or waits.

A run also returns the list of its provider rounds. A `Round` has the summarizer's answer, the request, the provider's
answer and the `Batch` that it dispatched: each closed call's result and trace entry, the text that waited for it, and
the verdict. `Accounts` says what the rounds leave in the books: charges, requests, conversation, surviving calls and
what the batches left on the tree, everything the tools did (`Env.acted`), drift, the frames of a hard exit, and
whether the provider was used up. What survives is read off the batch (`Survivors`): its whole trace when the verdict
is not Aborted and no result is an error, else nothing; and the trace is read off the results (`Traced`): an executed
call ran under its own name and arguments, its success is its result's and its observation the hash of that result.

**The algorithms.** The crash-repairing log file (`LogFile`), the whitespace-tolerant edit
(`Hunk`), calendar and Retry-After (`Civil`, `HttpDate`), JSON salvage (`Json`), the glob
matcher (`Glob`), the retry ladder and its bill (`Retry`), the bounded pipe and the command
splitter (`Runner`), line paging (`View`), the output condenser (`Condense`).

Where the code and its own comments differ the code is followed:

- crates/snapshot/src/git.rs:329-350 says a failed restore always leaves the baseline; a fault in the closing diff
  fails after the fragments were applied (`RestoreMisses`), and `Restore` says exactly when the baseline is left.
- crates/tools-std/src/view.rs:45-49 describes pages that fit the byte cap, cutting only an oversized first line; that cut
  counts characters and can exceed the byte cap (`WideLineOverflows`, with the exact condition in `BodyWithinCaps`, and
  `DefaultCapBytes` for the tool's own cap).
- crates/agent-loop/src/budget_nudge.rs:95-97 and run.rs:993-997 say the durable log carries exactly the text that the model
  saw; a batch that repeats a call id while text falls due or waits breaks that (`DriftOnRepeat`), and nothing else does.
- crates/agent-log/src/reader.rs:54-79 rejects a log whose numbers have a gap, and every run numbers its rows from 1, so
  a run's log is accepted alone and a file with earlier records is not (`FileReadsBack`).
- crates/agent-loop/src/run.rs:796-805: a follow-up turn opened on a cancelled provider failure emits no frames, so
  the finished stream pairs exactly when that did not happen (`silentHop`). It happens exactly when the failure is
  cancelled with the stop not yet latched, no cap is tripped and a follow-up waits (`SettleProviderError`, `Forsake`),
  and it does happen (`HopSilently`).
- crates/tools-std/src/common.rs: the "missing search" and "only whitespace" errors are unreachable; `ApplyHunk` keeps the
  branches and proves they are never taken.
- crates/tools-std/src/runner.rs:17-19 promises quoting; an empty quoted argument is dropped (`LosesOnlyEmpty`).

## Model

| member | source | states |
|---|---|---|
| `RunLoop.Headless` | crates/agent-loop/src/run.rs:1189-1226 | a run started from nothing, over any log file of whole records and a torn tail, any inputs, provider, tools, hooks, clock and cancel, ends in an outcome after at most `max_steps + max_refunds + 1` provider rounds, and its books are those of its rounds: the charges are what they billed, the requests what they sent, the answers, calls and results in the log what they said, in order, each once, and the tools did to the tree exactly the effects of their trace entries; only the last round may find the provider exhausted, and only a last answer that stopped in Failure or Aborted may have shown a message that no row backs; a run that ends past its first turn without a log or snapshot failure has a verdict for every batch, its six counters are those of the calls that survive the rounds, and its tree is what the surviving batches made of the start tree, without Partial verdicts and probing the start tree with exactly the surviving calls performed in order; every request carried the fold of the log it was built from, and when every batch in the final log has distinct call ids all were well paired; with a log path configured and no append failed, reading the file gives the earlier records and then exactly the run's log if and only if no round dropped an answer with text waiting, which distinct ids rule out; the reader accepts the run's log, and the whole file's rows exactly when it had no earlier records; a follow-up opened without frames means a cancel and a follow-up in the queue at the start |
| `RunLoop.RunCtx.RunToEnd` | crates/agent-loop/src/run.rs:1189-1226 | every run of a fresh state ends concluded (the writer open exactly when a log path is configured, log valid and bracketed, file mirrored, meters exact, requests good against the log they were built from, frames shown with the whole log on disk, stream paired unless a hop went without frames) or gives up before turn 1 with a paired stream, within the round bound; its books, with the surviving calls and the hard-exit mark among them, are those of its rounds, and every batch was judged unless the run ends in a log or snapshot failure |
| `RunLoop.RunCtx.Drive` | crates/agent-loop/src/run.rs:1151-1167 | the loop keeps the whole loop-head invariant `AtHead` at every head and ends `Concluded`; rounds equal admissions and are bounded by the step and refund caps plus the one grace step; charges, requests, conversation, surviving calls, what is left on the tree, what the tools did and drift are exactly what the rounds billed, sent, said, kept, left, did and dropped; only a last answer that is a hard exit may leave a frame without a row, an exhausted provider is never asked again, and every batch of a run that does not end in a log or snapshot failure came to a verdict |
| `RunLoop.RunCtx.OpenRun` | crates/agent-loop/src/run.rs:591-677 | start frame, log open exactly when a path is configured, header, snapshot and inputs establish the loop head, or end with an accounted stream; no input at all is its own failure |
| `RunLoop.RunCtx.StepHead` | crates/agent-loop/src/run.rs:682-707 | a head either admits exactly one round or exits; `Yield` and `Again` cannot happen; nothing is admitted otherwise |
| `RunLoop.RunCtx.ProviderRound` | crates/agent-loop/src/run.rs:711-754 | one round leads back to the loop head or to an ending, and admits nothing more; it is charged for exactly what summarizer and provider billed, sends at most one request, logs the answer, its calls and their results, and drifts the file exactly when its batch drops an answer with text waiting; what its batch leaves among the survivors and on the tree is what the batch's results and verdict say, and without a dispatch nothing; it marks a hard exit only for an answer that is one; it hops without frames only under a cancel whose stop was not latched, no cap tripped and a follow-up waiting |
| `RunLoop.RunCtx.AskProvider` | crates/agent-loop/src/run.rs:711-754 | at most one request leaves; a cancel before it, or while the provider answers, latches the stop, closes the gate and turns the round into a cancelled failure; without a cancel stop and gate stay as they were |
| `RunLoop.RunCtx.SendRequest` | crates/agent-loop/src/run.rs:711-754 | the request is system prompt, folded history with the budget line, and the held text, up to free text the fold of the log rows from the checkpoint's cut on; it is recorded with the number of log rows and no row missing from the file, and it is well paired whenever the batches in those rows have distinct ids, without a checkpoint only then |
| `RunLoop.RunCtx.TakeCheckpoint` | crates/agent-loop/src/request.rs:357-441 | a checkpoint folds more of the previous history into one summary, keeps a suffix that does not begin with a tool result, and is tried at most once a turn; the summarizer is metered for exactly what it billed whether its answer was used, unusable or failed, and a refusal is shown exactly in the last two cases |
| `RunLoop.RunCtx.SettleProviderError` | crates/agent-loop/src/run.rs:758-806 | a failed round is metered for exactly what it billed; unless cancelled it logs one attempt row, shown after it is on disk, then retries in step or ends; a cancelled one logs nothing; the request count at an exhausted ladder is remembered; the hop without frames happens exactly when the failure is cancelled, the stop is not latched, no cap is tripped and a follow-up waits |
| `RunLoop.RunCtx.HopSilently` | crates/agent-loop/src/run.rs:796-806 | from any admitted round with the cancel up but not latched, a waiting follow-up, no cap tripped and no wall-clock cap to trip meanwhile, the failed round does open a follow-up turn without frames, and the stream is then unbalanced |
| `RunLoop.RunCtx.LandFailure` | crates/agent-loop/src/state.rs:456-503 | a cancelled failure is refunded and leaves the log alone; any other logs one attempt row and either retries or becomes fatal |
| `RunLoop.RunCtx.SettleSuccess` | crates/agent-loop/src/run.rs:810-897 | a settled answer is metered for the final attempt plus the failed re-sends, exactly once, and leads back to the loop head or to an ending; the log gains the answer, its calls and their first results; a dispatched batch adds its survivors and its work on the tree as its results and verdict say, and reaches a verdict unless log or snapshot failed; ids stay distinct exactly when those of a dispatched batch are; without a dispatch survivors and tree stay; only Failure and Aborted mark a hard exit |
| `RunLoop.RunCtx.AnswerRound` | crates/agent-loop/src/run.rs:810-897 | the rows of the claim are logged, metered once and on disk; only then, and with nothing unsynced, are the three frames of the message shown under a fresh id; when the append fails nothing is shown; the claim decides what the log and the stream still owe |
| `RunLoop.RunCtx.ShowMessage` | crates/agent-loop/src/run.rs:46-85 | a message emits start, full-content update and end with one fresh id, all once the whole log is on disk, the end only when the newest agent row there has its text, except after a hard exit, which has no row |
| `RunLoop.RunCtx.SettleBatch` | crates/agent-loop/src/run.rs:941-1147 | a dispatched batch adds to the survivors its whole trace, one entry per call in order and tied to that call and its result, exactly when its verdict is not Aborted and no result is an error, and nothing otherwise; what it leaves on the tree's line follows from verdict, probe and results; without a verdict the run ends in a log or snapshot failure and nothing is left; aborted or with an error result, unless the verdict was Partial, the tree is what it was before the batch, in every configuration; a Partial verdict leaves the pre-batch tree with exactly the kept fragments applied; with the cancel up by the end no call survives |
| `RunLoop.RunCtx.RunCalls` | crates/agent-loop/src/run.rs:960-1010 | every call gets exactly one trace entry in order, tied to that call and its result; the batch counts as failed exactly when some result is an error, always so with the cancel up, and the call table holds those results; the log is exactly the earlier one with each first answer of an id appended and the waiting text put on the newest result after each call, and gains exactly those result rows; the tools did exactly the entries' effects; no directive is left in the queue; the file drifts exactly when a dropped answer meets waiting text |
| `RunLoop.RunCtx.CloseCall` | crates/agent-loop/src/run.rs:998-1011 | exactly the due notice and the queued directives land on the newest result, then the row is synced, then the end frame goes out; the file drifts exactly when there is such text and the newest result is on disk already |
| `RunLoop.RunCtx.OneCall` | crates/agent-loop/src/run.rs:960-1011 | a call appends its answer, unless its id was answered before, and then the waiting text, which includes an unsent late warning when the call reaches its threshold; its trace entry is that of this call and result; the file drifts exactly when the id repeats and some text waits; a call closed with the cancel up has an error result |
| `RunLoop.RunCtx.DriftOnRepeat` | crates/agent-loop/src/run.rs:998-1004 | from any point inside a logged batch under full incentives where the next call repeats an answered id and the action counter is one short of four fifths of its cap with that warning unsent: when the call is executed and closed, the file does not read back as the log, although every append succeeded |
| `RunLoop.RunCtx.RecordCall` | crates/agent-loop/src/verify.rs:220-260 | a call's answer is recorded, as one result row, unless its id was answered before, and then nothing is; the answer counted for the verified flag is that of the table entry; the batch scan stays in step exactly while ids are distinct |
| `RunLoop.RunCtx.PerformCall` | crates/agent-loop/src/run.rs:903-993 | a call is aborted exactly under a cancel, or answered by the registry with that result, or executed; an executed call runs under its own name and arguments, moves counters and tree by exactly its effect, and its success and observation are those of its result; with the cancel up before it a call does not run and its result says aborted, with the cancel up after it the result is an error and an executed call latches the stop |
| `RunLoop.RunCtx.CloseBatch` | crates/agent-loop/src/run.rs:1012-1082 | a failed batch is noticed in a row that is on disk, rolled back and refunded: nothing of it is left in tree or counters; one that did not fail is left as it is, but for the fragments of a configured probe; a failure on the way is a log or snapshot failure |
| `RunLoop.RunCtx.ApplyVerdict` | crates/agent-loop/src/run.rs:1115-1140 | Committed and Partial keep the batch's calls, Aborted drops them and restores counters and baseline tree; the tree is unchanged, the baseline with the kept fragments applied, or the baseline; a verdict that could not be applied keeps nothing |
| `RunLoop.RunCtx.TreeIsSurvivors` | crates/agent-loop/src/run.rs:1012-1140 | with a hook that gives no Partial verdicts and without probing, the work tree at every loop head is the start tree with exactly the surviving calls performed in order; `Accounts` ties those calls to the rounds |
| `RunLoop.RunCtx.SettleTerminal` | crates/agent-loop/src/run.rs:551-583 | termination after a phase yields the next loop head, with its closing and opening frames when a follow-up turn began, or an ending |
| `RunLoop.RunCtx.CloseHop` | crates/agent-loop/src/run.rs:551-567 | a hop's TurnEnd and TurnStart frames go out only when both rows are on disk, and the live reason is read back from the log |
| `RunLoop.HoppedReason` | crates/agent-loop/src/run.rs:392-405 | the reason shown for a closed turn is the one its log row carries |
| `RunLoop.RunCtx.Forsake` | crates/agent-loop/src/run.rs:796-806 | a failure that is not retried ends the run, or opens a follow-up turn without frames exactly when the stop is not latched, nothing fatal is pending, no cap is tripped and a follow-up waits |
| `RunLoop.RunCtx.Judge` | crates/agent-loop/src/state.rs:573-637 | at a drained boundary the ordered termination returns on any terminal condition, never parks, and opens a follow-up turn if and only if no terminal condition holds, the model is not wanted and a follow-up waits |
| `RunLoop.RunCtx.Sync` | crates/agent-loop/src/run.rs:471-503 | pending rows reach the file in order up to the first error; success means the file holds the whole log |
| `RunLoop.RunCtx.Finish` | crates/agent-loop/src/run.rs:508-532 | the turn's closer is durable first, the terminal frames go out even when the log fails, and the finished history pairs exactly when no silent hop happened |
| `RunLoop.RunCtx.FileReadsBack` | crates/agent-log/src/reader.rs:33-79 | a concluded run with a log path and no failed append reads back as the earlier records and then its own log, exactly unless the file drifted, which distinct ids in every logged batch rule out; in any case it reads back as rows of which its log's only add text to results; validation accepts the run's log, and accepts it behind the earlier records exactly when there are none |
| `RunLoop.RunCtx.RequestsPair` | crates/agent-loop/src/request.rs:212-313 | every request of a run carried the fold of the log it was built from, from its checkpoint's cut on; when every batch in the final log has distinct call ids, each of them was well paired |
| `RunLoop.RunCtx.ChargedAsReported` | crates/agent-loop/src/state.rs:510-531 | in every reachable state the tokens charged to the cap equal reported input plus output under Gross, and fall short by the summed cached share under MissPlusOut, below 64-bit saturation |
| `RunLoop.RunCtx.ReportedAsBilled` | crates/agent-loop/src/state.rs:510-531 | in every reachable state each total of the report is the sum over the run's settlements, counts held at 64 bits |
| `RunLoop.RunCtx.SpentAsPriced` | crates/agent-loop/src/state.rs:510-531 | in every reachable state the cents charged stay within half a cent of the real cost per priced settlement |
| `RunLoop.ClaimPairs` | crates/agent-loop/src/verify.rs:52-160 | a plain declare neither breaks nor repairs call/result pairing; a dispatch opens exactly its own calls, in order |
| `RunLoop.ClaimSays` | crates/agent-loop/src/verify.rs:52-160 | a claim logs of the conversation exactly the answer and the calls it dispatches, the answer behind its stubbed calls when it was truncated, and nothing for a hard exit |
| `RunLoop.OneMoreRound` | crates/agent-loop/src/run.rs:1151-1167 | the books of a list of rounds and the entries of one more give the books of the longer list: nothing is charged, sent, said, kept, left or done twice or left out |
| `RunLog.SettleOne` | crates/agent-loop/src/verify.rs:220-260 | settling the k-th call of a batch keeps the log scan in step exactly when its id was not answered before |
| `RunLog.BatchCloses` | crates/agent-loop/src/verify.rs:245-260 | after its last call a batch is closed in the log exactly when the log was paired and the batch's ids are distinct |
| `RunLog.NumberedAgain` | crates/agent-log/src/reader.rs:54-79 | a valid, non-empty log behind earlier records is accepted exactly when there are none, because its numbers begin again |
| `Transcript.ScanIsPairing` | crates/agent-loop/src/request.rs:31-133 | the scan used as invariant decides the provider's rule: each agent row with k calls is followed at once by its k results in order, and no result stands elsewhere |
| `Transcript.ScanOfLog` | crates/agent-loop/src/request.rs:52-133 | the message fold of a log pairs exactly when the log rows do |
| `Transcript.CutKeepsPairing` | crates/context/src/compact.rs:78-96 | cutting a paired history before any row that is not a tool result leaves a paired suffix |
| `Request.RawMessages` | crates/agent-loop/src/request.rs:52-133 | the fold trims reasoning outside the newest agent rows and stubs tool results older than the collapse boundary, and changes nothing else |
| `Request.CollapseRows` | crates/agent-loop/src/request.rs:52-133 | exactly the tool rows before the boundary are stubbed in place |
| `Request.DerivedMessages` | crates/agent-loop/src/request.rs:31-40 | the history is the view of the log fold, or the summary followed by the view from the checkpoint on |
| `Request.CutPoint` | crates/context/src/compact.rs:78-96 | the cut is at or after the newest index whose tail fills the keep budget, skipping tool results, else the last earlier row that is not one; none exactly when the whole history fits or only tool results remain |
| `Request.ComposeKeepsSuffix` | crates/agent-loop/src/request.rs:434-438 | a later checkpoint composes with an earlier one: it keeps the same raw suffix, inside the raw length, before a row that is not a tool result |
| `Request.RequestPairing` | crates/agent-loop/src/request.rs:212-313 | from a paired log with a sound checkpoint every assembled request is paired; without a checkpoint it is paired exactly when the log is |
| `Request.RequestCarries` | crates/agent-loop/src/request.rs:212-313 | up to free text an assembled request is the system row, the fold of the log rows or a summary and that fold from the cut, the budget line alone when there is no history, and the held row |
| `Request.BuildRequest` | crates/agent-loop/src/request.rs:212-313 | system message first, the budget line on the newest message or alone, the held text last |
| `State.LoopState.ApplyInput` | crates/agent-loop/src/state.rs:363-396 | input while idle opens a turn and queues, while running only queues, in maintenance also asks for a wake and moves neither turn, phase nor log; stops set their flags and abort an open gate |
| `State.LoopState.AdmitSteering` | crates/agent-loop/src/state.rs:399-418 | queued steering becomes input rows in order, once; a latched wake then opens the next turn when idle and is spent |
| `State.LoopState.StartProviderCall` | crates/agent-loop/src/state.rs:423-450 | admission exactly when nothing is in flight, the gate is open and the budget or its unused grace allows; the step retries reset only when no call was already wanted |
| `State.LoopState.FinishProviderMsg` | crates/agent-loop/src/state.rs:456-503 | a stale answer changes nothing; a current one is metered for what it billed, and a failure is refunded, retried within its step, or fatal |
| `State.LoopState.RecordUsage` | crates/agent-loop/src/state.rs:510-531 | one settlement adds one charge, and tokens, cents and report stay the fold of all charges |
| `State.LoopState.Terminate` | crates/agent-loop/src/state.rs:573-637 | first match wins, exactly: stop, fatal error, budget halt, error reason, max-tokens; otherwise continue, hop to a waiting follow-up with its closing and opening rows, finish, or go idle |
| `State.LoopState.StepClaim` | crates/agent-loop/src/verify.rs:52-160 | what each stop reason logs and leaves open: Truncated logs results before the agent row, Refused may log unanswered calls, Failure and Aborted log nothing, a plain declare may be held once by the nudge |
| `State.LoopState.VerifyNudgeDue` | crates/agent-loop/src/verify.rs:171-217 | the verification nudge fires exactly when writes since the last one are unverified and budget, steps, actions and time still leave room; it is counted and capped |
| `State.LoopState.RecordToolResult` | crates/agent-loop/src/verify.rs:220-260 | an unknown or already answered id changes nothing; otherwise one result row, the table entry, the batch-complete latch and the verified flag move together |
| `State.LoopState.NoteExecution` | crates/agent-loop/src/budget_nudge.rs:16-40 | the counters move by exactly one executed call |
| `State.LoopState.RefundBatch` | crates/agent-loop/src/proof.rs:277-284 | every counter returns to its pre-batch value |
| `State.LoopState.QueueDirectives` | crates/agent-loop/src/budget_nudge.rs:57-76 | each of the two action warnings is queued once, at half and at four fifths of the cap, the queue dropping its oldest beyond three |
| `State.LoopState.DeliverDirectives` | crates/agent-loop/src/budget_nudge.rs:83-93 | with a tool result in the log the whole queue lands on the newest one, a line each, in order; without one nothing is consumed |
| `State.LoopState.SettleToolTail` | crates/agent-loop/src/proof.rs:205-214 | exactly the due notice and then the queued directives, a line each, are put on the newest tool result; without one the directives stay queued |
| `State.LoopState.AppendToTail` | crates/agent-loop/src/budget_nudge.rs:105-119 | only the newest tool result's text changes, at its end |
| `State.TailMirrorExact` | crates/agent-loop/src/budget_nudge.rs:105-119 | such an append leaves the synced prefix untouched exactly when the newest result is not yet synced |
| `Tally.CountersCount` | crates/agent-loop/src/proof.rs:192-203 | `actions` is the number of executed calls and `edits` the number of successful writes among them |
| `Tally.StreakIsLongestSuffix` | crates/agent-loop/src/budget_nudge.rs:16-40 | the streak is one less than the longest constant run of call and observation at the end |
| `Tally.VerifiedMeansTested` | crates/agent-loop/src/verify.rs:245-255 | the verified flag holds exactly when some verification passed and no recorded write has succeeded since |
| `Budget.BudgetGuard.MayStep` | crates/agent-budget/src/guard.rs:75-87 | the gate refuses exactly when a cap is hit and the grace was used; at most one admission is past a cap |
| `Budget.BudgetGuard.RefundStep` | crates/agent-budget/src/guard.rs:116-124 | a refund lowers steps by one while refunds remain, and touches nothing else |
| `Budget.BudgetGuard.NudgeDue` | crates/agent-budget/src/guard.rs:137-159 | the wrap-up notice fires once, when the forced-headroom threshold or four fifths of the wall clock is reached, with its exact text |
| `Budget.PeekMonotone` | crates/agent-budget/src/guard.rs:46-70 | a tripped cap stays tripped as the clock runs |
| `Budget.AdmissionBound` | crates/agent-budget/src/guard.rs:75-124 | whatever is refunded, a guard admits at most `max_steps + max_refunds + 1` calls and at most one past a cap |
| `Metering.TokensExact` | crates/agent-loop/src/state.rs:510-531 | below 64-bit saturation the charged tokens equal total input plus output under Gross, less the cached share of each prompt under MissPlusOut |
| `Metering.TotalsExact` | crates/agent-loop/src/state.rs:510-531 | the report's input, output, cache reads and reasoning are the sums over all settlements held at 64 bits, its cost the exact sum; reasoning and cost are present exactly when some settlement carried them |
| `Metering.SpendClose` | crates/agent-loop/src/state.rs:510-531 | rounded cents stay within half a cent per priced, nonnegative settlement of the real cost |
| `LogFile.TornTailStart` | crates/agent-log/src/writer.rs:19-45 | the kept length is the longest prefix that ends on a record boundary |
| `LogFile.LogWriter.Open` | crates/agent-log/src/writer.rs:54-60 | after a repairing open the file is exactly its whole records |
| `LogFile.LogWriter.Append` | crates/agent-log/src/writer.rs:64-72 | an acknowledged append adds one whole record; nothing is said after a failed one |
| `LogFile.LogWriter.CrashDuring` | crates/agent-log/src/writer.rs:64-72 | a crash inside an append leaves a whole record only if its LF was written, else a torn tail |
| `LogFile.ReadLog` | crates/agent-log/src/reader.rs:33-52 | reading decodes every non-empty line, drops an undecodable last one and rejects any other |
| `LogFile.ValidateLog` | crates/agent-log/src/reader.rs:54-79 | accepted exactly when empty, or a header of the supported version followed by gapless sequence numbers |
| `LogFile.ReadRepaired` | crates/agent-log/src/reader.rs:33-52 | reading a repaired file returns exactly its records |
| `LogFile.ReadUnrepaired` | crates/agent-log/src/reader.rs:33-52 | read before the repair, a crashed file shows at most one row more: the one in flight, exactly when the crash fell just before its LF |
| `LogFile.AckedSurvive` | crates/agent-log/src/writer.rs:19-72 | over any history of appends and crashes, every acknowledged item is still in the file, in order |
| `LogFile.CrashesAddLittle` | crates/agent-log/src/writer.rs:19-72 | each crash adds at most one record that nobody was told of |
| `LogFile.Replay` | crates/agent-log/src/writer.rs:19-72 | a live file driven through any history of appends, crashes and reopens holds exactly the specified records, and reads back as them |
| `Snapshot.TreeService.Rollback` | crates/snapshot/src/git.rs:134-143 | a rollback that succeeds gives the baseline tree; before the start it fails and changes nothing |
| `Snapshot.TreeService.Restore` | crates/snapshot/src/git.rs:341-350 | success means all kept fragments applied to the baseline in order; when the rollbacks do not fault, the tree ends at the baseline exactly when the fragments do not apply or make the baseline |
| `Snapshot.TreeService.RestoreMisses` | crates/snapshot/src/git.rs:329-350 | a fault in the closing diff makes the restore fail with the fragments applied, away from the baseline |
| `Proof.SplitPatch` | crates/agent-loop/src/proof.rs:57-87 | the splitter's fragments, the last one dropped when the patch was cut off |
| `Proof.SplitInvertsRender` | crates/agent-loop/src/proof.rs:57-87 | on a well-formed patch splitting inverts rendering: one fragment per hunk, in order, each under its own file header |
| `Proof.IncrementalHunks` | crates/agent-loop/src/proof.rs:117-164 | the k-th flag is the probe's answer on the tree of exactly the first k fragments; without a fault it succeeds exactly when all fragments apply, and a failure leaves the baseline |
| `Proof.KeptIsTested` | crates/bets/src/commit.rs:40-69 | a Partial verdict keeps exactly the fragments before the first failing prefix, and applying them gives the very tree on which the last kept prefix passed |
| `Proof.UniformNeverSplits` | crates/bets/src/commit.rs:50-69 | a uniformly flagged batch commits or aborts whole |
| `Proof.ProbeAndSettle` | crates/agent-loop/src/run.rs:1115-1125 | after a successful gate the tree is fully proven, or the proven prefix on which its probe passed, or the baseline; without a fault the gate fails only when some fragment does not apply, and leaves the baseline |
| `Events.CheckPairing` | crates/agent-event/src/pairing.rs:9-47 | the shipped check accepts exactly the balanced histories |
| `Events.BalancedAnswers` | crates/agent-event/src/pairing.rs:9-47 | in a balanced history every start a consumer saw has its end |
| `Hunk.CollapseWs` | crates/tools-std/src/common.rs:18-37 | the loop's text and index map: each entry is where a collapsed byte begins, strictly increasing, and every run start has one |
| `Hunk.GapsAreWhitespace` | crates/tools-std/src/common.rs:18-37 | bytes between two map entries only continue a whitespace run |
| `Hunk.ApplyHunk` | crates/tools-std/src/common.rs:41-91 | one exact scan match is replaced in place; several are ambiguous; with none, one collapsed match is replaced as `text[..s] + replace + text[e..]` with `collapse(text[s..e]) == collapse(search)`; the two remaining error branches are never taken |
| `Hunk.OnlyRegion` | crates/tools-std/src/common.rs:41-91 | any other region with the same collapsed text overlaps the edited one |
| `Hunk.MatchesCover` | crates/tools-std/src/common.rs:41-91 | the leftmost scan misses no occurrence: each overlaps a listed one that begins no later |
| `Civil.FormulaCounts` | crates/provider-core/src/errors.rs:205-216 | from 1970 on the closed formula equals a count that adds year and month lengths one at a time under the leap rule |
| `Civil.TomorrowIsNext` | crates/provider-core/src/errors.rs:205-216 | one calendar day is one count, for every year |
| `Civil.OrderKept` | crates/provider-core/src/errors.rs:205-216 | a later date, and only a later date, has a strictly larger count |
| `Civil.EveryDay` | crates/provider-core/src/errors.rs:205-216 | every day number from 0 on is the count of a date |
| `Civil.SecondsOrdered` | crates/provider-core/src/errors.rs:205-216 | time order is kept, strictly unless the earlier stamp is a leap second |
| `Civil.FitsWord` | crates/provider-core/src/errors.rs:205-216 | four-digit years from 1970 give the day count times 86400 plus the clock, far inside 64 bits |
| `HttpDate.FixDateReads` | crates/provider-core/src/errors.rs:189-217 | every IMF-fixdate (section 5.6.7 of RFC 9110) from 1970 to 9999 reads back as its second count, whatever its day name |
| `HttpDate.DateWaits` | crates/provider-core/src/errors.rs:160-168 | a date in Retry-After (section 10.2.3 of RFC 9110) waits until that date, or zero if it is past |
| `HttpDate.DeltaWaits` | crates/provider-core/src/errors.rs:160-168 | delta-seconds wait exactly that long; a number beyond 64 bits is not understood |
| `HttpDate.MonthReads` | crates/provider-core/src/errors.rs:170-186 | each month name reads as its own number |
| `Json.CloseTruncated` | crates/provider-core/src/json.rs:92-132 | the scan with its stack and trims computes the closed text |
| `Json.ClosesIff` | crates/provider-core/src/json.rs:92-132 | closing alone balances a text exactly when trimming leaves no escape pending |
| `Json.DanglingEscape` | crates/provider-core/src/json.rs:92-132 | a string cut after a backslash and a space is not closed |
| `Json.SalvageCloses` | crates/provider-core/src/json.rs:26-132 | for every input, closing the repaired text rescans to outside any string with no bracket open |
| `Json.RepairJson` | crates/provider-core/src/json.rs:26-69 | the loop with its lookahead computes the repair |
| `Json.RepairCleans` | crates/provider-core/src/json.rs:26-69 | repair leaves no raw control character, no unknown escape and no pending escape, and moves no string end and no bracket |
| `Json.RepairIdleIff` | crates/provider-core/src/json.rs:26-69 | repair is the identity exactly on text whose strings have no raw control character and only the escapes of section 7 of RFC 8259 |
| `Json.RepairIdempotent` | crates/provider-core/src/json.rs:26-69 | repairing twice is repairing once |
| `Json.RepairKeepsMeaning` | crates/provider-core/src/json.rs:26-69 | repair changes how a text is spelled, never what it says, down to the code units of its strings |
| `Json.SalvageOrigin` | crates/provider-core/src/json.rs:7-90 | the salvage never fails: its value is the empty object or the parse of the input or its repair, whole or cut short and closed; text that parses is taken as it stands |
| `Glob.GlobMatch` | crates/tools-std/src/policy.rs:93-144 | the matcher decides exactly the declarative language of the pattern's tokens |
| `Glob.Go` | crates/tools-std/src/policy.rs:94-142 | the same for every pattern and path suffix it recurses on |
| `Glob.GoDirs` | crates/tools-std/src/policy.rs:98-114 | `**/` is nothing, or anything up to and including a slash |
| `Glob.GoStar` | crates/tools-std/src/policy.rs:115-136 | a star run inside a pattern is one slash-free run; at the end two or more stars are anything |
| `Glob.StarsStayInDirectory` | crates/tools-std/src/policy.rs:93-144 | without `**` a match has exactly the pattern's directory depth |
| `Glob.NameAtAnyDepth` | crates/tools-std/src/policy.rs:64-78 | `**/name` matches exactly `name` and every path ending in `/name` |
| `Retry.WireKnobs.ApplyLadder` | crates/provider-openai/src/retry.rs:40-59 | one rung per success: thinking off, or the budget doubled up to the ceiling; failure changes nothing and means no rung is left |
| `Retry.SixteenRungs` | crates/provider-openai/src/retry.rs:40-59 | a call has at most sixteen rungs, and may have all of them |
| `Retry.ClimbUsesRung` | crates/provider-openai/src/retry.rs:40-59 | each success uses exactly one rung and never lowers `max_tokens` |
| `Retry.Complete` | crates/provider-openai/src/client.rs:152-221 | the attempts form an allowed chain from the given shape, each with the answer its request got; the result reports the last one and the bill of all |
| `Retry.AtMost24` | crates/provider-openai/src/client.rs:152-221 | one call makes at most 24 attempts, whatever the server answers |
| `Retry.TwentyFourReached` | crates/provider-openai/src/client.rs:152-221 | the bound is reached |
| `Retry.RoomNeverShrinks` | crates/provider-openai/src/client.rs:152-221 | a later attempt never asks for less room |
| `Retry.BillIsSum` | crates/provider-core/src/types.rs:89-144 | every count of the reported bill is the sum over the attempts that carried usage, held at 64 bits, and its cost the exact sum; reasoning, cost and the bill itself are absent exactly when no attempt carried them |
| `Retry.DelaysBounded` | crates/provider-openai/src/retry.rs:98-117 | a delay is refused exactly when the server asks for more than 60 s, and is otherwise at most 1280 s |
| `Runner.BoundedOut.Push` | crates/tools-std/src/runner.rs:185-199 | one chunk more keeps the retained bytes those of the whole stream so far |
| `Runner.BoundedOut.Bytes` | crates/tools-std/src/runner.rs:201-219 | the report is head, notice of the dropped count if any, tail |
| `Runner.DrainPipe` | crates/tools-std/src/runner.rs:222-237 | for every chunking the reader ends as if the bytes had come at once |
| `Runner.OnlyTheMiddleIsLost` | crates/tools-std/src/runner.rs:184-220 | the stream is head, a gap of exactly the dropped size, tail; head and tail are full whenever anything is dropped |
| `Runner.ShortStreamsWhole` | crates/tools-std/src/runner.rs:184-220 | a stream within both caps is reported exactly |
| `Runner.SplitCmd` | crates/tools-std/src/runner.rs:20-55 | the loop computes the specified split |
| `Runner.PlainSplit` | crates/tools-std/src/runner.rs:20-55 | without quotes and backslashes the split is the whitespace split |
| `Runner.QuotingRoundTrips` | crates/tools-std/src/runner.rs:20-55 | splitting a quoted command line gives its arguments back, less the empty ones |
| `Runner.LosesOnlyEmpty` | crates/tools-std/src/runner.rs:20-55 | the round trip is exact if and only if no argument is empty |
| `View.ViewPage` | crates/tools-std/src/view.rs:50-97 | a page is the longest run of whole lines within both caps, or the cut head of a line that alone exceeds one, with its text and whether more follows; an offset past the end is an error |
| `View.NoticeNamesNext` | crates/tools-std/src/view.rs:82-97 | the notice names the line after the last one shown, exactly when there is one |
| `View.PageUnique` | crates/tools-std/src/view.rs:50-97 | the caps leave one possible page for each offset |
| `View.PagingCovers` | crates/tools-std/src/view.rs:50-97 | from any offset, following each offset the notices name shows every line from there once, in order, whole unless it alone exceeds a cap, and ends |
| `View.BodyWithinCaps` | crates/tools-std/src/view.rs:50-97 | every body keeps the character cap; it keeps the byte cap exactly when its first line fits both caps, or has at least as many characters as the cut keeps and those are all ASCII, or, for a byte cap above the character cap, the wide characters among them (counted once from U+0080, U+0800 and U+10000 on) are at most the difference of the caps |
| `View.DefaultCapBytes` | crates/tools-std/src/view.rs:12-15 | under the default cap a body keeps the byte cap when the first 8000 characters of its first line lie below U+0800, and breaks it when there are 8000 and all lie at U+0800 or above |
| `View.WideLineOverflows` | crates/tools-std/src/view.rs:69-80 | a two-byte character under a one-byte cap is shown whole, over the byte cap, as truncated |
| `Condense.CondenseOutput` | crates/tools-std/src/condense.rs:71-124 | shown, noise and omitted lines add up to the input whenever a line is kept; all kept lines up to eighty, else a selection; nothing kept falls back to the tail or the empty-result sentence, with which an empty input is answered; the text is the rendering of that |
| `Condense.PickKept` | crates/tools-std/src/condense.rs:132-152 | exactly eighty lines at distinct ascending positions, the last one last, and every specific line unless more than seventy-nine precede it |
| `Condense.PickedSound` | crates/tools-std/src/condense.rs:132-152 | the positions picked before sorting are eighty, distinct, and hold the last and every specific one that fits |
| `Condense.HeadTailSound` | crates/tools-std/src/condense.rs:155-163 | head and tail entries are as many as the budget allows, distinct and in order |
| `Condense.CondenseTail` | crates/tools-std/src/condense.rs:29-63 | the tail is the longest run of last lines within both caps, or the end of one oversized last line; pure noise gives the sentence |

## Left out

- JSON encoding and decoding of records: a codec parameter, assumed lawful (`LogFile.LawfulFor`): a left inverse whose records are LF-free, non-empty, not CR-ending, with no decodable proper prefix. `ItemCodec.LawfulExists` gives one for log items.
- File contents after a failed append: the failure is terminal and nothing is claimed about the bytes.
- Git: one deterministic partial `apply` of a fragment to a tree and a fault flag per command; ignored paths are outside the tree, and reading a patch gives arbitrary fragments.
- Tool effects: an arbitrary function on the work tree per executed call, recorded in `Env.acted`; the observation hash is an arbitrary function of the text.
- Async scheduling, panics and tokens: the cancel flag is sampled where the code checks it; listener panics in the emitter are not modelled.
- `drive_tick` and `crash_repair`: the test-only driver and the replay repair are not modelled.
- The token estimate that triggers compaction and the summary text are arbitrary; `RunCtx.TakeCheckpoint` covers what a checkpoint does once taken.
- The registry's choice for a call is arbitrary: a ready result, or to run it; what runs is the call's own name and arguments, as every shipped tool dispatches it (crates/tools-std/src/common.rs:122-128).
- Which shell commands count as verification is an arbitrary predicate of the call (`RunConfig`).
- System prompt and budget-line text of a request are arbitrary strings.
- The `u32` counters `edits`, `actions_this_trial` and `same_action_streak` are unbounded here; `steps`, `refunds`, tokens, cents and usage saturate as in the source.
- Under per-prefix probing the tree of a committed batch is what the probe left, an arbitrary list of fragments on the baseline in the run; `Proof.ProbeAndSettle` says which.
- `LogFile.LogWriter.Append`: does not say what a failed append leaves, because the run ends there.
- `Metering.TokensExact`: assumes the sum of all usage is below 2^64, because beyond it the source saturates.
- `Metering.SpendClose`: assumes nonnegative prices and unsaturated cents, for the same reason.
- `Proof.SplitInvertsRender`: covers untruncated patches whose hunk bodies hold no header-shaped line, which is what git writes.
- `Civil.FitsWord`: years beyond 9999, where the source's 64-bit intermediates could overflow, are not claimed.
- `Hunk.ApplyHunk`: texts are bytes of valid UTF-8; that a byte scan and a character scan agree there is taken for granted.
- `Condense.CondenseTail`: the cut of an oversized last line drops whole characters from the front rather than stepping over byte indices; the kept suffix is the same.
- `Condense.CondenseOutput` and `View.ViewPage` take the text already split into lines; the split itself is not modelled.
- `Retry.Complete`: one HTTP attempt is an arbitrary function of its index and the request shape; message classification is the outcome's flags, and sleeping has no effect.
- Path containment, symlinks, environment filtering, the exec allowlist, shell-operator rejection: not modelled.
- `ContextAssembler`, `EffectGate` alone, ablation metrics, workdir guards, CLI tables and report structs: plumbing or one-branch facts.
- `observe_action`'s returned halt is ignored by the loop, as in `note_tool_execution`; the same caps are read again by the guard.
