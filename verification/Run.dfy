/** The headless run (crates/agent-loop/src/run.rs): step head, provider round, claim,
    tool batch, proof gate and finish, over the shared state, the log file, the live
    stream and the work tree. Provider, tools, hooks, clock and cancel are arbitrary. */
module RunLoop {
  import opened Base
  import opened Items
  import opened Transcript
  import opened Request
  import opened Budget
  import opened Metering
  import opened Tally
  import opened State
  import opened LogFile
  import opened Snapshot
  import opened Proof
  import opened Events
  import opened RunLog

  const LOG_APPEND_FAILED := Failed(LogFailure, "log append failed")

  /** The world outside the loop: a clock that never runs back, a cancel flag that never falls, and tools. */
  class Env {
    var now: nat
    var cancelled: bool
    ghost var acted: seq<Effect>  // what the tools have done to the work tree, in order

    constructor ()
      ensures acted == []
    {
      now, cancelled, acted := 0, false, [];
      new;
      var start: nat, raised: bool :| true;
      now, cancelled := start, raised;
    }

    /** What a tool does to the work tree; a name that no tool has does nothing. */
    method Act(known: bool) returns (effect: Effect)
      modifies this`acted
      ensures acted == old(acted) + [effect]
      ensures !known ==> effect == (t => t)
    {
      effect := t => t;
      if known {
        effect :| true;
      }
      acted := acted + [effect];
    }

    method Clock() returns (t: nat)
      modifies this`now
      ensures old(now) <= now == t
    {
      var passed: nat :| true;
      now := now + passed;
      t := now;
    }

    method IsCancelled() returns (c: bool)
      modifies this`cancelled
      ensures c == cancelled && (old(cancelled) ==> cancelled)
    {
      var raised: bool :| true;
      cancelled := cancelled || raised;
      c := cancelled;
    }
  }

  datatype Response = Response(message: AssistantMessage, stop: StopReason, usage: Usage, retryUsage: Option<Usage>)
  datatype Reply = Answered(response: Response) | Errored(message: string, billed: Option<Usage>, exhausted: bool)
  datatype Head = Call | Yield | Again | Exit(outcome: Outcome) | Failure(outcome: Outcome)

  /** The summarizer's answer: usable text, an unusable one, a failed call, or a call dropped by a cancel. */
  datatype SummaryReply =
    | Summary(text: string, billed: Usage)
    | Unusable(billed: Usage)
    | SummaryFailed(paid: Option<Usage>)
    | Dropped

  /** The frame that tells of a summary that could not be used. */
  function RefusedFrame(answer: SummaryReply): seq<Event> {
    if answer.Unusable? || answer.SummaryFailed? then [ErrorFrame("compaction-refused")] else []
  }

  /** What a summarizer call is metered for. */
  function SummaryBill(answer: Option<SummaryReply>): seq<Usage> {
    match answer
    case Some(Summary(_, billed)) => [billed]
    case Some(Unusable(billed)) => [billed]
    case Some(SummaryFailed(paid)) => Optional(paid)
    case _ => []
  }

  /** A request that reached the provider: how many rows the log had then, where a summary cut the history that they
      give, whether a message was held for it, and how many rows were not yet on disk. */
  datatype Sent = Sent(messages: seq<Message>, rows: nat, cut: Option<nat>, held: bool, unsynced: nat)

  /** An answer that dispatches calls gives each its own id. */
  ghost predicate OwnIds(row: ItemKind) {
    row.Assistant? && Ordinary(row.stop) ==> NoDup(CallIds(row.message.calls))
  }

  /** Every batch in the log has distinct call ids. */
  ghost predicate DistinctLog(rows: seq<ItemKind>) {
    forall i :: 0 <= i < |rows| ==> OwnIds(rows[i])
  }

  lemma DistinctSnoc(rows: seq<ItemKind>, more: seq<ItemKind>)
    requires more != [] && forall i :: 1 <= i < |more| ==> OwnIds(more[i])
    ensures DistinctLog(rows + more) <==> DistinctLog(rows) && OwnIds(more[0])
  {
    hide OwnIds;
    var all := rows + more;
    if DistinctLog(all) {
      assert all[|rows|] == more[0];
      forall i | 0 <= i < |rows| ensures OwnIds(rows[i]) { assert all[i] == rows[i]; }
    }
  }

  /** Rows that are no answers leave the matter as it is. */
  lemma DistinctSkips(rows: seq<ItemKind>, more: seq<ItemKind>)
    requires forall i :: 0 <= i < |more| ==> !more[i].Assistant?
    ensures DistinctLog(rows + more) <==> DistinctLog(rows)
  {
    if more == [] {
      assert rows + more == rows;
    } else {
      DistinctSnoc(rows, more);
    }
  }

  /** A request carries what the log then held. It pairs calls and results when all batches logged before it had
      distinct ids, and unless a summary stood for some of them only then. */
  ghost predicate GoodRequest(r: Sent, rows: seq<ItemKind>) {
    && r.rows <= |rows| && Carries(r.messages, rows[..r.rows], r.cut, r.held)
    && (DistinctLog(rows[..r.rows]) ==> WellPaired(r.messages))
    && (r.cut.None? ==> (WellPaired(r.messages) <==> DistinctLog(rows[..r.rows])))
  }

  ghost predicate AllGood(requests: seq<Sent>, rows: seq<ItemKind>) {
    forall i :: 0 <= i < |requests| ==> GoodRequest(requests[i], rows)
  }

  lemma GoodGrows(requests: seq<Sent>, rows: seq<ItemKind>, more: seq<ItemKind>)
    requires AllGood(requests, rows) && rows <= more
    ensures AllGood(requests, more)
    ensures DistinctLog(more) ==> DistinctLog(rows)
  {
    hide DistinctLog, WellPaired, Carries;
    forall i | 0 <= i < |requests| ensures GoodRequest(requests[i], more) {
      assert GoodRequest(requests[i], rows);
      assert more[..requests[i].rows] == rows[..requests[i].rows];
    }
    if DistinctLog(more) {
      DistinctPrefix(more, |rows|);
      assert more[..|rows|] == rows;
    }
  }

  lemma DistinctPrefix(rows: seq<ItemKind>, n: nat)
    requires n <= |rows| && DistinctLog(rows)
    ensures DistinctLog(rows[..n])
  {
    hide OwnIds;
  }

  /** With distinct ids throughout, every request so far was well paired. */
  lemma AllPaired(requests: seq<Sent>, rows: seq<ItemKind>)
    requires AllGood(requests, rows) && DistinctLog(rows)
    ensures forall i :: 0 <= i < |requests| ==> WellPaired(requests[i].messages)
  {
    hide DistinctLog, WellPaired, Carries;
    forall i | 0 <= i < |requests| ensures WellPaired(requests[i].messages) {
      assert GoodRequest(requests[i], rows);
      DistinctPrefix(rows, requests[i].rows);
    }
  }

  // ---- what a run was answered ----

  /** One provider round: the summarizer's answer if it was asked, the request if one left, the provider's answer, and
      what became of the batch that it dispatched. */
  datatype Round = Round(summary: Option<SummaryReply>, sent: Option<Sent>, reply: Reply, batch: Batch)

  /** A part of every round, in order. */
  ghost function All<T>(part: Round -> seq<T>, rounds: seq<Round>): seq<T> {
    if rounds == [] then [] else All(part, rounds[..|rounds| - 1]) + part(rounds[|rounds| - 1])
  }

  lemma AllSnoc<T>(part: Round -> seq<T>, rounds: seq<Round>, round: Round, was: seq<T>)
    ensures was + All(part, rounds + [round]) == was + All(part, rounds) + part(round)
  {
    assert (rounds + [round])[..|rounds|] == rounds;
  }

  /** The request that left. */
  ghost function SentIn(round: Round): seq<Sent> {
    if round.sent.Some? then [round.sent.value] else []
  }

  function ReplyBill(reply: Reply): seq<Usage> {
    match reply
    case Answered(resp) => [BilledUsage(resp.usage, resp.retryUsage)]
    case Errored(_, billed, _) => Optional(billed)
  }

  /** What was billed. */
  ghost function BilledIn(round: Round): seq<Usage> {
    SummaryBill(round.summary) + ReplyBill(round.reply)
  }

  /** The result rows of the batch that an answer dispatched. */
  ghost function BatchSaid(resp: Response, batch: Batch): seq<ItemKind> {
    if Dispatches(resp) && |batch.results| <= |resp.message.calls| then ResultRows(resp.message.calls, batch.results)
    else []
  }

  ghost function ReplySaid(reply: Reply, batch: Batch): seq<ItemKind> {
    if reply.Answered? then Said(reply.response.message, reply.response.stop) + BatchSaid(reply.response, batch) else []
  }

  /** The rows of the conversation: the answer, the calls it dispatched and their results. */
  ghost function SaidIn(round: Round): seq<ItemKind> {
    ReplySaid(round.reply, round.batch)
  }

  /** The calls that survive the round, what its batch left on the tree, and all that its tools did. */
  ghost function KeptIn(round: Round): seq<CallTrace> {
    Survivors(round.batch)
  }

  ghost function LeftIn(round: Round): seq<BatchWork> {
    WorkOf(round.batch)
  }

  ghost function ActedIn(round: Round): seq<Effect> {
    Effects(round.batch.trace)
  }

  /** An answer that dispatches calls has a batch of these calls; nothing else has one. */
  ghost predicate AnswerBatch(resp: Response, cfg: RunConfig, batch: Batch) {
    if Dispatches(resp) then BatchFits(resp.message.calls, cfg, batch) else batch == NO_BATCH
  }

  ghost predicate ReplyBatch(reply: Reply, cfg: RunConfig, batch: Batch) {
    if reply.Answered? then AnswerBatch(reply.response, cfg, batch) else batch == NO_BATCH
  }

  /** A dispatched batch came to its verdict. */
  ghost predicate AnswerJudged(resp: Response, batch: Batch) {
    Dispatches(resp) ==> batch.verdict.Some?
  }

  ghost predicate ReplyJudged(reply: Reply, batch: Batch) {
    reply.Answered? ==> AnswerJudged(reply.response, batch)
  }

  ghost predicate AllJudged(rounds: seq<Round>) {
    forall i :: 0 <= i < |rounds| ==> ReplyJudged(rounds[i].reply, rounds[i].batch)
  }

  lemma NoneToJudge()
    ensures AllJudged([])
  {
  }

  lemma JudgedSnoc(rounds: seq<Round>, round: Round)
    requires AllJudged(rounds)
    ensures ReplyJudged(round.reply, round.batch) ==> AllJudged(rounds + [round])
  {
    hide ReplyJudged;
  }

  /** An answer whose last message frame has no row. */
  predicate HardStop(stop: StopReason) {
    stop == StopReason.Failure || stop == StopReason.Aborted
  }

  predicate HardReply(reply: Reply) {
    reply.Answered? && HardStop(reply.response.stop)
  }

  /** The first request precedes the first answer, and batches are those of the answers. */
  ghost predicate Asks(round: Round, cfg: RunConfig) {
    (round.reply.Answered? ==> round.sent.Some?) && ReplyBatch(round.reply, cfg, round.batch)
  }

  ghost predicate AllAsked(rounds: seq<Round>, cfg: RunConfig) {
    forall i :: 0 <= i < |rounds| ==> Asks(rounds[i], cfg)
  }

  /** Without a batch nothing is left. */
  lemma NoBatchLeaves(kept: seq<CallTrace>, line: seq<BatchWork>, said: seq<ItemKind>, acted: seq<Effect>)
    ensures kept + Survivors(NO_BATCH) == kept && line + WorkOf(NO_BATCH) == line
    ensures said + [] == said && acted + Effects(NO_BATCH.trace) == acted
  {
  }

  lemma AnswerWithout(resp: Response, cfg: RunConfig)
    ensures AnswerBatch(resp, cfg, NO_BATCH) && BatchSaid(resp, NO_BATCH) == [] && !AnswerStrays(resp, NO_BATCH)
    ensures Dispatches(resp) || AnswerJudged(resp, NO_BATCH)
    ensures Said(resp.message, resp.stop) + [] == Said(resp.message, resp.stop)
  {
  }

  lemma AnswerWith(resp: Response, cfg: RunConfig, batch: Batch)
    requires Dispatches(resp) && BatchFits(resp.message.calls, cfg, batch)
    ensures AnswerBatch(resp, cfg, batch) && (AnswerJudged(resp, batch) <==> batch.verdict.Some?)
    ensures |batch.results| <= |resp.message.calls|
    ensures BatchSaid(resp, batch) == ResultRows(resp.message.calls, batch.results)
    ensures AnswerStrays(resp, batch) <==> Strayed(resp.message.calls, batch.waiting)
  {
  }

  predicate Exhausts(round: Round) {
    round.reply.Errored? && round.reply.exhausted
  }

  /** Only the last round may exhaust the provider, and the count of requests is kept exactly then. */
  ghost predicate SpentLast(rounds: seq<Round>, spentAt: Option<nat>) {
    && (forall i :: 0 <= i < |rounds| - 1 ==> !Exhausts(rounds[i]))
    && (spentAt.Some? <==> rounds != [] && Exhausts(rounds[|rounds| - 1]))
  }

  /** Some closed call repeats an earlier id of its batch while text waits. */
  ghost predicate Strayed(calls: seq<ToolCallRef>, waiting: seq<string>) {
    exists k :: 0 <= k < |waiting| && k < |calls| && calls[k].id in CallIds(calls)[..k] && waiting[k] != ""
  }

  lemma StrayedSnoc(calls: seq<ToolCallRef>, waiting: seq<string>, text: string)
    requires |waiting| < |calls|
    ensures Strayed(calls, waiting + [text])
            <==> Strayed(calls, waiting) || (calls[|waiting|].id in CallIds(calls)[..|waiting|] && text != "")
  {
    assert |CallIds(calls)| == |calls|;
    hide CallIds;
    var more := waiting + [text];
    if Strayed(calls, waiting) {
      var k :| 0 <= k < |waiting| && k < |calls| && calls[k].id in CallIds(calls)[..k] && waiting[k] != "";
      assert more[k] == waiting[k];
    }
    assert more[|waiting|] == text;
  }

  ghost predicate AnswerStrays(resp: Response, batch: Batch) {
    Dispatches(resp) && Strayed(resp.message.calls, batch.waiting)
  }

  ghost predicate Strays(round: Round) {
    round.reply.Answered? && AnswerStrays(round.reply.response, round.batch)
  }

  ghost predicate SomeStrays(rounds: seq<Round>) {
    exists i :: 0 <= i < |rounds| && Strays(rounds[i])
  }

  /** What a run has been charged, asked and told, what its calls and tools have left and done, and whether its file has
      drifted, a message frame has no row and its provider is used up. */
  datatype Books = Books(charges: seq<Usage>, requests: seq<Sent>, said: seq<ItemKind>, kept: seq<CallTrace>,
                         line: seq<BatchWork>, acted: seq<Effect>, drifted: bool, hard: bool, spentAt: Option<nat>)

  /** The books after these rounds, from the ones before: charged is what was billed, asked what was sent, said what was
      answered, called and returned, and what is left of the calls is what the rounds' batches leave. */
  ghost predicate Accounts(rounds: seq<Round>, cfg: RunConfig, was: Books, logged: bool, now: Books)
  {
    && now.charges == was.charges + All(BilledIn, rounds)
    && now.requests == was.requests + All(SentIn, rounds)
    && now.said == was.said + All(SaidIn, rounds)
    && now.kept == was.kept + All(KeptIn, rounds)
    && now.line == was.line + All(LeftIn, rounds)
    && now.acted == was.acted + All(ActedIn, rounds)
    && (now.drifted <==> was.drifted || (logged && SomeStrays(rounds)))
    && (now.hard ==> was.hard || (rounds != [] && HardReply(rounds[|rounds| - 1].reply)))
    && AllAsked(rounds, cfg) && SpentLast(rounds, now.spentAt)
  }

  /** What an answer enters. */
  ghost predicate ReplyEntered(reply: Reply, batch: Batch, cfg: RunConfig, logged: bool, was: Books, now: Books) {
    && now.charges == was.charges + ReplyBill(reply) && now.requests == was.requests
    && now.said == was.said + ReplySaid(reply, batch)
    && now.kept == was.kept + Survivors(batch)
    && now.line == was.line + WorkOf(batch)
    && now.acted == was.acted + Effects(batch.trace)
    && (now.drifted <==> was.drifted || (logged && reply.Answered? && AnswerStrays(reply.response, batch)))
    && (now.hard ==> HardReply(reply))
    && now.spentAt == (if reply.Errored? && reply.exhausted then Some(|now.requests|) else None)
    && ReplyBatch(reply, cfg, batch)
  }

  lemma FailureEntered(reply: Reply, cfg: RunConfig, logged: bool, was: Books, now: Books)
    requires reply.Errored? && !now.hard
    requires now == was.(charges := was.charges + Optional(reply.billed),
                         spentAt := if reply.exhausted then Some(|was.requests|) else None)
    ensures ReplyEntered(reply, NO_BATCH, cfg, logged, was, now) && ReplyJudged(reply, NO_BATCH)
  {
    NoBatchLeaves(was.kept, was.line, was.said, was.acted);
  }

  lemma AnswerEntered(reply: Reply, batch: Batch, cfg: RunConfig, logged: bool, was: Books, now: Books)
    requires reply.Answered?
    requires
      var resp := reply.response;
      && now.charges == was.charges + [BilledUsage(resp.usage, resp.retryUsage)] && now.requests == was.requests
      && now.said == was.said + (Said(resp.message, resp.stop) + BatchSaid(resp, batch))
      && now.kept == was.kept + Survivors(batch) && now.line == was.line + WorkOf(batch)
      && now.acted == was.acted + Effects(batch.trace)
      && (now.drifted <==> was.drifted || (logged && AnswerStrays(resp, batch)))
      && (now.hard ==> HardStop(resp.stop)) && now.spentAt.None? && AnswerBatch(resp, cfg, batch)
    ensures ReplyEntered(reply, batch, cfg, logged, was, now)
    ensures AnswerJudged(reply.response, batch) ==> ReplyJudged(reply, batch)
  {
    hide AnswerBatch, AnswerJudged, BatchSaid, Said, HardStop, AnswerStrays, Survivors, WorkOf, Effects;
  }

  /** One round's entries. */
  ghost predicate Entered(round: Round, cfg: RunConfig, was: Books, logged: bool, now: Books) {
    && now.charges == was.charges + BilledIn(round)
    && now.requests == was.requests + SentIn(round)
    && now.said == was.said + SaidIn(round)
    && now.kept == was.kept + KeptIn(round)
    && now.line == was.line + LeftIn(round)
    && now.acted == was.acted + ActedIn(round)
    && Asks(round, cfg)
    && (now.drifted <==> was.drifted || (logged && Strays(round)))
    && (now.hard ==> was.hard || HardReply(round.reply))
    && now.spentAt == if Exhausts(round) then Some(|now.requests|) else None
  }

  /** A round's entries are those of its summary and request, and then those of its answer. */
  lemma EnterRound(round: Round, cfg: RunConfig, was: Books, logged: bool, mid: Books, now: Books)
    requires mid == was.(charges := was.charges + SummaryBill(round.summary), requests := was.requests + SentIn(round))
    requires round.reply.Answered? ==> round.sent.Some?
    requires ReplyEntered(round.reply, round.batch, cfg, logged, mid, now)
    ensures Entered(round, cfg, was, logged, now)
  {
    hide SummaryBill, ReplyBill, ReplySaid, AnswerStrays, ReplyBatch, Survivors, WorkOf, Effects, HardReply;
    assert was.charges + SummaryBill(round.summary) + ReplyBill(round.reply)
           == was.charges + (SummaryBill(round.summary) + ReplyBill(round.reply));
  }

  lemma NoRounds(cfg: RunConfig, was: Books, logged: bool)
    requires was.spentAt.None?
    ensures Accounts([], cfg, was, logged, was)
  {
    assert was.charges + [] == was.charges && was.requests + [] == was.requests && was.said + [] == was.said;
    assert was.kept + [] == was.kept && was.line + [] == was.line && was.acted + [] == was.acted;
  }

  /** From empty books, they hold what the rounds give. */
  lemma AllAccounted(rounds: seq<Round>, cfg: RunConfig, logged: bool, now: Books)
    requires Accounts(rounds, cfg, Books([], [], [], [], [], [], false, false, None), logged, now)
    ensures now.charges == All(BilledIn, rounds) && now.requests == All(SentIn, rounds)
    ensures now.said == All(SaidIn, rounds) && now.acted == All(ActedIn, rounds)
    ensures now.kept == All(KeptIn, rounds) && now.line == All(LeftIn, rounds)
    ensures now.drifted <==> logged && SomeStrays(rounds)
    ensures now.hard ==> rounds != [] && HardReply(rounds[|rounds| - 1].reply)
    ensures AllAsked(rounds, cfg) && SpentLast(rounds, now.spentAt)
  {
    hide All, SomeStrays, HardReply, AllAsked, SpentLast;
  }

  lemma OneMoreRound(rounds: seq<Round>, cfg: RunConfig, round: Round, was: Books, logged: bool, before: Books,
                     now: Books)
    requires Accounts(rounds, cfg, was, logged, before) && before.spentAt.None? && !before.hard
    requires Entered(round, cfg, before, logged, now)
    ensures Accounts(rounds + [round], cfg, was, logged, now)
  {
    hide All, BilledIn, SentIn, SaidIn, KeptIn, LeftIn, ActedIn, SomeStrays, Strays, Exhausts, SpentLast, AllAsked,
         Asks, HardReply;
    RoundsSnoc(rounds, cfg, round, |now.requests|);
    AllSnoc(BilledIn, rounds, round, was.charges);
    AllSnoc(SentIn, rounds, round, was.requests);
    AllSnoc(SaidIn, rounds, round, was.said);
    AllSnoc(KeptIn, rounds, round, was.kept);
    AllSnoc(LeftIn, rounds, round, was.line);
    AllSnoc(ActedIn, rounds, round, was.acted);
  }

  lemma RoundsSnoc(rounds: seq<Round>, cfg: RunConfig, round: Round, sent: nat)
    ensures AllAsked(rounds + [round], cfg) <==> AllAsked(rounds, cfg) && Asks(round, cfg)
    ensures SomeStrays(rounds + [round]) <==> SomeStrays(rounds) || Strays(round)
    ensures SpentLast(rounds, None) ==> SpentLast(rounds + [round], if Exhausts(round) then Some(sent) else None)
  {
    hide Strays, Exhausts, Asks;
    var more := rounds + [round];
    assert more[..|rounds|] == rounds && more[|rounds|] == round;
    if AllAsked(more, cfg) {
      forall i | 0 <= i < |rounds| ensures Asks(rounds[i], cfg) { assert more[i] == rounds[i]; }
    }
    if SomeStrays(rounds) {
      var i :| 0 <= i < |rounds| && Strays(rounds[i]);
      assert more[i] == rounds[i];
    }
    if SpentLast(rounds, None) {
      forall i | 0 <= i < |rounds| ensures !Exhausts(more[i]) { assert more[i] == rounds[i]; }
    }
  }

  /** The log after the k-th call of a batch: its answer, unless the id was answered before, and on the newest result
      the text that waited. */
  function LogAfterCall(items: seq<Item>, calls: seq<ToolCallRef>, k: nat, res: ToolOutcome, text: string): seq<Item>
    requires k < |calls|
  {
    TailPlus(if calls[k].id in CallIds(calls)[..k] then items
             else AppendTo(items, ToolResult(calls[k].id, res.content, res.isError)), text)
  }

  function LogAfterCalls(items: seq<Item>, calls: seq<ToolCallRef>, results: seq<ToolOutcome>, waiting: seq<string>):
    seq<Item>
    requires |results| == |waiting| <= |calls|
  {
    if results == [] then items
    else
      var n := |results| - 1;
      LogAfterCall(LogAfterCalls(items, calls, results[..n], waiting[..n]), calls, n, results[n], waiting[n])
  }

  /** An executed call ran under its own name and arguments; its observation and success are those of its result. */
  ghost predicate RanAs(run: Option<Run>, c: ToolCallRef, cfg: RunConfig, res: ToolOutcome) {
    run.Some? ==>
      && run.value.name == c.name && run.value.args == c.args
      && run.value.obs == cfg.hash(res.content) && run.value.ok == !res.isError
  }

  /** What the k-th call's result means for the verified flag: nothing when its id was answered before. */
  ghost function AnswerTo(calls: seq<ToolCallRef>, cfg: RunConfig, k: nat, res: ToolOutcome): Option<Answer>
    requires k < |calls|
  {
    var table := Filed(map[], calls, cfg);
    if calls[k].id in CallIds(calls)[..k] || calls[k].id !in table then None
    else Some(AnswerOf(table[calls[k].id], res))
  }

  ghost predicate Told(calls: seq<ToolCallRef>, cfg: RunConfig, k: nat, res: ToolOutcome, entry: CallTrace)
    requires k < |calls|
  {
    RanAs(entry.run, calls[k], cfg, res) && entry.answer == AnswerTo(calls, cfg, k, res)
  }

  /** One trace entry for each result, and what it must be. */
  ghost predicate Traced(calls: seq<ToolCallRef>, cfg: RunConfig, results: seq<ToolOutcome>, trace: seq<CallTrace>) {
    && |trace| == |results| <= |calls|
    && forall k :: 0 <= k < |trace| ==> Told(calls, cfg, k, results[k], trace[k])
  }

  lemma TracedSnoc(calls: seq<ToolCallRef>, cfg: RunConfig, results: seq<ToolOutcome>, trace: seq<CallTrace>,
                   res: ToolOutcome, entry: CallTrace)
    requires |results| < |calls| && Traced(calls, cfg, results, trace) && Told(calls, cfg, |results|, res, entry)
    ensures Traced(calls, cfg, results + [res], trace + [entry])
  {
    hide Told;
  }

  /** The effects of executed calls, in order. */
  function EffectOf(entry: CallTrace): seq<Effect> {
    if entry.run.Some? then [entry.run.value.effect] else []
  }

  function Effects(trace: seq<CallTrace>): seq<Effect> {
    if trace == [] then [] else Effects(trace[..|trace| - 1]) + EffectOf(trace[|trace| - 1])
  }

  /** The result rows of a batch: one for the first answer of each id. */
  function ResultRow(calls: seq<ToolCallRef>, k: nat, res: ToolOutcome): seq<ItemKind>
    requires k < |calls|
  {
    if calls[k].id in CallIds(calls)[..k] then [] else [ToolResult(calls[k].id, "", res.isError)]
  }

  function ResultRows(calls: seq<ToolCallRef>, results: seq<ToolOutcome>): seq<ItemKind>
    requires |results| <= |calls|
  {
    if results == [] then []
    else
      var n := |results| - 1;
      ResultRows(calls, results[..n]) + ResultRow(calls, n, results[n])
  }

  /** What became of a dispatched batch: for each closed call the text that waited, its result and its trace entry; the
      fragments that a probe left on the baseline; and the verdict, once one was applied. */
  datatype Batch = Batch(waiting: seq<string>, results: seq<ToolOutcome>, trace: seq<CallTrace>, probed: seq<string>,
                         verdict: Option<CommitVerdict>)

  const NO_BATCH := Batch([], [], [], [], None)

  /** What the calls of a batch move: log, conversation, drift and the tools' deeds. */
  datatype Path = Path(items: seq<Item>, said: seq<ItemKind>, drifted: bool, acted: seq<Effect>)

  /** One call closed. */
  ghost predicate CallDone(calls: seq<ToolCallRef>, cfg: RunConfig, logged: bool, k: nat, was: Path, now: Path,
                           res: ToolOutcome, text: string, entry: CallTrace)
    requires k < |calls|
  {
    && now.items == LogAfterCall(was.items, calls, k, res, text)
    && now.said == was.said + ResultRow(calls, k, res)
    && (now.drifted <==> was.drifted || (logged && calls[k].id in CallIds(calls)[..k] && text != ""))
    && now.acted == was.acted + EffectOf(entry)
    && Told(calls, cfg, k, res, entry)
  }

  /** The leading calls of a batch closed, and whether the batch has failed. */
  ghost predicate CallsDone(calls: seq<ToolCallRef>, cfg: RunConfig, logged: bool, was: Path, now: Path, batch: Batch,
                            failed: bool)
  {
    && |batch.results| == |batch.waiting| <= |calls|
    && now.items == LogAfterCalls(was.items, calls, batch.results, batch.waiting)
    && now.said == was.said + ResultRows(calls, batch.results)
    && (now.drifted <==> was.drifted || (logged && Strayed(calls, batch.waiting)))
    && now.acted == was.acted + Effects(batch.trace)
    && Traced(calls, cfg, batch.results, batch.trace)
    && (failed <==> AnyError(batch.results))
  }

  lemma NoCalls(calls: seq<ToolCallRef>, cfg: RunConfig, logged: bool, was: Path)
    ensures CallsDone(calls, cfg, logged, was, was, NO_BATCH, false)
    ensures NO_BATCH.probed == [] && NO_BATCH.verdict.None?
  {
    assert was.said + [] == was.said && was.acted + [] == was.acted;
  }

  /** The batch with one more call closed. */
  function WithCall(batch: Batch, res: ToolOutcome, text: string, entry: CallTrace): Batch {
    batch.(waiting := batch.waiting + [text], results := batch.results + [res], trace := batch.trace + [entry])
  }

  lemma OneMoreCall(calls: seq<ToolCallRef>, cfg: RunConfig, logged: bool, start: Path, was: Path, now: Path,
                    batch: Batch, failed: bool, res: ToolOutcome, text: string, entry: CallTrace)
    requires |batch.results| < |calls| && CallsDone(calls, cfg, logged, start, was, batch, failed)
    requires CallDone(calls, cfg, logged, |batch.results|, was, now, res, text, entry)
    ensures CallsDone(calls, cfg, logged, start, now, WithCall(batch, res, text, entry), failed || res.isError)
  {
    assert |CallIds(calls)| == |calls|;
    hide LogAfterCall, LogAfterCalls, Strayed, CallIds, AnyError, Traced, Told, Effects, EffectOf, ResultRow,
         ResultRows;
    StrayedSnoc(calls, batch.waiting, text);
    ErrorSnoc(batch.results, res);
    LogCallsSnoc(start.items, calls, batch.results, batch.waiting, res, text);
    TracedSnoc(calls, cfg, batch.results, batch.trace, res, entry);
    RowsSnoc(calls, batch.results, res, start.said);
    EffectsSnoc(batch.trace, entry, start.acted);
  }

  lemma CallsMean(calls: seq<ToolCallRef>, cfg: RunConfig, logged: bool, was: Path, now: Path, batch: Batch,
                  failed: bool)
    requires CallsDone(calls, cfg, logged, was, now, batch, failed)
    ensures |batch.results| <= |calls|
    ensures now.said == was.said + ResultRows(calls, batch.results) && now.acted == was.acted + Effects(batch.trace)
    ensures now.drifted <==> was.drifted || (logged && Strayed(calls, batch.waiting))
    ensures failed <==> AnyError(batch.results)
    ensures batch.probed == [] && batch.verdict.None? ==> BatchFits(calls, cfg, batch)
  {
    hide LogAfterCalls, ResultRows, Effects, Strayed, Traced, AnyError;
  }

  /** Only what the configuration allows: a hook that gives no partial verdicts gives none, and without probing nothing
      is probed. */
  ghost predicate Judged(batch: Batch, cfg: RunConfig) {
    && (batch.probed != [] ==> cfg.probing)
    && (batch.verdict.Some? && batch.verdict.value.Partial? ==> cfg.partials)
  }

  /** A batch of these calls: an entry for each result, and with a verdict one for every call. */
  ghost predicate BatchFits(calls: seq<ToolCallRef>, cfg: RunConfig, batch: Batch) {
    && Traced(calls, cfg, batch.results, batch.trace) && |batch.waiting| == |batch.results|
    && (batch.verdict.Some? ==> |batch.results| == |calls|)
    && Judged(batch, cfg)
  }

  /** The calls of a batch that survive it: all of them, or none when it was aborted or some result was an error. */
  ghost function Survivors(batch: Batch): seq<CallTrace> {
    if batch.verdict.None? || batch.verdict.value.Aborted? || AnyError(batch.results) then [] else batch.trace
  }

  /** What a batch leaves on the tree. */
  ghost function WorkOf(batch: Batch): seq<BatchWork> {
    match batch.verdict
    case None => []
    case Some(Aborted) => []
    case Some(Partial(savepoint)) => [Patched(savepoint.kept)]
    case Some(Committed) =>
      if AnyError(batch.results) then [Called([])]
      else if batch.probed != [] then [Patched(batch.probed)]
      else [Called(batch.trace)]
  }

  /** Without a verdict a batch leaves nothing. */
  lemma NothingLeft(batch: Batch, cfg: RunConfig, kept: seq<CallTrace>, line: seq<BatchWork>)
    requires batch.verdict.None? && (batch.probed != [] ==> cfg.probing)
    ensures kept + Survivors(batch) == kept && line + WorkOf(batch) == line && Judged(batch, cfg)
    ensures Survivors(batch) == []
  {
  }

  /** What the calls and work at the verdict mean for the survivors. */
  lemma BatchLeaves(batch: Batch, failed: bool, cfg: RunConfig, kept: seq<CallTrace>, line: seq<BatchWork>,
                    left: seq<CallTrace>, work: BatchWork)
    requires failed <==> AnyError(batch.results)
    requires left == if failed then [] else batch.trace
    requires work == if failed then Called([]) else if batch.probed == [] then Called(batch.trace)
                     else Patched(batch.probed)
    requires batch.probed != [] ==> cfg.probing
    ensures
      match batch.verdict
      case None => kept + Survivors(batch) == kept && line + WorkOf(batch) == line && Judged(batch, cfg)
      case Some(Aborted) => kept + Survivors(batch) == kept && line + WorkOf(batch) == line && Judged(batch, cfg)
      case Some(Committed) =>
        kept + Survivors(batch) == kept + left && line + WorkOf(batch) == line + [work] && Judged(batch, cfg)
      case Some(Partial(savepoint)) =>
        && kept + Survivors(batch) == kept + left && line + WorkOf(batch) == line + [Patched(savepoint.kept)]
        && (cfg.partials ==> Judged(batch, cfg))
  {
    hide AnyError;
  }

  lemma JudgedFits(calls: seq<ToolCallRef>, cfg: RunConfig, done: Batch, batch: Batch)
    requires BatchFits(calls, cfg, done) && |done.results| == |calls| && Judged(batch, cfg)
    requires batch == done.(probed := batch.probed, verdict := batch.verdict)
    ensures BatchFits(calls, cfg, batch) && (AnyError(batch.results) ==> Survivors(batch) == [])
  {
    hide Traced, AnyError;
  }

  lemma BrokenEnds(why: string)
    ensures !Unbroken(LOG_APPEND_FAILED) && !Unbroken(Failed(SnapshotFailure, why))
  {
  }

  lemma RowsSnoc(calls: seq<ToolCallRef>, results: seq<ToolOutcome>, res: ToolOutcome, said: seq<ItemKind>)
    requires |results| < |calls|
    ensures said + ResultRows(calls, results + [res])
            == said + ResultRows(calls, results) + ResultRow(calls, |results|, res)
  {
    hide ResultRow;
    assert (results + [res])[..|results|] == results;
  }

  lemma EffectsSnoc(trace: seq<CallTrace>, entry: CallTrace, acted: seq<Effect>)
    ensures acted + Effects(trace + [entry]) == acted + Effects(trace) + EffectOf(entry)
  {
    hide EffectOf;
    assert (trace + [entry])[..|trace|] == trace;
  }

  lemma LogCallsSnoc(was: seq<Item>, calls: seq<ToolCallRef>, results: seq<ToolOutcome>, waiting: seq<string>,
                     res: ToolOutcome, text: string)
    requires |results| == |waiting| < |calls|
    ensures LogAfterCalls(was, calls, results + [res], waiting + [text])
            == LogAfterCall(LogAfterCalls(was, calls, results, waiting), calls, |results|, res, text)
  {
    hide LogAfterCall;
    assert (results + [res])[..|results|] == results && (waiting + [text])[..|waiting|] == waiting;
  }

  lemma ErrorSnoc(results: seq<ToolOutcome>, res: ToolOutcome)
    ensures AnyError(results + [res]) <==> AnyError(results) || res.isError
  {
    assert forall r <- results :: r in results + [res];
    assert res in results + [res];
  }

  /** Outcomes after which the live stream is complete. */
  predicate Unbroken(o: Outcome) {
    !(o.Failed? && (o.kind == LogFailure || o.kind == SnapshotFailure))
  }

  /** Outcomes of a run whose log never failed before its closer. */
  predicate Logged(o: Outcome) {
    !(o.Failed? && o.kind == LogFailure)
  }

  /** A stream inside a run: the open turns, and the tool calls still to be ended. */
  ghost predicate Live(l: Ledger, turns: set<nat>, tools: set<string>) {
    && l.runStarts == 1 && l.runEnds == 0
    && l.messageStarts <= l.messageEnds
    && l.toolStarts <= l.toolEnds + tools
    && l.turnStarts - l.turnEnds == turns
    && (forall t, u :: t in l.turnEnds && u in turns ==> t < u)
  }

  lemma CloseLedger(l: Ledger, turn: nat, why: EventReason, silent: bool)
    requires Live(l, if silent && turn > 0 then {turn - 1} else {turn}, {})
    ensures turn > 0 ==> (Balanced(Post(Post(l, TurnClosed(turn, why)), Event.RunEnd)) <==> !silent)
  {
    if silent && turn > 0 {
      assert turn - 1 in l.turnStarts - l.turnEnds;
    }
  }

  lemma HopLedger(l: Ledger, turn: nat, why: EventReason)
    requires Live(l, {turn}, {})
    ensures Live(Post(Post(l, TurnClosed(turn, why)), TurnOpened(turn + 1)), {turn + 1}, {})
  {
    var m := Post(Post(l, TurnClosed(turn, why)), TurnOpened(turn + 1));
    assert turn in l.turnStarts - l.turnEnds;
    assert forall t :: t in l.turnEnds ==> t < turn;
    forall t | t in m.turnStarts - m.turnEnds
      ensures t == turn + 1
    {
      assert t in l.turnStarts ==> t in l.turnStarts - l.turnEnds;
    }
  }

  /** Live reason of a closed turn, read back from the log so that live and replay agree. */
  method HoppedReason(items: seq<Item>, turn: nat) returns (why: EventReason)
    ensures (exists i :: 0 <= i < |items| && items[i].kind.TurnEnd? && items[i].kind.ended == turn)
            ==> Backed(TurnClosed(turn, why), Rows(items))
  {
    var i := |items|;
    while i > 0 && !(items[i - 1].kind.TurnEnd? && items[i - 1].kind.ended == turn)
      invariant 0 <= i <= |items|
      invariant forall k :: i <= k < |items| ==> !(items[k].kind.TurnEnd? && items[k].kind.ended == turn)
    {
      i := i - 1;
    }
    if i == 0 {
      return EvCompleted;
    }
    why := ToEvent(items[i - 1].kind.reason);
    assert Rows(items)[i - 1] == items[i - 1].kind;
  }

  /** The rows a claim appends. */
  function ClaimRows(message: AssistantMessage, stop: StopReason, held: bool): seq<ItemKind> {
    if stop == Truncated then TruncatedRows(message.calls) + [Assistant(message, stop)]
    else if stop == StopReason.Failure || stop == StopReason.Aborted then []
    else
      [Assistant(message, stop)]
      + (if stop == Refused then []
         else if message.calls != [] then ToolCallRows(message.calls)
         else if held then [Attempt(VERIFY_NUDGE, true)]
         else [])
  }

  /** What a claim logs of the conversation: the answer after its unexecuted calls when it was truncated, nothing for a
      hard exit, else the answer, and the calls it dispatches. */
  function Said(message: AssistantMessage, stop: StopReason): seq<ItemKind> {
    if stop == Truncated then Blanks(TruncatedRows(message.calls)) + [Assistant(message, stop)]
    else if stop == StopReason.Failure || stop == StopReason.Aborted then []
    else [Assistant(message, stop)] + if stop == Refused then [] else ToolCallRows(message.calls)
  }

  lemma ClaimSays(message: AssistantMessage, stop: StopReason, held: bool)
    ensures Spoken(Blanks(ClaimRows(message, stop, held))) == Said(message, stop)
  {
    var rows := ClaimRows(message, stop, held);
    var added, said := Blanks(rows), Said(message, stop);
    if Ordinary(stop) && message.calls == [] && held {
      assert added == said + [Attempt(VERIFY_NUDGE, true)];
      hide ClaimRows, Blanks;
      SpokenGrows(said, [Attempt(VERIFY_NUDGE, true)]);
      Unspoken([Attempt(VERIFY_NUDGE, true)], Spoken(said));
    } else {
      assert added == said;
    }
    assert forall i :: 0 <= i < |said| ==> Speaks(said[i]);
    AllSpoken(said);
  }

  lemma ClaimAppends(was: seq<Item>, now: seq<Item>, message: AssistantMessage, stop: StopReason, held: bool)
    requires stop == Truncated ==>
               now == AppendTo(AppendAll(was, TruncatedRows(message.calls)), Assistant(message, stop))
    requires stop == Refused ==> now == AppendTo(was, Assistant(message, stop))
    requires stop == StopReason.Failure || stop == StopReason.Aborted ==> now == was
    requires Ordinary(stop) && message.calls == [] ==>
               now == if held then AppendTo(AppendTo(was, Assistant(message, stop)), Attempt(VERIFY_NUDGE, true))
                      else AppendTo(was, Assistant(message, stop))
    requires Ordinary(stop) && message.calls != [] ==>
               now == AppendAll(AppendTo(was, Assistant(message, stop)), ToolCallRows(message.calls))
    ensures now == AppendAll(was, ClaimRows(message, stop, held))
    ensures forall i :: 0 <= i < |ClaimRows(message, stop, held)| ==> !TurnRow(ClaimRows(message, stop, held)[i])
  {
    hide AppendTo;
    var agent, calls, more := Assistant(message, stop), ToolCallRows(message.calls), Attempt(VERIFY_NUDGE, true);
    AppendOne(was, agent);
    if stop == Truncated {
      AppendOne(AppendAll(was, TruncatedRows(message.calls)), agent);
      AppendAllConcat(was, TruncatedRows(message.calls), [agent]);
    } else if Ordinary(stop) {
      AppendAllConcat(was, [agent], calls);
      AppendOne(AppendTo(was, agent), more);
      AppendAllConcat(was, [agent], [more]);
    }
    assert [agent] + [] == [agent];
  }

  lemma ClaimQuiet(message: AssistantMessage, stop: StopReason, held: bool)
    requires Ordinary(stop)
    ensures
      var added := ClaimRows(message, stop, held);
      && Blanks(added) == added && added == [Assistant(message, stop)] + added[1..]
      && forall i :: 0 <= i < |added[1..]| ==> Silent(added[1..][i])
  {
  }

  /** A plain declare neither breaks nor repairs the pairing; a dispatch opens exactly its calls. */
  lemma ClaimPairs(rows: seq<ItemKind>, message: AssistantMessage, stop: StopReason, held: bool, paired: bool)
    requires paired <==> PairScan(rows) == Some([])
    requires Ordinary(stop)
    ensures
      var scan := PairScan(rows + Blanks(ClaimRows(message, stop, held)));
      if message.calls == [] then scan == Some([]) <==> paired
      else MidBatch(scan, paired, CallIds(message.calls), 0)
  {
    hide PairScan, MidBatch;
    var agent, added := Assistant(message, stop), ClaimRows(message, stop, held);
    var more := added[1..];
    ClaimQuiet(message, stop, held);
    hide ClaimRows, Blanks, Silent, CallIds;
    assert rows + Blanks(added) == rows + [agent] + more;
    if message.calls == [] {
      PairDeclare(rows, message, stop);
      PairSilent(rows + [agent], more);
    } else {
      DispatchOpens(rows, message, stop, more, paired);
    }
  }

  /** After a claim the newest agent row is the claimed one. */
  lemma ClaimIsRecent(rows: seq<ItemKind>, message: AssistantMessage, stop: StopReason, held: bool)
    requires stop != StopReason.Failure && stop != StopReason.Aborted
    ensures
      var added := Blanks(ClaimRows(message, stop, held));
      Recent(rows + added) == if stop == Truncated then [Assistant(message, stop)] else added
  {
    var added, agent := Blanks(ClaimRows(message, stop, held)), Assistant(message, stop);
    if stop == Truncated {
      var n := |added| - 1;
      assert added == added[..n] + [agent];
      hide ClaimRows, Blanks, Recent;
      assert rows + added == rows + added[..n] + [agent];
      RecentSnoc(rows + added[..n], agent);
    } else {
      assert added == [agent] + added[1..];
      assert forall i :: 0 <= i < |added[1..]| ==> !added[1..][i].Assistant?;
      hide ClaimRows, Blanks, Recent;
      assert rows + added == rows + [agent] + added[1..];
      RecentSnoc(rows, agent);
      RecentGrows(rows + [agent], added[1..]);
    }
  }

  lemma ClaimShows(rows: seq<ItemKind>, message: AssistantMessage, stop: StopReason, held: bool)
    ensures
      var more := rows + Blanks(ClaimRows(message, stop, held));
      && (stop != StopReason.Failure && stop != StopReason.Aborted ==> Backed(MessageEnd(0, message.content), more))
      && (Ordinary(stop) ==> forall c <- message.calls :: ToolCall(c) in Recent(more))
  {
    hide Recent;
    var added := Blanks(ClaimRows(message, stop, held));
    if stop != StopReason.Failure && stop != StopReason.Aborted {
      ClaimIsRecent(rows, message, stop, held);
    }
    if Ordinary(stop) {
      forall c | c in message.calls
        ensures ToolCall(c) in added
      {
        var i :| 0 <= i < |message.calls| && message.calls[i] == c;
        assert added[1 + i] == ToolCall(c);
      }
    }
  }

  /** A dispatch keeps all ids distinct exactly when its own are; anything else leaves the matter as it is. */
  lemma ClaimDistinct(rows: seq<ItemKind>, message: AssistantMessage, stop: StopReason, held: bool)
    requires Ordinary(stop)
    ensures DistinctLog(rows + Blanks(ClaimRows(message, stop, held)))
            <==> DistinctLog(rows) && NoDup(CallIds(message.calls))
  {
    hide NoDup, DistinctLog;
    ClaimQuiet(message, stop, held);
    var added := ClaimRows(message, stop, held);
    forall i | 1 <= i < |added| ensures OwnIds(added[i]) { assert Silent(added[1..][i - 1]); }
    DistinctSnoc(rows, added);
  }

  /** What the log says after a claim. */
  ghost predicate ClaimLogged(rows: seq<ItemKind>, message: AssistantMessage, stop: StopReason, paired: bool) {
    && (stop != StopReason.Failure && stop != StopReason.Aborted ==> Backed(MessageEnd(0, message.content), rows))
    && (Ordinary(stop) ==> forall c <- message.calls :: ToolCall(c) in Recent(rows))
    && (Ordinary(stop) ==> (DistinctLog(rows) <==> paired && NoDup(CallIds(message.calls))))
    && (stop == StopReason.Failure || stop == StopReason.Aborted ==> (DistinctLog(rows) <==> paired))
    && ((Ordinary(stop) && message.calls == []) || stop == StopReason.Failure || stop == StopReason.Aborted ==>
          (PairScan(rows) == Some([]) <==> paired))
    && (Ordinary(stop) && message.calls != [] ==> MidBatch(PairScan(rows), paired, CallIds(message.calls), 0))
  }

  lemma ClaimLogs(rows: seq<ItemKind>, message: AssistantMessage, stop: StopReason, held: bool, paired: bool)
    requires (paired <==> PairScan(rows) == Some([])) && (paired <==> DistinctLog(rows))
    ensures ClaimLogged(rows + Blanks(ClaimRows(message, stop, held)), message, stop, paired)
    ensures stop != StopReason.Failure && stop != StopReason.Aborted ==>
              Backed(MessageEnd(0, message.content), rows + Blanks(ClaimRows(message, stop, held)))
  {
    hide PairScan, MidBatch, Backed, DistinctLog, NoDup, Recent;
    ClaimShows(rows, message, stop, held);
    if Ordinary(stop) {
      ClaimPairs(rows, message, stop, held, paired);
      ClaimDistinct(rows, message, stop, held);
    }
    if stop == StopReason.Failure || stop == StopReason.Aborted {
      assert rows + Blanks([]) == rows;
    }
  }

  /** The answer starts a tool batch. */
  predicate Dispatches(resp: Response) {
    Ordinary(resp.stop) && resp.message.calls != []
  }

  ghost predicate ClaimKind(claim: Claim, message: AssistantMessage, stop: StopReason) {
    && (claim.HardExit? <==> stop == StopReason.Failure || stop == StopReason.Aborted)
    && (claim.TruncatedClaim? <==> stop == Truncated)
    && (claim.RefusedClaim? <==> stop == Refused)
    && (claim.DoneClaim? || claim.VerifyHold? <==> Ordinary(stop) && message.calls == [])
    && (claim.Dispatch? <==> Ordinary(stop) && message.calls != [])
    && (claim.Dispatch? ==> claim.calls == message.calls)
  }

  lemma MessageLedger(l: Ledger, id: nat, text: string, turns: set<nat>, tools: set<string>)
    requires Live(l, turns, tools)
    ensures Live(Post(Post(Post(l, MessageStart(id)), MessageUpdate(id, text)), MessageEnd(id, text)), turns, tools)
  {
    assert l.messageStarts + {id} <= l.messageEnds + {id};
  }

  /** The registry's answer to a call: run it, or a ready result. */
  datatype Prepared = Execute | Immediate(result: ToolOutcome)

  lemma StartsLedger(l: Ledger, turns: set<nat>, calls: seq<ToolCallRef>, k: nat)
    requires k < |calls| && Live(l, turns, IdSet(calls[..k]))
    ensures Live(Post(l, ToolStart(calls[k])), turns, IdSet(calls[..k + 1]))
  {
    assert calls[..k + 1] == calls[..k] + [calls[k]];
    IdSetSnoc(calls[..k], calls[k]);
  }

  lemma EndsLedger(l: Ledger, turns: set<nat>, calls: seq<ToolCallRef>, k: nat, result: string, isError: bool)
    requires k < |calls| && Live(l, turns, IdSet(calls[k..]))
    ensures Live(Post(l, ToolEnd(calls[k].id, result, isError)), turns, IdSet(calls[k + 1..]))
  {
    forall id | id in IdSet(calls[k..])
      ensures id == calls[k].id || id in IdSet(calls[k + 1..])
    {
      var i :| 0 <= i < |calls[k..]| && calls[k..][i].id == id;
      if i > 0 { assert calls[k + 1..][i - 1] == calls[k..][i]; }
    }
  }

  const CANCELLED_RESULT := ToolOutcome("cancelled", true)
  const ABORTED_RESULT := ToolOutcome("aborted before dispatch", true)

  ghost function Ran(c: Counters, run: Option<Run>): Counters {
    if run.Some? then AfterRun(c, run.value) else c
  }

  ghost function Touched(t: Tree, run: Option<Run>): Tree {
    if run.Some? then run.value.effect(t) else t
  }

  /** What a surviving batch did to the tree: ran its calls, or had patch fragments put on its baseline. */
  datatype BatchWork = Called(trace: seq<CallTrace>) | Patched(fragments: seq<string>)

  function AfterWork(apply: Snapshot.Apply, t: Tree, w: BatchWork): Tree {
    match w
    case Called(trace) => TreeOf(t, trace)
    case Patched(fragments) => if ApplyAll(apply, t, fragments).Some? then ApplyAll(apply, t, fragments).value else t
  }

  lemma CalledTree(apply: Snapshot.Apply, t: Tree, trace: seq<CallTrace>)
    ensures AfterWork(apply, t, Called(trace)) == TreeOf(t, trace)
  {
  }

  /** The tree after the given batches, one on another. */
  function AfterAll(apply: Snapshot.Apply, start: Tree, line: seq<BatchWork>): Tree {
    if line == [] then start else AfterWork(apply, AfterAll(apply, start, line[..|line| - 1]), line[|line| - 1])
  }

  function Traces(line: seq<BatchWork>): seq<CallTrace> {
    if line == [] then []
    else Traces(line[..|line| - 1]) + match line[|line| - 1] case Called(trace) => trace case Patched(_) => []
  }

  ghost predicate AllCalled(line: seq<BatchWork>) {
    forall i :: 0 <= i < |line| ==> line[i].Called?
  }

  lemma LineSnoc(apply: Snapshot.Apply, start: Tree, line: seq<BatchWork>, w: BatchWork)
    ensures AfterAll(apply, start, line + [w]) == AfterWork(apply, AfterAll(apply, start, line), w)
    ensures Traces(line + [w]) == Traces(line) + match w case Called(trace) => trace case Patched(_) => []
    ensures AllCalled(line + [w]) <==> AllCalled(line) && w.Called?
  {
    assert (line + [w])[..|line|] == line;
    if AllCalled(line + [w]) {
      assert (line + [w])[|line|].Called?;
      forall i | 0 <= i < |line| ensures line[i].Called? { assert (line + [w])[i].Called?; }
    }
  }

  lemma {:induction false} TreeConcat(t: Tree, a: seq<CallTrace>, b: seq<CallTrace>)
    ensures TreeOf(t, a + b) == TreeOf(TreeOf(t, a), b)
  {
    if b == [] {
      assert a + b == a;
    } else {
      TreeConcat(t, a, b[..|b| - 1]);
      assert (a + b)[..|a + b| - 1] == a + b[..|b| - 1];
    }
  }

  /** When no fragments were put on a baseline, the tree is that of all the surviving calls. */
  lemma {:induction false} CallsMakeTheTree(apply: Snapshot.Apply, start: Tree, line: seq<BatchWork>)
    requires AllCalled(line)
    ensures AfterAll(apply, start, line) == TreeOf(start, Traces(line))
  {
    if line != [] {
      var n := |line| - 1;
      CallsMakeTheTree(apply, start, line[..n]);
      TreeConcat(start, Traces(line[..n]), line[n].trace);
    }
  }

  /** Settled calls of a batch, in the call table and in the log. */
  ghost predicate InTable(table: map<string, CallState>, rows: seq<ItemKind>, calls: seq<ToolCallRef>, k: nat)
    requires k <= |calls|
  {
    && table.Keys == IdSet(calls)
    && (forall id <- table :: table[id].result.Some? <==> id in CallIds(calls)[..k])
    && (forall id <- table :: table[id].result.Some? ==> ToolResult(id, "", table[id].result.value.isError) in rows)
  }

  /** The table is the one entered, but for the results since. */
  ghost predicate AsFiled(table: map<string, CallState>, filed: map<string, CallState>) {
    table.Keys == filed.Keys && forall id <- table :: table[id].(result := None) == filed[id].(result := None)
  }

  lemma SettleAgain(table: map<string, CallState>, rows: seq<ItemKind>, calls: seq<ToolCallRef>, k: nat)
    requires k < |calls| && InTable(table, rows, calls, k)
    requires calls[k].id !in table || table[calls[k].id].result.Some?
    ensures CallIds(calls)[k] in CallIds(calls)[..k] && InTable(table, rows, calls, k + 1)
  {
    var ids := CallIds(calls);
    assert calls[k] in calls && calls[k].id in IdSet(calls);
    assert ids[..k + 1] == ids[..k] + [ids[k]];
  }

  lemma SettleFresh(table: map<string, CallState>, rows: seq<ItemKind>, calls: seq<ToolCallRef>, k: nat,
                    res: ToolOutcome)
    requires k < |calls| && InTable(table, rows, calls, k)
    requires calls[k].id in table && table[calls[k].id].result.None?
    ensures CallIds(calls)[k] !in CallIds(calls)[..k]
    ensures InTable(table[calls[k].id := table[calls[k].id].(result := Some(res))],
                     rows + [ToolResult(calls[k].id, "", res.isError)], calls, k + 1)
  {
    var ids, id := CallIds(calls), calls[k].id;
    assert ids[..k + 1] == ids[..k] + [ids[k]];
    var next := table[id := table[id].(result := Some(res))];
    assert next.Keys == table.Keys;
    var more := rows + [ToolResult(id, "", res.isError)];
    assert more[|rows|] == ToolResult(id, "", res.isError);
    assert forall row <- rows :: row in more;
  }

  lemma RepeatedId(ids: seq<string>, k: nat)
    requires k < |ids| && ids[k] in ids[..k]
    ensures !NoDup(ids)
  {
    var i :| 0 <= i < k && ids[..k][i] == ids[k];
    assert ids[i] == ids[k];
  }

  lemma InTableResult(table: map<string, CallState>, rows: seq<ItemKind>, calls: seq<ToolCallRef>, k: nat)
    requires k < |calls| && InTable(table, rows, calls, k + 1)
    ensures calls[k].id in table && table[calls[k].id].result.Some?
    ensures ToolResult(calls[k].id, "", table[calls[k].id].result.value.isError) in rows
  {
    assert calls[k] in calls;
    assert CallIds(calls)[..k + 1][k] == calls[k].id;
  }

  /** One more trace entry moves the specified counters and tree as the call moved the real ones. */
  lemma CallTallies(start: Tree, trace: seq<CallTrace>, run: Option<Run>, answer: Option<Answer>)
    ensures
      var ran := Ran(CountersOf(trace), run);
      CountersOf(trace + [CallTrace(run, answer)]) ==
      if answer.Some? then ran.(verified := VerifiedAfter(ran.verified, answer.value)) else ran
    ensures TreeOf(start, trace + [CallTrace(run, answer)]) == Touched(TreeOf(start, trace), run)
  {
    CountersSnoc(trace, CallTrace(run, answer));
    TreeSnoc(start, trace, CallTrace(run, answer));
  }

  /** The table after a result was noted for an open call. */
  ghost predicate Noted(before: map<string, CallState>, after: map<string, CallState>, id: string, res: ToolOutcome) {
    id in before && after == before[id := before[id].(result := Some(res))]
  }

  /** The table holds exactly these results for the leading calls. */
  ghost predicate Resulted(table: map<string, CallState>, calls: seq<ToolCallRef>, results: seq<ToolOutcome>) {
    && |results| <= |calls|
    && forall j :: 0 <= j < |results| ==> calls[j].id in table && table[calls[j].id].result == Some(results[j])
  }

  lemma NoResults(table: map<string, CallState>, calls: seq<ToolCallRef>)
    ensures Resulted(table, calls, [])
  {
  }

  lemma ResultsGrow(before: map<string, CallState>, after: map<string, CallState>, calls: seq<ToolCallRef>,
                    results: seq<ToolOutcome>, res: ToolOutcome)
    requires |results| < |calls| && Resulted(before, calls, results) && Noted(before, after, calls[|results|].id, res)
    requires forall j :: 0 <= j < |results| ==> calls[j].id != calls[|results|].id
    ensures Resulted(after, calls, results + [res])
  {
  }

  ghost predicate AnyError(results: seq<ToolOutcome>) {
    exists r <- results :: r.isError
  }

  lemma InTableAll(table: map<string, CallState>, rows: seq<ItemKind>, calls: seq<ToolCallRef>)
    requires InTable(table, rows, calls, |calls|)
    ensures AllAnswered(table)
  {
    forall id | id in table
      ensures table[id].result.Some?
    {
      var c :| c in calls && c.id == id;
      var i :| 0 <= i < |calls| && calls[i] == c;
      assert CallIds(calls)[..|calls|][i] == id;
    }
  }

  lemma Ended<T>(s: seq<T>, a: T, b: T)
    ensures s + [a] + [b] == s + [a, b] && (s + [a, b])[..|s|] == s
  {
  }

  lemma OpenLedger(l: Ledger)
    requires Live(l, {}, {}) && l.turnEnds == {}
    ensures Live(Post(l, TurnOpened(1)), {1}, {})
  {
  }

  class RunCtx {
    const state: LoopState
    const emitter: Emitter
    const tree: TreeService
    const log: LogWriter<Item>
    const env: Env
    const cfg: RunConfig
    const logged: bool            // a log path is configured
    var writing: bool             // the log writer is open
    var synced: nat               // log rows on disk
    ghost const base: seq<Item>     // records in the file before this run
    ghost const start: Tree       // work tree at run start
    ghost var distinct: bool      // every dispatched batch so far had distinct call ids
    ghost var drifted: bool       // some text was put on a row that was already on disk
    ghost var kept: seq<CallTrace>  // calls of the batches that were not rolled back
    ghost var cur: seq<CallTrace>   // calls of the batch in progress
    ghost var line: seq<BatchWork>  // what each surviving batch did to the tree
    ghost var doing: BatchWork    // what the batch in progress has done to it
    ghost var silentHop: bool     // a follow-up turn was opened on a cancelled provider failure
    ghost var spentAt: Option<nat>  // requests sent when a provider ladder came back exhausted
    ghost var hardExit: bool      // the last message frames have no log row
    ghost var requests: seq<Sent>
    ghost var said: seq<ItemKind>   // agent rows of the answers claimed so far

    /** A run is set up on a fresh state; the log file may hold earlier records and a torn tail. */
    constructor (state: LoopState, emitter: Emitter, tree: TreeService, log: LogWriter<Item>, env: Env, cfg: RunConfig,
                 logged: bool)
      ensures this.state == state && this.emitter == emitter && this.tree == tree && this.log == log && this.env == env
      ensures this.cfg == cfg && this.logged == logged
      ensures !writing && synced == 0 && distinct && kept == [] && cur == []
      ensures start == tree.work && base == log.records
      ensures !drifted && line == [] && !silentHop && spentAt.None? && !hardExit && requests == [] && said == []
    {
      this.state, this.emitter, this.tree, this.log, this.env, this.cfg, this.logged :=
        state, emitter, tree, log, env, cfg, logged;
      base, start := log.records, tree.work;
      writing, synced := false, 0;
      distinct, drifted, kept, cur, line, doing := true, false, [], [], [], Called([]);
      silentHop, spentAt, hardExit, requests, said := false, None, false, [], [];
    }

    // ---- invariants ----

    /** Until an append fails the file holds the log's synced prefix row by row: exactly, unless text was put on
        a row already written, which only a repeated call id can cause. */
    ghost predicate Mirrored()
      reads this`synced, this`writing, this`distinct, this`drifted, this`requests, this`said, state`items, log
    {
      && Lawful(log.codec) && log.Valid() && (writing && log.intact ==> log.torn == [])
      && synced <= |state.items| && (!writing ==> synced == 0)
      && (writing && log.intact ==> Shadowed(log.records, base + state.items[..synced]))
      && (drifted ==> !distinct)
      && (DistinctLog(Rows(state.items)) ==> distinct)
      && AllGood(requests, Rows(state.items)) && Spoken(Rows(state.items)) == said
    }

    ghost predicate Shadowed(records: seq<Item>, rows: seq<Item>)
      reads this`drifted
    {
      Extends(records, rows) && (records == rows <==> !drifted)
    }

    /** No append has failed. */
    ghost predicate Whole()
      reads this`writing, log`intact
    {
      writing ==> log.intact
    }

    /** The log is well formed and inside the current turn. */
    ghost predicate Lined()
      reads state`items, state`turn
    {
      GoodLog(state.items) && Brackets(Rows(state.items)) == Some(OpenAt(state.turn))
    }

    ghost predicate Sane()
      reads state`totals, state`charges, state.budget`tokens, state.budget`spentCents,
            state.budget`admitted, state.budget`steps, state.budget`refunds, state.budget`lost, state.budget`graceUsed,
            state.budget`pastCap
    {
      state.budget.Bounded() && state.Metered()
    }

    /** Each request used up an admission, and nothing was asked that the file did not hold. */
    ghost predicate Asked()
      reads this`requests, this`writing, state.budget`admitted
    {
      && |requests| <= state.budget.admitted
      && (writing ==> forall i :: 0 <= i < |requests| ==> requests[i].unsynced == 0)
    }

    /** File, log, meters and requests; holds at every point of a run. */
    ghost predicate Steady()
      reads this, state, state.budget, log
    {
      writing == logged && Mirrored() && Lined() && Sane() && Asked()
    }

    /** Frames that may lack a row: those of a hard exit. */
    ghost function Excused(): nat
      reads this`hardExit, emitter`history
    {
      if hardExit && emitter.history != [] then 1 else 0
    }

    /** Every frame emitted so far went out with the whole log on disk, the row it reports among it. */
    ghost predicate Framed()
      reads this`writing, this`hardExit, emitter, state`items
    {
      && |emitter.history| == |emitter.syncedAt| == |emitter.rowsAt|
      && (writing ==> emitter.rowsAt == emitter.syncedAt)
      && (writing ==> AllBacked(emitter.history, emitter.syncedAt, Rows(state.items), |emitter.history| - Excused()))
    }

    /** Calls and results pair up exactly when all batches had distinct ids, and the checkpoint cuts soundly. */
    ghost predicate Paired()
      reads this`distinct, state`items, state`checkpoint
    {
      && (PairScan(Rows(state.items)) == Some([]) <==> distinct)
      && (distinct <==> DistinctLog(Rows(state.items)))
      && SoundCut(state.checkpoint, Rows(state.items))
    }

    /** Counters are those of the surviving calls and the tree that of the surviving batches. */
    ghost predicate Surviving()
      reads this`kept, this`line, tree`work, state`edits, state`lastSig, state`lastObs, state`verifiedSinceWrite,
            state.budget`actionsThisTrial, state.budget`sameActionStreak
    {
      && state.Counted() == CountersOf(kept)
      && tree.work == AfterAll(tree.apply, start, line)
      && (AllCalled(line) ==> kept == Traces(line))
      && (!cfg.partials && !cfg.probing ==> AllCalled(line))
    }

    /** Running, every dispatched call answered, every frame so far accounted for. */
    ghost predicate Upright()
      reads this`hardExit, this`writing, log`intact, state`phase, state`turn, state`toolCalls
    {
      state.phase == Running && state.turn >= 1 && AllAnswered(state.toolCalls) && !hardExit && Whole()
    }

    /** No terminal condition is pending but a stop; a silent hop or an exhausted ladder means the cancel is up. */
    ghost predicate Ready()
      reads this`silentHop, this`spentAt, this`requests, env`cancelled,
            state`gate, state`stopHard, state`fatalError, state`turnReason,
            state`openMsg, state`wakeRequested, state`stepRetries, state`nudgesUsed
    {
      && (state.gate != Open ==> state.stopHard)
      && state.fatalError.None? && state.turnReason.None? && state.openMsg.None? && !state.wakeRequested
      && state.stepRetries <= STEP_RETRY_BUDGET && state.nudgesUsed <= VERIFY_NUDGE_CAP
      && ((silentHop || spentAt.Some?) ==> env.cancelled)
      && (spentAt.Some? ==> spentAt.value == |requests|)
    }

    ghost function OpenTurns(): set<nat>
      reads this`silentHop, state`turn
    {
      if silentHop && state.turn > 0 then {state.turn - 1} else {state.turn}
    }

    /** The loop head. */
    ghost predicate AtHead()
      reads this, state, state.budget, emitter, tree, log, env
    {
      && Steady() && Framed() && Paired() && Surviving() && Upright() && Ready()
      && state.inFlight.None?
      && Live(LedgerOf(emitter.history), OpenTurns(), {})
    }

    /** An admitted provider round, before its answer. */
    ghost predicate InRound()
      reads this, state, state.budget, emitter, tree, log, env
    {
      && Steady() && Framed() && Paired() && Surviving() && Upright() && Ready()
      && state.inFlight == Some(state.turn) && !state.callModel && state.toolCalls == map[] && state.steering == []
      && !silentHop && spentAt.None?
      && (writing ==> synced == |state.items|)
      && Live(LedgerOf(emitter.history), {state.turn}, {})
    }

    /** A terminal outcome that `Finish` still has to close. */
    ghost predicate Ending(o: Outcome)
      reads this, state, state.budget, emitter, tree`work, log
    {
      && Steady() && Framed() && (Logged(o) ==> Whole())
      && state.turn >= 1 && (hardExit ==> emitter.history != [])
      && (spentAt.Some? ==> spentAt.value == |requests|)
      && (Unbroken(o) ==> Live(LedgerOf(emitter.history), OpenTurns(), {}) && Surviving())
    }

    ghost function Trail(): Path
      reads this`said, this`drifted, env`acted, state`items
    {
      Path(state.items, said, drifted, env.acted)
    }

    ghost function Entries(): Books
      reads this`requests, this`said, this`kept, this`line, this`drifted, this`hardExit, this`spentAt, env`acted,
            state`charges
    {
      Books(state.charges, requests, said, kept, line, env.acted, drifted, hardExit, spentAt)
    }

    // ---- log and frames ----

    /** Appends every pending row to the file, stopping at the first error. */
    method Sync() returns (ok: bool)
      requires Mirrored()
      modifies this`synced, log
      ensures Mirrored()
      ensures synced >= old(synced)
      ensures ok && writing ==> synced == |state.items|
      ensures ok ==> log.intact == old(log.intact)
      ensures !ok ==> writing && !log.intact && synced < |state.items|
      ensures old(synced) == |state.items| ==> ok
      ensures log.intact ==> old(log.intact)
    {
      hide LawfulFor, Holds, Extends;
      if !writing || synced >= |state.items| {
        return true;
      }
      ok := true;
      while synced < |state.items| && ok
        invariant old(synced) <= synced <= |state.items|
        invariant log.Valid() && (log.intact ==> log.torn == []) && (log.intact ==> old(log.intact))
        invariant log.intact ==> Shadowed(log.records, base + state.items[..synced])
        invariant ok ==> log.intact == old(log.intact)
        invariant !ok ==> !log.intact && synced < |state.items|
        decreases |state.items| - synced, ok
      {
        var item := state.items[synced];
        assert LawfulFor(log.codec, item);
        ghost var records := log.records;
        ok := log.Append(item);
        if ok {
          assert base + state.items[..synced + 1] == base + state.items[..synced] + [item];
          if log.intact { ExtendsSnoc(records, base + state.items[..synced], item); }
          synced := synced + 1;
        }
      }
    }

    /** Rows appended to the log keep the mirror and the frames. */
    twostate lemma Grew(more: seq<ItemKind>)
      requires old(Mirrored()) && old(Framed())
      requires unchanged(`synced, `writing, `distinct, `drifted, `requests, `hardExit)
      requires unchanged(emitter) && unchanged(log) && said == old(said) + Spoken(more)
      requires old(state.items) <= state.items && Rows(state.items) == Rows(old(state.items)) + more
      ensures Mirrored() && Framed()
    {
      hide Lawful, Rows, AllBacked, LogWriter.Valid, DistinctLog, AllGood, Spoken;
      assert state.items[..synced] == old(state.items)[..synced];
      SpokenGrows(Rows(old(state.items)), more);
      GoodGrows(requests, Rows(old(state.items)), Rows(state.items));
      if writing {
        BackedGrows(emitter.history, emitter.syncedAt, Rows(old(state.items)), Rows(state.items),
                    |emitter.history| - Excused());
      }
    }

    /** A live frame, emitted only when the whole log is on disk and the frame's row is in it. */
    method Show(e: Event)
      requires Mirrored() && Framed() && !hardExit && (writing ==> synced == |state.items|)
      requires writing ==> Backed(e, Rows(state.items)[..synced])
      modifies emitter
      ensures Framed()
      ensures emitter.history == old(emitter.history) + [e]
      ensures emitter.syncedAt == old(emitter.syncedAt) + [synced]
      ensures LedgerOf(emitter.history) == Post(LedgerOf(old(emitter.history)), e)
      ensures e.ErrorFrame? ==> LedgerOf(emitter.history) == LedgerOf(old(emitter.history))
    {
      hide Lawful, Rows, AllBacked, LogWriter.Valid, Backed, LedgerOf;
      if writing {
        BackedEmit(emitter.history, emitter.syncedAt, Rows(state.items), e, synced);
      }
      emitter.Emit(e, synced, |state.items|);
    }

    // ---- closing ----

    /** What a finished run leaves behind. */
    ghost predicate Concluded(o: Outcome)
      reads this, state, state.budget, emitter, tree`work, log
    {
      && GoodLog(state.items)
      && (state.turn >= 1 ==> Brackets(Rows(state.items)) == Some(Between(state.turn)))
      && writing == logged && Mirrored() && (writing && log.intact ==> synced == |state.items|)
      && (writing && Logged(o) && !log.intact ==> synced < |state.items|)
      && Sane() && Asked()
      && (spentAt.Some? ==> spentAt.value == |requests|)
      && |emitter.history| == |emitter.syncedAt| == |emitter.rowsAt| >= 2 + Excused()
      && (writing ==>
            emitter.rowsAt[..|emitter.history| - 2] == emitter.syncedAt[..|emitter.history| - 2])
      && (writing ==>
            AllBacked(emitter.history, emitter.syncedAt, Rows(state.items), |emitter.history| - 2 - Excused()))
      && (Unbroken(o) && state.turn >= 1 ==> (Balanced(LedgerOf(emitter.history)) <==> !silentHop))
      && (Unbroken(o) && state.turn >= 1 ==> Surviving())
    }

    /** The durable closer of the current turn. */
    method CloseTurn(reason: TurnReason)
      requires Mirrored() && Lined() && Framed()
      modifies this`synced, state`items, log
      ensures Mirrored() && Framed() && GoodLog(state.items)
      ensures state.turn >= 1 ==> Brackets(Rows(state.items)) == Some(Between(state.turn))
      ensures writing && log.intact ==> synced == |state.items|
      ensures old(Whole()) && !Whole() ==> synced < |state.items|
    {
      hide Mirrored, Framed, Rows, GoodLog, Brackets, SoundCut;
      ghost var was := state.items;
      label Appending:
      state.items := AppendTo(state.items, TurnEnd(state.turn, reason));
      GrowOne(was, TurnEnd(state.turn, reason), None);
      CloseBracket(Rows(was), state.turn, reason);
      Unspoken([TurnEnd(state.turn, reason)], said);
      Grew@Appending([TurnEnd(state.turn, reason)]);
      var _ := Sync();
    }

    /** Durable closer first, terminal frames second; the frames go out even when the log fails. */
    method Finish(outcome: Outcome) returns (o: Outcome)
      requires Steady() && Framed() && (Logged(outcome) ==> Whole())
      requires hardExit ==> emitter.history != []
      requires spentAt.Some? ==> spentAt.value == |requests|
      requires Unbroken(outcome) && state.turn >= 1 ==> Live(LedgerOf(emitter.history), OpenTurns(), {}) && Surviving()
      modifies this`synced, state`turnReason, state`items, log, emitter
      ensures o == outcome && Concluded(o)
    {
      hide Sane, Asked, Lined, Mirrored, Rows, AllBacked, Balanced, LedgerOf, Live, GoodLog, Brackets, Surviving,
           Framed;
      var reason := LogReason(outcome, state.turnReason);
      state.StickTurnReason(reason);
      CloseTurn(reason);
      EmitTerminal(ToEvent(reason));
      o := outcome;
    }

    /** The terminal frames, with or without a log behind them. */
    method EmitTerminal(why: EventReason)
      requires Framed() && (hardExit ==> emitter.history != [])
      modifies emitter
      ensures |emitter.history| == |emitter.syncedAt| == |emitter.rowsAt| >= 2 + Excused()
      ensures writing ==> emitter.rowsAt[..|emitter.history| - 2] == emitter.syncedAt[..|emitter.history| - 2]
      ensures writing ==>
                AllBacked(emitter.history, emitter.syncedAt, Rows(state.items), |emitter.history| - 2 - Excused())
      ensures state.turn >= 1 && old(Live(LedgerOf(emitter.history), OpenTurns(), {})) ==>
                (Balanced(LedgerOf(emitter.history)) <==> !silentHop)
    {
      hide Rows, AllBacked, Balanced, LedgerOf, Live, Post;
      var turn := state.turn;
      ghost var before, at, rowsAt, n := emitter.history, emitter.syncedAt, emitter.rowsAt, Excused();
      emitter.Emit(TurnClosed(turn, why), synced, |state.items|);
      emitter.Emit(Event.RunEnd, synced, |state.items|);
      Ended(before, TurnClosed(turn, why), Event.RunEnd);
      Ended(at, synced, synced);
      Ended(rowsAt, |state.items|, |state.items|);
      if writing {
        BackedMore(before, at, [TurnClosed(turn, why), Event.RunEnd], [synced, synced], Rows(state.items),
                   |before| - n);
      }
      if turn >= 1 && Live(LedgerOf(before), OpenTurns(), {}) {
        CloseLedger(LedgerOf(before), turn, why, silentHop);
      }
    }

    // ---- termination ----

    /** The rows of a hop: the old turn's closer, then the new turn's opener. */
    ghost predicate HopRows(was: seq<ItemKind>, turnWas: nat)
      reads state`items, state`turn
    {
      && state.turn == turnWas + 1
      && exists why :: Rows(state.items) == was + [TurnEnd(turnWas, why), TurnStartRow(turnWas + 1)]
    }

    twostate lemma HopGrew(why: TurnReason)
      requires old(Mirrored()) && old(Framed()) && old(Lined()) && old(state.turn) >= 1
      requires unchanged(this) && unchanged(emitter) && unchanged(log)
      requires state.turn == old(state.turn) + 1
      requires state.items
               == AppendTo(AppendTo(old(state.items), TurnEnd(old(state.turn), why)), TurnStartRow(state.turn))
      requires state.checkpoint == old(state.checkpoint)
      ensures Mirrored() && Framed() && Lined() && HopRows(Rows(old(state.items)), old(state.turn))
      ensures old(Paired()) ==> Paired()
    {
      hide Mirrored, Framed, Rows, GoodLog, Brackets, SoundCut, PairScan, DistinctLog;
      var was, t := old(state.items), old(state.turn);
      var mid := AppendTo(was, TurnEnd(t, why));
      var more := [TurnEnd(t, why), TurnStartRow(t + 1)];
      GrowOne(was, TurnEnd(t, why), state.checkpoint);
      GrowOne(mid, TurnStartRow(t + 1), state.checkpoint);
      assert Rows(state.items) == Rows(was) + more;
      BracketsHop(Rows(was), t, why);
      PairSilent(Rows(was), more);
      DistinctSkips(Rows(was), more);
      Unspoken(more, said);
      Grew(more);
    }

    /** One pass of the ordered termination on a drained run. */
    method Judge() returns (v: Verdict)
      requires Mirrored() && Lined() && Framed()
      requires state.Drained() && state.steering == [] && state.turn >= 1 && state.phase == Running
      modifies env`now, state`drainUntil, state`items, state`turn, state`phase, state`steering, state`followups,
               state`turnReason
      ensures Mirrored() && Lined() && Framed() && (old(Paired()) ==> Paired())
      ensures !v.Break?
      ensures old(state.stopHard || state.fatalError.Some? || state.budget.Peek(env.now).Some?
                  || (state.turnReason.Some? && (state.turnReason.value.Error? || state.turnReason.value.MaxTokens?)))
              ==> v.Return?
      ensures state.turn != old(state.turn) <==>
                && !old(state.stopHard) && old(state.fatalError).None? && state.budget.Peek(env.now).None?
                && !(old(state.turnReason).Some?
                     && (old(state.turnReason).value.Error? || old(state.turnReason).value.MaxTokens?))
                && !old(state.callModel) && old(state.followups) != []
      ensures state.turn == old(state.turn) ==> state.items == old(state.items)
      ensures old(state.followups) == [] ==> state.followups == []
      ensures v.Return? ==> state.turn == old(state.turn) && Unbroken(v.outcome)
      ensures v.Continue? && old(state.callModel) ==>
                state.turn == old(state.turn) && state.phase == Running && state.turnReason == old(state.turnReason)
      ensures v.Continue? && !old(state.callModel) ==>
                || (HopRows(Rows(old(state.items)), old(state.turn))
                    && state.phase == Running && state.turnReason.None?)
                || (state.turn == old(state.turn) && state.phase == Idle && state.IsIdle())
    {
      hide Mirrored, Framed, Lined, Paired, BudgetGuard.Peek, AppendTo;
      var now := env.Clock();
      var later := env.Clock();
      PeekMonotone(state.budget, old(env.now), later);
      label Judging:
      v := state.Terminate(cfg, now, later);
      if v.Continue? && state.turn != old(state.turn) {
        HopGrew@Judging(if old(state.turnReason).Some? then old(state.turnReason).value else Completed);
      }
    }

    /** A hop's frames: the old turn's end, then the new turn's start, both already durable. */
    method CloseHop(before: nat) returns (stop: Option<Outcome>)
      requires Mirrored() && Framed() && !hardExit && before >= 1
      requires state.turn == before || exists was :: HopRows(was, before)
      requires Live(LedgerOf(emitter.history), {before}, {})
      modifies this`synced, log, emitter
      ensures Mirrored() && Framed()
      ensures stop.None? ==> Live(LedgerOf(emitter.history), {state.turn}, {}) && (old(Whole()) ==> Whole())
      ensures stop.Some? ==> stop.value == LOG_APPEND_FAILED
    {
      hide Mirrored, Framed, Live, Post, LedgerOf, Rows;
      if state.turn == before {
        return None;
      }
      ghost var was :| HopRows(was, before);
      var ok := Sync();
      if !ok {
        return Some(LOG_APPEND_FAILED);
      }
      var why := HoppedReason(state.items, before);
      assert HopRows(was, before);
      HopBacked(before, why);
      ghost var live := LedgerOf(emitter.history);
      Show(TurnClosed(before, why));
      Show(TurnOpened(state.turn));
      HopLedger(live, before, why);
      return None;
    }

    lemma HopBacked(before: nat, why: EventReason)
      requires Mirrored() && (writing ==> synced == |state.items|)
      requires exists was :: HopRows(was, before)
      requires (exists i ::
                  0 <= i < |state.items| && state.items[i].kind.TurnEnd? && state.items[i].kind.ended == before)
               ==> Backed(TurnClosed(before, why), Rows(state.items))
      ensures writing ==> Backed(TurnClosed(before, why), Rows(state.items)[..synced])
      ensures writing ==> Backed(TurnOpened(state.turn), Rows(state.items)[..synced])
    {
      var was :| HopRows(was, before);
      var reason :| Rows(state.items) == was + [TurnEnd(before, reason), TurnStartRow(before + 1)];
      var n := |was|;
      assert Rows(state.items)[n] == TurnEnd(before, reason);
      assert state.items[n].kind == TurnEnd(before, reason);
      assert Rows(state.items)[n + 1] == TurnStartRow(before + 1);
      if writing {
        assert Rows(state.items)[..synced] == Rows(state.items);
      }
    }

    /** A drained round with its claim landed: what the shared tail of a round starts from. */
    ghost predicate Landed()
      reads this, state, state.budget, emitter, tree, log, env
    {
      && Steady() && Framed()
      && Upright() && state.inFlight.None? && state.steering == []
      && state.fatalError.None? && (state.gate != Open ==> state.stopHard)
      && !silentHop && spentAt.None?
      && Live(LedgerOf(emitter.history), {state.turn}, {})
      && (state.turnReason.Some? ==> state.turnReason.value.Error? || state.turnReason.value.MaxTokens?)
      && Surviving() && (state.turnReason.None? ==> Paired() && Ready())
    }

    /** Judges a landed round: an ending, a follow-up turn whose frames go out, or the next head of the same turn. */
    method SettleTerminal() returns (stop: Option<Outcome>)
      requires Landed()
      modifies this`synced, log, emitter, env`now, state`drainUntil, state`items, state`turn, state`phase,
               state`steering, state`followups, state`turnReason
      ensures stop.None? ==> AtHead()
      ensures stop.Some? ==> Ending(stop.value)
      ensures old(state.followups) == [] ==> state.followups == []
    {
      hide Mirrored, Framed, Lined, Paired, Sane, Asked, Live, LedgerOf, Rows, BudgetGuard.Peek, LoopState.Counted,
           Surviving;
      var before := state.turn;
      var v := Judge();
      if v.Return? {
        return Some(v.outcome);
      }
      stop := CloseHop(before);
      if stop.Some? {
        return;
      }
      if state.phase == Idle && state.IsIdle() {
        return Some(Finished);
      }
    }

    // ---- step head ----

    twostate lemma Appended(kinds: seq<ItemKind>)
      requires old(Mirrored()) && old(Framed()) && old(Lined())
      requires unchanged(`synced, `writing, `distinct, `drifted, `requests, `hardExit)
      requires unchanged(emitter) && unchanged(log) && said == old(said) + Spoken(Blanks(kinds))
      requires state.items == AppendAll(old(state.items), kinds)
      requires forall i :: 0 <= i < |kinds| ==> !TurnRow(kinds[i])
      requires state.turn == old(state.turn)
      ensures Mirrored() && Framed() && Lined()
      ensures Rows(state.items) == Rows(old(state.items)) + Blanks(kinds)
      ensures state.checkpoint == old(state.checkpoint) && old(SoundCut(state.checkpoint, Rows(state.items)))
              ==> SoundCut(state.checkpoint, Rows(state.items))
    {
      hide Mirrored, Framed, Rows, GoodLog, Brackets, SoundCut, AppendAll, Blanks, TurnRow, Spoken;
      Grow(old(state.items), kinds, state.checkpoint);
      Grew(Blanks(kinds));
    }

    /** Steering enters the transcript. */
    method Admit()
      requires Mirrored() && Framed() && Lined() && Paired() && !state.wakeRequested
      modifies state`items, state`steering, state`turn, state`phase, state`wakeRequested
      ensures Mirrored() && Framed() && Lined() && Paired()
      ensures state.steering == [] && !state.wakeRequested
      ensures state.turn == old(state.turn) && state.phase == old(state.phase)
    {
      hide Mirrored, Framed, Lined, Rows, AppendAll, PairScan, SoundCut, DistinctLog;
      ghost var rows := InputRows(state.steering);
      ghost var was := Rows(state.items);
      label Admitting:
      state.AdmitSteering();
      Unspoken(Blanks(rows), said);
      Appended@Admitting(rows);
      PairInputs(was, Blanks(rows));
      DistinctSkips(was, Blanks(rows));
    }

    /** The loop head with steering drained and everything on disk. */
    ghost predicate AtGate()
      reads this, state, state.budget, emitter, tree, log, env
    {
      && AtHead() && state.steering == []
      && (writing ==> synced == |state.items|)
      && (silentHop || spentAt.Some? ==> state.gate != Open)
    }

    method CancelLatch()
      requires Ready()
      modifies env`cancelled, state`stopHard, state`gate
      ensures Ready()
      ensures silentHop || spentAt.Some? ==> state.gate != Open
    {
      var cancelled := env.IsCancelled();
      if cancelled {
        state.stopHard := true;
        state.BeginAbort();
      }
    }

    method Latch() returns (ok: bool)
      requires AtHead()
      modifies this`synced, log, env`cancelled, state`stopHard, state`gate, state`items, state`steering,
               state`turn, state`phase, state`wakeRequested
      ensures ok ==> AtGate()
      ensures !ok ==> Ending(LOG_APPEND_FAILED)
      ensures silentHop ==> env.cancelled
    {
      hide Mirrored, Framed, Lined, Paired, Surviving, Sane, Asked, Live, LedgerOf, Rows, OpenTurns;
      CancelLatch();
      Admit();
      ok := Sync();
    }

    /** The budget's AND-gate with its grace step, behind the effect gate. */
    method TryStart() returns (admitted: bool)
      requires Upright() && Ready() && Sane() && Asked() && state.inFlight.None?
      requires silentHop || spentAt.Some? ==> state.gate != Open
      modifies env`now, state`inFlight, state`step, state`stepRetries, state`callModel, state`toolCalls,
               state.budget`graceUsed, state.budget`pastCap, state.budget`steps, state.budget`admitted,
               state.budget`lost
      ensures Upright() && Ready() && Sane() && Asked()
      ensures admitted ==> state.inFlight == Some(state.turn) && !state.callModel && state.toolCalls == map[]
                           && !silentHop && spentAt.None? && |requests| < state.budget.admitted
      ensures state.budget.admitted == old(state.budget.admitted) + (if admitted then 1 else 0)
      ensures !admitted ==> state.inFlight.None? && (state.stopHard || state.budget.Peek(env.now).Some?)
    {
      hide BudgetGuard.Bounded, BudgetGuard.Peek;
      var now := env.Clock();
      admitted := state.StartProviderCall(now);
    }

    /** Admission, with the ordered termination as its fallback. */
    method Admission() returns (head: Head)
      requires AtGate()
      modifies env`now, state.budget, state`inFlight, state`step, state`stepRetries, state`callModel, state`toolCalls,
               state`drainUntil, state`items, state`turn, state`phase, state`steering, state`followups, state`turnReason
      ensures !head.Yield? && !head.Again? && !head.Failure?
      ensures head.Call? ==> InRound() && |requests| < state.budget.admitted
      ensures state.budget.admitted == old(state.budget.admitted) + (if head.Call? then 1 else 0)
      ensures head.Exit? ==> Ending(head.outcome)
      ensures old(state.followups) == [] ==> state.followups == []
    {
      hide Mirrored, Framed, Lined, Paired, Surviving, Sane, Asked, Live, LedgerOf, Rows, BudgetGuard.Peek;
      var admitted := TryStart();
      if admitted {
        return Call;
      }
      var v := Judge();
      var parked := state.phase == Idle && state.IsIdle();
      head :=
        if v.Return? then Exit(v.outcome) else if v.Break? then Yield else if parked then Exit(Finished) else Again;
    }

    /** Cancel latch, steering, hook, then admission. A refused admission is always terminal: no parking here. */
    method StepHead() returns (head: Head)
      requires AtHead()
      modifies this`synced, log, env`now, env`cancelled, state.budget, state`stopHard, state`gate, state`items,
               state`steering, state`inFlight, state`step, state`stepRetries, state`callModel, state`toolCalls,
               state`drainUntil, state`turn, state`phase, state`followups, state`turnReason, state`wakeRequested
      ensures !head.Yield? && !head.Again?
      ensures head.Call? ==> InRound() && |requests| < state.budget.admitted
      ensures state.budget.admitted == old(state.budget.admitted) + (if head.Call? then 1 else 0)
      ensures head.Exit? || head.Failure? ==> Ending(head.outcome)
      ensures silentHop ==> env.cancelled
      ensures old(state.followups) == [] ==> state.followups == []
    {
      hide Mirrored, Framed, Lined, Paired, Surviving, Sane, Asked, Live, LedgerOf, Rows;
      var ok := Latch();
      if !ok {
        return Head.Failure(LOG_APPEND_FAILED);
      }
      var hook: Option<Outcome> :| true;
      if hook.Some? {
        return Exit(hook.value);
      }
      head := Admission();
    }

    // ---- provider round ----

    lemma CutInRange()
      requires SoundCut(state.checkpoint, Rows(state.items))
      ensures state.checkpoint.Some? ==> state.checkpoint.value.keepFrom <= |Fold(Kinds(state.items))|
    {
      RowsKeepShape(state.items);
    }

    method Bill(billed: Option<Usage>)
      requires Sane()
      modifies state`totals, state`charges, state.budget`tokens, state.budget`spentCents
      ensures Sane() && state.charges == old(state.charges) + Optional(billed)
    {
      hide LoopState.Metered, BudgetGuard.Bounded;
      if billed.Some? {
        state.RecordUsage(billed.value);
      }
    }

    /** The history before `cut` gives way to its summary. */
    method FoldAway(cut: nat, text: string)
      requires Paired() && (state.checkpoint.Some? ==> state.checkpoint.value.keepFrom <= |Fold(Kinds(state.items))|)
      requires 1 <= cut < |Derived(state.items, state.checkpoint, cfg.fold)|
      requires Derived(state.items, state.checkpoint, cfg.fold)[cut].role != Tool
      modifies state`checkpoint
      ensures Paired() && Folds(state.items, old(state.checkpoint), state.checkpoint, cfg.fold)
    {
      hide Rows, PairScan, SoundCut, Derived, Fold, Kinds;
      ghost var prev := state.checkpoint;
      ComposeKeepsSuffix(state.items, state.checkpoint, cfg.fold, cut, text);
      state.checkpoint := Some(Checkpoint(Compose(state.checkpoint, cut), text));
      assert FoldsAt(state.items, prev, state.checkpoint.value, cfg.fold, cut);
    }

    /** The summarizer is asked to fold the history before `cut`. Whatever it answers is metered for what it billed. */
    method Summarize(cut: nat) returns (ghost answer: SummaryReply)
      requires Mirrored() && Framed() && Paired() && Sane() && !hardExit && (writing ==> synced == |state.items|)
      requires state.checkpoint.Some? ==> state.checkpoint.value.keepFrom <= |Fold(Kinds(state.items))|
      requires 1 <= cut < |Derived(state.items, state.checkpoint, cfg.fold)|
      requires Derived(state.items, state.checkpoint, cfg.fold)[cut].role != Tool
      modifies emitter, state`checkpoint, state`totals, state`charges, state.budget`tokens, state.budget`spentCents
      ensures Framed() && Paired() && Sane()
      ensures LedgerOf(emitter.history) == LedgerOf(old(emitter.history))
      ensures if answer.Summary? then Folds(state.items, old(state.checkpoint), state.checkpoint, cfg.fold)
              else state.checkpoint == old(state.checkpoint)
      ensures state.charges == old(state.charges) + SummaryBill(Some(answer))
      ensures emitter.history == old(emitter.history) + RefusedFrame(answer)
    {
      hide Mirrored, Framed, Sane, Paired, Rows, Derived, Fold, Kinds, Folds, LedgerOf;
      var reply: SummaryReply :| true;
      answer := reply;
      match reply {
        case Dropped =>
        case SummaryFailed(paid) =>
          Bill(paid);
          Show(ErrorFrame("compaction-refused"));
        case Unusable(billed) =>
          Bill(Some(billed));
          Show(ErrorFrame("compaction-refused"));
        case Summary(text, billed) =>
          Bill(Some(billed));
          FoldAway(cut, text);
      }
    }

    /** Compaction: an older prefix of the folded history becomes one summary, at most once a turn. The token
        estimate that triggers it is arbitrary here. Whatever the summarizer answers is metered for what it billed. */
    method TakeCheckpoint() returns (ghost answer: Option<SummaryReply>)
      requires Mirrored() && Framed() && Paired() && Sane() && !hardExit && (writing ==> synced == |state.items|)
      modifies emitter, state`checkpoint, state`compactedTurn, state`totals, state`charges,
               state.budget`tokens, state.budget`spentCents
      ensures Framed() && Paired() && Sane()
      ensures LedgerOf(emitter.history) == LedgerOf(old(emitter.history))
      ensures Folds(state.items, old(state.checkpoint), state.checkpoint, cfg.fold)
      ensures state.checkpoint != old(state.checkpoint) ==>
                old(state.compactedTurn) != Some(state.turn) && state.compactedTurn == Some(state.turn)
                && answer.Some? && answer.value.Summary?
      ensures state.charges == old(state.charges) + SummaryBill(answer)
      ensures answer.Some? ==> old(state.compactedTurn) != Some(state.turn) && state.compactedTurn == Some(state.turn)
      ensures answer.None? ==> state.compactedTurn == old(state.compactedTurn)
      ensures emitter.history == old(emitter.history) + if answer.Some? then RefusedFrame(answer.value) else []
    {
      hide Mirrored, Framed, Sane, Rows, PairScan, SoundCut, Derived, Fold, Kinds, FoldsAt, LedgerOf, DistinctLog;
      answer := None;
      if !cfg.compaction || state.compactedTurn == Some(state.turn) {
        return;
      }
      var due: bool :| true;
      if !due {
        return;
      }
      CutInRange();
      var folded := DerivedMessages(state.items, state.checkpoint, cfg.fold);
      var cut := CutPoint(folded, cfg.keepTokens);
      if cut.None? {
        return;
      }
      state.compactedTurn := Some(state.turn);
      ghost var reply := Summarize(cut.value);
      answer := Some(reply);
    }

    /** Cancel seen inside a round. */
    method CancelRound()
      requires Ready()
      modifies state`stopHard, state`gate
      ensures Ready() && state.stopHard && state.gate != Open
    {
      state.stopHard := true;
      state.BeginAbort();
    }

    /** The request of this round: good by construction, and never ahead of the file. */
    method SendRequest(system: string, line: string)
      requires Mirrored() && Paired() && Asked() && |requests| < state.budget.admitted && spentAt.None?
      requires writing ==> synced == |state.items|
      modifies this`requests
      ensures Mirrored() && Asked()
      ensures state.checkpoint.Some? ==> state.checkpoint.value.keepFrom <= |Fold(Kinds(state.items))|
      ensures
        var history := Derived(state.items, state.checkpoint, cfg.fold);
        var messages := [Plain(System, system)] + WithBudgetLine(history, line) + Held(state.hold);
        requests == old(requests) + [Sent(messages, |state.items|, CutOf(state.checkpoint), state.hold.Some?,
                                          |state.items| - synced)]
      ensures Carries(requests[|requests| - 1].messages, Rows(state.items), CutOf(state.checkpoint), state.hold.Some?)
      ensures WellPaired(requests[|requests| - 1].messages) || !DistinctLog(Rows(state.items))
    {
      hide PairScan, SoundCut, Rows, Derived, Fold, Kinds, WellPaired, Lawful, DistinctLog, Carries;
      CutInRange();
      var history := DerivedMessages(state.items, state.checkpoint, cfg.fold);
      var messages := BuildRequest(system, history, line, state.hold);
      RequestPairing(state.items, state.checkpoint, cfg.fold, system, line, state.hold);
      RequestCarries(state.items, state.checkpoint, cfg.fold, system, line, state.hold);
      requests := requests + [Sent(messages, |state.items|, CutOf(state.checkpoint), state.hold.Some?,
                                   |state.items| - synced)];
      assert Rows(state.items)[..|state.items|] == Rows(state.items);
    }

    // ---- provider failure ----

    twostate lemma AttemptLogged(row: ItemKind)
      requires row.Attempt?
      requires old(Mirrored()) && old(Framed()) && old(Lined()) && old(Paired())
      requires synced == old(synced) && writing == old(writing) && distinct == old(distinct)
      requires hardExit == old(hardExit) && drifted == old(drifted) && requests == old(requests)
      requires said == old(said) && unchanged(emitter) && unchanged(log)
      requires state.items == AppendTo(old(state.items), row)
      requires state.turn == old(state.turn) && state.checkpoint == old(state.checkpoint)
      ensures Mirrored() && Framed() && Lined() && Paired()
    {
      hide Lawful, AllBacked, LogWriter.Valid, Rows, GoodLog, Brackets, SoundCut, PairScan, AppendTo, DistinctLog,
           AllGood, Spoken;
      var was := old(state.items);
      Unspoken([row], said);
      SpokenGrows(Rows(was), [row]);
      GrowOne(was, row, state.checkpoint);
      PairSilent(Rows(was), [row]);
      DistinctSkips(Rows(was), [row]);
      GoodGrows(requests, Rows(was), Rows(state.items));
      assert state.items[..synced] == was[..synced];
      if writing {
        BackedGrows(emitter.history, emitter.syncedAt, Rows(was), Rows(state.items), |emitter.history| - Excused());
      }
    }

    /** Meters the failure, then refunds it, retries it or makes it fatal. An exhausted ladder is never retried. */
    method LandFailure(message: string, billed: Option<Usage>, exhausted: bool) returns (cancelled: bool)
      requires Sane() && Ready() && spentAt.None? && !silentHop && !state.callModel
      modifies this`spentAt, env`cancelled, state`inFlight, state`items, state`callModel, state`stepRetries,
               state`fatalError, state`gate, state`totals, state`charges, state.budget`tokens, state.budget`spentCents,
               state.budget`steps, state.budget`refunds
      ensures Sane()
      ensures state.inFlight.None?
      ensures spentAt == if exhausted then Some(|requests|) else None
      ensures cancelled || state.callModel ==> Ready()
      ensures !cancelled && !state.callModel ==> state.fatalError.Some?
      ensures state.charges == old(state.charges) + Optional(billed)
      ensures cancelled ==>
                state.items == old(state.items) && !state.callModel && env.cancelled && state.fatalError.None?
      ensures !cancelled ==> state.items == AppendTo(old(state.items), Attempt(message, state.callModel))
      ensures old(env.cancelled) ==> cancelled
      ensures state.budget.steps <= old(state.budget.steps)
    {
      hide LoopState.Metered, BudgetGuard.Bounded, AppendTo, AllAnswered;
      cancelled := env.IsCancelled();
      if exhausted {
        state.stepRetries := 0;
        spentAt := Some(|requests|);
      }
      var current := state.FinishProviderMsg(ProviderFailed(state.turn, message, cancelled, billed));
    }

    method FailRound(message: string, billed: Option<Usage>, exhausted: bool) returns (cancelled: bool)
      requires Mirrored() && Framed() && Lined() && Paired() && Sane() && Ready() && spentAt.None? && !silentHop
      requires !state.callModel
      modifies this`spentAt, env`cancelled, state`inFlight, state`items, state`callModel, state`stepRetries,
               state`fatalError, state`gate, state`totals, state`charges, state.budget`tokens, state.budget`spentCents,
               state.budget`steps, state.budget`refunds
      ensures Mirrored() && Framed() && Lined() && Paired() && Sane()
      ensures state.inFlight.None?
      ensures spentAt == if exhausted then Some(|requests|) else None
      ensures cancelled || state.callModel ==> Ready()
      ensures cancelled ==> !state.callModel && env.cancelled
      ensures !cancelled && !state.callModel ==> state.fatalError.Some?
      ensures state.charges == old(state.charges) + Optional(billed)
      ensures cancelled ==> state.items == old(state.items) && state.fatalError.None?
      ensures !cancelled ==> state.items == AppendTo(old(state.items), Attempt(message, state.callModel))
      ensures old(env.cancelled) ==> cancelled
      ensures state.budget.steps <= old(state.budget.steps)
    {
      hide Mirrored, Framed, Lined, Paired, Sane, Ready, AppendTo;
      label Failing:
      cancelled := LandFailure(message, billed, exhausted);
      if !cancelled {
        AttemptLogged@Failing(Attempt(message, state.callModel));
      }
    }

    /** A failed round on disk and shown: a retry is back at the head, anything else is to be judged. */
    ghost predicate Landing()
      reads this, state, state.budget, emitter, tree, log, env
    {
      && Steady() && Framed() && Paired() && Surviving() && Upright()
      && state.inFlight.None? && state.steering == [] && !silentHop
      && Live(LedgerOf(emitter.history), {state.turn}, {})
      && (spentAt.Some? ==> spentAt.value == |requests|)
      && (state.callModel ==> Ready())
      && (!state.callModel ==> state.fatalError.Some? || (Ready() && env.cancelled))
    }

    lemma LandingAtHead()
      requires Landing() && state.callModel
      ensures AtHead()
    {
      hide Mirrored, Framed, Lined, Paired, Surviving, Sane, Asked, Ready, Live, LedgerOf, Rows, AllAnswered;
    }

    /** A failure that is not retried ends the run, or on a cancel may still open a follow-up turn: the one
        hop without frames. */
    method Forsake() returns (stop: Option<Outcome>)
      requires Landing() && !state.callModel
      modifies this`silentHop, env`now, state`drainUntil, state`items, state`turn, state`phase, state`steering,
               state`followups, state`turnReason
      ensures stop.None? ==> AtHead()
      ensures stop.Some? ==> Ending(stop.value) && Logged(stop.value)
      ensures silentHop <==>
                && !old(state.stopHard) && old(state.fatalError).None? && state.budget.Peek(env.now).None?
                && old(state.followups) != []
      ensures silentHop ==> stop.None?
      ensures !silentHop ==> state.items == old(state.items)
      ensures old(state.followups) == [] ==> state.followups == []
    {
      hide Mirrored, Framed, Lined, Paired, Surviving, Sane, Asked, Live, LedgerOf, Rows, BudgetGuard.Peek, AllAnswered;
      var before := state.turn;
      var v := Judge();
      if v.Return? {
        return Some(v.outcome);
      }
      silentHop := state.turn != before;
      if state.phase == Idle && state.IsIdle() {
        return Some(Finished);
      }
      return None;
    }

    /** The failed attempt on disk, then its frame. */
    method TellFailure() returns (ok: bool)
      requires Mirrored() && Framed() && !hardExit
      modifies this`synced, log, emitter
      ensures Mirrored() && Framed()
      ensures LedgerOf(emitter.history) == LedgerOf(old(emitter.history))
      ensures ok && old(Whole()) ==> Whole()
      ensures !writing || old(synced) == |state.items| ==> ok
    {
      hide Mirrored, Framed, LedgerOf, Rows;
      ok := Sync();
      if ok {
        Show(ErrorFrame("provider-failed"));
      }
    }

    /** Lands the failure and shows it. `cancelled` is the flag as the failure is landed. */
    method RecordFailure(message: string, billed: Option<Usage>, exhausted: bool)
      returns (ok: bool, ghost cancelled: bool)
      requires InRound()
      modifies this`synced, this`spentAt, log, emitter, env`cancelled, state`inFlight, state`items, state`callModel,
               state`stepRetries, state`fatalError, state`gate, state`totals, state`charges, state.budget`tokens,
               state.budget`spentCents, state.budget`steps, state.budget`refunds
      ensures ok ==> Landing()
      ensures !ok ==> Ending(LOG_APPEND_FAILED)
      ensures !silentHop
      ensures cancelled ==> ok && env.cancelled && !state.callModel && state.fatalError.None?
      ensures !cancelled && !state.callModel ==> state.fatalError.Some?
      ensures old(env.cancelled) ==> cancelled
      ensures state.charges == old(state.charges) + Optional(billed)
      ensures spentAt == if exhausted then Some(|requests|) else None
      ensures state.items == if cancelled then old(state.items)
                             else AppendTo(old(state.items), Attempt(message, state.callModel))
      ensures state.budget.steps <= old(state.budget.steps)
    {
      hide Mirrored, Framed, Lined, Paired, Surviving, Sane, Asked, Ready, Live, LedgerOf, Rows, AllAnswered, AppendTo,
           Whole;
      var dropped := FailRound(message, billed, exhausted);
      cancelled := dropped;
      ok := TellFailure();
    }

    /** A failed round: record it, show it, then retry in step or terminate. Only a cancel up as the failure is
        landed, with the stop not yet latched, lets a waiting follow-up open its turn without frames. */
    method SettleProviderError(message: string, billed: Option<Usage>, exhausted: bool)
      returns (stop: Option<Outcome>, ghost cancelled: bool)
      requires InRound()
      modifies this`synced, this`spentAt, this`silentHop, log, emitter, env`now, env`cancelled, state`inFlight,
               state`items, state`callModel, state`stepRetries, state`fatalError, state`gate, state`totals,
               state`charges, state`drainUntil, state`turn, state`phase, state`steering, state`followups,
               state`turnReason, state.budget`tokens, state.budget`spentCents, state.budget`steps, state.budget`refunds
      ensures stop.None? ==> AtHead()
      ensures stop.Some? ==> Ending(stop.value)
      ensures state.charges == old(state.charges) + Optional(billed)
      ensures spentAt == if exhausted then Some(|requests|) else None
      ensures !cancelled ==> state.items == AppendTo(old(state.items), Attempt(message, state.callModel))
      ensures cancelled && !silentHop ==> state.items == old(state.items)
      ensures (old(env.cancelled) ==> cancelled) && (cancelled ==> env.cancelled && stop != Some(LOG_APPEND_FAILED))
      ensures silentHop <==>
                cancelled && !state.stopHard && state.budget.Peek(env.now).None? && old(state.followups) != []
      ensures silentHop ==> stop.None?
      ensures state.budget.steps <= old(state.budget.steps)
      ensures old(state.followups) == [] ==> state.followups == []
    {
      hide InRound, Landing, AtHead, Ending, AppendTo, BudgetGuard.Peek;
      var ok, dropped := RecordFailure(message, billed, exhausted);
      cancelled := dropped;
      if !ok {
        return Some(LOG_APPEND_FAILED), cancelled;
      }
      if state.callModel {
        LandingAtHead();
        return None, cancelled;
      }
      stop := Forsake();
    }

    /** The frameless hop happens: a cancel that rises too late to be latched, a waiting follow-up and no cap hit. */
    method HopSilently() returns (stop: Option<Outcome>)
      requires InRound() && env.cancelled && !state.stopHard && state.followups != []
      requires state.budget.config.maxWallclock == 0 && state.budget.Peek(env.now).None?
      modifies this`synced, this`spentAt, this`silentHop, log, emitter, env`now, env`cancelled, state`inFlight,
               state`items, state`callModel, state`stepRetries, state`fatalError, state`gate, state`totals,
               state`charges, state`drainUntil, state`turn, state`phase, state`steering, state`followups,
               state`turnReason, state.budget`tokens, state.budget`spentCents, state.budget`steps, state.budget`refunds
      ensures stop.None? && AtHead() && silentHop && !Balanced(LedgerOf(emitter.history))
    {
      hide Mirrored, Framed, Lined, Paired, Surviving, Asked, LedgerOf, Rows, AllAnswered;
      ghost var cancelled;
      stop, cancelled := SettleProviderError("cancelled", None, false);
      assert state.charges == old(state.charges) && Sane();
      assert state.budget.tokens == old(state.budget.tokens) && state.budget.spentCents == old(state.budget.spentCents);
    }

    // ---- settled answer ----

    method MeterSettled(billed: Usage)
      requires Sane() && Ready()
      modifies state`inFlight, state`items, state`callModel, state`stepRetries, state`fatalError, state`gate,
               state`totals, state`charges, state.budget`tokens, state.budget`spentCents, state.budget`steps,
               state.budget`refunds
      ensures Sane() && Ready()
      ensures state.inFlight.None? && state.items == old(state.items) && state.callModel == old(state.callModel)
      ensures state.charges == old(state.charges) + [billed]
    {
      hide LoopState.Metered, BudgetGuard.Bounded;
      var current := state.FinishProviderMsg(Settled(state.turn, billed));
    }

    /** The batch in progress: `k` of `calls` settled, the log in step with them. */
    ghost predicate Batched(calls: seq<ToolCallRef>, k: nat, paired: bool)
      requires k <= |calls|
      reads this`distinct, state`items, state`checkpoint, state`toolCalls
    {
      && MidBatch(PairScan(Rows(state.items)), paired, CallIds(calls), k)
      && SoundCut(state.checkpoint, Rows(state.items))
      && (distinct <==> paired && NoDup(CallIds(calls))) && (distinct <==> DistinctLog(Rows(state.items)))
      && InTable(state.toolCalls, Recent(Rows(state.items)), calls, k)
      && AsFiled(state.toolCalls, Filed(map[], calls, cfg))
    }

    ghost predicate Terminating()
      reads state`turnReason, state`fatalError, state`gate, state`stopHard, state`openMsg
    {
      && state.openMsg.None?
      && state.turnReason.Some? && (state.turnReason.value.Error? || state.turnReason.value.MaxTokens?)
      && state.fatalError.None? && (state.gate != Open ==> state.stopHard)
    }

    /** The claim phase on the shared state. */
    method ClaimState(resp: Response) returns (claim: Claim)
      requires Ready() && state.toolCalls == map[]
      modifies env`now, state`items, state`toolCalls, state`turnReason, state`hold, state`callModel, state`nudgesUsed,
               state`editsAtLastNudge
      ensures ClaimKind(claim, resp.message, resp.stop)
      ensures state.items == AppendAll(old(state.items), ClaimRows(resp.message, resp.stop, claim.VerifyHold?))
      ensures forall i :: 0 <= i < |ClaimRows(resp.message, resp.stop, claim.VerifyHold?)| ==>
                !TurnRow(ClaimRows(resp.message, resp.stop, claim.VerifyHold?)[i])
      ensures state.openMsg.None?
      ensures claim.TruncatedClaim? || claim.RefusedClaim? ==> Terminating()
      ensures !(claim.TruncatedClaim? || claim.RefusedClaim?) ==> Ready()
      ensures !claim.Dispatch? ==> AllAnswered(state.toolCalls)
      ensures claim.Dispatch? ==> state.toolCalls == Filed(map[], claim.calls, cfg)
    {
      hide ClaimRows, TurnRow, AppendAll, AppendTo, BudgetGuard.Peek, IdSet, Filed;
      var now := env.Clock();
      var later := env.Clock();
      ghost var was := state.items;
      claim := state.StepClaim(resp.message, resp.stop, cfg, now, later);
      ClaimAppends(was, state.items, resp.message, resp.stop, claim.VerifyHold?);
    }

    /** Claims the settled message: its rows, and what they leave open. */
    method ClaimMessage(resp: Response) returns (claim: Claim)
      requires Mirrored() && Framed() && Lined() && Paired() && Ready() && state.toolCalls == map[]
      modifies this`said, env`now, state`items, state`toolCalls, state`turnReason, state`hold, state`callModel,
               state`nudgesUsed, state`editsAtLastNudge
      ensures said == old(said) + Said(resp.message, resp.stop)
      ensures Mirrored() && Framed() && Lined() && SoundCut(state.checkpoint, Rows(state.items))
      ensures ClaimKind(claim, resp.message, resp.stop)
      ensures state.items == AppendAll(old(state.items), ClaimRows(resp.message, resp.stop, claim.VerifyHold?))
      ensures ClaimLogged(Rows(state.items), resp.message, resp.stop, distinct)
      ensures !claim.HardExit? ==> Backed(MessageEnd(0, resp.message.content), Rows(state.items))
      ensures state.openMsg.None?
      ensures claim.TruncatedClaim? || claim.RefusedClaim? ==> Terminating()
      ensures !(claim.TruncatedClaim? || claim.RefusedClaim?) ==> Ready()
      ensures !claim.Dispatch? ==> AllAnswered(state.toolCalls)
      ensures claim.Dispatch? ==> state.toolCalls == Filed(map[], claim.calls, cfg)
    {
      hide Mirrored, Framed, Lined, Rows, AppendAll, PairScan, SoundCut, Blanks, ClaimRows, ClaimLogged, Backed,
           Terminating, Ready, AllAnswered, Filed, TurnRow, Said;
      ghost var was := Rows(state.items);
      label Claiming:
      claim := ClaimState(resp);
      said := said + Said(resp.message, resp.stop);
      ClaimSays(resp.message, resp.stop, claim.VerifyHold?);
      Appended@Claiming(ClaimRows(resp.message, resp.stop, claim.VerifyHold?));
      ClaimLogs(was, resp.message, resp.stop, claim.VerifyHold?, distinct);
    }

    /** One message's frames: start, full-content update, end. A hard exit has no row behind its end. */
    method ShowMessage(text: string, hard: bool)
      requires Mirrored() && Framed() && !hardExit && state.openMsg.None?
      requires writing ==> synced == |state.items|
      requires writing && !hard ==> Backed(MessageEnd(0, text), Rows(state.items)[..synced])
      requires Live(LedgerOf(emitter.history), {state.turn}, {})
      modifies this`hardExit, emitter, state`emitNext
      ensures Framed() && hardExit == hard && emitter.history != []
      ensures Live(LedgerOf(emitter.history), {state.turn}, {})
      ensures
        var id := old(state.emitNext);
        emitter.history == old(emitter.history) + [MessageStart(id), MessageUpdate(id, text), MessageEnd(id, text)]
      ensures emitter.syncedAt == old(emitter.syncedAt) + [synced, synced, synced]
    {
      hide Mirrored, LedgerOf, Live, Rows, AllBacked, Post;
      var id := state.NextEmitId();
      ghost var live := LedgerOf(emitter.history);
      Show(MessageStart(id));
      Show(MessageUpdate(id, text));
      if hard {
        ghost var before, at := emitter.history, emitter.syncedAt;
        emitter.Emit(MessageEnd(id, text), synced, |state.items|);
        hardExit := true;
        if writing {
          BackedMore(before, at, [MessageEnd(id, text)], [synced], Rows(state.items), |before|);
        }
      } else {
        Show(MessageEnd(id, text));
      }
      MessageLedger(live, id, text, {state.turn}, {});
    }

    /** What a claim leaves open, in the log and in the shared state. */
    ghost predicate ClaimOpen(claim: Claim, resp: Response)
      reads this`distinct, this`silentHop, this`spentAt, this`requests, env`cancelled, state`items, state`checkpoint,
            state`turnReason, state`fatalError, state`gate, state`stopHard, state`openMsg, state`wakeRequested,
            state`stepRetries, state`nudgesUsed, state`toolCalls
    {
      && SoundCut(state.checkpoint, Rows(state.items))
      && ClaimKind(claim, resp.message, resp.stop)
      && ClaimLogged(Rows(state.items), resp.message, resp.stop, distinct)
      && (if claim.TruncatedClaim? || claim.RefusedClaim? then Terminating() else Ready())
      && (!claim.Dispatch? ==> AllAnswered(state.toolCalls))
      && (claim.Dispatch? ==> state.toolCalls == Filed(map[], claim.calls, cfg))
    }

    /** An answered round: metered, claimed, on disk and shown. */
    ghost predicate Claimed(claim: Claim, resp: Response)
      reads this, state, state.budget, emitter, tree, log, env
    {
      && Steady() && Framed() && Surviving() && ClaimOpen(claim, resp) && Whole()
      && state.inFlight.None? && state.steering == [] && state.phase == Running && state.turn >= 1
      && !silentHop && spentAt.None?
      && (writing ==> synced == |state.items|)
      && Live(LedgerOf(emitter.history), {state.turn}, {})
      && hardExit == claim.HardExit? && emitter.history != []
    }

    method LandAnswer(resp: Response) returns (claim: Claim)
      requires Mirrored() && Framed() && Lined() && Paired() && Sane() && Ready() && state.toolCalls == map[]
      modifies this`said, env`now, state`hold, state`inFlight, state`items, state`callModel, state`stepRetries,
               state`fatalError, state`gate, state`totals, state`charges, state`toolCalls, state`turnReason,
               state`nudgesUsed, state`editsAtLastNudge, state.budget`tokens, state.budget`spentCents,
               state.budget`steps, state.budget`refunds
      ensures said == old(said) + Said(resp.message, resp.stop)
      ensures Mirrored() && Framed() && Lined() && Sane()
      ensures state.inFlight.None? && state.openMsg.None?
      ensures state.items == AppendAll(old(state.items), ClaimRows(resp.message, resp.stop, claim.VerifyHold?))
      ensures ClaimOpen(claim, resp)
      ensures !claim.HardExit? ==> Backed(MessageEnd(0, resp.message.content), Rows(state.items))
      ensures state.charges == old(state.charges) + [BilledUsage(resp.usage, resp.retryUsage)]
    {
      hide Mirrored, Framed, Lined, Paired, Sane, Ready, Rows, AllAnswered, ClaimLogged, Filed, SoundCut, Backed,
           ClaimKind, Terminating, AppendAll, ClaimRows, Said;
      state.hold := None;
      MeterSettled(BilledUsage(resp.usage, resp.retryUsage));
      claim := ClaimMessage(resp);
    }

    /** A settled answer: metered, claimed, then on disk, and only then shown, under an id that is fresh. */
    method AnswerRound(resp: Response) returns (ok: bool, claim: Claim)
      requires InRound()
      modifies this`synced, this`hardExit, this`said, log, emitter, env`now, state`hold, state`inFlight, state`items,
               state`callModel, state`stepRetries, state`fatalError, state`gate, state`totals, state`charges,
               state`toolCalls, state`turnReason, state`nudgesUsed, state`editsAtLastNudge, state`emitNext,
               state.budget`tokens, state.budget`spentCents, state.budget`steps, state.budget`refunds
      ensures ok ==> Claimed(claim, resp)
      ensures !ok ==> Ending(LOG_APPEND_FAILED) && hardExit == old(hardExit)
      ensures !ok ==> emitter.history == old(emitter.history) && emitter.syncedAt == old(emitter.syncedAt)
      ensures ok ==>
                var id, text := old(state.emitNext), resp.message.content;
                && emitter.history
                   == old(emitter.history) + [MessageStart(id), MessageUpdate(id, text), MessageEnd(id, text)]
                && emitter.syncedAt == old(emitter.syncedAt) + [synced, synced, synced]
                && (logged ==> synced == |state.items|)
      ensures state.items == AppendAll(old(state.items), ClaimRows(resp.message, resp.stop, claim.VerifyHold?))
      ensures said == old(said) + Said(resp.message, resp.stop)
      ensures state.charges == old(state.charges) + [BilledUsage(resp.usage, resp.retryUsage)]
    {
      hide Mirrored, Framed, Lined, Paired, Surviving, Sane, Asked, Ready, Live, LedgerOf, Rows, AllAnswered,
           ClaimOpen, Excused, Backed, AppendAll, ClaimRows, Said;
      claim := LandAnswer(resp);
      ok := Sync();
      if !ok {
        return;
      }
      assert synced == |state.items| ==> Rows(state.items)[..synced] == Rows(state.items);
      ShowMessage(resp.message.content, claim.HardExit?);
    }

    // ---- tool batch ----

    /** Counters are those of the surviving calls and of this batch so far; the tree is what this batch has made of
        the surviving tree, which a rollback would restore. */
    ghost predicate BatchTally()
      reads this`kept, this`cur, this`line, this`doing, tree`work, tree`head,
            state`edits, state`lastSig, state`lastObs, state`verifiedSinceWrite,
            state.budget`actionsThisTrial, state.budget`sameActionStreak
    {
      && state.Counted() == CountersOf(kept + cur)
      && tree.head == AfterAll(tree.apply, start, line)
      && tree.work == AfterWork(tree.apply, tree.head, doing)
      && (doing.Called? ==> doing.trace == cur) && (!cfg.probing ==> doing.Called?)
      && (AllCalled(line) ==> kept == Traces(line))
      && (!cfg.partials && !cfg.probing ==> AllCalled(line))
    }

    /** Facts that no tool call of a batch changes. */
    ghost predicate Unmoved()
      reads this`hardExit, this`silentHop, this`spentAt, state`inFlight, state`steering, state`phase, state`turn
    {
      && state.inFlight.None? && state.steering == [] && state.phase == Running && state.turn >= 1
      && !hardExit && !silentHop && spentAt.None?
    }

    ghost predicate Steadfast()
      reads this`hardExit, this`silentHop, this`spentAt, this`writing, log`intact,
            state`inFlight, state`steering, state`phase, state`turn
    {
      Whole() && Unmoved()
    }

    ghost predicate InBatch(calls: seq<ToolCallRef>, k: nat, paired: bool)
      requires k <= |calls|
      reads this, state, state.budget, emitter, tree, log, env
    {
      && Steady() && Framed() && Batched(calls, k, paired) && BatchTally() && Ready() && Steadfast()
      && |cur| == k && doing.Called?
      && (writing ==> synced == |state.items|)
      && Live(LedgerOf(emitter.history), {state.turn}, IdSet(calls[k..]))
    }

    /** Start frames of a batch, each after its call row. */
    method ShowStarts(calls: seq<ToolCallRef>)
      requires Mirrored() && Framed() && !hardExit && (writing ==> synced == |state.items|)
      requires forall c <- calls :: ToolCall(c) in Recent(Rows(state.items))
      requires Live(LedgerOf(emitter.history), {state.turn}, {})
      modifies emitter
      ensures Framed()
      ensures Live(LedgerOf(emitter.history), {state.turn}, IdSet(calls))
    {
      hide Mirrored, Framed, LedgerOf, Live, Rows, Post, Recent;
      assert IdSet(calls[..0]) == {};
      for k := 0 to |calls|
        invariant Framed()
        invariant Live(LedgerOf(emitter.history), {state.turn}, IdSet(calls[..k]))
      {
        assert ToolCall(calls[k]) in Recent(Rows(state.items));
        assert synced == |state.items| ==> Rows(state.items)[..synced] == Rows(state.items);
        StartsLedger(LedgerOf(emitter.history), {state.turn}, calls, k);
        Show(ToolStart(calls[k]));
      }
      assert calls[..|calls|] == calls;
    }

    /** Whether the batch's ids are distinct decides pairing and mirror from here on. */
    ghost method NoteBatch(calls: seq<ToolCallRef>)
      requires Mirrored() && Surviving()
      requires DistinctLog(Rows(state.items)) <==> distinct && NoDup(CallIds(calls))
      modifies this`distinct, this`cur, this`doing
      ensures Mirrored() && Surviving()
      ensures distinct == (old(distinct) && NoDup(CallIds(calls))) && cur == [] && doing == Called([])
    {
      hide Lawful, LogWriter.Valid, NoDup, DistinctLog, AllGood, Rows;
      distinct := distinct && NoDup(CallIds(calls));
      cur, doing := [], Called([]);
    }

    method OpenBatch(calls: seq<ToolCallRef>, ghost resp: Response) returns (ok: bool)
      requires Claimed(Dispatch(calls), resp)
      modifies this`distinct, this`cur, this`doing, emitter, tree`head
      ensures ok ==> InBatch(calls, 0, old(distinct)) && tree.head == tree.work
      ensures !ok ==> Ending(Failed(SnapshotFailure, "snapshot baseline"))
    {
      hide Mirrored, Framed, Lined, Sane, Asked, Ready, Live, LedgerOf, Rows, LoopState.Counted, CountersOf, AfterAll,
           Batched, Claimed, InBatch, Surviving, Traces, AllCalled, DistinctLog, NoDup, CallIds, Recent, BatchTally;
      ghost var paired := distinct;
      DispatchFacts(calls, resp);
      NoteBatch(calls);
      DispatchOpensBatch(calls, paired);
      ShowStarts(calls);
      var fault: bool :| true;
      ok := tree.Baseline(fault);
      assert calls[0..] == calls;
      if ok {
        TallyBegins();
        CallCloses(calls, 0, paired, true);
      }
    }

    lemma DispatchFacts(calls: seq<ToolCallRef>, resp: Response)
      requires Claimed(Dispatch(calls), resp)
      ensures Mirrored() && Framed() && Lined() && Sane() && Asked() && writing == logged && Unmoved() && Whole()
      ensures Surviving() && Ready() && (writing ==> synced == |state.items|)
      ensures Live(LedgerOf(emitter.history), {state.turn}, {}) && emitter.history != []
      ensures DistinctLog(Rows(state.items)) <==> distinct && NoDup(CallIds(calls))
      ensures forall c <- calls :: ToolCall(c) in Recent(Rows(state.items))
      ensures MidBatch(PairScan(Rows(state.items)), distinct, CallIds(calls), 0)
      ensures SoundCut(state.checkpoint, Rows(state.items))
      ensures state.toolCalls == Filed(map[], calls, cfg)
    {
      hide Mirrored, Framed, Lined, Sane, Asked, Ready, Live, LedgerOf, Rows, SoundCut, PairScan, Surviving, MidBatch,
           DistinctLog, NoDup, Recent, Filed, AllAnswered;
    }

    lemma DispatchOpensBatch(calls: seq<ToolCallRef>, paired: bool)
      requires MidBatch(PairScan(Rows(state.items)), paired, CallIds(calls), 0)
      requires SoundCut(state.checkpoint, Rows(state.items))
      requires distinct <==> paired && NoDup(CallIds(calls))
      requires distinct <==> DistinctLog(Rows(state.items))
      requires state.toolCalls == Filed(map[], calls, cfg)
      ensures Batched(calls, 0, paired)
    {
      hide MidBatch, PairScan, Rows, SoundCut, NoDup, DistinctLog, Recent, IdSet, Filed;
      FiledSound(map[], calls, cfg);
      assert CallIds(calls)[..0] == [];
    }

    lemma TallyBegins()
      requires Surviving() && cur == [] && doing == Called([]) && tree.head == tree.work
      ensures BatchTally()
    {
      hide LoopState.Counted, CountersOf, AfterAll, Traces, AllCalled;
      assert kept + cur == kept;
    }

    /** Runs a resolved tool, raced against the cancel: a lost race has had some effect all the same. */
    method ExecuteCall(name: string) returns (res: ToolOutcome, effect: Effect)
      requires Ready()
      modifies env`cancelled, env`acted, tree`work, state`stopHard, state`gate
      ensures Ready()
      ensures tree.work == effect(old(tree.work)) && env.acted == old(env.acted) + [effect]
      ensures env.cancelled && !old(env.cancelled) ==> res == CANCELLED_RESULT && state.stopHard
    {
      var known: bool :| true;
      effect := env.Act(known);
      tree.work := effect(tree.work);
      if !known {
        res := ToolOutcome("unknown tool: " + name, true);
        return;
      }
      var cancelled := env.IsCancelled();
      if cancelled {
        CancelRound();
        res := CANCELLED_RESULT;
      } else {
        res :| true;
      }
    }

    /** One call up to its result: aborted, answered by the registry, or executed and counted. With the cancel up
        before it the call does not run, and with the cancel up after it the result is an error. */
    method PerformCall(c: ToolCallRef)
      returns (res: ToolOutcome, ghost run: Option<Run>, ghost prepared: Option<Prepared>)
      requires Ready()
      modifies env`cancelled, env`acted, tree`work, state`stopHard, state`gate, state`lastSig, state`lastObs,
               state`edits, state.budget`sameActionStreak, state.budget`actionsThisTrial
      ensures Ready()
      ensures state.Counted() == Ran(old(state.Counted()), run)
      ensures tree.work == Touched(old(tree.work), run)
      ensures env.acted == old(env.acted) + if run.Some? then [run.value.effect] else []
      ensures RanAs(run, c, cfg, res)
      ensures match prepared
              case None => env.cancelled && run.None? && res == ABORTED_RESULT
              case Some(Immediate(result)) => !env.cancelled && run.None? && res == result
              case Some(Execute) => !old(env.cancelled) && run.Some?
      ensures env.cancelled ==> res == (if run.Some? then CANCELLED_RESULT else ABORTED_RESULT)
      ensures env.cancelled && run.Some? ==> state.stopHard
    {
      hide AfterRun;
      var cancelled := env.IsCancelled();
      run, prepared := None, None;
      if cancelled {
        return ABORTED_RESULT, run, prepared;
      }
      var answer: Prepared :| true;
      prepared := Some(answer);
      match answer {
        case Immediate(result) => res := result;
        case Execute =>
          var effect: Effect;
          res, effect := ExecuteCall(c.name);
          var ran := Run(c.name, c.args, cfg.hash(res.content), !res.isError, effect);
          run := Some(ran);
          state.NoteExecution(ran);
      }
    }

    /** A result logged for a call that was still open. */
    twostate lemma ResultLogged(row: ItemKind)
      requires old(Mirrored()) && old(Framed()) && old(Lined()) && row.ToolResult?
      requires unchanged(`synced, `writing, `distinct, `drifted, `requests, `hardExit)
      requires unchanged(emitter) && unchanged(log) && said == old(said) + [Blank(row)]
      requires state.items == AppendTo(old(state.items), row)
      requires state.turn == old(state.turn) && state.checkpoint == old(state.checkpoint)
      ensures Mirrored() && Framed() && Lined() && NewestResult(state.items) >= synced
      ensures Rows(state.items) == Rows(old(state.items)) + [Blank(row)]
      ensures old(SoundCut(state.checkpoint, Rows(state.items))) ==> SoundCut(state.checkpoint, Rows(state.items))
    {
      hide Framed, Lined, Rows, SoundCut, AppendAll, Blanks, Lawful, LogWriter.Valid;
      AppendOne(old(state.items), row);
      AllSpoken([Blank(row)]);
      Appended([row]);
    }

    /** The k-th answer is the newest row, still unsynced, unless its id was answered before: then nothing changed. */
    ghost predicate Recorded(was: seq<Item>, calls: seq<ToolCallRef>, k: nat, res: ToolOutcome)
      requires k < |calls|
      reads this`synced, state`items
    {
      if calls[k].id in CallIds(calls)[..k] then state.items == was && NewestResult(state.items) >= 0
      else
        && state.items == AppendTo(was, ToolResult(calls[k].id, res.content, res.isError))
        && NewestResult(state.items) >= synced
    }

    lemma RecordedMeans(was: seq<Item>, calls: seq<ToolCallRef>, k: nat, res: ToolOutcome)
      requires k < |calls| && Recorded(was, calls, k, res)
      ensures calls[k].id !in CallIds(calls)[..k] ==> NewestResult(state.items) >= synced
      ensures calls[k].id in CallIds(calls)[..k] ==> 0 <= NewestResult(state.items) < |was|
      ensures NewestResult(state.items) >= 0
      ensures forall text :: TailPlus(state.items, text) == LogAfterCall(was, calls, k, res, text)
    {
      hide TailPlus, AppendTo;
    }

    method RecordCall(calls: seq<ToolCallRef>, k: nat, ghost paired: bool, res: ToolOutcome)
      returns (ghost answer: Option<Answer>)
      requires k < |calls| && Mirrored() && Framed() && Lined() && Batched(calls, k, paired)
      modifies this`said, state`items, state`toolCalls, state`verifiedSinceWrite, state`callModel
      ensures Mirrored() && Framed() && Lined() && Batched(calls, k + 1, paired)
      ensures said == old(said) + ResultRow(calls, k, res) && answer == AnswerTo(calls, cfg, k, res)
      ensures Recorded(old(state.items), calls, k, res)
      ensures state.verifiedSinceWrite ==
              if answer.Some? then VerifiedAfter(old(state.verifiedSinceWrite), answer.value)
              else old(state.verifiedSinceWrite)
      ensures distinct ==> Noted(old(state.toolCalls), state.toolCalls, calls[k].id, res)
    {
      hide Mirrored, Framed, Lined, Rows, SoundCut, PairScan, MidBatch, InTable, NoDup, AppendTo, IdSet, Recent,
           DistinctLog, Filed;
      ghost var was, table, ids := Rows(state.items), state.toolCalls, CallIds(calls);
      SettleOne(was, paired, ids, k, res.isError);
      label Recording:
      var recorded := state.RecordToolResult(calls[k].id, res);
      if recorded {
        answer := Some(AnswerOf(table[calls[k].id], res));
        SettleFresh(table, Recent(was), calls, k, res);
        said := said + [ToolResult(calls[k].id, "", res.isError)];
        ResultLogged@Recording(ToolResult(calls[k].id, res.content, res.isError));
        RecentSnoc(was, ToolResult(calls[k].id, "", res.isError));
        DistinctSkips(was, [ToolResult(calls[k].id, "", res.isError)]);
      } else {
        answer := None;
        SettleAgain(table, Recent(was), calls, k);
        assert said + [] == said;
        RepeatedId(ids, k);
        ResultIsNewest(calls, k);
      }
    }

    lemma ResultIsNewest(calls: seq<ToolCallRef>, k: nat)
      requires k < |calls| && InTable(state.toolCalls, Recent(Rows(state.items)), calls, k + 1)
      ensures NewestResult(state.items) >= 0
    {
      hide InTable, Recent;
      InTableResult(state.toolCalls, Recent(Rows(state.items)), calls, k);
      var row := ToolResult(calls[k].id, "", state.toolCalls[calls[k].id].result.value.isError);
      RecentAmong(Rows(state.items), row);
      var i :| 0 <= i < |state.items| && Rows(state.items)[i] == row;
      SomeResult(state.items, i);
    }

    lemma LandedText(items: seq<Item>, text: string, synced: nat)
      requires synced <= |items|
      ensures TailGrew(items, TailPlus(items, text))
      ensures TailPlus(items, text)[..synced] != items[..synced] <==> text != "" && 0 <= NewestResult(items) < synced
    {
      hide TailGrew, NewestResult, TailPlus;
      TailPlusGrows(items, text);
      TailPlusTwice(items, "", "");
      if text != "" { TailMirrorExact(items, text, synced); }
    }

    /** Text landing on the newest result keeps the mirror, because that row is not on disk yet. */
    twostate lemma TailSettled(text: string)
      requires old(Mirrored()) && old(Framed()) && old(Lined())
      requires synced == old(synced) && writing == old(writing)
      requires distinct == old(distinct) && hardExit == old(hardExit) && requests == old(requests) && said == old(said)
      requires unchanged(emitter) && unchanged(log)
      requires state.items == TailPlus(old(state.items), text) && state.turn == old(state.turn)
      requires drifted <==> old(drifted) || (text != "" && 0 <= NewestResult(old(state.items)) < synced)
      requires distinct ==> NewestResult(old(state.items)) >= synced
      ensures Mirrored() && Framed() && Lined()
      ensures Rows(state.items) == Rows(old(state.items))
    {
      hide Lawful, LogWriter.Valid, AllBacked, Rows, Brackets, TailGrew, TailPlus, NewestResult, Extends, DistinctLog,
           AllGood;
      LandedText(old(state.items), text, synced);
      var was, now := old(state.items)[..synced], state.items[..synced];
      TailGrewLog(old(state.items), state.items, synced);
      TailGrewExtends(old(state.items), state.items, synced);
      ExtendsBehind(base, was, now);
      if writing && log.intact {
        ExtendsTwice(log.records, base + was, base + now);
      }
    }

    lemma InStep()
      requires Mirrored()
      ensures synced <= |state.items|
    {
    }

    /** Directives and nudge on the newest result; a row already on disk drifts from its file copy. */
    method SettleTail() returns (ghost text: string)
      requires Mirrored() && Framed() && Lined() && (distinct ==> NewestResult(state.items) >= synced)
      modifies this`drifted, env`now, state`items, state`pendingDirectives,
               state`halfDirectiveSent, state`lateDirectiveSent, state.budget`nudgeFired
      ensures Mirrored() && Framed() && Lined()
      ensures var at := env.now; text == old(state.Waiting(cfg, at))
      ensures old(state.pendingDirectives) != [] ==> text != ""
      ensures old(state.LateUnsent(cfg) && state.LateReached()) ==> text != ""
      ensures NewestResult(old(state.items)) >= 0 ==> state.pendingDirectives == []
      ensures state.items == TailPlus(old(state.items), text)
      ensures drifted <==> old(drifted) || (text != "" && 0 <= NewestResult(old(state.items)) < synced)
      ensures Rows(state.items) == Rows(old(state.items))
    {
      hide Mirrored, Framed, Lined, Rows, NewestResult, TailPlus, LoopState.Waiting, LoopState.Directives,
           LoopState.LateUnsent, LoopState.LateReached;
      InStep();
      var now := env.Clock();
      label Settling:
      text := state.Waiting(cfg, now);
      if state.pendingDirectives != [] { state.QueuedWaits(cfg, now); }
      if state.LateUnsent(cfg) && state.LateReached() { state.LateWaits(cfg, now); }
      TailKeepsNewest(state.items, text);
      state.SettleToolTail(cfg, now);
      drifted := drifted || (text != "" && 0 <= NewestResult(old(state.items)) < synced);
      TailSettled@Settling(text);
    }

    /** The settled tail, then the disk, then the end frame. What waits for the newest result lands on it, and the
        file drifts exactly when there is such text and that result is on disk already. */
    method CloseCall(calls: seq<ToolCallRef>, k: nat, ghost paired: bool) returns (ok: bool, ghost text: string)
      requires k < |calls| && Mirrored() && Framed() && Lined() && Batched(calls, k + 1, paired) && !hardExit
      requires distinct ==> NewestResult(state.items) >= synced
      requires Live(LedgerOf(emitter.history), {state.turn}, IdSet(calls[k..]))
      modifies this`synced, this`drifted, log, emitter, env`now, state`items, state`pendingDirectives,
               state`halfDirectiveSent, state`lateDirectiveSent, state.budget`nudgeFired
      ensures Mirrored() && Framed() && Lined() && Batched(calls, k + 1, paired)
      ensures ok ==> (writing ==> synced == |state.items|)
      ensures ok ==> Live(LedgerOf(emitter.history), {state.turn}, IdSet(calls[k + 1..]))
      ensures ok && old(Whole()) ==> Whole()
      ensures var at := env.now; text == old(state.Waiting(cfg, at))
      ensures state.items == TailPlus(old(state.items), text)
      ensures old(state.LateUnsent(cfg) && state.LateReached()) ==> text != ""
      ensures NewestResult(old(state.items)) >= 0 ==> state.pendingDirectives == []
      ensures old(state.pendingDirectives) != [] ==> text != ""
      ensures drifted <==> old(drifted) || (text != "" && 0 <= NewestResult(old(state.items)) < old(synced))
    {
      hide Mirrored, Framed, Lined, Rows, SoundCut, PairScan, MidBatch, NoDup, Live, LedgerOf, TailPlus, NewestResult,
           InTable, IdSet, Recent, DistinctLog, LoopState.Waiting, LoopState.LateUnsent, LoopState.LateReached;
      text := SettleTail();
      ok := Sync();
      if ok {
        ShowEnd(calls, k);
      }
    }

    /** The end frame of a recorded call, its row on disk. */
    method ShowEnd(calls: seq<ToolCallRef>, k: nat)
      requires k < |calls| && Mirrored() && Framed() && !hardExit && (writing ==> synced == |state.items|)
      requires InTable(state.toolCalls, Recent(Rows(state.items)), calls, k + 1)
      requires Live(LedgerOf(emitter.history), {state.turn}, IdSet(calls[k..]))
      modifies emitter
      ensures Framed() && Live(LedgerOf(emitter.history), {state.turn}, IdSet(calls[k + 1..]))
      ensures
        var id := calls[k].id;
        id in state.toolCalls && state.toolCalls[id].result.Some?
        && var done := state.toolCalls[id].result.value;
           emitter.history == old(emitter.history) + [ToolEnd(id, done.content, done.isError)]
    {
      hide Mirrored, Framed, Rows, InTable, IdSet, Live, LedgerOf, Post, Recent;
      var id := calls[k].id;
      InTableResult(state.toolCalls, Recent(Rows(state.items)), calls, k);
      var done := state.toolCalls[id].result.value;
      assert synced == |state.items| ==> Rows(state.items)[..synced] == Rows(state.items);
      EndsLedger(LedgerOf(emitter.history), {state.turn}, calls, k, done.content, done.isError);
      Show(ToolEnd(id, done.content, done.isError));
    }

    /** One call performed and recorded, with its trace entry. */
    method SettleCall(calls: seq<ToolCallRef>, k: nat, ghost paired: bool)
      returns (res: ToolOutcome, ghost entry: CallTrace)
      requires k < |calls| && Mirrored() && Framed() && Lined() && Batched(calls, k, paired) && Ready() && BatchTally()
      requires doing.Called?
      modifies this`cur, this`doing, this`said, env`cancelled, env`acted, tree`work, state`items, state`toolCalls,
               state`verifiedSinceWrite, state`callModel, state`stopHard, state`gate, state`lastSig, state`lastObs,
               state`edits, state.budget`sameActionStreak, state.budget`actionsThisTrial
      ensures Mirrored() && Framed() && Lined() && Batched(calls, k + 1, paired) && Ready() && BatchTally()
      ensures Recorded(old(state.items), calls, k, res)
      ensures cur == old(cur) + [entry] && doing.Called?
      ensures said == old(said) + ResultRow(calls, k, res) && env.acted == old(env.acted) + EffectOf(entry)
      ensures Told(calls, cfg, k, res, entry) && (env.cancelled ==> res.isError)
      ensures distinct ==> Noted(old(state.toolCalls), state.toolCalls, calls[k].id, res)
    {
      hide Mirrored, Framed, Lined, Batched, Ready, Rows, Ran, Touched, VerifiedAfter, NewestResult, CountersOf, TreeOf,
           AfterAll, AfterWork, Traces, AllCalled, Noted, AppendTo, CallIds, RanAs, AnswerTo, Recorded, ResultRow;
      ghost var run: Option<Run>, prepared;
      ghost var was, work := state.Counted(), tree.work;
      res, run, prepared := PerformCall(calls[k]);
      ghost var answer := RecordCall(calls, k, paired, res);
      entry := CallTrace(run, answer);
      NoteCall(run, answer, was, work);
    }

    /** One more trace entry for the batch. */
    ghost method NoteCall(run: Option<Run>, answer: Option<Answer>, was: Counters, work: Tree)
      requires was == CountersOf(kept + cur) && tree.head == AfterAll(tree.apply, start, line)
      requires doing == Called(cur) && work == AfterWork(tree.apply, tree.head, doing)
      requires (AllCalled(line) ==> kept == Traces(line)) && (!cfg.partials && !cfg.probing ==> AllCalled(line))
      requires tree.work == Touched(work, run)
      requires
        var ran := Ran(was, run);
        state.Counted() == if answer.Some? then ran.(verified := VerifiedAfter(ran.verified, answer.value)) else ran
      modifies this`cur, this`doing
      ensures BatchTally() && doing.Called? && cur == old(cur) + [CallTrace(run, answer)]
    {
      hide Ran, Touched, VerifiedAfter, CountersOf, TreeOf, AfterAll, AfterWork, Traces, AllCalled;
      var more := CallTrace(run, answer);
      CallTallies(tree.head, kept + cur, run, answer);
      CallTallies(tree.head, cur, run, answer);
      CalledTree(tree.apply, tree.head, cur);
      CalledTree(tree.apply, tree.head, cur + [more]);
      assert kept + (cur + [more]) == (kept + cur) + [more];
      cur := cur + [more];
      doing := Called(cur);
    }

    /** One call of the batch: performed, recorded, settled. The file drifts exactly when the call repeats an id, so
        that its answer is dropped, and some text waits for the tail. */
    method OneCall(calls: seq<ToolCallRef>, k: nat, ghost paired: bool)
      returns (ok: bool, failed: bool, ghost res: ToolOutcome, ghost text: string, ghost entry: CallTrace)
      requires k < |calls| && InBatch(calls, k, paired)
      modifies this`synced, this`drifted, this`cur, this`doing, this`said, log, emitter, env, tree`work, state`items,
               state`toolCalls, state`verifiedSinceWrite, state`callModel, state`stopHard, state`gate, state`lastSig,
               state`lastObs, state`edits, state`pendingDirectives, state`halfDirectiveSent, state`lateDirectiveSent,
               state.budget`sameActionStreak, state.budget`actionsThisTrial, state.budget`nudgeFired
      ensures ok ==> InBatch(calls, k + 1, paired)
      ensures !ok ==> Ending(LOG_APPEND_FAILED)
      ensures failed == res.isError && (env.cancelled ==> failed)
      ensures distinct ==> Noted(old(state.toolCalls), state.toolCalls, calls[k].id, res)
      ensures CallDone(calls, cfg, logged, k, old(Trail()), Trail(), res, text, entry)
      ensures cur == old(cur) + [entry] && state.pendingDirectives == []
      ensures old(state.pendingDirectives) != [] ==> text != ""
      ensures old(state.LateUnsent(cfg)) && state.LateReached() ==> text != ""
    {
      hide Mirrored, Framed, Lined, Batched, Sane, Asked, Ready, Live, LedgerOf, Rows, BatchTally, NewestResult, IdSet,
           Noted, TailPlus, AppendTo, Whole, CallIds, InBatch, Ending, Unmoved, Recorded, LogAfterCall, Told,
           EffectOf, ResultRow, LoopState.LateUnsent, LoopState.LateReached;
      RepeatsAreNot(calls, k, paired);
      SyncedAtHead(calls, k, paired);
      CallOpens(calls, k, paired);
      var done;
      done, entry := SettleCall(calls, k, paired);
      failed, res := done.isError, done;
      RecordedMeans(old(state.items), calls, k, res);
      ok, text := EndCall(calls, k, paired);
    }

    /** A recorded call, before its tail is settled. */
    ghost predicate MidCall(calls: seq<ToolCallRef>, k: nat, paired: bool)
      requires k < |calls|
      reads this, state, state.budget, emitter, tree, log, env
    {
      && Mirrored() && Framed() && Lined() && Sane() && Asked() && writing == logged && Unmoved() && Whole()
      && Batched(calls, k + 1, paired) && BatchTally() && Ready() && |cur| == k + 1 && doing.Called?
      && (distinct ==> NewestResult(state.items) >= synced)
      && Live(LedgerOf(emitter.history), {state.turn}, IdSet(calls[k..]))
    }

    /** The settled tail of a recorded call, then its end frame: on to the next call, or the log has failed. */
    method EndCall(calls: seq<ToolCallRef>, k: nat, ghost paired: bool) returns (ok: bool, ghost text: string)
      requires k < |calls| && MidCall(calls, k, paired)
      modifies this`synced, this`drifted, log, emitter, env`now, state`items, state`pendingDirectives,
               state`halfDirectiveSent, state`lateDirectiveSent, state.budget`nudgeFired
      ensures if ok then InBatch(calls, k + 1, paired) else Ending(LOG_APPEND_FAILED)
      ensures state.items == TailPlus(old(state.items), text)
      ensures old(state.LateUnsent(cfg) && state.LateReached()) ==> text != ""
      ensures NewestResult(old(state.items)) >= 0 ==> state.pendingDirectives == []
      ensures old(state.pendingDirectives) != [] ==> text != ""
      ensures drifted <==> old(drifted) || (text != "" && 0 <= NewestResult(old(state.items)) < old(synced))
    {
      hide Mirrored, Framed, Lined, Batched, Sane, Asked, Ready, Live, LedgerOf, Rows, BatchTally, NewestResult, IdSet,
           TailPlus, Whole, CallIds, InBatch, Ending, Unmoved, LoopState.Waiting, LoopState.LateUnsent,
           LoopState.LateReached;
      MidUnmoved(calls, k, paired);
      ok, text := CloseCall(calls, k, paired);
      CallCloses(calls, k + 1, paired, ok);
    }

    lemma MidUnmoved(calls: seq<ToolCallRef>, k: nat, paired: bool)
      requires k < |calls| && MidCall(calls, k, paired)
      ensures !hardExit
    {
      hide Mirrored, Framed, Lined, Batched, Sane, Asked, Ready, Live, LedgerOf, Rows, BatchTally, NewestResult, IdSet,
           Whole, CallIds;
    }

    lemma CallOpens(calls: seq<ToolCallRef>, k: nat, paired: bool)
      requires k < |calls| && InBatch(calls, k, paired)
      ensures Mirrored() && Framed() && Lined() && Batched(calls, k, paired) && Ready() && BatchTally() && Steadfast()
      ensures Sane() && Asked() && doing.Called? && |cur| == k && Whole() && !hardExit && writing == logged
      ensures Live(LedgerOf(emitter.history), {state.turn}, IdSet(calls[k..]))
      ensures Unmoved()
    {
      hide Mirrored, Framed, Lined, Batched, Sane, Asked, Ready, Live, LedgerOf, Rows, BatchTally, IdSet;
    }

    lemma CallCloses(calls: seq<ToolCallRef>, k: nat, paired: bool, ok: bool)
      requires k <= |calls| && Mirrored() && Framed() && Lined() && Sane() && Asked() && writing == logged && Unmoved()
      requires Batched(calls, k, paired) && BatchTally() && Ready() && |cur| == k && doing.Called?
      requires ok ==> Whole() && (writing ==> synced == |state.items|)
      requires ok ==> Live(LedgerOf(emitter.history), {state.turn}, IdSet(calls[k..]))
      ensures if ok then InBatch(calls, k, paired) else Ending(LOG_APPEND_FAILED)
    {
      hide Mirrored, Framed, Lined, Batched, Sane, Asked, Ready, Live, LedgerOf, Rows, BatchTally, IdSet, Whole;
    }

    lemma SyncedAtHead(calls: seq<ToolCallRef>, k: nat, paired: bool)
      requires k <= |calls| && InBatch(calls, k, paired)
      ensures synced <= |state.items| && (logged ==> synced == |state.items|) && (!logged ==> synced == 0)
    {
      hide Lined, Sane, Asked, Framed, Batched, BatchTally, Ready, Steadfast, Live, LedgerOf, Rows, DistinctLog,
           AllGood;
    }

    lemma RepeatsAreNot(calls: seq<ToolCallRef>, k: nat, paired: bool)
      requires k < |calls| && InBatch(calls, k, paired)
      ensures distinct ==> calls[k].id !in CallIds(calls)[..k]
    {
      hide Steady, Framed, BatchTally, Ready, Steadfast, Live, LedgerOf, Rows, PairScan, SoundCut, MidBatch, InTable,
           DistinctLog;
      if calls[k].id in CallIds(calls)[..k] { RepeatedId(CallIds(calls), k); }
    }

    /** Drift happens: in a batch whose log is written, a call that repeats an answered id is executed and reaches four
        fifths of the action cap. Its answer is dropped, the warning that falls due lands on a result already on disk,
        and the file no longer reads back as the rows it was given. */
    method DriftOnRepeat(calls: seq<ToolCallRef>, k: nat, ghost paired: bool) returns (ok: bool)
      requires k < |calls| && InBatch(calls, k, paired) && logged
      requires calls[k].id in CallIds(calls)[..k] && state.LateUnsent(cfg)
      requires state.budget.actionsThisTrial < state.budget.config.actionsPerTrial * 4 / 5
               <= state.budget.actionsThisTrial + 1
      modifies this`synced, this`drifted, this`cur, this`doing, this`said, log, emitter, env, tree`work, state`items,
               state`toolCalls, state`verifiedSinceWrite, state`callModel, state`stopHard, state`gate, state`lastSig,
               state`lastObs, state`edits, state`pendingDirectives, state`halfDirectiveSent, state`lateDirectiveSent,
               state.budget`sameActionStreak, state.budget`actionsThisTrial, state.budget`nudgeFired
      ensures ok ==> InBatch(calls, k + 1, paired)
      ensures ok && state.budget.actionsThisTrial > old(state.budget.actionsThisTrial) ==>
                drifted && log.intact && ReadSpec(log.codec, log.file) != Some(base + state.items)
    {
      hide InBatch, Ending, LogAfterCall, Noted, ReadSpec, Told;
      var failed;
      ghost var res, text, entry;
      ok, failed, res, text, entry := OneCall(calls, k, paired);
      if ok {
        SyncedAtHead(calls, k + 1, paired);
        if drifted { DriftedFile(calls, k + 1, paired); }
      }
    }

    lemma DriftedFile(calls: seq<ToolCallRef>, k: nat, paired: bool)
      requires k <= |calls| && InBatch(calls, k, paired) && logged && drifted && synced == |state.items|
      ensures log.intact && ReadSpec(log.codec, log.file) != Some(base + state.items)
    {
      hide Lined, Sane, Asked, Framed, Batched, BatchTally, Ready, Live, LedgerOf, Rows, DistinctLog, AllGood, Lawful,
           LogWriter.Valid, Extends, ReadSpec;
      assert state.items[..synced] == state.items;
      RecordsReadBack();
    }

    /** An intact file reads back as its records. */
    lemma RecordsReadBack()
      requires Mirrored() && writing && log.intact
      ensures ReadSpec(log.codec, log.file) == Some(log.records)
    {
      hide Rows, DistinctLog, AllGood, Extends;
      forall i | 0 <= i < |log.records|
        ensures LawfulFor(log.codec, log.records[i])
      {
      }
      hide Frames, LawfulFor, ReadSpec;
      ReadRepaired(log.codec, log.records);
      assert Frames(log.codec, log.records) + [] == Frames(log.codec, log.records);
    }

    /** A batch with every call settled, before its verdict. */
    ghost predicate BatchDone()
      reads this, state, state.budget, emitter, tree, log, env
    {
      && Steady() && Framed() && Paired() && BatchTally() && Ready() && Steadfast()
      && AllAnswered(state.toolCalls)
      && Live(LedgerOf(emitter.history), {state.turn}, {})
    }

    lemma BatchEnds(calls: seq<ToolCallRef>, paired: bool)
      requires InBatch(calls, |calls|, paired)
      ensures BatchDone() && |cur| == |calls| && doing.Called?
    {
      hide Steady, Framed, BatchTally, Ready, Steadfast, Live, LedgerOf, Rows, PairScan, SoundCut, NoDup, MidBatch,
           DistinctLog, Recent;
      BatchCloses(PairScan(Rows(state.items)), paired, CallIds(calls));
      InTableAll(state.toolCalls, Recent(Rows(state.items)), calls);
      assert IdSet(calls[|calls|..]) == {};
    }

    lemma DistinctCalls(calls: seq<ToolCallRef>, k: nat, paired: bool)
      requires k < |calls| && InBatch(calls, k, paired) && distinct
      ensures forall j :: 0 <= j < k ==> calls[j].id != calls[k].id
    {
      hide Steady, Framed, BatchTally, Ready, Steadfast, Live, LedgerOf, Rows, PairScan, SoundCut, MidBatch, InTable;
      var ids := CallIds(calls);
      forall j | 0 <= j < k ensures calls[j].id != calls[k].id { assert ids[j] != ids[k]; }
    }

    /** Every call in order; the batch has failed when some call's result is an error. */
    method RunCalls(calls: seq<ToolCallRef>, ghost paired: bool) returns (ok: bool, failed: bool, ghost batch: Batch)
      requires InBatch(calls, 0, paired)
      modifies this`synced, this`drifted, this`cur, this`doing, this`said, log, emitter, env, tree`work, state`items,
               state`toolCalls, state`verifiedSinceWrite, state`callModel, state`stopHard, state`gate, state`lastSig,
               state`lastObs, state`edits, state`pendingDirectives, state`halfDirectiveSent, state`lateDirectiveSent,
               state.budget`sameActionStreak, state.budget`actionsThisTrial, state.budget`nudgeFired
      ensures ok ==> BatchDone()
      ensures !ok ==> Ending(LOG_APPEND_FAILED)
      ensures cur == batch.trace && (ok ==> |batch.results| == |calls| && doing.Called?)
      ensures batch.probed == [] && batch.verdict.None?
      ensures ok && distinct ==> Resulted(state.toolCalls, calls, batch.results)
      ensures CallsDone(calls, cfg, logged, old(Trail()), Trail(), batch, failed)
      ensures calls != [] ==> state.pendingDirectives == [] && (env.cancelled ==> failed)
    {
      hide InBatch, BatchDone, Ending, Noted, Resulted, CallsDone, CallDone, CallIds;
      failed, batch := false, NO_BATCH;
      NoCalls(calls, cfg, logged, Trail());
      NoResults(state.toolCalls, calls);
      BatchFacts(calls, 0, paired);
      for k := 0 to |calls|
        invariant InBatch(calls, k, paired)
        invariant |batch.results| == k && cur == batch.trace && batch.probed == [] && batch.verdict.None?
        invariant distinct ==> Resulted(state.toolCalls, calls, batch.results)
        invariant CallsDone(calls, cfg, logged, old(Trail()), Trail(), batch, failed)
        invariant k > 0 ==> state.pendingDirectives == [] && (env.cancelled ==> failed)
      {
        var error;
        ghost var res, text, entry;
        if distinct { DistinctCalls(calls, k, paired); }
        ghost var table, was := state.toolCalls, Trail();
        ok, error, res, text, entry := OneCall(calls, k, paired);
        OneMoreCall(calls, cfg, logged, old(Trail()), was, Trail(), batch, failed, res, text, entry);
        if distinct { ResultsGrow(table, state.toolCalls, calls, batch.results, res); }
        failed, batch := failed || error, WithCall(batch, res, text, entry);
        if !ok {
          return;
        }
      }
      ok := true;
      BatchEnds(calls, paired);
    }

    lemma BatchFacts(calls: seq<ToolCallRef>, k: nat, paired: bool)
      requires k <= |calls| && InBatch(calls, k, paired)
      ensures |cur| == k && doing.Called?
    {
      hide Steady, Framed, Batched, BatchTally, Ready, Steadfast, Live, LedgerOf, Rows;
    }

    /** The batch's patch fragments with their proof flags. What the patch reads is arbitrary; probing leaves the
        tree with all fragments put on the baseline. */
    method ProbeHunks(failed: bool) returns (ok: bool, hunks: seq<Flagged>)
      modifies tree`work
      ensures !cfg.probing || (ok && hunks == []) ==> tree.work == old(tree.work)
      ensures ok && cfg.probing && hunks != [] ==> ApplyAll(tree.apply, tree.head, Names(hunks)) == Some(tree.work)
      ensures !cfg.probing ==> forall k :: 0 <= k < |hunks| ==> hunks[k].1 == !failed
    {
      var fault: bool, fragments: seq<string> :| true;
      if fault {
        return false, [];
      }
      if cfg.probing {
        var noCommand: bool, faults: nat -> (bool, bool, bool) :| true;
        ghost var tested;
        ok, hunks, tested := IncrementalHunks(tree, fragments, noCommand, faults);
        assert ok ==> Names(hunks) == fragments && fragments[..|fragments|] == fragments;
      } else {
        ok, hunks := true, seq(|fragments|, k requires 0 <= k < |fragments| => (fragments[k], !failed));
      }
    }

    /** A full rollback: tree and counters as before the batch. */
    method UndoBatch(snap: Counters) returns (ok: bool)
      requires BatchTally() && snap == CountersOf(kept)
      modifies this`cur, this`doing, tree`work, state`lastSig, state`lastObs, state`edits, state`verifiedSinceWrite,
               state.budget`sameActionStreak, state.budget`actionsThisTrial
      ensures ok ==> BatchTally() && cur == [] && doing == Called([]) && tree.work == tree.head
    {
      hide LoopState.Counted, CountersOf, AfterAll;
      var fault: bool :| true;
      ok := tree.Rollback(fault);
      if !ok {
        return;
      }
      state.RefundBatch(snap);
      cur, doing := [], Called([]);
      assert kept + cur == kept;
    }

    /** The rollback notice, durable before the tree moves. */
    method NoticeRollback() returns (ok: bool)
      requires Mirrored() && Framed() && Lined() && Paired()
      modifies this`synced, log, state`items, state`pendingDirectives
      ensures Mirrored() && Framed() && Lined() && Paired()
      ensures ok ==> Noticed(old(state.items)) && (old(Whole()) ==> Whole())
    {
      hide Mirrored, Framed, Lined, Paired, AppendTo;
      label Noticing:
      state.items := AppendTo(state.items, Attempt(ROLLBACK_NOTICE, true));
      AttemptLogged@Noticing(Attempt(ROLLBACK_NOTICE, true));
      ok := Sync();
      if ok {
        state.PushDirective(ROLLBACK_NOTICE, cfg);
      }
    }

    /** The notice is the newest row, and on disk. */
    ghost predicate Noticed(was: seq<Item>)
      reads this`synced, this`writing, state`items
    {
      state.items == AppendTo(was, Attempt(ROLLBACK_NOTICE, true)) && (writing ==> synced == |state.items|)
    }

    /** The probe of a finished batch. */
    method ProbeBatch(failed: bool) returns (ok: bool, ghost probed: seq<string>)
      requires BatchDone()
      modifies this`doing, tree`work
      ensures ok ==> BatchDone()
      ensures probed != [] ==> cfg.probing
      ensures ok ==> doing == if probed == [] then old(doing) else Patched(probed)
      ensures ok && !cfg.probing ==> tree.work == old(tree.work)
      ensures !ok ==> Ending(Failed(SnapshotFailure, "snapshot probe"))
    {
      hide Mirrored, Framed, Lined, Paired, Sane, Asked, Ready, Live, LedgerOf, LoopState.Counted, CountersOf, TreeOf,
           AfterAll, AllAnswered, ApplyAll;
      var hunks;
      ok, hunks := ProbeHunks(failed);
      probed := [];
      if ok && cfg.probing && hunks != [] {
        probed := Names(hunks);
        doing := Patched(probed);
      }
    }

    /** The rollback of a batch in which some result failed: noticed on disk, then undone. */
    method RollBack(snap: Counters) returns (stop: Option<Outcome>)
      requires BatchDone() && snap == CountersOf(kept)
      modifies this`synced, this`cur, this`doing, log, tree`work, state`items, state`pendingDirectives,
               state`lastSig, state`lastObs, state`edits, state`verifiedSinceWrite,
               state.budget`sameActionStreak, state.budget`actionsThisTrial
      ensures stop.None? ==> BatchDone() && cur == [] && doing == Called([]) && tree.work == tree.head
      ensures stop.None? ==> Noticed(old(state.items))
      ensures stop.Some? ==> Ending(stop.value) && !Unbroken(stop.value)
    {
      hide Mirrored, Framed, Lined, Paired, Sane, Asked, Ready, Live, LedgerOf, LoopState.Counted, CountersOf,
           AfterWork, AfterAll, AllAnswered, Traces, AllCalled, AppendTo;
      var ok := NoticeRollback();
      if !ok {
        return Some(LOG_APPEND_FAILED);
      }
      ok := UndoBatch(snap);
      if !ok {
        return Some(Failed(SnapshotFailure, "snapshot rollback"));
      }
      return None;
    }

    /** The probe, and the rollback of a batch in which some result failed. */
    method CloseBatch(snap: Counters, failed: bool) returns (stop: Option<Outcome>, ghost probed: seq<string>)
      requires BatchDone() && snap == CountersOf(kept)
      modifies this`synced, this`cur, this`doing, log, tree`work, state`items, state`pendingDirectives,
               state`lastSig, state`lastObs, state`edits, state`verifiedSinceWrite,
               state.budget`sameActionStreak, state.budget`actionsThisTrial
      ensures stop.None? ==> BatchDone()
      ensures stop.None? && failed ==>
                cur == [] && doing == Called([]) && tree.work == tree.head && Noticed(old(state.items))
      ensures stop.None? && !failed ==> cur == old(cur) && state.items == old(state.items)
      ensures stop.None? && !failed ==> doing == if probed == [] then old(doing) else Patched(probed)
      ensures stop.None? && !failed && !cfg.probing ==> tree.work == old(tree.work)
      ensures probed != [] ==> cfg.probing
      ensures stop.Some? ==> Ending(stop.value) && !Unbroken(stop.value)
    {
      hide BatchDone, Ending, CountersOf, Noticed;
      var ok;
      ok, probed := ProbeBatch(failed);
      if !ok {
        return Some(Failed(SnapshotFailure, "snapshot probe")), probed;
      }
      if failed {
        stop := RollBack(snap);
      } else {
        stop := None;
      }
    }

    /** The verdict settles the tree, and says whether the batch's calls survive. */
    method ApplyVerdict(verdict: CommitVerdict, snap: Counters) returns (ok: bool)
      requires BatchTally() && snap == CountersOf(kept) && (verdict.Partial? ==> cfg.partials)
      modifies this`kept, this`cur, this`line, this`doing, tree`work, state`lastSig, state`lastObs, state`edits,
               state`verifiedSinceWrite, state.budget`sameActionStreak, state.budget`actionsThisTrial
      ensures ok ==> Surviving()
      ensures ok && verdict.Committed? ==>
                kept == old(kept) + old(cur) && line == old(line) + [old(doing)] && tree.work == old(tree.work)
      ensures ok && verdict.Partial? ==>
                && kept == old(kept) + old(cur) && line == old(line) + [Patched(verdict.savepoint.kept)]
                && ApplyAll(tree.apply, tree.head, verdict.savepoint.kept) == Some(tree.work)
      ensures ok && verdict.Aborted? ==>
                kept == old(kept) && line == old(line) && state.Counted() == snap && tree.work == tree.head
      ensures !ok ==> kept == old(kept) && line == old(line)
    {
      hide LoopState.Counted, CountersOf, TreeOf, AfterAll, ApplyAll;
      match verdict {
        case Committed =>
          ok := true;
          LineSnoc(tree.apply, start, line, doing);
          kept, line := kept + cur, line + [doing];
        case Partial(savepoint) =>
          var faults: (bool, bool, bool) :| true;
          ok := tree.Restore(savepoint.kept, faults);
          if ok {
            LineSnoc(tree.apply, start, line, Patched(savepoint.kept));
            kept, line := kept + cur, line + [Patched(savepoint.kept)];
          }
        case Aborted =>
          ok := UndoBatch(snap);
          if ok { assert kept + cur == kept; }
      }
    }

    /** Post-batch verdict of an arbitrary hook, its step hook, then the shared tail. A verdict that could not be
        applied to the tree ends the run. */
    method ProofGate(snap: Counters) returns (stop: Option<Outcome>, ghost verdict: Option<CommitVerdict>)
      requires BatchDone() && snap == CountersOf(kept)
      modifies this`kept, this`cur, this`line, this`doing, this`synced, log, emitter, env`now, tree`work, state`lastSig,
               state`lastObs, state`edits, state`verifiedSinceWrite, state`drainUntil, state`items, state`turn,
               state`phase, state`steering, state`followups, state`turnReason, state.budget`sameActionStreak,
               state.budget`actionsThisTrial
      ensures stop.None? ==> AtHead()
      ensures verdict.None? ==> stop.Some? && !Unbroken(stop.value) && kept == old(kept) && line == old(line)
      ensures verdict.Some? ==>
                match verdict.value
                case Committed =>
                  kept == old(kept) + old(cur) && line == old(line) + [old(doing)] && tree.work == old(tree.work)
                case Partial(savepoint) =>
                  && kept == old(kept) + old(cur) && line == old(line) + [Patched(savepoint.kept)]
                  && ApplyAll(tree.apply, tree.head, savepoint.kept) == Some(tree.work) && cfg.partials
                case Aborted => kept == old(kept) && line == old(line) && tree.work == tree.head
      ensures stop.Some? ==> Ending(stop.value)
      ensures old(state.followups) == [] ==> state.followups == []
    {
      hide Mirrored, Framed, Lined, Paired, Sane, Asked, Live, LedgerOf, BatchTally, Surviving, CountersOf, AllAnswered,
           ApplyAll;
      var answer: CommitVerdict :| answer.Partial? ==> cfg.partials;
      var ok := ApplyVerdict(answer, snap);
      if !ok {
        return Some(Failed(SnapshotFailure, "snapshot verdict")), None;
      }
      verdict := Some(answer);
      var hook: Option<Outcome> :| true;
      if hook.Some? {
        return hook, verdict;
      }
      stop := SettleTerminal();
    }

    /** A dispatched batch up to its last call, over a fresh baseline, with the counters from before it. */
    method RunBatch(calls: seq<ToolCallRef>, ghost resp: Response)
      returns (stop: Option<Outcome>, snap: Counters, failed: bool, ghost batch: Batch)
      requires Claimed(Dispatch(calls), resp)
      modifies this`distinct, this`drifted, this`cur, this`doing, this`said, this`synced, log, emitter, env, tree`work,
               tree`head, state`items, state`toolCalls, state`verifiedSinceWrite, state`callModel, state`stopHard,
               state`gate, state`lastSig, state`lastObs, state`edits, state`pendingDirectives, state`halfDirectiveSent,
               state`lateDirectiveSent, state.budget`sameActionStreak, state.budget`actionsThisTrial,
               state.budget`nudgeFired
      ensures snap == CountersOf(kept)
      ensures kept + Survivors(batch) == kept && line + WorkOf(batch) == line && Survivors(batch) == []
      ensures stop.None? ==> BatchDone() && tree.head == old(tree.work) && doing == Called(cur) && cur == batch.trace
      ensures stop.None? ==> distinct == (old(distinct) && NoDup(CallIds(calls)))
      ensures stop.None? ==> |batch.results| == |calls| && (calls != [] && env.cancelled ==> failed)
      ensures stop.None? && distinct ==> Resulted(state.toolCalls, calls, batch.results)
      ensures BatchFits(calls, cfg, batch) && |batch.results| <= |calls| && (failed <==> AnyError(batch.results))
      ensures said == old(said) + ResultRows(calls, batch.results) && env.acted == old(env.acted) + Effects(batch.trace)
      ensures drifted <==> old(drifted) || (logged && Strayed(calls, batch.waiting))
      ensures batch.probed == [] && batch.verdict.None?
      ensures stop.Some? ==> Ending(stop.value) && !Unbroken(stop.value)
    {
      hide *;
      failed, batch := false, NO_BATCH;
      snap := Counters(state.edits, state.budget.actionsThisTrial, state.budget.sameActionStreak,
                       state.lastSig, state.lastObs, state.verifiedSinceWrite);
      SnapshotMeans(Dispatch(calls), resp);
      NoCalls(calls, cfg, logged, Trail());
      TrailIs();
      CallsMean(calls, cfg, logged, Trail(), Trail(), batch, failed);
      NothingLeft(batch, cfg, kept, line);
      ghost var paired := distinct;
      var ok := OpenBatch(calls, resp);
      if !ok {
        BrokenEnds("snapshot baseline");
        return Some(Failed(SnapshotFailure, "snapshot baseline")), snap, failed, batch;
      }
      BatchOpened(calls, paired);
      ghost var was := Trail();
      ok, failed, batch := RunCalls(calls, paired);
      TrailIs();
      CallsMean(calls, cfg, logged, was, Trail(), batch, failed);
      NothingLeft(batch, cfg, kept, line);
      if ok {
        DoingIsCur();
        return None, snap, failed, batch;
      }
      BrokenEnds("");
      stop := Some(LOG_APPEND_FAILED);
    }

    lemma DoingIsCur()
      requires BatchDone() && doing.Called?
      ensures doing == Called(cur)
    {
      hide Steady, Framed, Paired, Ready, Steadfast, Live, LedgerOf, AllAnswered;
    }

    /** A finished batch, from its probe to its verdict. */
    method JudgeBatch(ghost calls: seq<ToolCallRef>, snap: Counters, failed: bool, ghost done: Batch)
      returns (stop: Option<Outcome>, ghost batch: Batch)
      requires BatchFits(calls, cfg, done) && |done.results| == |calls|
      requires BatchDone() && snap == CountersOf(kept) && doing == Called(cur) && cur == done.trace
      requires failed <==> AnyError(done.results)
      modifies this`kept, this`cur, this`line, this`doing, this`synced, log, emitter, env`now, tree`work, state`lastSig,
               state`lastObs, state`edits, state`verifiedSinceWrite, state`drainUntil, state`items, state`turn,
               state`phase, state`steering, state`followups, state`turnReason, state`pendingDirectives,
               state.budget`sameActionStreak, state.budget`actionsThisTrial
      ensures stop.None? ==> AtHead()
      ensures batch == done.(probed := batch.probed, verdict := batch.verdict) && BatchFits(calls, cfg, batch)
      ensures failed ==> Survivors(batch) == []
      ensures batch.verdict.None? ==> stop.Some? && !Unbroken(stop.value)
      ensures kept == old(kept) + Survivors(batch) && line == old(line) + WorkOf(batch)
      ensures batch.verdict.Some? && (batch.verdict.value.Aborted? || (failed && !batch.verdict.value.Partial?)) ==>
                tree.work == tree.head
      ensures batch.verdict.Some? && batch.verdict.value.Partial? ==>
                ApplyAll(tree.apply, tree.head, batch.verdict.value.savepoint.kept) == Some(tree.work)
      ensures stop.Some? ==> Ending(stop.value)
      ensures old(state.followups) == [] ==> state.followups == []
    {
      hide *;
      ghost var probed, verdict;
      stop, probed := CloseBatch(snap, failed);
      batch := done.(probed := probed, verdict := None);
      if stop.Some? {
        NothingLeft(batch, cfg, kept, line);
        JudgedFits(calls, cfg, done, batch);
        return;
      }
      ghost var left, work := cur, doing;
      stop, verdict := ProofGate(snap);
      batch := batch.(verdict := verdict);
      BatchLeaves(batch, failed, cfg, old(kept), old(line), left, work);
      JudgedFits(calls, cfg, done, batch);
    }

    /** A dispatched batch, from its start frames to its verdict: it leaves what its results and its verdict say, all
        its calls or none. A batch that is aborted, or has an error result and no partial verdict, leaves the tree as
        it was. */
    method SettleBatch(calls: seq<ToolCallRef>, ghost resp: Response)
      returns (stop: Option<Outcome>, ghost batch: Batch)
      requires Claimed(Dispatch(calls), resp)
      modifies this`distinct, this`drifted, this`kept, this`cur, this`line, this`doing, this`said, this`synced, log,
               emitter, env, tree`work, tree`head, state`items, state`toolCalls, state`verifiedSinceWrite,
               state`callModel, state`stopHard, state`gate, state`lastSig, state`lastObs, state`edits,
               state`pendingDirectives, state`halfDirectiveSent, state`lateDirectiveSent, state`drainUntil, state`turn,
               state`phase, state`steering, state`followups, state`turnReason, state.budget`sameActionStreak,
               state.budget`actionsThisTrial, state.budget`nudgeFired
      ensures stop.None? ==> AtHead()
      ensures stop.None? ==> distinct == (old(distinct) && NoDup(CallIds(calls)))
      ensures batch.verdict.Some? && distinct ==> Resulted(state.toolCalls, calls, batch.results)
      ensures BatchFits(calls, cfg, batch) && |batch.results| <= |calls|
      ensures batch.verdict.None? ==> stop.Some? && !Unbroken(stop.value)
      ensures kept == old(kept) + Survivors(batch) && line == old(line) + WorkOf(batch)
      ensures said == old(said) + ResultRows(calls, batch.results) && env.acted == old(env.acted) + Effects(batch.trace)
      ensures drifted <==> old(drifted) || (logged && Strayed(calls, batch.waiting))
      ensures calls != [] && env.cancelled ==> Survivors(batch) == []
      ensures batch.verdict.Some? && (batch.verdict.value.Aborted?
                                      || (AnyError(batch.results) && !batch.verdict.value.Partial?)) ==>
                tree.work == old(tree.work)
      ensures batch.verdict.Some? && batch.verdict.value.Partial? ==>
                ApplyAll(tree.apply, old(tree.work), batch.verdict.value.savepoint.kept) == Some(tree.work)
      ensures stop.Some? ==> Ending(stop.value)
      ensures old(state.followups) == [] ==> state.followups == []
    {
      hide *;
      var failed, snap;
      stop, snap, failed, batch := RunBatch(calls, resp);
      if stop.None? {
        ghost var done := batch;
        stop, batch := JudgeBatch(calls, snap, failed, done);
      }
    }

    lemma TrailIs()
      ensures Trail().said == said && Trail().drifted == drifted && Trail().acted == env.acted
    {
    }

    lemma BatchOpened(calls: seq<ToolCallRef>, paired: bool)
      requires InBatch(calls, 0, paired)
      ensures distinct == (paired && NoDup(CallIds(calls))) && doing.Called?
    {
      hide Steady, Framed, BatchTally, Ready, Steadfast, Live, LedgerOf, Rows, PairScan, SoundCut, MidBatch, InTable,
           NoDup;
    }

    lemma SnapshotMeans(claim: Claim, resp: Response)
      requires Claimed(claim, resp)
      ensures Counters(state.edits, state.budget.actionsThisTrial, state.budget.sameActionStreak,
                       state.lastSig, state.lastObs, state.verifiedSinceWrite) == CountersOf(kept)
    {
    }

    /** A claim without a dispatch is what the shared tail starts from, unless it is a hard exit. */
    lemma ClaimLands(claim: Claim, resp: Response)
      requires Claimed(claim, resp)
      requires claim.DoneClaim? || claim.VerifyHold? || claim.TruncatedClaim? || claim.RefusedClaim?
      ensures Landed()
    {
      hide Mirrored, Framed, Lined, Surviving, Sane, Asked, Live, LedgerOf, SoundCut, PairScan, AllAnswered, Rows;
    }

    /** The admitted step's own declare wins over the step cap it reached. */
    method SettleDone(ghost resp: Response) returns (stop: Option<Outcome>)
      requires Claimed(DoneClaim, resp)
      modifies this`synced, log, emitter, env`now, state`drainUntil, state`items, state`turn, state`phase,
               state`steering, state`followups, state`turnReason
      ensures stop.None? ==> AtHead()
      ensures stop.Some? ==> Ending(stop.value)
      ensures old(state.followups) == [] ==> state.followups == []
    {
      hide Mirrored, Framed, Lined, Paired, Surviving, Sane, Asked, Ready, Live, LedgerOf, Rows, ClaimOpen,
           BudgetGuard.Peek;
      ClaimLands(DoneClaim, resp);
      var now := env.Clock();
      if state.inFlight.None? && AllAnswered(state.toolCalls) && !state.callModel && state.steering == []
         && state.followups == [] && state.budget.Peek(now) == Some(Steps) {
        return Some(Finished);
      }
      stop := SettleTerminal();
    }

    /** A held declare keeps the turn alive. */
    method SettleHeld(ghost resp: Response) returns (stop: Option<Outcome>)
      requires Claimed(VerifyHold, resp)
      modifies this`synced, log
      ensures stop.None? ==> AtHead()
      ensures stop.Some? ==> Ending(stop.value)
    {
      hide Mirrored, Framed, Lined, Paired, Surviving, Sane, Asked, Live, LedgerOf, Rows, ClaimOpen, AllAnswered;
      ClaimLands(VerifyHold, resp);
      HeldIsOpen(resp);
      var ok := Sync();
      if !ok {
        return Some(LOG_APPEND_FAILED);
      }
      return None;
    }

    lemma HeldIsOpen(resp: Response)
      requires Claimed(VerifyHold, resp)
      ensures Ready() && Paired()
    {
      hide Mirrored, Framed, Lined, Surviving, Sane, Asked, Live, LedgerOf, SoundCut, PairScan, AllAnswered, Rows;
    }

    /** A provider error stop closes the gate and the run. */
    method SettleHard(name: string, ghost resp: Response) returns (stop: Option<Outcome>)
      requires Claimed(HardExit(name), resp)
      modifies env`now, state`fatalError, state`gate, state`drainUntil, state`items, state`turn, state`phase,
               state`steering, state`followups, state`turnReason
      ensures stop.Some? && Ending(stop.value)
      ensures old(state.followups) == [] ==> state.followups == []
    {
      hide Mirrored, Framed, Lined, Paired, Surviving, Sane, Asked, Live, LedgerOf, Rows, SoundCut, ClaimLogged,
           AllAnswered, BudgetGuard.Peek;
      state.fatalError := Some(name);
      state.gate := Closed(name);
      var v := Judge();
      stop := if v.Return? then Some(v.outcome) else None;
    }

    /** What each claim leads to. */
    method SettleClaim(claim: Claim, ghost resp: Response)
      returns (stop: Option<Outcome>, ghost batch: Batch)
      requires Claimed(claim, resp)
      modifies this`distinct, this`drifted, this`kept, this`cur, this`line, this`doing, this`said, this`synced, log,
               emitter, env, tree`work, tree`head, state`items, state`toolCalls, state`verifiedSinceWrite,
               state`callModel, state`stopHard, state`gate, state`lastSig, state`lastObs, state`edits,
               state`pendingDirectives, state`halfDirectiveSent, state`lateDirectiveSent, state`drainUntil, state`turn,
               state`phase, state`steering, state`followups, state`turnReason, state`fatalError,
               state.budget`sameActionStreak, state.budget`actionsThisTrial, state.budget`nudgeFired
      ensures stop.None? ==> AtHead()
      ensures stop.Some? ==> Ending(stop.value)
      ensures stop.None? ==> distinct == (old(distinct) && (Dispatches(resp) ==> NoDup(CallIds(resp.message.calls))))
      ensures !Dispatches(resp) ==> tree.work == old(tree.work)
      ensures AnswerBatch(resp, cfg, batch) && (stop.None? || Unbroken(stop.value) ==> AnswerJudged(resp, batch))
      ensures kept == old(kept) + Survivors(batch) && line == old(line) + WorkOf(batch)
      ensures said == old(said) + BatchSaid(resp, batch) && env.acted == old(env.acted) + Effects(batch.trace)
      ensures drifted <==> old(drifted) || (logged && AnswerStrays(resp, batch))
      ensures old(state.followups) == [] ==> state.followups == []
    {
      hide InRound, Claimed, AtHead, Ending, Landed, ClaimKind, NoDup, Dispatches, AllCalled, AnyError, Resulted,
           ApplyAll, Strayed, AnswerBatch, BatchFits, AnswerJudged, AnswerStrays, BatchSaid, Survivors, WorkOf, Effects,
           Unbroken, ResultRows;
      batch := NO_BATCH;
      NoBatchLeaves(kept, line, said, env.acted);
      AnswerWithout(resp, cfg);
      ClaimFacts(claim, resp);
      match claim {
        case VerifyHold => stop := SettleHeld(resp);
        case DoneClaim => stop := SettleDone(resp);
        case TruncatedClaim(_) =>
          ClaimLands(claim, resp);
          stop := SettleTerminal();
        case RefusedClaim =>
          ClaimLands(claim, resp);
          stop := SettleTerminal();
        case HardExit(name) => stop := SettleHard(name, resp);
        case Dispatch(calls) =>
          stop, batch := SettleBatch(calls, resp);
          AnswerWith(resp, cfg, batch);
      }
    }

    /** A settled response: metered, claimed, durable, shown, then dispatched by claim. */
    method SettleSuccess(resp: Response) returns (stop: Option<Outcome>, ghost batch: Batch)
      requires InRound()
      modifies this`distinct, this`drifted, this`kept, this`cur, this`line, this`doing, this`synced, this`hardExit,
               this`said, log, emitter, env, tree`work, tree`head, state`hold, state`inFlight, state`items,
               state`callModel, state`stepRetries, state`fatalError, state`gate, state`totals, state`charges,
               state`toolCalls, state`turnReason, state`nudgesUsed, state`editsAtLastNudge, state`emitNext,
               state`verifiedSinceWrite, state`stopHard, state`lastSig, state`lastObs, state`edits,
               state`pendingDirectives, state`halfDirectiveSent, state`lateDirectiveSent, state`drainUntil, state`turn,
               state`phase, state`steering, state`followups, state.budget`tokens, state.budget`spentCents,
               state.budget`steps, state.budget`refunds, state.budget`sameActionStreak, state.budget`actionsThisTrial,
               state.budget`nudgeFired
      ensures stop.None? ==> AtHead()
      ensures stop.Some? ==> Ending(stop.value)
      ensures state.charges == old(state.charges) + [BilledUsage(resp.usage, resp.retryUsage)]
      ensures said == old(said) + (Said(resp.message, resp.stop) + BatchSaid(resp, batch))
      ensures !silentHop && spentAt.None?
      ensures hardExit ==> HardStop(resp.stop)
      ensures stop.None? ==> distinct == (old(distinct) && (Dispatches(resp) ==> NoDup(CallIds(resp.message.calls))))
      ensures !Dispatches(resp) ==> tree.work == old(tree.work)
      ensures AnswerBatch(resp, cfg, batch) && (stop.None? || Unbroken(stop.value) ==> AnswerJudged(resp, batch))
      ensures kept == old(kept) + Survivors(batch) && line == old(line) + WorkOf(batch)
      ensures env.acted == old(env.acted) + Effects(batch.trace)
      ensures drifted <==> old(drifted) || (logged && AnswerStrays(resp, batch))
      ensures old(state.followups) == [] ==> state.followups == []
    {
      hide *;
      batch := NO_BATCH;
      RoundFacts();
      var ok, claim := AnswerRound(resp);
      if !ok {
        NoBatchLeaves(kept, line, said, env.acted);
        AnswerWithout(resp, cfg);
        BrokenEnds("");
        return Some(LOG_APPEND_FAILED), batch;
      }
      ClaimFacts(claim, resp);
      stop, batch := SettleClaim(claim, resp);
      ghost var before, answer := old(said), Said(resp.message, resp.stop);
      assert before + answer + BatchSaid(resp, batch) == before + (answer + BatchSaid(resp, batch));
    }

    lemma RoundFacts()
      requires InRound()
      ensures !silentHop && spentAt.None? && !hardExit
    {
      hide Mirrored, Framed, Lined, Paired, Surviving, Sane, Asked, Ready, Live, LedgerOf, Rows, AllAnswered;
    }

    lemma ClaimFacts(claim: Claim, resp: Response)
      requires Claimed(claim, resp)
      ensures claim.Dispatch? <==> Dispatches(resp)
      ensures claim.Dispatch? ==> claim.calls == resp.message.calls
      ensures hardExit ==> HardStop(resp.stop)
    {
      hide Mirrored, Framed, Lined, Surviving, Sane, Asked, Live, LedgerOf, SoundCut, PairScan, AllAnswered, Rows;
    }

    method CheckpointRound() returns (ghost answer: Option<SummaryReply>)
      requires InRound()
      modifies emitter, state`checkpoint, state`compactedTurn, state`totals, state`charges,
               state.budget`tokens, state.budget`spentCents
      ensures InRound()
      ensures Folds(state.items, old(state.checkpoint), state.checkpoint, cfg.fold)
      ensures state.charges == old(state.charges) + SummaryBill(answer)
    {
      hide Mirrored, Framed, Lined, Paired, Surviving, Sane, Asked, Ready, Live, LedgerOf, Rows, AllAnswered, Folds,
           SummaryBill;
      answer := TakeCheckpoint();
    }

    method CancelSeen() returns (cancelled: bool)
      requires InRound()
      modifies env`cancelled, state`stopHard, state`gate
      ensures InRound() && cancelled == env.cancelled && (old(env.cancelled) ==> cancelled)
      ensures if cancelled then state.stopHard && state.gate != Open
              else state.stopHard == old(state.stopHard) && state.gate == old(state.gate)
    {
      hide Mirrored, Framed, Lined, Paired, Surviving, Sane, Asked, Live, LedgerOf, Rows, AllAnswered;
      cancelled := env.IsCancelled();
      if cancelled {
        CancelRound();
      }
    }

    method SendRound()
      requires InRound() && |requests| < state.budget.admitted
      modifies this`requests
      ensures InRound() && |requests| == |old(requests)| + 1
      ensures requests == old(requests) + [requests[|old(requests)|]]
    {
      hide Mirrored, Framed, Lined, Paired, Surviving, Sane, Asked, Live, LedgerOf, Rows, AllAnswered, Derived,
           WithBudgetLine, Held, Fold, Kinds;
      var system: string, line: string :| true;
      SendRequest(system, line);
    }

    /** The round's request, unless the cancel came first; a cancel that comes while the provider answers latches the
        stop and drops the answer. */
    method AskProvider() returns (reply: Reply, ghost summary: Option<SummaryReply>, ghost sent: Option<Sent>)
      requires InRound() && |requests| < state.budget.admitted
      modifies this`requests, emitter, env`cancelled, state`stopHard, state`gate, state`checkpoint, state`compactedTurn,
               state`totals, state`charges, state.budget`tokens, state.budget`spentCents
      ensures InRound()
      ensures requests == old(requests) + if sent.Some? then [sent.value] else []
      ensures reply.Answered? ==> sent.Some?
      ensures env.cancelled ==>
                state.stopHard && state.gate != Open && reply == Errored("cancelled", None, false)
      ensures !env.cancelled ==> state.stopHard == old(state.stopHard) && state.gate == old(state.gate)
      ensures state.charges == old(state.charges) + SummaryBill(summary)
    {
      hide InRound, SummaryBill;
      sent := None;
      summary := CheckpointRound();
      var cancelled := CancelSeen();
      cancelled := CancelSeen();
      if cancelled {
        return Errored("cancelled", None, false), summary, sent;
      }
      SendRound();
      sent := Some(requests[|old(requests)|]);
      cancelled := CancelSeen();
      if cancelled {
        return Errored("cancelled", None, false), summary, sent;
      }
      reply :| true;
    }

    /** A failed answer has no batch. */
    method SettleErrored(reply: Reply) returns (stop: Option<Outcome>, ghost batch: Batch)
      requires InRound() && reply.Errored?
      modifies this, log, emitter, env, tree, state, state.budget
      ensures stop.None? ==> AtHead()
      ensures stop.Some? ==> Ending(stop.value)
      ensures state.budget.admitted == old(state.budget.admitted)
      ensures silentHop ==>
                env.cancelled && !state.stopHard && state.budget.Peek(env.now).None? && old(state.followups) != []
      ensures ReplyEntered(reply, batch, cfg, logged, old(Entries()), Entries())
      ensures stop.None? || Unbroken(stop.value) ==> ReplyJudged(reply, batch)
      ensures old(state.followups) == [] ==> state.followups == []
    {
      hide *;
      RoundFacts();
      EntriesAre();
      ghost var cancelled, was;
      batch, was := NO_BATCH, Entries();
      stop, cancelled := SettleProviderError(reply.message, reply.billed, reply.exhausted);
      EntriesAre();
      FailureEntered(reply, cfg, logged, was, Entries());
    }

    /** A settled answer enters its calls. */
    method SettleAnswered(reply: Reply) returns (stop: Option<Outcome>, ghost batch: Batch)
      requires InRound() && reply.Answered?
      modifies this, log, emitter, env, tree, state, state.budget
      ensures stop.None? ==> AtHead()
      ensures stop.Some? ==> Ending(stop.value)
      ensures state.budget.admitted == old(state.budget.admitted)
      ensures silentHop ==>
                env.cancelled && !state.stopHard && state.budget.Peek(env.now).None? && old(state.followups) != []
      ensures ReplyEntered(reply, batch, cfg, logged, old(Entries()), Entries())
      ensures stop.None? || Unbroken(stop.value) ==> ReplyJudged(reply, batch)
      ensures old(state.followups) == [] ==> state.followups == []
    {
      hide *;
      EntriesAre();
      ghost var was := Entries();
      stop, batch := SettleSuccess(reply.response);
      EntriesAre();
      AnswerEntered(reply, batch, cfg, logged, was, Entries());
    }

    /** What each answer of the provider leads to. */
    method SettleReply(reply: Reply) returns (stop: Option<Outcome>, ghost batch: Batch)
      requires InRound()
      modifies this, log, emitter, env, tree, state, state.budget
      ensures stop.None? ==> AtHead()
      ensures stop.Some? ==> Ending(stop.value)
      ensures state.budget.admitted == old(state.budget.admitted)
      ensures silentHop ==>
                env.cancelled && !state.stopHard && state.budget.Peek(env.now).None? && old(state.followups) != []
      ensures ReplyEntered(reply, batch, cfg, logged, old(Entries()), Entries())
      ensures stop.None? || Unbroken(stop.value) ==> ReplyJudged(reply, batch)
      ensures old(state.followups) == [] ==> state.followups == []
    {
      hide *;
      if reply.Errored? {
        stop, batch := SettleErrored(reply);
      } else {
        stop, batch := SettleAnswered(reply);
      }
    }

    lemma EntriesAre()
      ensures Entries() == Books(state.charges, requests, said, kept, line, env.acted, drifted, hardExit, spentAt)
    {
    }

    /** One provider round: what it billed, whether it used up the provider, and whether the file drifted in it. */
    method ProviderRound() returns (stop: Option<Outcome>, ghost round: Round)
      requires InRound() && |requests| < state.budget.admitted
      modifies this, log, emitter, env, tree, state, state.budget
      ensures stop.None? ==> AtHead()
      ensures stop.Some? ==> Ending(stop.value)
      ensures state.budget.admitted == old(state.budget.admitted)
      ensures silentHop ==>
                env.cancelled && !state.stopHard && state.budget.Peek(env.now).None? && old(state.followups) != []
      ensures Entered(round, cfg, old(Entries()), logged, Entries())
      ensures stop.None? || Unbroken(stop.value) ==> ReplyJudged(round.reply, round.batch)
      ensures old(state.followups) == [] ==> state.followups == []
    {
      hide InRound, AtHead, Ending, BudgetGuard.Peek, SummaryBill, Entered, ReplyEntered, ReplyJudged, Unbroken;
      var reply;
      ghost var summary, sent, batch;
      reply, summary, sent := AskProvider();
      ghost var mid := Entries();
      stop, batch := SettleReply(reply);
      round := Round(summary, sent, reply, batch);
      EnterRound(round, cfg, old(Entries()), logged, mid, Entries());
    }

    /** A loop head, and the provider round that it admits. */
    method OnePass() returns (stop: Option<Outcome>, ghost round: Option<Round>)
      requires AtHead()
      modifies this, log, emitter, env, tree, state, state.budget
      ensures stop.None? ==> AtHead() && round.Some?
      ensures stop.Some? ==> Ending(stop.value)
      ensures state.budget.admitted == old(state.budget.admitted) + (if round.Some? then 1 else 0)
      ensures round.Some? ==> state.budget.admitted <= state.budget.config.maxSteps + state.budget.config.maxRefunds + 1
      ensures round.None? ==> Entries() == old(Entries())
      ensures round.Some? ==>
                old(spentAt).None? && !old(hardExit) && Entered(round.value, cfg, old(Entries()), logged, Entries())
      ensures round.Some? && (stop.None? || Unbroken(stop.value)) ==>
                ReplyJudged(round.value.reply, round.value.batch)
      ensures silentHop ==> env.cancelled && (!old(silentHop) ==> old(state.followups) != [])
      ensures old(state.followups) == [] ==> state.followups == []
    {
      hide *;
      round := None;
      var head := StepHead();
      match head {
        case Exit(outcome) => stop := Some(outcome);
        case Failure(outcome) => stop := Some(outcome);
        case Call =>
          RoundsLeft();
          ghost var asked;
          stop, asked := ProviderRound();
          round := Some(asked);
      }
    }

    /** The headless drive: one step head and provider round at a time, until a phase is terminal. Each round
        uses up one of a bounded number of admissions, and only the last one may find the provider exhausted. */
    method Drive() returns (o: Outcome, ghost rounds: seq<Round>)
      requires AtHead()
      modifies this, log, emitter, env, tree, state, state.budget
      ensures Concluded(o)
      ensures old(state.budget.admitted) + |rounds| == state.budget.admitted
      ensures |rounds| <= state.budget.config.maxSteps + state.budget.config.maxRefunds + 1
      ensures old(spentAt).None? ==> Accounts(rounds, cfg, old(Entries()), logged, Entries())
      ensures Unbroken(o) ==> AllJudged(rounds)
      ensures old(!silentHop) && silentHop ==> env.cancelled && old(state.followups) != []
    {
      hide *;
      rounds := [];
      NoneToJudge();
      EntriesAre();
      if spentAt.None? { NoRounds(cfg, Entries(), logged); }
      while true
        invariant AtHead()
        invariant old(spentAt).None? ==> Accounts(rounds, cfg, old(Entries()), logged, Entries())
        invariant AllJudged(rounds)
        invariant old(!silentHop) && silentHop ==> old(state.followups) != []
        invariant old(state.followups) == [] ==> state.followups == []
        invariant old(state.budget.admitted) + |rounds| == state.budget.admitted
        decreases state.budget.config.maxSteps + state.budget.config.maxRefunds + 1 - state.budget.admitted
      {
        EntriesAre();
        ghost var before := Entries();
        ghost var round;
        var stop;
        stop, round := OnePass();
        if round.Some? {
          if old(spentAt).None? {
            OneMoreRound(rounds, cfg, round.value, old(Entries()), logged, before, Entries());
          }
          JudgedSnoc(rounds, round.value);
          rounds := rounds + [round.value];
        }
        if stop.Some? {
          EndingCloses(stop.value);
          o := Finish(stop.value);
          ConcludedBound(o);
          return;
        }
      }
    }

    lemma ConcludedBound(o: Outcome)
      requires Concluded(o)
      ensures state.budget.admitted <= state.budget.config.maxSteps + state.budget.config.maxRefunds + 1
    {
      hide Mirrored, Asked, Rows, GoodLog, Brackets, LedgerOf, Balanced, AllBacked;
      AdmissionBound(state.budget);
    }

    lemma RoundsLeft()
      requires InRound()
      ensures state.budget.admitted <= state.budget.config.maxSteps + state.budget.config.maxRefunds + 1
      ensures spentAt.None? && !hardExit
    {
      hide Mirrored, Framed, Lined, Paired, Surviving, Asked, Ready, Live, LedgerOf, Rows, AllAnswered;
      AdmissionBound(state.budget);
    }

    lemma EndingCloses(o: Outcome)
      requires Ending(o)
      ensures Steady() && Framed() && (hardExit ==> emitter.history != []) && (Logged(o) ==> Whole())
      ensures spentAt.Some? ==> spentAt.value == |requests|
      ensures Unbroken(o) ==> Live(LedgerOf(emitter.history), OpenTurns(), {}) && Surviving()
    {
    }

    // ---- opening ----

    /** A run that has not begun: fresh state, empty stream, a log file as the last run or crash left it. */
    ghost predicate Fresh()
      reads this, state, state.budget, emitter, tree, log, env
    {
      && !writing && synced == 0 && distinct && kept == [] && cur == [] && start == tree.work && base == log.records
      && !drifted && line == [] && !silentHop && spentAt.None? && !hardExit && requests == []
      && said == [] && env.acted == [] && Lawful(log.codec) && log.Valid() && log.intact
      && emitter.history == [] && emitter.syncedAt == [] && emitter.rowsAt == []
      && Sane() && state.budget.admitted == 0 && state.Counted() == ZERO
      && state.turn == 0 && state.phase == Idle && state.items == [] && state.steering == [] && state.inFlight.None?
      && state.toolCalls == map[] && state.gate == Open && state.checkpoint.None? && Ready()
    }

    /** Between the header and the first round: at most one turn is open. */
    ghost predicate Seeding()
      reads this, state, state.budget, emitter, tree`work, log, env
    {
      && Steady() && Framed() && Paired() && Surviving() && Ready() && Whole()
      && state.inFlight.None? && AllAnswered(state.toolCalls) && !hardExit && !silentHop && spentAt.None?
      && state.turn <= 1 && state.phase == (if state.turn == 0 then Idle else Running)
      && Live(LedgerOf(emitter.history), if state.turn == 0 then {} else {1}, {})
      && (state.turn == 0 ==> LedgerOf(emitter.history).turnEnds == {})
    }

    /** How a run ends: concluded, or given up before its first turn with a balanced stream. */
    ghost predicate Over(o: Outcome)
      reads this, state, state.budget, emitter, tree`work, log
    {
      || Concluded(o)
      || (state.turn == 0 && requests == [] && o.Failed? && (o.kind == LogFailure || o.kind == InputFailure)
          && Balanced(LedgerOf(emitter.history)))
    }

    twostate lemma FirstTurn()
      requires old(Mirrored()) && old(Framed()) && old(Lined()) && old(state.turn) == 0
      requires unchanged(this) && unchanged(emitter) && unchanged(log)
      requires state.turn == 1 && state.items == AppendTo(old(state.items), TurnStartRow(1))
      requires state.checkpoint == old(state.checkpoint)
      ensures Mirrored() && Framed() && Lined()
      ensures old(Paired()) ==> Paired()
      ensures Backed(TurnOpened(1), Rows(state.items))
    {
      hide Mirrored, Framed, Rows, GoodLog, Brackets, SoundCut, PairScan, DistinctLog;
      var was := old(state.items);
      GrowOne(was, TurnStartRow(1), state.checkpoint);
      DistinctSkips(Rows(was), [TurnStartRow(1)]);
      Unspoken([TurnStartRow(1)], said);
      BracketsOpen(Rows(was));
      PairSilent(Rows(was), [TurnStartRow(1)]);
      Grew([TurnStartRow(1)]);
      assert Rows(state.items)[|Rows(was)|] == TurnStartRow(1);
    }

    /** One input applied; the first one opens turn 1. */
    method Apply(input: RunInput)
      requires Mirrored() && Framed() && Lined() && Paired() && Ready()
      requires state.turn <= 1 && state.phase == (if state.turn == 0 then Idle else Running)
      modifies state`turn, state`phase, state`items, state`steering, state`wakeRequested, state`gate, state`stopHard,
               state`stopWhenIdle
      ensures Mirrored() && Framed() && Lined() && Paired() && Ready()
      ensures old(state.turn) <= state.turn <= 1 && state.phase == (if state.turn == 0 then Idle else Running)
      ensures state.turn != old(state.turn) ==> Backed(TurnOpened(1), Rows(state.items))
    {
      hide Mirrored, Framed, Lined, Paired, Rows, AppendTo, Backed;
      label Applying:
      state.ApplyInput(input);
      if state.turn != old(state.turn) {
        FirstTurn@Applying();
      }
    }

    /** The first turn's frame after its row. */
    method Seed(input: RunInput) returns (ok: bool)
      requires Seeding()
      modifies this`synced, log, emitter, state`turn, state`phase, state`items, state`steering, state`wakeRequested,
               state`gate, state`stopHard, state`stopWhenIdle
      ensures ok ==> Seeding()
      ensures !ok ==> Steady() && Framed() && !hardExit && spentAt.None?
    {
      hide Mirrored, Framed, Lined, Paired, Surviving, Sane, Asked, Ready, Live, LedgerOf, Rows, AllAnswered, Backed,
           Post;
      var before := state.turn;
      Apply(input);
      ok := Sync();
      if ok && state.turn != before {
        assert synced == |state.items| ==> Rows(state.items)[..synced] == Rows(state.items);
        OpenLedger(LedgerOf(emitter.history));
        Show(TurnOpened(1));
      }
    }

    /** The header row opens the log. */
    method WriteHeader() returns (ok: bool)
      requires Mirrored() && state.items == [] && state.turn == 0 && state.checkpoint.None?
      requires |emitter.history| == 1 && emitter.history[0].RunStart? && emitter.syncedAt == emitter.rowsAt == [0]
      requires distinct && !hardExit && requests == [] && said == []
      modifies this`synced, log, state`items
      ensures Mirrored() && Framed() && Lined() && Paired()
      ensures ok && old(Whole()) ==> Whole()
    {
      hide Lawful, LogWriter.Valid, Rows;
      state.items := AppendTo(state.items, Header(LOG_VERSION));
      HeaderRows();
      ok := Sync();
    }

    lemma HeaderRows()
      requires state.items == AppendTo([], Header(LOG_VERSION))
      ensures GoodLog(state.items) && Rows(state.items) == [Header(LOG_VERSION)]
      ensures Brackets(Rows(state.items)) == Some(Between(0)) && PairScan(Rows(state.items)) == Some([])
      ensures DistinctLog(Rows(state.items)) && Spoken(Rows(state.items)) == []
    {
      assert Rows(state.items) == [Header(LOG_VERSION)];
      assert [Header(LOG_VERSION)][..0] == [];
    }

    /** Start frame, then the log file. */
    method OpenLog() returns (ok: bool)
      requires Mirrored() && !writing && log.intact && base == log.records && synced == 0 && !drifted
      requires emitter.history == [] && emitter.syncedAt == [] && emitter.rowsAt == []
      modifies this`writing, log, emitter, state`emitNext
      ensures ok ==> writing == logged && log.intact
      ensures ok ==> Mirrored() && emitter.history == [Event.RunStart] && emitter.syncedAt == emitter.rowsAt == [0]
      ensures !ok ==> emitter.history == [Event.RunStart, Event.RunEnd]
    {
      hide Lawful, LogWriter.Valid, LedgerOf;
      var runId := state.NextEmitId();
      emitter.Emit(Event.RunStart, 0, 0);
      if logged {
        ok := log.Open();
        if !ok {
          emitter.Emit(Event.RunEnd, 0, 0);
          return;
        }
        writing := true;
      }
      ok := true;
    }

    lemma BareStream()
      ensures LedgerOf([Event.RunStart]) == Ledger(1, 0, {}, {}, {}, {}, {}, {})
      ensures Balanced(LedgerOf([Event.RunStart, Event.RunEnd]))
    {
      assert [Event.RunStart][..0] == [];
      assert [Event.RunStart, Event.RunEnd][..1] == [Event.RunStart];
    }

    /** Start frame, log file, header. */
    method Begin() returns (stop: Option<Outcome>)
      requires Fresh()
      modifies this`writing, this`synced, log, emitter, state`items, state`emitNext, state`turnReason
      ensures stop.None? ==> Seeding()
      ensures stop.Some? ==> Over(stop.value)
    {
      hide Lawful, LogWriter.Valid, Sane, Ready, Concluded, LedgerOf, Balanced, Mirrored, Framed, Lined, Paired;
      FreshFacts();
      BareStream();
      var ok := OpenLog();
      if !ok {
        return Some(Failed(LogFailure, "log open"));
      }
      ok := WriteHeader();
      if !ok {
        var o := Finish(LOG_APPEND_FAILED);
        return Some(o);
      }
      return None;
    }

    lemma FreshFacts()
      requires Fresh()
      ensures Mirrored() && Surviving() && Asked()
    {
    }

    /** Run open: log, header, snapshot, inputs. `Some` is terminal and already closed. */
    method OpenRun(inputs: seq<RunInput>) returns (stop: Option<Outcome>)
      requires Fresh()
      modifies this`writing, this`synced, log, emitter, tree`head, tree`started, state`items, state`emitNext,
               state`turnReason, state`turn, state`phase, state`steering, state`wakeRequested, state`gate,
               state`stopHard, state`stopWhenIdle
      ensures stop.None? ==> AtHead()
      ensures stop.Some? ==> Over(stop.value)
    {
      hide Seeding, Concluded, AtHead, Balanced, LedgerOf, Mirrored, Lined, Sane, Asked, Framed;
      stop := Begin();
      if stop.Some? {
        return;
      }
      var fault: bool, born: bool :| true;
      var ok := tree.Ensure(fault, born);
      SeedingSteady();
      if !ok {
        var o := Finish(Failed(SnapshotFailure, "snapshot ensure"));
        return Some(o);
      }
      for k := 0 to |inputs|
        invariant Seeding()
      {
        ok := Seed(inputs[k]);
        if !ok {
          var o := Finish(LOG_APPEND_FAILED);
          return Some(o);
        }
      }
      if state.turn == 0 {
        NoTurnBalances();
        emitter.Emit(Event.RunEnd, synced, |state.items|);
        return Some(Failed(InputFailure, "run needs at least one input"));
      }
      SeedingIsHead();
      return None;
    }

    lemma SeedingSteady()
      requires Seeding()
      ensures Steady() && Framed() && !hardExit && spentAt.None? && Whole()
    {
    }

    lemma SeedingIsHead()
      requires Seeding() && state.turn != 0
      ensures AtHead()
    {
      hide Mirrored, Framed, Lined, Paired, Surviving, Sane, Asked, LedgerOf, Rows, AllAnswered;
    }

    lemma NoTurnBalances()
      requires Seeding() && state.turn == 0
      ensures Balanced(Post(LedgerOf(emitter.history), Event.RunEnd))
    {
      hide Mirrored, Framed, Lined, Paired, Surviving, Sane, LedgerOf, Rows, AllAnswered;
    }

    /** A whole run, from any inputs to its outcome, within a bounded number of provider rounds. */
    method RunToEnd(inputs: seq<RunInput>) returns (o: Outcome, ghost rounds: seq<Round>)
      requires Fresh()
      modifies this, log, emitter, env, tree, state, state.budget
      ensures Over(o)
      ensures |rounds| <= state.budget.config.maxSteps + state.budget.config.maxRefunds + 1
      ensures Accounts(rounds, cfg, old(Entries()), logged, Entries()) && (Unbroken(o) ==> AllJudged(rounds))
      ensures silentHop ==> env.cancelled && old(state.followups) != []
    {
      hide *;
      rounds := [];
      NothingYet();
      NoRounds(cfg, Entries(), logged);
      var stop := OpenRun(inputs);
      if stop.Some? {
        return stop.value, [];
      }
      o, rounds := Drive();
      ConcludedIsOver(o);
    }

    lemma NothingYet()
      requires Fresh()
      ensures Entries() == Books(state.charges, [], [], [], [], [], false, false, None)
      ensures spentAt.None? && !silentHop && AllJudged([])
    {
    }

    lemma ConcludedIsOver(o: Outcome)
      requires Concluded(o)
      ensures Over(o)
    {
      hide Concluded;
    }

    /** With a hook that gives no partial verdicts and without probing, the work tree at every loop head is the start
        tree with only the surviving calls applied. */
    lemma TreeIsSurvivors()
      requires AtHead() && !cfg.partials && !cfg.probing
      ensures tree.work == TreeOf(start, kept)
    {
      hide Steady, Framed, Paired, Upright, Ready, Live, LedgerOf;
      CallsMakeTheTree(tree.apply, start, line);
    }

    /** A complete run leaves the counters and the tree of its surviving batches. */
    lemma TreeAtEnd(o: Outcome)
      requires Concluded(o) && Unbroken(o) && state.turn >= 1
      ensures state.Counted() == CountersOf(kept) && tree.work == AfterAll(tree.apply, start, line)
      ensures !cfg.partials && !cfg.probing ==> tree.work == TreeOf(start, kept)
    {
      hide Mirrored, Asked, Sane, GoodLog, Brackets, Rows, AllBacked, LedgerOf, Balanced, LoopState.Counted;
      if !cfg.partials && !cfg.probing {
        CallsMakeTheTree(tree.apply, start, line);
      }
    }

    /** Every request carried what the log then held; when every batch in a run's log has distinct call ids, all of them
        were well paired. */
    lemma RequestsPair(o: Outcome)
      requires Concluded(o)
      ensures AllGood(requests, Rows(state.items))
      ensures DistinctLog(Rows(state.items)) ==>
                distinct && forall i :: 0 <= i < |requests| ==> WellPaired(requests[i].messages)
      ensures Spoken(Rows(state.items)) == said
    {
      hide Asked, Sane, GoodLog, Brackets, AllBacked, LedgerOf, Balanced, Surviving, Lawful, LogWriter.Valid, Extends,
           DistinctLog, AllGood, WellPaired, Rows, Spoken;
      if DistinctLog(Rows(state.items)) {
        AllPaired(requests, Rows(state.items));
      }
    }

    // ---- what a finished run can be read as ----

    /** What a file whose appends all succeeded reads back as: the records before the run, then the run's own rows,
        exactly unless text was put on a written row, which distinct call ids rule out. A reader accepts the log. */
    lemma FileReadsBack(o: Outcome)
      requires Concluded(o) && logged && log.intact
      ensures ReadSpec(log.codec, log.file).Some? && Extends(ReadSpec(log.codec, log.file).value, base + state.items)
      ensures ReadSpec(log.codec, log.file) == Some(base + state.items) <==> !drifted
      ensures DistinctLog(Rows(state.items)) ==> !drifted
      ensures ValidLog(state.items) && (ValidLog(base + state.items) <==> base == [])
    {
      NumberedAgain(base, state.items);
      hide AllGood, AllBacked, LedgerOf, Balanced, Brackets, Rows, Sane, Surviving, DistinctLog, Lawful,
           LogWriter.Valid, Extends, ReadSpec;
      assert state.items[..synced] == state.items;
      RecordsReadBack();
    }

    /** What the report says was billed is what was settled over the whole run, count by count. */
    lemma ReportedAsBilled()
      requires Sane()
      ensures state.totals.input == Min(Sum(INPUT, state.charges), U64_MAX)
      ensures state.totals.output == Min(Sum(OUTPUT, state.charges), U64_MAX)
      ensures state.totals.cacheRead == Min(Sum(CACHE_READ, state.charges), U64_MAX)
      ensures OrZero(state.totals.reasoning) == Min(Sum(REASONING, state.charges), U64_MAX)
      ensures OrFree(state.totals.costUsd) == SumCost(state.charges)
    {
      TotalsExact(state.budgetShape, state.charges);
    }

    /** What the token cap was charged is what the report says was billed: all of it under `Gross`, all but
        the cached share of each prompt under `MissPlusOut`. */
    lemma ChargedAsReported()
      requires Sane() && Sum(INPUT, state.charges) + Sum(OUTPUT, state.charges) <= U64_MAX
      ensures state.budget.tokens + (if state.budgetShape == MissPlusOut then Sum(CACHED, state.charges) else 0)
              == state.totals.input + state.totals.output
    {
      TokensExact(state.budgetShape, state.charges);
    }

    /** The spend cap's cents stay within half a cent of the real cost for each priced settlement. */
    lemma SpentAsPriced()
      requires Sane() && state.budget.spentCents < U64_MAX
      requires forall i :: 0 <= i < |state.charges| ==> OrFree(state.charges[i].costUsd) >= 0.0
      ensures
        var gap := state.budget.spentCents as real - 100.0 * SumCost(state.charges);
        -0.5 * Priced(state.charges) as real <= gap <= 0.5 * Priced(state.charges) as real
    {
      SpendClose(state.budgetShape, state.charges);
    }
  }

  /** Everything a run starts from. */
  method Prepare(config: Config, shape: Metering.Shape, followups: seq<string>, started: nat, cfg: RunConfig,
                 codec: Codec<Item>, file: seq<byte>, ghost records: seq<Item>, ghost torn: seq<byte>, logged: bool,
                 apply: Snapshot.Apply, work: Tree, head: Tree)
    returns (run: RunCtx)
    requires InRange(config) && Lawful(codec) && Holds(codec, file, records, torn)
    ensures run.Fresh()
    ensures fresh(run) && fresh(run.state) && fresh(run.state.budget) && fresh(run.emitter) && fresh(run.tree)
            && fresh(run.log) && fresh(run.env)
    ensures run.logged == logged && run.cfg == cfg && run.log.codec == codec && run.base == records && run.start == work
    ensures run.state.budget.config == config && run.state.followups == followups && run.state.charges == []
    ensures run.Entries() == Books([], [], [], [], [], [], false, false, None) && run.tree.apply == apply
  {
    var budget := new BudgetGuard(config, started);
    var state := new LoopState(budget, shape, followups);
    var emitter := new Emitter();
    var tree := new TreeService(apply, work, head);
    var log := new LogWriter<Item>(codec, file, records, torn);
    var env := new Env();
    run := new RunCtx(state, emitter, tree, log, env, cfg, logged);
  }

  /** A whole headless run from nothing: a fresh state, guard, stream and tree over a log file that an earlier
      run or crash may have left torn. */
  method Headless(config: Config, shape: Metering.Shape, followups: seq<string>, started: nat, cfg: RunConfig,
                  codec: Codec<Item>, file: seq<byte>, ghost records: seq<Item>, ghost torn: seq<byte>, logged: bool,
                  apply: Snapshot.Apply, work: Tree, head: Tree, inputs: seq<RunInput>)
    returns (run: RunCtx, o: Outcome, ghost rounds: seq<Round>)
    requires InRange(config) && Lawful(codec) && Holds(codec, file, records, torn)
    ensures run.Over(o)
    ensures |rounds| <= config.maxSteps + config.maxRefunds + 1
    ensures run.logged == logged && run.log.codec == codec
    ensures run.silentHop ==> run.env.cancelled && followups != []
    ensures run.state.charges == All(BilledIn, rounds) && run.requests == All(SentIn, rounds)
    ensures run.env.acted == All(ActedIn, rounds)
    ensures AllAsked(rounds, cfg) && SpentLast(rounds, run.spentAt) && (Unbroken(o) ==> AllJudged(rounds))
    ensures run.hardExit ==> rounds != [] && HardReply(rounds[|rounds| - 1].reply)
    ensures run.Concluded(o) ==> Spoken(Rows(run.state.items)) == All(SaidIn, rounds)
    ensures run.Concluded(o) ==> AllGood(run.requests, Rows(run.state.items))
    ensures run.Concluded(o) && DistinctLog(Rows(run.state.items)) ==>
              forall i :: 0 <= i < |run.requests| ==> WellPaired(run.requests[i].messages)
    ensures run.Concluded(o) && logged && run.log.intact ==>
              && ValidLog(run.state.items) && (ValidLog(records + run.state.items) <==> records == [])
              && (ReadSpec(codec, run.log.file) == Some(records + run.state.items) <==> !SomeStrays(rounds))
              && (DistinctLog(Rows(run.state.items)) ==> !SomeStrays(rounds))
    ensures run.Concluded(o) && Unbroken(o) && run.state.turn >= 1 ==>
              && run.state.Counted() == CountersOf(All(KeptIn, rounds))
              && run.tree.work == AfterAll(apply, work, All(LeftIn, rounds))
              && (!cfg.partials && !cfg.probing ==> run.tree.work == TreeOf(work, All(KeptIn, rounds)))
  {
    hide RunCtx.Fresh, RunCtx.Over, RunCtx.Concluded, All, SomeStrays, SpentLast, DistinctLog, Rows, ReadSpec,
         WellPaired, Extends, TreeOf, LogWriter.Valid, Lawful, Holds, AllAsked, AllJudged, Spoken, Unbroken, HardReply,
         Accounts, AllGood, BilledIn, SentIn, ActedIn, SaidIn, KeptIn, LeftIn, AfterAll, CountersOf, LoopState.Counted;
    run := Prepare(config, shape, followups, started, cfg, codec, file, records, torn, logged, apply, work, head);
    o, rounds := run.RunToEnd(inputs);
    AllAccounted(rounds, cfg, logged, run.Entries());
    if run.Concluded(o) {
      run.RequestsPair(o);
      if Unbroken(o) && run.state.turn >= 1 { run.TreeAtEnd(o); }
      if logged && run.log.intact {
        run.FileReadsBack(o);
      }
    }
  }
}
