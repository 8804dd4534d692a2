/** Shared turn and step state of a run (crates/agent-loop/src/state.rs, verify.rs,
    budget_nudge.rs, and the per-call effects of proof.rs). */
module State {
  import opened Base
  import opened Items
  import opened Transcript
  import opened Request
  import opened Budget
  import opened Metering
  import opened Tally

  const STEP_RETRY_BUDGET: nat := 2
  const DIRECTIVE_CAP: nat := 3
  const VERIFY_NUDGE_CAP: nat := 2
  const VERIFY_NUDGE :=
    "Unverified declare held: no passing verification run since your last write. "
    + "Either run the task's verification now, or state exactly what blocks it (missing tool/package/file) "
    + "and what you verified instead. Declaring without one of those two is not completing."
  const ROLLBACK_NOTICE :=
    "a tool in your last batch failed and the whole batch was reverted \U{2014} "
    + "your successful changes in it are gone; re-apply them"

  datatype Phase = Idle | Running | Maintenance
  datatype FailureKind = LogFailure | SnapshotFailure | ProviderFailure | InputFailure
  datatype Outcome = Finished | Halted(why: string) | Cancelled | Failed(kind: FailureKind, message: string)
  datatype Verdict = Return(outcome: Outcome) | Break | Continue
  datatype Gate = Open | Aborting | Closed(err: string)
  datatype RunInput = UserInput(text: string) | CrashInput(text: string) | StopHard | StopWhenIdle
  datatype Queued = Queued(text: string, source: InputSource)
  datatype ToolOutcome = ToolOutcome(content: string, isError: bool)
  datatype CallState = CallState(name: string, args: string, isVerification: bool, result: Option<ToolOutcome>)
  datatype Claim =
    | Dispatch(calls: seq<ToolCallRef>)
    | TruncatedClaim(n: nat)
    | DoneClaim
    | VerifyHold
    | RefusedClaim
    | HardExit(stopName: string)
  datatype ProviderMsg =
    | Settled(turn: nat, usage: Usage)
    | ProviderFailed(turn: nat, err: string, cancelled: bool, billed: Option<Usage>)
  datatype Level = Base | Contract | Full

  /** Knobs of one run. `partials` says whether the verdict hook may answer Partial; `hash` is the observation hasher
      and `isVerification` the command-text test of the source, both left abstract. */
  datatype RunConfig = RunConfig(
    incentives: Level,
    drainTimeout: nat,
    fold: FoldConfig,
    shape: Metering.Shape,
    probing: bool,
    partials: bool,
    compaction: bool,
    keepTokens: nat,
    hash: string -> nat,
    isVerification: ToolCallRef -> bool
  )

  predicate AllAnswered(calls: map<string, CallState>) {
    forall id <- calls :: calls[id].result.Some?
  }

  function HaltName(h: Halt): string {
    match h
    case Steps => "steps"
    case Tokens => "tokens"
    case Wallclock => "wallclock"
    case Spend => "spend"
    case SameAction => "same-action"
    case TrialActions => "trial-actions"
  }

  function ToolCallRows(calls: seq<ToolCallRef>): seq<ItemKind> {
    seq(|calls|, i requires 0 <= i < |calls| => ToolCall(calls[i]))
  }

  /** The log reason of an outcome; the first terminal reason of a turn wins. */
  function LogReason(outcome: Outcome, sticky: Option<TurnReason>): TurnReason {
    if sticky.Some? then sticky.value
    else
      match outcome
      case Finished => Completed
      case Halted(s) => if s == "max-tokens" then MaxTokens else TurnReason.Budget
      case Cancelled => Interrupted
      case Failed(_, m) => Error(m)
  }

  // ---- the one row that may still change ----

  /** Index of the newest tool result, or -1. */
  function NewestResult(items: seq<Item>): (at: int)
    ensures -1 <= at < |items|
    ensures at >= 0 ==> items[at].kind.ToolResult?
    ensures forall i :: at < i < |items| ==> !items[i].kind.ToolResult?
  {
    if items == [] then -1
    else if items[|items| - 1].kind.ToolResult? then |items| - 1
    else NewestResult(items[..|items| - 1])
  }

  /** `after` is `before` with text appended to its newest tool result, at most. */
  ghost predicate TailGrew(before: seq<Item>, after: seq<Item>) {
    && |after| == |before|
    && (forall i :: 0 <= i < |before| && i != NewestResult(before) ==> after[i] == before[i])
    && (var at := NewestResult(before);
        at >= 0 ==>
          && after[at].kind.ToolResult?
          && before[at].kind.content <= after[at].kind.content
          && after[at] == before[at].(kind := before[at].kind.(content := after[at].kind.content)))
  }

  /** The log with text put at the end of its newest tool result. */
  function TailPlus(items: seq<Item>, text: string): (after: seq<Item>)
    ensures |after| == |items|
  {
    var at := NewestResult(items);
    if at < 0 then items else items[at := items[at].(kind := items[at].kind.(content := items[at].kind.content + text))]
  }

  /** Text put on the tail leaves the first `synced` rows alone exactly when the newest result is not among them. */
  lemma TailMirrorExact(items: seq<Item>, text: string, synced: nat)
    requires synced <= |items| && text != ""
    ensures TailPlus(items, text)[..synced] == items[..synced] <==> !(0 <= NewestResult(items) < synced)
  {
    var at := NewestResult(items);
    if 0 <= at < synced {
      assert |TailPlus(items, text)[..synced][at].kind.content| == |items[..synced][at].kind.content| + |text|;
    }
  }

  /** Each text on a line of its own. */
  function OnLines(texts: seq<string>): string {
    if texts == [] then "" else OnLines(texts[..|texts| - 1]) + "\n" + texts[|texts| - 1]
  }

  lemma NewestKept(a: seq<Item>, b: seq<Item>)
    requires |a| == |b| && forall i :: 0 <= i < |a| ==> a[i].kind.ToolResult? == b[i].kind.ToolResult?
    ensures NewestResult(a) == NewestResult(b)
  {
  }

  lemma TailKeepsNewest(items: seq<Item>, text: string)
    ensures NewestResult(TailPlus(items, text)) == NewestResult(items)
  {
    NewestKept(items, TailPlus(items, text));
  }

  lemma TailPlusTwice(items: seq<Item>, s: string, t: string)
    ensures TailPlus(TailPlus(items, s), t) == TailPlus(items, s + t)
    ensures TailPlus(items, "") == items
  {
    var at := NewestResult(items);
    NewestKept(items, TailPlus(items, s));
    if at >= 0 {
      var content := items[at].kind.content;
      assert content + s + t == content + (s + t) && content + "" == content;
    }
  }

  lemma TailPlusGrows(items: seq<Item>, text: string)
    ensures TailGrew(items, TailPlus(items, text))
  {
  }

  lemma SomeResult(items: seq<Item>, i: nat)
    requires i < |items| && items[i].kind.ToolResult?
    ensures NewestResult(items) >= i
  {
  }

  // ---- rows that may have grown since they were written ----

  /** `b` is row `a`, or `a` with text added to its result. */
  predicate Grown(a: Item, b: Item) {
    || b == a
    || (&& a.kind.ToolResult? && b.kind.ToolResult? && a.kind.content <= b.kind.content
        && b == a.(kind := a.kind.(content := b.kind.content)))
  }

  ghost predicate Extends(a: seq<Item>, b: seq<Item>) {
    |a| == |b| && forall i :: 0 <= i < |a| ==> Grown(a[i], b[i])
  }

  /** Growth adds up and never returns to where it was. */
  lemma ExtendsTwice(a: seq<Item>, b: seq<Item>, c: seq<Item>)
    requires Extends(a, b) && Extends(b, c)
    ensures Extends(a, c)
    ensures a == c ==> a == b
  {
    forall i | 0 <= i < |a| ensures Grown(a[i], c[i]) && (a[i] == c[i] ==> a[i] == b[i]) {
      assert Grown(a[i], b[i]) && Grown(b[i], c[i]);
    }
  }

  lemma ExtendsSnoc(a: seq<Item>, b: seq<Item>, item: Item)
    requires Extends(a, b)
    ensures Extends(a + [item], b + [item])
    ensures a + [item] == b + [item] <==> a == b
  {
    if a + [item] == b + [item] {
      assert a == (a + [item])[..|a|] && b == (b + [item])[..|b|];
    }
  }

  lemma ExtendsBehind(front: seq<Item>, a: seq<Item>, b: seq<Item>)
    requires Extends(a, b)
    ensures Extends(front + a, front + b)
    ensures front + a == front + b <==> a == b
  {
    if front + a == front + b {
      assert a == (front + a)[|front|..] && b == (front + b)[|front|..];
    }
  }

  lemma TailGrewExtends(a: seq<Item>, b: seq<Item>, n: nat)
    requires TailGrew(a, b) && n <= |a|
    ensures Extends(a[..n], b[..n])
  {
    forall i | 0 <= i < n ensures Grown(a[i], b[i]) {
      if i != NewestResult(a) { assert b[i] == a[i]; }
    }
  }

  lemma TailGrewRows(a: seq<Item>, b: seq<Item>)
    requires TailGrew(a, b)
    ensures Rows(b) == Rows(a)
    ensures Gapless(a) ==> Gapless(b)
  {
  }

  lemma TailGrewLog(a: seq<Item>, b: seq<Item>, synced: nat)
    requires TailGrew(a, b) && synced <= |a|
    ensures a != [] && ValidLog(a) ==> b != [] && ValidLog(b)
    ensures Rows(b) == Rows(a)
    ensures NewestResult(a) >= synced ==> b[..synced] == a[..synced]
  {
    TailGrewRows(a, b);
    if a != [] && ValidLog(a) {
      assert NewestResult(a) != 0;
      assert b[0] == a[0];
    }
  }

  class LoopState {
    var turn: nat
    var step: nat
    var phase: Phase
    var items: seq<Item>
    var steering: seq<Queued>
    var followups: seq<string>
    var wakeRequested: bool
    var callModel: bool
    var inFlight: Option<nat>
    var toolCalls: map<string, CallState>
    var gate: Gate
    var stopHard: bool
    var stopWhenIdle: bool
    var turnReason: Option<TurnReason>
    const budget: BudgetGuard
    const budgetShape: Metering.Shape
    var totals: Report
    var emitNext: nat
    var openMsg: Option<nat>
    var stepRetries: nat
    var fatalError: Option<string>
    var lastSig: string
    var lastObs: nat
    var pendingDirectives: seq<string>
    var edits: nat
    var nudgesUsed: nat
    var editsAtLastNudge: nat
    var verifiedSinceWrite: bool
    var hold: Option<string>
    var halfDirectiveSent: bool
    var lateDirectiveSent: bool
    var drainUntil: Option<nat>
    var checkpoint: Option<Checkpoint>
    var compactedTurn: Option<nat>
    ghost var charges: seq<Usage>  // every usage reading metered so far

    constructor (budget: BudgetGuard, shape: Metering.Shape, followups: seq<string>)
      ensures this.budget == budget && this.budgetShape == shape && this.followups == followups
      ensures turn == 0 && phase == Idle && items == [] && steering == [] && !wakeRequested && !callModel
      ensures inFlight == None && toolCalls == map[] && gate == Open && !stopHard && !stopWhenIdle
      ensures turnReason == None && totals == ZERO_REPORT && openMsg == None && fatalError == None
      ensures lastSig == "" && lastObs == 0 && edits == 0 && !verifiedSinceWrite && checkpoint == None
      ensures stepRetries == STEP_RETRY_BUDGET && nudgesUsed == 0 && charges == []
    {
      this.budget, this.budgetShape, this.followups := budget, shape, followups;
      turn, step, phase, items, steering, wakeRequested, callModel := 0, 0, Idle, [], [], false, false;
      inFlight, toolCalls, gate, stopHard, stopWhenIdle, turnReason := None, map[], Open, false, false, None;
      totals, emitNext, openMsg, stepRetries, fatalError := ZERO_REPORT, 0, None, STEP_RETRY_BUDGET, None;
      lastSig, lastObs, pendingDirectives, edits := "", 0, [], 0;
      nudgesUsed, editsAtLastNudge, verifiedSinceWrite, hold := 0, 0, false, None;
      halfDirectiveSent, lateDirectiveSent, drainUntil, checkpoint, compactedTurn := false, false, None, None, None;
      charges := [];
    }

    ghost predicate Metered()
      reads this`totals, this`charges, budget`tokens, budget`spentCents
    {
      Meter(budget.tokens, budget.spentCents, totals) == MeterOf(budgetShape, charges)
    }

    ghost function Counted(): Counters
      reads this`edits, this`lastSig, this`lastObs, this`verifiedSinceWrite, budget`actionsThisTrial,
            budget`sameActionStreak
    {
      Counters(edits, budget.actionsThisTrial, budget.sameActionStreak, lastSig, lastObs, verifiedSinceWrite)
    }

    /** Nothing in flight and every dispatched call answered. */
    ghost predicate Drained()
      reads this`inFlight, this`toolCalls
    {
      inFlight.None? && AllAnswered(toolCalls)
    }

    predicate IsIdle()
      reads this`inFlight, this`toolCalls, this`steering, this`followups
    {
      inFlight.None? && AllAnswered(toolCalls) && steering == [] && followups == []
    }

    method NextEmitId() returns (id: nat)
      modifies this`emitNext
      ensures id == old(emitNext) && emitNext == id + 1
    {
      id := emitNext;
      emitNext := emitNext + 1;
    }

    method BeginAbort()
      modifies this`gate
      ensures gate == if old(gate) == Open then Aborting else old(gate)
    {
      if gate == Open {
        gate := Aborting;
      }
    }

    method OpenTurn()
      modifies this`turn, this`phase, this`items
      ensures turn == old(turn) + 1 && phase == Running
      ensures items == AppendTo(old(items), TurnStart(turn, if turn > 1 then Some(turn - 1) else None))
    {
      turn := turn + 1;
      phase := Running;
      items := AppendTo(items, TurnStart(turn, if turn > 1 then Some(turn - 1) else None));
    }

    method ApplyInput(input: RunInput)
      modifies this`turn, this`phase, this`items, this`steering, this`wakeRequested, this`gate, this`stopHard,
               this`stopWhenIdle
      ensures old(phase) == Running || (old(phase) == Idle && (input.StopHard? || input.StopWhenIdle?)) ==>
                turn == old(turn) && phase == old(phase) && items == old(items)
      ensures old(phase) == Maintenance ==> turn == old(turn) && phase == old(phase) && items == old(items)
      ensures old(phase) == Idle && (input.UserInput? || input.CrashInput?) ==>
                && turn == old(turn) + 1 && phase == Running
                && items == AppendTo(old(items), TurnStart(turn, if turn > 1 then Some(turn - 1) else None))
      ensures steering == old(steering) + QueuedBy(input)
      ensures wakeRequested == (old(wakeRequested) || (old(phase) == Maintenance && QueuedBy(input) != []))
      ensures stopWhenIdle == (old(stopWhenIdle) || input.StopWhenIdle?)
      ensures stopHard == (old(stopHard) || input.StopHard?)
      ensures gate == if input.StopHard? && old(gate) == Open then Aborting else old(gate)
    {
      var queued;
      match input {
        case UserInput(text) => queued := Queued(text, External);
        case CrashInput(text) => queued := Queued(text, Crash);
        case StopHard =>
          stopHard := true;
          BeginAbort();
          return;
        case StopWhenIdle =>
          stopWhenIdle := true;
          return;
      }
      match phase
      case Idle =>
        OpenTurn();
        steering := steering + [queued];
      case Running => steering := steering + [queued];
      case Maintenance =>
        steering := steering + [queued];
        wakeRequested := true;
    }

    /** Queued inputs become rows, here and nowhere else; a wake latched in maintenance then opens a turn. */
    method AdmitSteering()
      modifies this`items, this`steering, this`turn, this`phase, this`wakeRequested
      ensures steering == []
      ensures
        var filed := AppendAll(old(items), InputRows(old(steering)));
        if old(wakeRequested) && old(phase) == Idle then
          && !wakeRequested && turn == old(turn) + 1 && phase == Running
          && items == AppendTo(filed, TurnStart(turn, if turn > 1 then Some(turn - 1) else None))
        else
          wakeRequested == old(wakeRequested) && turn == old(turn) && phase == old(phase) && items == filed
    {
      ghost var queued, start := steering, items;
      var n: nat := 0;
      while steering != []
        invariant n <= |queued| && steering == queued[n..]
        invariant turn == old(turn) && phase == old(phase) && wakeRequested == old(wakeRequested)
        invariant items == AppendAll(start, InputRows(queued)[..n])
        decreases |steering|
      {
        var q := steering[0];
        steering := steering[1..];
        assert InputRows(queued)[..n + 1][..n] == InputRows(queued)[..n];
        items := AppendTo(items, Input(q.text, q.source));
        n := n + 1;
      }
      assert InputRows(queued)[..|queued|] == InputRows(queued);
      if wakeRequested && phase == Idle {
        wakeRequested := false;
        OpenTurn();
      }
    }

    /** Single-flight admission: the gate, then the budget's AND-gate with its one grace step. */
    method StartProviderCall(now: nat) returns (admitted: bool)
      requires budget.Bounded()
      modifies this`inFlight, this`step, this`stepRetries, this`callModel, this`toolCalls,
               budget`graceUsed, budget`pastCap, budget`steps, budget`admitted, budget`lost
      ensures budget.Bounded()
      ensures budget.admitted == old(budget.admitted) + (if admitted then 1 else 0)
      ensures admitted <==>
                old(inFlight).None? && gate == Open && (old(budget.Peek(now)).None? || !old(budget.graceUsed))
      ensures step == old(step) + (if admitted then 1 else 0)
      ensures admitted ==> inFlight == Some(turn) && !callModel
      ensures admitted ==>
                toolCalls == map id | id in old(toolCalls) && old(toolCalls)[id].result.None? :: old(toolCalls)[id]
      ensures admitted ==> stepRetries == if old(callModel) then old(stepRetries) else STEP_RETRY_BUDGET
      ensures !admitted ==> inFlight == old(inFlight) && callModel == old(callModel) && toolCalls == old(toolCalls)
                            && stepRetries == old(stepRetries)
      ensures !admitted ==> inFlight.Some? || gate != Open || budget.Peek(now).Some?
    {
      if inFlight.Some? || gate != Open {
        return false;
      }
      var halt := budget.MayStep(now);
      if halt.Some? {
        return false;
      }
      inFlight := Some(turn);
      step := step + 1;
      budget.RecordStep();
      if !callModel {
        stepRetries := STEP_RETRY_BUDGET;
      }
      callModel := false;
      toolCalls := map id | id in toolCalls && toolCalls[id].result.None? :: toolCalls[id];
      return true;
    }

    method RecordUsage(usage: Usage)
      modifies this`totals, this`charges, budget`tokens, budget`spentCents
      ensures charges == old(charges) + [usage]
      ensures old(Metered()) ==> Metered()
    {
      budget.RecordTokens(TokenCharge(budgetShape, usage));
      if usage.costUsd.Some? {
        budget.RecordSpendCents(CentCharge(usage.costUsd.value));
      }
      totals := AddToReport(totals, usage);
      MeterSnoc(budgetShape, charges, usage);
      charges := charges + [usage];
    }

    /** Lands one provider answer: meters it, and spends or exhausts the in-step retries on a failure. */
    method FinishProviderMsg(msg: ProviderMsg) returns (current: bool)
      requires budget.Bounded()
      modifies this`inFlight, this`items, this`callModel, this`stepRetries, this`fatalError, this`gate,
               this`totals, this`charges, budget`tokens, budget`spentCents, budget`steps, budget`refunds
      ensures budget.Bounded()
      ensures old(Metered()) ==> Metered()
      ensures current == (msg.turn == turn)
      ensures current ==> inFlight == None
      ensures !current ==> inFlight == old(inFlight) && items == old(items) && callModel == old(callModel)
                           && charges == old(charges) && fatalError == old(fatalError) && gate == old(gate)
      ensures current ==> charges == old(charges) + BilledBy(msg)
      ensures current && msg.ProviderFailed? && msg.cancelled ==>
                budget.steps == old(budget.steps)
                - if old(budget.refunds) < budget.config.maxRefunds && old(budget.steps) > 0 then 1 else 0
      ensures !(msg.ProviderFailed? && msg.cancelled) ==>
                budget.steps == old(budget.steps) && budget.refunds == old(budget.refunds)
      ensures msg.Settled? || (current && msg.cancelled) ==>
                items == old(items) && callModel == old(callModel) && stepRetries == old(stepRetries)
                && fatalError == old(fatalError) && gate == old(gate)
      ensures current && msg.ProviderFailed? && !msg.cancelled ==>
                && items == AppendTo(old(items), Attempt(msg.err, old(stepRetries) > 0))
                && (if old(stepRetries) > 0
                    then callModel && stepRetries == old(stepRetries) - 1
                         && fatalError == old(fatalError) && gate == old(gate)
                    else callModel == old(callModel) && stepRetries == 0
                         && fatalError == Some(msg.err) && gate == Closed(msg.err))
    {
      hide AppendTo;
      if msg.turn != turn {
        return false;
      }
      inFlight := None;
      match msg {
        case Settled(_, usage) => RecordUsage(usage);
        case ProviderFailed(_, err, cancelled, billed) =>
          if billed.Some? {
            RecordUsage(billed.value);
          }
          if cancelled {
            budget.RefundStep();
            return true;
          }
          var retry := stepRetries > 0;
          if retry {
            stepRetries := stepRetries - 1;
          }
          items := AppendTo(items, Attempt(err, retry));
          if retry {
            callModel := true;
          } else {
            fatalError := Some(err);
            gate := Closed(err);
          }
      }
      return true;
    }

    method StickTurnReason(reason: TurnReason)
      modifies this`turnReason
      ensures turnReason == if old(turnReason).None? then Some(reason) else old(turnReason)
    {
      if turnReason.None? {
        turnReason := Some(reason);
      }
    }

    /** The rows of a turn that closes because a follow-up is waiting. */
    ghost predicate Hopped(before: seq<Item>, turnBefore: nat, reasonBefore: Option<TurnReason>)
      reads this
    {
      && turn == turnBefore + 1 && phase == Running && turnReason == None && steering != []
      && items == AppendTo(
                    AppendTo(before, TurnEnd(turnBefore, if reasonBefore.Some? then reasonBefore.value else Completed)),
                    TurnStart(turn, if turn > 1 then Some(turn - 1) else None))
    }

    ghost predicate Terminal(later: nat)
      reads this, budget
    {
      || stopHard
      || fatalError.Some?
      || budget.Peek(later).Some?
      || (turnReason.Some? && (turnReason.value.Error? || turnReason.value.MaxTokens?))
    }

    /** Why a drained run ends, in order of precedence. */
    ghost function EndedBy(later: nat): Outcome
      requires Terminal(later)
      reads this, budget
    {
      if stopHard then Cancelled
      else if fatalError.Some? then Failed(ProviderFailure, fatalError.value)
      else if budget.Peek(later).Some? then Halted(HaltName(budget.Peek(later).value))
      else if turnReason.value.Error? then Failed(ProviderFailure, turnReason.value.message)
      else Halted("max-tokens")
    }

    /** Ordered termination, first match wins. `now` and `later` are the two clock samples of a drain. */
    method Terminate(cfg: RunConfig, now: nat, later: nat) returns (v: Verdict)
      requires now <= later
      modifies this`drainUntil, this`items, this`turn, this`phase, this`steering, this`followups, this`turnReason
      ensures old(Drained()) && old(Terminal(later)) ==> v == Return(old(EndedBy(later)))
      ensures old(Drained()) && !old(Terminal(later)) && v.Return? ==>
                v.outcome == Finished && stopWhenIdle && old(followups) == [] && old(steering) == [] && !callModel
      ensures old(Drained()) ==> !v.Break?
      ensures !v.Continue? ==> items == old(items) && turn == old(turn) && phase == old(phase)
                               && steering == old(steering) && followups == old(followups)
                               && turnReason == old(turnReason)
      ensures v.Return? ==> v.outcome.Finished? || v.outcome.Halted? || v.outcome.Cancelled?
                            || (v.outcome.Failed? && v.outcome.kind == ProviderFailure)
      ensures v.Continue? ==> !old(Terminal(later)) || !old(Drained())
      ensures v.Continue? && old(callModel) ==>
                items == old(items) && turn == old(turn) && phase == old(phase)
                && steering == old(steering) && followups == old(followups) && turnReason == old(turnReason)
      ensures v.Continue? && !old(callModel) && old(Drained()) && old(steering) == [] ==>
                if old(followups) != []
                then Hopped(old(items), old(turn), old(turnReason)) && followups == old(followups)[1..]
                else items == old(items) && turn == old(turn) && phase == Idle && steering == [] && followups == []
                     && turnReason == old(turnReason)
      ensures v.Continue? && !old(callModel) && (!old(Drained()) || old(steering) != []) ==>
                items == old(items) && turn == old(turn) && phase == old(phase)
                && steering == old(steering) && followups == old(followups) && turnReason == old(turnReason)
    {
      if stopHard {
        var until := if drainUntil.Some? then drainUntil.value else now + cfg.drainTimeout;
        drainUntil := Some(until);
        if (inFlight.Some? || !AllAnswered(toolCalls)) && later < until {
          return Break;
        }
        return Return(Cancelled);
      }
      if fatalError.Some? {
        return Return(Failed(ProviderFailure, fatalError.value));
      }
      var halt := budget.Peek(later);
      if halt.Some? {
        return Return(Halted(HaltName(halt.value)));
      }
      if turnReason.Some? && turnReason.value.Error? {
        return Return(Failed(ProviderFailure, turnReason.value.message));
      }
      if turnReason == Some(MaxTokens) && inFlight.None? && AllAnswered(toolCalls) {
        return Return(Halted("max-tokens"));
      }
      if callModel {
        return Continue;
      }
      if inFlight.None? && AllAnswered(toolCalls) && steering == [] {
        if followups != [] {
          var text := followups[0];
          followups := followups[1..];
          var reason := if turnReason.Some? then turnReason.value else Completed;
          turnReason := None;
          items := AppendTo(items, TurnEnd(turn, reason));
          OpenTurn();
          steering := steering + [Queued(text, External)];
          return Continue;
        }
        if stopWhenIdle {
          return Return(Finished);
        }
        phase := Idle;
      }
      return Continue;
    }

    // ---- claim ----

    /** Claim: the settled message is validated and recorded before anything executes. */
    method StepClaim(message: AssistantMessage, stop: StopReason, cfg: RunConfig, now: nat, later: nat)
      returns (claim: Claim)
      modifies this`items, this`toolCalls, this`turnReason, this`hold, this`callModel, this`nudgesUsed,
               this`editsAtLastNudge
      ensures stop == Truncated ==>
                && claim.TruncatedClaim?
                && items == AppendTo(AppendAll(old(items), TruncatedRows(message.calls)), Assistant(message, stop))
                && turnReason == (if old(turnReason).None? then Some(MaxTokens) else old(turnReason))
                && (old(AllAnswered(toolCalls)) ==> AllAnswered(toolCalls))
                && callModel == old(callModel)
      ensures stop == Refused ==>
                && claim.RefusedClaim?
                && items == AppendTo(old(items), Assistant(message, stop))
                && turnReason == (if old(turnReason).None? then Some(Error("refused")) else old(turnReason))
                && toolCalls == old(toolCalls) && callModel == old(callModel)
      ensures stop == Failure || stop == Aborted ==>
                claim.HardExit? && items == old(items) && toolCalls == old(toolCalls) && turnReason == old(turnReason)
                && callModel == old(callModel)
      ensures Ordinary(stop) && message.calls == [] ==>
                && toolCalls == old(toolCalls) && turnReason == old(turnReason)
                && (claim.DoneClaim? || claim.VerifyHold?)
                && (claim.DoneClaim? ==>
                      items == AppendTo(old(items), Assistant(message, stop)) && callModel == old(callModel))
                && (claim.VerifyHold? ==>
                      items == AppendTo(AppendTo(old(items), Assistant(message, stop)), Attempt(VERIFY_NUDGE, true))
                      && callModel)
      ensures Ordinary(stop) && message.calls != [] ==>
                && claim == Dispatch(message.calls) && turnReason == old(turnReason) && callModel == old(callModel)
                && items == AppendAll(AppendTo(old(items), Assistant(message, stop)), ToolCallRows(message.calls))
                && toolCalls.Keys == old(toolCalls).Keys + IdSet(message.calls)
                && toolCalls == Filed(old(toolCalls), message.calls, cfg)
                && (forall id :: id in IdSet(message.calls) ==> toolCalls[id].result.None?)
                && (forall id :: id in old(toolCalls) && id !in IdSet(message.calls) ==>
                      toolCalls[id] == old(toolCalls)[id])
      ensures nudgesUsed == old(nudgesUsed) + (if claim.VerifyHold? then 1 else 0)
      ensures old(nudgesUsed) <= VERIFY_NUDGE_CAP ==> nudgesUsed <= VERIFY_NUDGE_CAP
      ensures claim.VerifyHold? ==> !verifiedSinceWrite && edits > old(editsAtLastNudge) && budget.Peek(now).None?
    {
      hide AppendTo, AppendAll, TruncatedRows, ToolCallRows, AllAnswered, IdSet, Filed;
      match stop
      case Truncated =>
        ClaimTruncated(message.calls);
        StickTurnReason(MaxTokens);
        items := AppendTo(items, Assistant(message, stop));
        claim := TruncatedClaim(|message.calls|);
      case Refused =>
        items := AppendTo(items, Assistant(message, stop));
        StickTurnReason(Error("refused"));
        claim := RefusedClaim;
      case Failure => claim := HardExit("Error");
      case Aborted => claim := HardExit("Aborted");
      case _ => claim := ClaimOrdinary(message, stop, cfg, now, later);
    }

    method ClaimOrdinary(message: AssistantMessage, stop: StopReason, cfg: RunConfig, now: nat, later: nat)
      returns (claim: Claim)
      requires Ordinary(stop)
      modifies this`items, this`toolCalls, this`hold, this`callModel, this`nudgesUsed, this`editsAtLastNudge
      ensures message.calls == [] ==>
                && toolCalls == old(toolCalls)
                && (claim.DoneClaim? || claim.VerifyHold?)
                && (claim.DoneClaim? ==>
                      items == AppendTo(old(items), Assistant(message, stop)) && callModel == old(callModel))
                && (claim.VerifyHold? ==>
                      items == AppendTo(AppendTo(old(items), Assistant(message, stop)), Attempt(VERIFY_NUDGE, true))
                      && callModel)
      ensures message.calls != [] ==>
                && claim == Dispatch(message.calls) && callModel == old(callModel)
                && items == AppendAll(AppendTo(old(items), Assistant(message, stop)), ToolCallRows(message.calls))
                && toolCalls.Keys == old(toolCalls).Keys + IdSet(message.calls)
                && toolCalls == Filed(old(toolCalls), message.calls, cfg)
                && (forall id :: id in IdSet(message.calls) ==> toolCalls[id].result.None?)
                && (forall id :: id in old(toolCalls) && id !in IdSet(message.calls) ==>
                      toolCalls[id] == old(toolCalls)[id])
      ensures nudgesUsed == old(nudgesUsed) + (if claim.VerifyHold? then 1 else 0)
      ensures old(nudgesUsed) <= VERIFY_NUDGE_CAP ==> nudgesUsed <= VERIFY_NUDGE_CAP
      ensures claim.VerifyHold? ==> !verifiedSinceWrite && edits > old(editsAtLastNudge) && budget.Peek(now).None?
    {
      hide AppendTo, AppendAll, ToolCallRows, AllAnswered, IdSet, Filed;
      items := AppendTo(items, Assistant(message, stop));
      if message.calls == [] {
        var text := VerifyNudgeDue(cfg, now, later);
        if text.Some? {
          hold := text;
          items := AppendTo(items, Attempt(text.value, true));
          callModel := true;
          return VerifyHold;
        }
        return DoneClaim;
      }
      ClaimCalls(message.calls, cfg);
      claim := Dispatch(message.calls);
    }

    /** Truncation guard: the whole batch fails unexecuted, its results logged before the agent row. */
    method ClaimTruncated(calls: seq<ToolCallRef>)
      modifies this`items, this`toolCalls
      ensures items == AppendAll(old(items), TruncatedRows(calls))
      ensures old(AllAnswered(toolCalls)) ==> AllAnswered(toolCalls)
    {
      ghost var start := items;
      assert TruncatedRows(calls)[..0] == [];
      for k := 0 to |calls|
        invariant items == AppendAll(start, TruncatedRows(calls)[..2 * k])
        invariant old(AllAnswered(toolCalls)) ==> AllAnswered(toolCalls)
      {
        var c := calls[k];
        var rows := TruncatedRows(calls);
        assert rows[..2 * k + 1][..2 * k] == rows[..2 * k] && rows[..2 * k + 2][..2 * k + 1] == rows[..2 * k + 1];
        items := AppendTo(items, ToolCall(c));
        items := AppendTo(items, ToolResult(c.id, TRUNCATED_TEXT, true));
        toolCalls := toolCalls[c.id := CallState(c.name, c.args, false, Some(ToolOutcome(TRUNCATED_TEXT, true)))];
      }
      assert TruncatedRows(calls)[..2 * |calls|] == TruncatedRows(calls);
    }

    method ClaimCalls(calls: seq<ToolCallRef>, cfg: RunConfig)
      modifies this`items, this`toolCalls
      ensures items == AppendAll(old(items), ToolCallRows(calls))
      ensures toolCalls == Filed(old(toolCalls), calls, cfg)
      ensures toolCalls.Keys == old(toolCalls).Keys + IdSet(calls)
      ensures forall id :: id in IdSet(calls) ==> toolCalls[id].result.None?
      ensures forall id :: id in old(toolCalls) && id !in IdSet(calls) ==> toolCalls[id] == old(toolCalls)[id]
    {
      hide IdSet;
      ghost var start := items;
      for k := 0 to |calls|
        invariant items == AppendAll(start, ToolCallRows(calls)[..k])
        invariant toolCalls == Filed(old(toolCalls), calls[..k], cfg)
      {
        var c := calls[k];
        assert ToolCallRows(calls)[..k + 1][..k] == ToolCallRows(calls)[..k];
        assert calls[..k + 1][..k] == calls[..k];
        items := AppendTo(items, ToolCall(c));
        toolCalls := toolCalls[c.id := CallState(c.name, c.args, cfg.isVerification(c), None)];
      }
      assert ToolCallRows(calls)[..|calls|] == ToolCallRows(calls);
      assert calls[..|calls|] == calls;
      FiledSound(old(toolCalls), calls, cfg);
    }

    /** Mid-run verification nudge: fires when a declare would land while writes since the last nudge are unverified. */
    method VerifyNudgeDue(cfg: RunConfig, now: nat, later: nat) returns (text: Option<string>)
      modifies this`nudgesUsed, this`editsAtLastNudge
      ensures text.Some? ==> text.value == VERIFY_NUDGE
      ensures text.Some? <==>
                && cfg.incentives == Full
                && old(nudgesUsed) < VERIFY_NUDGE_CAP
                && edits > old(editsAtLastNudge)
                && !verifiedSinceWrite
                && budget.Peek(now).None?
                && !(budget.config.actionsPerTrial > 0
                     && budget.actionsThisTrial * 10 >= budget.config.actionsPerTrial * 9)
                && budget.steps + 2 <= budget.config.maxSteps
                && !(budget.config.maxWallclock > 0 && budget.Elapsed(later) >= budget.config.maxWallclock)
      ensures nudgesUsed == old(nudgesUsed) + (if text.Some? then 1 else 0)
      ensures editsAtLastNudge == if text.Some? then edits else old(editsAtLastNudge)
    {
      if cfg.incentives != Full { return None; }
      if nudgesUsed >= VERIFY_NUDGE_CAP { return None; }
      if edits <= editsAtLastNudge { return None; }
      if verifiedSinceWrite { return None; }
      var cap := budget.config.actionsPerTrial;
      if cap > 0 && budget.actionsThisTrial * 10 >= cap * 9 { return None; }
      if budget.Peek(now).Some? { return None; }
      if SatSub(budget.config.maxSteps, budget.steps) < 2 { return None; }
      if budget.config.maxTokens > 0 && budget.tokens >= budget.config.maxTokens { return None; }
      if budget.config.maxSpendCents.Some? && budget.spentCents >= budget.config.maxSpendCents.value { return None; }
      if budget.config.maxWallclock > 0 && budget.Elapsed(later) >= budget.config.maxWallclock { return None; }
      nudgesUsed := nudgesUsed + 1;
      editsAtLastNudge := edits;
      return Some(VERIFY_NUDGE);
    }

    /** Records the answer of a call that is known and still open; any other answer is dropped. */
    method RecordToolResult(id: string, result: ToolOutcome) returns (recorded: bool)
      modifies this`items, this`toolCalls, this`verifiedSinceWrite, this`callModel
      ensures recorded == (id in old(toolCalls) && old(toolCalls)[id].result.None?)
      ensures !recorded ==> items == old(items) && toolCalls == old(toolCalls) && callModel == old(callModel)
                            && verifiedSinceWrite == old(verifiedSinceWrite)
      ensures recorded ==>
                && items == AppendTo(old(items), ToolResult(id, result.content, result.isError))
                && toolCalls == old(toolCalls)[id := old(toolCalls)[id].(result := Some(result))]
                && callModel == (old(callModel) || AllAnswered(toolCalls))
                && verifiedSinceWrite == VerifiedAfter(old(verifiedSinceWrite), AnswerOf(old(toolCalls)[id], result))
    {
      if id !in toolCalls || toolCalls[id].result.Some? {
        return false;
      }
      items := AppendTo(items, ToolResult(id, result.content, result.isError));
      var c := toolCalls[id];
      toolCalls := toolCalls[id := c.(result := Some(result))];
      if !result.isError {
        if IsWrite(c.name) {
          verifiedSinceWrite := false;
        } else if c.isVerification {
          verifiedSinceWrite := true;
        }
      }
      if AllAnswered(toolCalls) {
        callModel := true;
      }
      return true;
    }

    // ---- counters and directives ----

    /** Same-action tripwire, action count and edit count of one executed call. */
    method NoteExecution(run: Run)
      modifies this`lastSig, this`lastObs, this`edits, budget`sameActionStreak, budget`actionsThisTrial
      ensures Counted() == AfterRun(old(Counted()), run)
    {
      var sig := Sig(run.name, run.args);
      if sig == lastSig && run.obs == lastObs {
        budget.sameActionStreak := budget.sameActionStreak + 1;
      } else {
        budget.sameActionStreak := 0;
        lastSig := sig;
        lastObs := run.obs;
      }
      budget.actionsThisTrial := budget.actionsThisTrial + 1;
      if run.ok && IsWrite(run.name) {
        edits := edits + 1;
      }
    }

    /** Refunds a rolled-back batch to its pre-batch counters. */
    method RefundBatch(snap: Counters)
      modifies this`lastSig, this`lastObs, this`edits, this`verifiedSinceWrite, budget`sameActionStreak,
               budget`actionsThisTrial
      ensures Counted() == snap
    {
      edits, lastSig, lastObs, verifiedSinceWrite := snap.edits, snap.lastSig, snap.lastObs, snap.verified;
      budget.actionsThisTrial := snap.actions;
      budget.sameActionStreak := snap.streak;
    }

    /** One queued directive; past the cap the oldest is dropped. */
    method PushDirective(text: string, cfg: RunConfig)
      modifies this`pendingDirectives
      ensures pendingDirectives == Pushed(old(pendingDirectives), text, cfg.incentives)
      ensures |old(pendingDirectives)| <= DIRECTIVE_CAP ==> |pendingDirectives| <= DIRECTIVE_CAP
    {
      if cfg.incentives != Full {
        return;
      }
      if |pendingDirectives| >= DIRECTIVE_CAP {
        pendingDirectives := pendingDirectives[1..];
      }
      pendingDirectives := pendingDirectives + [text];
    }

    method QueueDirectives(cfg: RunConfig)
      modifies this`pendingDirectives, this`halfDirectiveSent, this`lateDirectiveSent
      ensures
        var cap, actions := budget.config.actionsPerTrial, budget.actionsThisTrial;
        var half := cap > 0 && !old(halfDirectiveSent) && actions >= cap / 2 && edits == 0;
        var late := cap > 0 && !old(lateDirectiveSent) && actions >= cap * 4 / 5;
        && halfDirectiveSent == (old(halfDirectiveSent) || half)
        && lateDirectiveSent == (old(lateDirectiveSent) || late)
      ensures pendingDirectives == old(Directives(cfg))
    {
      hide HalfCapText, NearCapText, Pushed;
      var cap, actions := budget.config.actionsPerTrial, budget.actionsThisTrial;
      if cap == 0 {
        return;
      }
      if !halfDirectiveSent && actions >= cap / 2 && edits == 0 {
        halfDirectiveSent := true;
        PushDirective(HalfCapText(actions), cfg);
      }
      if !lateDirectiveSent && actions >= cap * 4 / 5 {
        lateDirectiveSent := true;
        PushDirective(NearCapText(SatSub(cap, actions)), cfg);
      }
    }

    /** Appends a line to the newest tool result, in place. */
    method AppendToTail(text: string)
      modifies this`items
      ensures items == TailPlus(old(items), "\n" + text)
    {
      var i := |items|;
      while i > 0 && !items[i - 1].kind.ToolResult?
        invariant 0 <= i <= |items|
        invariant forall k :: i <= k < |items| ==> !items[k].kind.ToolResult?
      {
        i := i - 1;
      }
      if i > 0 {
        assert NewestResult(items) == i - 1;
        var row := items[i - 1];
        assert row.kind.content + "\n" + text == row.kind.content + ("\n" + text);
        items := items[i - 1 := row.(kind := row.kind.(content := row.kind.content + "\n" + text))];
      }
    }

    method HasToolTail() returns (has: bool)
      ensures has == (NewestResult(items) >= 0)
    {
      var i := |items|;
      while i > 0 && !items[i - 1].kind.ToolResult?
        invariant 0 <= i <= |items|
        invariant forall k :: i <= k < |items| ==> !items[k].kind.ToolResult?
      {
        i := i - 1;
      }
      has := i > 0;
    }

    /** The wrap-up notice as it would land now: a line of its own, once. */
    ghost function Notice(now: nat): string
      reads budget`nudgeFired, budget`steps
    {
      if !budget.nudgeFired && budget.WrapUpDue(now) then "\n" + budget.WrapUpText() else ""
    }

    /** The directives that would be queued after the action warnings. */
    ghost function Directives(cfg: RunConfig): seq<string>
      reads this`pendingDirectives, this`halfDirectiveSent, this`lateDirectiveSent, this`edits, budget`actionsThisTrial
    {
      var cap, actions := budget.config.actionsPerTrial, budget.actionsThisTrial;
      var queue := if cap > 0 && !halfDirectiveSent && actions >= cap / 2 && edits == 0
                   then Pushed(pendingDirectives, HalfCapText(actions), cfg.incentives) else pendingDirectives;
      if cap > 0 && !lateDirectiveSent && actions >= cap * 4 / 5
      then Pushed(queue, NearCapText(SatSub(cap, actions)), cfg.incentives) else queue
    }

    /** All that waits to be put on the newest tool result: the notice, then the directives, a line each. */
    ghost function Waiting(cfg: RunConfig, now: nat): string
      reads this`pendingDirectives, this`halfDirectiveSent, this`lateDirectiveSent, this`edits, budget`actionsThisTrial,
            budget`nudgeFired, budget`steps
    {
      Notice(now) + OnLines(Directives(cfg))
    }

    /** The second action warning is still to come, and this arm delivers it. */
    ghost predicate LateUnsent(cfg: RunConfig)
      reads this`lateDirectiveSent
    {
      cfg.incentives == Full && !lateDirectiveSent && budget.config.actionsPerTrial > 0
    }

    /** Four fifths of the action cap are used up. */
    ghost predicate LateReached()
      reads budget`actionsThisTrial
    {
      budget.actionsThisTrial >= budget.config.actionsPerTrial * 4 / 5
    }

    lemma LateWaits(cfg: RunConfig, now: nat)
      requires LateUnsent(cfg) && LateReached()
      ensures Waiting(cfg, now) != ""
    {
      hide HalfCapText, NearCapText;
      assert Directives(cfg) != [];
    }

    /** A queued directive is never lost before it lands. */
    lemma QueuedWaits(cfg: RunConfig, now: nat)
      requires pendingDirectives != []
      ensures Waiting(cfg, now) != ""
    {
      hide HalfCapText, NearCapText;
      assert Directives(cfg) != [];
    }

    method ApplyBudgetNudge(now: nat)
      modifies this`items, budget`nudgeFired
      ensures items == TailPlus(old(items), old(Notice(now)))
      ensures NewestResult(old(items)) < 0 ==> budget.nudgeFired == old(budget.nudgeFired)
      ensures NewestResult(old(items)) >= 0 ==> budget.nudgeFired == (old(budget.nudgeFired) || budget.WrapUpDue(now))
    {
      TailPlusTwice(items, "", "");
      var has := HasToolTail();
      if !has {
        return;
      }
      var text := budget.NudgeDue(now);
      if text.Some? {
        AppendToTail(text.value);
      }
    }

    method DeliverDirectives()
      modifies this`items, this`pendingDirectives
      ensures NewestResult(old(items)) >= 0 ==>
                pendingDirectives == [] && items == TailPlus(old(items), OnLines(old(pendingDirectives)))
      ensures NewestResult(old(items)) < 0 ==> pendingDirectives == old(pendingDirectives) && items == old(items)
    {
      var has := HasToolTail();
      if !has {
        return;
      }
      ghost var queue, k := pendingDirectives, 0;
      TailPlusTwice(items, "", "");
      assert queue[..0] == [];
      while pendingDirectives != []
        invariant k <= |queue| && pendingDirectives == queue[k..]
        invariant items == TailPlus(old(items), OnLines(queue[..k]))
        decreases |pendingDirectives|
      {
        var text := pendingDirectives[0];
        pendingDirectives := pendingDirectives[1..];
        AppendToTail(text);
        TailPlusTwice(old(items), OnLines(queue[..k]), "\n" + text);
        assert queue[..k + 1][..k] == queue[..k];
        assert OnLines(queue[..k + 1]) == OnLines(queue[..k]) + ("\n" + text);
        k := k + 1;
      }
      assert queue[..|queue|] == queue;
    }

    /** Exactly what waits lands on the newest tool result; without one the directives stay queued. */
    method SettleToolTail(cfg: RunConfig, now: nat)
      modifies this`items, this`pendingDirectives, this`halfDirectiveSent, this`lateDirectiveSent, budget`nudgeFired
      ensures items == TailPlus(old(items), old(Waiting(cfg, now)))
      ensures pendingDirectives == if NewestResult(items) >= 0 then [] else old(Directives(cfg))
    {
      hide Notice, Directives, NewestResult;
      QueueDirectives(cfg);
      ApplyBudgetNudge(now);
      TailKeepsNewest(old(items), old(Notice(now)));
      TailPlusTwice(old(items), old(Notice(now)), OnLines(pendingDirectives));
      DeliverDirectives();
      TailKeepsNewest(old(items), old(Waiting(cfg, now)));
    }
  }

  /** A queue after one more directive: past the cap the oldest goes; the reduced arms queue none. */
  function Pushed(queue: seq<string>, text: string, level: Level): seq<string> {
    if level != Full then queue
    else (if |queue| >= DIRECTIVE_CAP then queue[1..] else queue) + [text]
  }

  function HalfCapText(actions: nat): string {
    "0 edits so far after " + Decimal(actions)
    + " actions. Stop reading. Apply your first edit with the edit tool NOW."
  }

  function NearCapText(left: nat): string {
    "only " + Decimal(left) + " actions remain before the run is stopped. Finish and submit your patch now."
  }

  const TRUNCATED_TEXT := "tool call truncated: re-issue with complete arguments"

  function TruncatedRows(calls: seq<ToolCallRef>): seq<ItemKind> {
    seq(2 * |calls|, i requires 0 <= i < 2 * |calls| =>
      if i % 2 == 0 then ToolCall(calls[i / 2]) else ToolResult(calls[i / 2].id, TRUNCATED_TEXT, true))
  }

  function InputRows(queued: seq<Queued>): seq<ItemKind> {
    seq(|queued|, i requires 0 <= i < |queued| => Input(queued[i].text, queued[i].source))
  }

  predicate Ordinary(stop: StopReason) {
    stop != Truncated && stop != Refused && stop != Failure && stop != Aborted
  }

  ghost function IdSet(calls: seq<ToolCallRef>): set<string> {
    set c | c in calls :: c.id
  }

  lemma IdSetSnoc(calls: seq<ToolCallRef>, c: ToolCallRef)
    ensures IdSet(calls + [c]) == IdSet(calls) + {c.id}
  {
    assert c in calls + [c];
    forall id | id in IdSet(calls)
      ensures id in IdSet(calls + [c])
    {
      var d :| d in calls && d.id == id;
      assert d in calls + [c];
    }
  }

  /** The call table with these calls entered, each still open; of calls that share an id the last one stays. */
  function Filed(table: map<string, CallState>, calls: seq<ToolCallRef>, cfg: RunConfig): map<string, CallState> {
    if calls == [] then table
    else
      var n := |calls| - 1;
      Filed(table, calls[..n], cfg)[calls[n].id :=
        CallState(calls[n].name, calls[n].args, cfg.isVerification(calls[n]), None)]
  }

  lemma {:induction false} FiledSound(table: map<string, CallState>, calls: seq<ToolCallRef>, cfg: RunConfig)
    ensures
      var filed := Filed(table, calls, cfg);
      && filed.Keys == table.Keys + IdSet(calls)
      && (forall id :: id in IdSet(calls) ==> filed[id].result.None?)
      && (forall id :: id in table && id !in IdSet(calls) ==> filed[id] == table[id])
  {
    if calls != [] {
      var n := |calls| - 1;
      FiledSound(table, calls[..n], cfg);
      assert calls == calls[..n] + [calls[n]];
      IdSetSnoc(calls[..n], calls[n]);
    }
  }

  function QueuedBy(input: RunInput): seq<Queued> {
    match input
    case UserInput(text) => [Queued(text, External)]
    case CrashInput(text) => [Queued(text, Crash)]
    case _ => []
  }

  /** What a landed answer is metered for. */
  function BilledBy(msg: ProviderMsg): seq<Usage> {
    match msg
    case Settled(_, usage) => [usage]
    case ProviderFailed(_, _, _, billed) => Optional(billed)
  }

  function AnswerOf(c: CallState, result: ToolOutcome): Answer {
    Answer(c.name, c.isVerification, !result.isError)
  }
}
