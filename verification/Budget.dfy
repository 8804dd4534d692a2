/** The budget guard: every cap of a run, one latched grace step, bounded refunds
    (crates/agent-budget/src/guard.rs). Times are nanoseconds on one monotone clock. */
module Budget {
  import opened Base

  datatype Halt = Steps | Tokens | Wallclock | Spend | SameAction | TrialActions

  datatype Config = Config(
    maxSteps: nat,
    warnSteps: nat,
    maxTokens: nat,
    maxWallclock: nat,
    maxSpendCents: Option<nat>,
    sameActionCycles: nat,
    actionsPerTrial: nat,
    maxRefunds: nat
  )

  /** The machine widths of the caps; the step cap is a `NonZeroU32`. */
  ghost predicate InRange(c: Config) {
    1 <= c.maxSteps <= U32_MAX && c.maxRefunds <= U32_MAX
  }

  class BudgetGuard {
    const config: Config
    const started: nat
    var steps: nat
    var tokens: nat
    var spentCents: nat
    var refunds: nat
    var sameActionStreak: nat
    var actionsThisTrial: nat
    var graceUsed: bool
    var nudgeFired: bool
    ghost var admitted: nat  // calls admitted so far
    ghost var lost: nat      // step increments swallowed by the u32 ceiling
    ghost var pastCap: nat   // calls admitted while a cap was already tripped

    constructor (config: Config, started: nat)
      requires InRange(config)
      ensures this.config == config && this.started == started
      ensures steps == tokens == spentCents == refunds == sameActionStreak == actionsThisTrial == 0
      ensures admitted == 0 && !graceUsed && !nudgeFired && Bounded()
    {
      this.config := config;
      this.started := started;
      steps, tokens, spentCents, refunds, sameActionStreak, actionsThisTrial := 0, 0, 0, 0, 0, 0;
      graceUsed, nudgeFired := false, false;
      admitted, lost, pastCap := 0, 0, 0;
    }

    function Elapsed(now: nat): nat {
      SatSub(now, started)
    }

    /** First tripped counter, grace untouched. */
    function Peek(now: nat): Option<Halt>
      reads this`steps, this`tokens, this`spentCents, this`sameActionStreak, this`actionsThisTrial
    {
      if steps >= config.maxSteps then Some(Steps)
      else if config.maxTokens > 0 && tokens >= config.maxTokens then Some(Tokens)
      else if config.maxWallclock > 0 && Elapsed(now) >= config.maxWallclock then Some(Wallclock)
      else if config.maxSpendCents.Some? && spentCents >= config.maxSpendCents.value then Some(Spend)
      else if config.sameActionCycles > 0 && sameActionStreak >= config.sameActionCycles then Some(SameAction)
      else if config.actionsPerTrial > 0 && actionsThisTrial >= config.actionsPerTrial then Some(TrialActions)
      else None
    }

    /** The accounting every guard keeps: it bounds the calls ever admitted and the ones past a cap. */
    ghost predicate Bounded()
      reads this`admitted, this`steps, this`refunds, this`lost, this`graceUsed, this`pastCap
    {
      && InRange(config)
      && admitted == steps + refunds + lost
      && refunds <= config.maxRefunds
      && lost <= 1
      && (lost == 1 ==> graceUsed)
      && steps + lost <= config.maxSteps + (if graceUsed then 1 else 0)
      && pastCap <= (if graceUsed then 1 else 0)
    }

    /** A step slot is free: the caller has just passed the AND-gate. */
    ghost predicate HasSlot()
      reads this`steps, this`lost, this`graceUsed
    {
      steps + lost < config.maxSteps + (if graceUsed then 1 else 0)
    }

    method MayStep(now: nat) returns (halt: Option<Halt>)
      requires Bounded()
      modifies this`graceUsed, this`pastCap
      ensures Bounded()
      ensures halt.None? <==> (Peek(now).None? || !old(graceUsed))
      ensures halt.None? ==> HasSlot()
      ensures halt.Some? ==> halt == Peek(now) && graceUsed == old(graceUsed)
      ensures graceUsed == (old(graceUsed) || Peek(now).Some?)
      ensures pastCap == old(pastCap) + (if halt.None? && Peek(now).Some? then 1 else 0)
    {
      halt := Peek(now);
      if halt.Some? && !graceUsed {
        graceUsed := true;
        pastCap := pastCap + 1;
        halt := None;
      }
    }

    method RecordStep()
      requires Bounded() && HasSlot()
      modifies this`steps, this`admitted, this`lost
      ensures Bounded()
      ensures steps == SatAdd(old(steps), 1, U32_MAX)
      ensures admitted == old(admitted) + 1
    {
      if steps == U32_MAX { lost := lost + 1; }
      steps := SatAdd(steps, 1, U32_MAX);
      admitted := admitted + 1;
    }

    method RefundStep()
      requires Bounded()
      modifies this`steps, this`refunds
      ensures Bounded()
      ensures if old(refunds) < config.maxRefunds && old(steps) > 0
              then steps == old(steps) - 1 && refunds == old(refunds) + 1
              else steps == old(steps) && refunds == old(refunds)
    {
      if refunds >= config.maxRefunds {
        return;
      }
      if steps > 0 {
        steps := steps - 1;
        refunds := SatAdd(refunds, 1, U32_MAX);
      }
    }

    method RecordTokens(n: nat)
      modifies this`tokens
      ensures tokens == SatAdd(old(tokens), n, U64_MAX)
    {
      tokens := SatAdd(tokens, n, U64_MAX);
    }

    method RecordSpendCents(n: nat)
      modifies this`spentCents
      ensures spentCents == SatAdd(old(spentCents), n, U64_MAX)
    {
      spentCents := SatAdd(spentCents, n, U64_MAX);
    }

    /** The wrap-up threshold, with headroom forced below the step cap. */
    predicate WrapUpDue(now: nat)
      reads this`steps
    {
      || steps >= Min(config.warnSteps, Max(SatSub(config.maxSteps, 1), 1))
      || (config.maxWallclock > 0 && Elapsed(now) >= config.maxWallclock / 5 * 4)
    }

    function WrapUpText(): string
      reads this`steps
    {
      "wrap up: step " + Decimal(steps) + "/" + Decimal(config.maxSteps) + "; close out now"
    }

    /** One-shot wrap-up notice. */
    method NudgeDue(now: nat) returns (text: Option<string>)
      modifies this`nudgeFired
      ensures text == if !old(nudgeFired) && WrapUpDue(now) then Some(WrapUpText()) else None
      ensures nudgeFired == (old(nudgeFired) || WrapUpDue(now))
    {
      if nudgeFired {
        return None;
      }
      var threshold := Min(config.warnSteps, Max(SatSub(config.maxSteps, 1), 1));
      var stepsDue := steps >= threshold;
      var wallDue := config.maxWallclock > 0 && Elapsed(now) >= config.maxWallclock / 5 * 4;
      if stepsDue || wallDue {
        nudgeFired := true;
        return Some(WrapUpText());
      }
      return None;
    }
  }

  /** A tripped guard stays tripped as the clock runs: a refused admission is still refused at the halt check. */
  lemma PeekMonotone(g: BudgetGuard, now: nat, later: nat)
    requires now <= later
    ensures g.Peek(now).Some? ==> g.Peek(later).Some?
  {
  }

  /** However often rounds are refunded, a guard admits at most one call more than its caps pay for. */
  lemma AdmissionBound(g: BudgetGuard)
    requires g.Bounded()
    ensures g.admitted <= g.config.maxSteps + g.config.maxRefunds + 1
    ensures g.pastCap <= 1
  {
  }
}
