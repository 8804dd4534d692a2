/** The retry loop and its two ladders (crates/provider-openai/src/retry.rs and
    `complete` in crates/provider-openai/src/client.rs). One HTTP attempt is an
    arbitrary function of its index and of the request shape it sends. */
module Retry {
  import opened Base
  import opened Metering

  const MAX_TOKENS_CEILING: nat := 32768
  const RETRY_AFTER_CAP: nat := 60

  /** What the ladder may change about the next request. */
  datatype Wire = Wire(maxTokens: nat, thinkingOff: bool, suppressed: bool)

  datatype Failure = Failure(
    coldStart: bool,
    retryAfter: Option<nat>,
    retryable: bool,
    truncated: bool,
    contentChars: nat,
    reasoningChars: nat,
    usage: Option<Usage>
  )

  datatype Outcome = Answered(usage: Usage) | Failed(failure: Failure)

  datatype Attempt = Attempt(wire: Wire, outcome: Outcome)

  datatype Completion =
    | Response(usage: Usage, attempts: nat, retryUsage: Option<Usage>)
    | Metered(billed: Option<Usage>, exhausted: bool)

  // ---- the overflow ladder ----

  class WireKnobs {
    var maxTokens: nat
    const thinkingOff: bool
    var thinkingSuppressed: bool

    constructor FromReq(maxTokens: nat, thinkingOff: bool, thinkingAsked: bool)
      ensures Now() == Wire(maxTokens, thinkingOff, !thinkingAsked && thinkingOff)
    {
      this.maxTokens := maxTokens;
      this.thinkingOff := thinkingOff;
      this.thinkingSuppressed := !thinkingAsked && thinkingOff;
    }

    function Now(): Wire
      reads this
    {
      Wire(maxTokens, thinkingOff, thinkingSuppressed)
    }

    method ApplyLadder(contentChars: nat, reasoningChars: nat) returns (applied: bool)
      modifies this
      ensures applied ==> Climbs(old(Now()), Now(), contentChars, reasoningChars)
      ensures !applied ==> Now() == old(Now()) && NoRung(Now(), contentChars, reasoningChars)
    {
      if !thinkingSuppressed && contentChars == 0 && reasoningChars > 0 && thinkingOff {
        thinkingSuppressed := true;
        return true;
      }
      var raised := Min(Min(maxTokens * 2, U64_MAX), MAX_TOKENS_CEILING);
      if raised > maxTokens {
        maxTokens := raised;
        return true;
      }
      return false;
    }
  }

  /** Reasoning ate the whole budget and the endpoint can switch it off. */
  predicate CanSuppress(w: Wire, contentChars: nat, reasoningChars: nat) {
    w.thinkingOff && !w.suppressed && contentChars == 0 && reasoningChars > 0
  }

  predicate NoRung(w: Wire, contentChars: nat, reasoningChars: nat) {
    !CanSuppress(w, contentChars, reasoningChars) && (w.maxTokens == 0 || w.maxTokens >= MAX_TOKENS_CEILING)
  }

  /** One rung: thinking goes off, or the budget doubles up to the ceiling; never both, never less room. */
  predicate Climbs(w: Wire, next: Wire, contentChars: nat, reasoningChars: nat) {
    if CanSuppress(w, contentChars, reasoningChars) then next == w.(suppressed := true)
    else
      && 0 < w.maxTokens < MAX_TOKENS_CEILING
      && next == w.(maxTokens := Min(2 * w.maxTokens, MAX_TOKENS_CEILING))
  }

  /** Doublings left below the ceiling. */
  function Doublings(tokens: nat): nat
    decreases MAX_TOKENS_CEILING - tokens
  {
    if tokens == 0 || tokens >= MAX_TOKENS_CEILING then 0
    else 1 + Doublings(Min(2 * tokens, MAX_TOKENS_CEILING))
  }

  function Rungs(w: Wire): nat {
    (if w.thinkingOff && !w.suppressed then 1 else 0) + Doublings(w.maxTokens)
  }

  function Pow2(k: nat): nat {
    if k == 0 then 1 else 2 * Pow2(k - 1)
  }

  lemma {:induction false} DoublingsBound(tokens: nat, k: nat)
    requires tokens > 0 && tokens * Pow2(k) >= MAX_TOKENS_CEILING
    ensures Doublings(tokens) <= k
    decreases k
  {
    if tokens < MAX_TOKENS_CEILING {
      assert tokens * Pow2(k) == (2 * tokens) * Pow2(k - 1);
      if 2 * tokens < MAX_TOKENS_CEILING { DoublingsBound(2 * tokens, k - 1); }
    }
  }

  lemma {:induction false} DoublingsFull(tokens: nat, k: nat)
    requires tokens > 0 && tokens * Pow2(k) == MAX_TOKENS_CEILING
    ensures Doublings(tokens) == k
    decreases k
  {
    if k > 0 {
      assert tokens * Pow2(k) == (2 * tokens) * Pow2(k - 1);
      assert Pow2(k - 1) >= 1 by { Pow2Order(0, k - 1); }
      assert (2 * tokens) * Pow2(k - 1) >= 2 * tokens;
      DoublingsFull(2 * tokens, k - 1);
    }
  }

  /** A call starts with at most sixteen rungs, one switch and fifteen doublings, and may have all of them. */
  lemma SixteenRungs(w: Wire)
    ensures Rungs(w) <= 16
    ensures Rungs(Wire(1, true, false)) == 16
  {
    CeilingPower();
    assert Doublings(0) == 0;
    hide Doublings, Pow2;
    DoublingsFull(1, 15);
    if w.maxTokens > 0 {
      assert w.maxTokens * 32768 >= 32768;
      DoublingsBound(w.maxTokens, 15);
    }
  }

  /** Each success uses up exactly one rung and never lowers the token budget. */
  lemma ClimbUsesRung(w: Wire, next: Wire, contentChars: nat, reasoningChars: nat)
    requires Climbs(w, next, contentChars, reasoningChars)
    ensures Rungs(next) + 1 == Rungs(w) && next.maxTokens >= w.maxTokens
    ensures next.maxTokens <= Max(w.maxTokens, MAX_TOKENS_CEILING)
  {
  }

  // ---- delays ----

  function TwoTo(k: nat): real {
    Pow2(k) as real
  }

  /** No delay means stop: the server asked for more than the cap. `jitter` is the drawn 0-25% factor. */
  function ScheduleDelay(after: Option<nat>, coldStart: bool, attempt: nat, jitter: real): Option<real> {
    if after.Some? then (if TooLong(after) then None else Some(after.value as real))
    else if coldStart then Some(60.0)
    else Some(TwoTo(Min(attempt, 10)) * (1.0 + jitter))
  }

  // ---- the loop ----

  predicate TooLong(after: Option<nat>) {
    after.Some? && after.value > RETRY_AFTER_CAP
  }

  /** The failure at index `i` leaves another attempt open, with this request shape. */
  predicate Allowed(f: Failure, i: nat, w: Wire, next: Wire) {
    && f.retryable
    && (if f.truncated then Climbs(w, next, f.contentChars, f.reasoningChars)
        else next == w && i < (if f.coldStart then 7 else 4))
  }

  /** The next attempt is made, too. */
  predicate Continues(f: Failure, i: nat, w: Wire, next: Wire) {
    Allowed(f, i, w, next) && !TooLong(f.retryAfter)
  }

  /** The last failure allows no further attempt. */
  predicate Final(f: Failure, i: nat, w: Wire) {
    || !f.retryable
    || (f.truncated && NoRung(w, f.contentChars, f.reasoningChars))
    || (!f.truncated && i >= (if f.coldStart then 7 else 4))
    || TooLong(f.retryAfter)
  }

  ghost predicate Link(log: seq<Attempt>, i: nat)
    requires i + 1 < |log|
  {
    log[i].outcome.Failed? && Continues(log[i].outcome.failure, i, log[i].wire, log[i + 1].wire)
  }

  /** Every attempt but the last failed and was allowed to be followed by the next. */
  ghost predicate Chain(log: seq<Attempt>) {
    forall i :: 0 <= i < |log| - 1 ==> Link(log, i)
  }

  ghost predicate Made(once: (nat, Wire) -> Outcome, log: seq<Attempt>) {
    forall i: nat :: i < |log| ==> log[i].outcome == once(i, log[i].wire)
  }

  function MergeUsage(acc: Option<Usage>, next: Option<Usage>): Option<Usage> {
    if acc.Some? && next.Some? then Some(Plus(acc.value, next.value))
    else if acc.Some? then acc else next
  }

  function UsageOf(o: Outcome): Option<Usage> {
    match o
    case Answered(u) => Some(u)
    case Failed(f) => f.usage
  }

  /** The sum over the attempts that carried usage. */
  function Bill(log: seq<Attempt>): Option<Usage> {
    if log == [] then None else MergeUsage(Bill(log[..|log| - 1]), UsageOf(log[|log| - 1].outcome))
  }

  lemma BillSnoc(log: seq<Attempt>, a: Attempt)
    ensures Bill(log + [a]) == MergeUsage(Bill(log), UsageOf(a.outcome))
  {
    assert (log + [a])[..|log|] == log;
  }

  /** What the caller is told was billed. */
  function Billed(c: Completion): Option<Usage> {
    match c
    case Response(u, _, retries) => Some(BilledUsage(u, retries))
    case Metered(u, _) => u
  }

  /** The attempts that were made, and what the caller is told about them. */
  ghost predicate Completed(once: (nat, Wire) -> Outcome, start: Wire, log: seq<Attempt>, c: Completion) {
    && log != [] && log[0].wire == start && Chain(log) && Made(once, log)
    && Billed(c) == Bill(log)
    && var last := log[|log| - 1];
      match last.outcome
      case Answered(u) => c.Response? && c.usage == u && c.attempts == |log|
      case Failed(f) => c.Metered? && c.exhausted == f.retryable && Final(f, |log| - 1, last.wire)
  }

  /** What one failure does to the knobs, and whether to go on. */
  method Judge(knobs: WireKnobs, f: Failure, attempt: nat) returns (again: bool)
    modifies knobs
    ensures again ==> f.retryable && Allowed(f, attempt, old(knobs.Now()), knobs.Now())
    ensures !again ==> Final(f, attempt, old(knobs.Now()))
    ensures again ==> Rungs(knobs.Now()) < old(Rungs(knobs.Now())) || (knobs.Now() == old(knobs.Now()) && attempt < 7)
  {
    hide Rungs;
    if !f.retryable {
      return false;
    }
    if f.truncated {
      ghost var wire := knobs.Now();
      again := knobs.ApplyLadder(f.contentChars, f.reasoningChars);
      if again { ClimbUsesRung(wire, knobs.Now(), f.contentChars, f.reasoningChars); }
    } else {
      again := attempt < (if f.coldStart then 7 else 4);
    }
  }

  /** The newest attempt failed and leaves another open. */
  ghost predicate Open(log: seq<Attempt>, next: Wire) {
    log != [] &&
    var last := log[|log| - 1];
    last.outcome.Failed? && Allowed(last.outcome.failure, |log| - 1, last.wire, next)
  }

  lemma ChainSnoc(log: seq<Attempt>, a: Attempt)
    requires Chain(log) && (log != [] ==> Link(log + [a], |log| - 1))
    ensures Chain(log + [a])
  {
    hide Continues;
    forall i | 0 <= i < |log| ensures Link(log + [a], i) {
      if i < |log| - 1 { assert Link(log, i); }
    }
  }

  lemma ChainGrows(once: (nat, Wire) -> Outcome, log: seq<Attempt>, w: Wire)
    requires Chain(log) && Made(once, log)
    requires log != [] ==> Open(log, w) && !TooLong(log[|log| - 1].outcome.failure.retryAfter)
    ensures
      var log' := log + [Attempt(w, once(|log|, w))];
      Chain(log') && Made(once, log') && log'[0].wire == (if log == [] then w else log[0].wire)
      && Bill(log') == MergeUsage(Bill(log), UsageOf(once(|log|, w)))
  {
    hide Allowed, MergeUsage, UsageOf, TooLong, Chain;
    var a := Attempt(w, once(|log|, w));
    BillSnoc(log, a);
    ChainSnoc(log, a);
  }

  lemma NoAttempts(once: (nat, Wire) -> Outcome)
    ensures Chain([]) && Made(once, []) && Bill([]) == None
  {
  }

  lemma BilledFailure(f: Failure)
    ensures UsageOf(Failed(f)) == f.usage
  {
  }

  lemma BilledAnswer(u: Usage, attempts: nat, acc: Option<Usage>)
    ensures Billed(Response(u, attempts, acc)) == MergeUsage(acc, UsageOf(Answered(u)))
  {
  }

  method Complete(knobs: WireKnobs, once: (nat, Wire) -> Outcome, jitter: nat -> real)
    returns (c: Completion, ghost log: seq<Attempt>)
    modifies knobs
    ensures Completed(once, old(knobs.Now()), log, c)
  {
    hide Chain, Made, Bill, MergeUsage, UsageOf, Allowed, NoRung, Rungs, Plus;
    log := [];
    NoAttempts(once);
    var lastCold := false;
    var lastAfter: Option<nat> := None;
    var usageAcc: Option<Usage> := None;
    var lastRetryable := false;
    var attempt := 0;
    while true
      invariant attempt == |log| && usageAcc == Bill(log) && Chain(log) && Made(once, log)
      invariant attempt == 0 ==> knobs.Now() == old(knobs.Now())
      invariant attempt > 0 ==> Open(log, knobs.Now()) && log[0].wire == old(knobs.Now())
      invariant attempt > 0 ==>
        var f := log[attempt - 1].outcome.failure;
        lastCold == f.coldStart && lastAfter == f.retryAfter && lastRetryable && f.retryable
      decreases Rungs(knobs.Now()), 7 - attempt
    {
      if attempt > 0 {
        var d := ScheduleDelay(lastAfter, lastCold, attempt, jitter(attempt));
        lastAfter := None;
        if d.None? {
          break;
        }
      }
      ghost var wire := knobs.Now();
      var outcome := once(attempt, knobs.Now());
      ChainGrows(once, log, wire);
      log := log + [Attempt(wire, outcome)];
      match outcome
      case Answered(u) =>
        c := Response(u, attempt + 1, usageAcc);
        BilledAnswer(u, attempt + 1, usageAcc);
        return;
      case Failed(f) =>
        lastCold := f.coldStart;
        lastRetryable := f.retryable;
        usageAcc := MergeUsage(usageAcc, f.usage);
        BilledFailure(f);
        var again := Judge(knobs, f, attempt);
        if !again {
          break;
        }
        lastAfter := f.retryAfter;
      attempt := attempt + 1;
    }
    c := Metered(usageAcc, lastRetryable);
  }

  // ---- over every run of the loop ----

  /** Rungs and the first seven indices pay for every attempt. */
  lemma {:induction false} AttemptsPaid(log: seq<Attempt>, i: nat)
    requires Chain(log) && i < |log|
    ensures i <= 7 + Rungs(log[0].wire) - Rungs(log[i].wire)
    ensures Rungs(log[i].wire) <= Rungs(log[0].wire)
    ensures log[0].wire.maxTokens <= log[i].wire.maxTokens
  {
    if i > 0 {
      AttemptsPaid(log, i - 1);
      assert Link(log, i - 1);
      var f := log[i - 1].outcome.failure;
      assert Continues(f, i - 1, log[i - 1].wire, log[i].wire);
      hide Rungs;
      if f.truncated { ClimbUsesRung(log[i - 1].wire, log[i].wire, f.contentChars, f.reasoningChars); }
    }
  }

  /** One call makes at most 24 attempts, whatever the server answers. */
  lemma AtMost24(once: (nat, Wire) -> Outcome, start: Wire, log: seq<Attempt>, c: Completion)
    requires Completed(once, start, log, c)
    ensures |log| <= 24
    ensures c.Response? ==> c.attempts <= 24
  {
    AttemptsPaid(log, |log| - 1);
    SixteenRungs(start);
  }

  function SlowServer(i: nat, w: Wire): Outcome {
    Failed(Failure(i < 7, None, true, i >= 7, 0, 1, None))
  }

  function SlowWire(i: nat): Wire {
    if i <= 7 then Wire(1, true, false) else Wire(Pow2(i - 8), true, true)
  }

  lemma CeilingPower()
    ensures Pow2(15) == MAX_TOKENS_CEILING
  {
    assert Pow2(3) == 8;
    assert Pow2(6) == 64;
    assert Pow2(9) == 512;
    assert Pow2(12) == 4096;
  }

  /** The bound is reached: seven cold starts, then every rung, then an exhausted ladder. */
  lemma TwentyFourReached()
    ensures exists log, c :: Completed(SlowServer, SlowWire(0), log, c) && |log| == 24
  {
    var log := seq(24, i requires 0 <= i < 24 => Attempt(SlowWire(i), SlowServer(i, SlowWire(i))));
    var c := Metered(Bill(log), true);
    CeilingPower();
    forall i | 0 <= i < 23 ensures Link(log, i) {
      if i >= 8 {
        assert Pow2(i - 7) == 2 * Pow2(i - 8);
        Pow2Order(i - 7, 15);
        Pow2Order(0, i - 8);
      }
    }
    assert Chain(log);
    assert Made(SlowServer, log);
    assert log[23].wire == Wire(32768, true, true);
    assert Final(log[23].outcome.failure, 23, log[23].wire);
    assert Completed(SlowServer, SlowWire(0), log, c);
  }

  /** A later attempt of the same call never asks for less room. */
  lemma {:induction false} RoomNeverShrinks(log: seq<Attempt>, i: nat, j: nat)
    requires Chain(log) && i <= j < |log|
    ensures log[i].wire.maxTokens <= log[j].wire.maxTokens
    decreases j - i
  {
    if i < j {
      RoomNeverShrinks(log, i, j - 1);
      assert Link(log, j - 1);
    }
  }

  /** The usages that the attempts carried, in order. */
  function Carried(log: seq<Attempt>): seq<Usage> {
    if log == [] then [] else Carried(log[..|log| - 1]) + Optional(UsageOf(log[|log| - 1].outcome))
  }

  /** Token counts that fit their 64-bit fields. */
  predicate InWords(u: Usage) {
    && u.input <= U64_MAX && u.output <= U64_MAX && u.cacheRead <= U64_MAX && u.cacheWrite <= U64_MAX
    && OrZero(u.reasoning) <= U64_MAX
  }

  /** One bill for all usages: every count is their sum, held at the word's end, and the cost their exact sum. */
  ghost predicate BillsAll(bill: Option<Usage>, usages: seq<Usage>) {
    && (bill.None? <==> usages == [])
    && (bill.Some? ==>
          var b := bill.value;
          && b.input == Min(Sum(INPUT, usages), U64_MAX)
          && b.output == Min(Sum(OUTPUT, usages), U64_MAX)
          && b.cacheRead == Min(Sum(CACHE_READ, usages), U64_MAX)
          && b.cacheWrite == Min(Sum(CACHE_WRITE, usages), U64_MAX)
          && OrZero(b.reasoning) == Min(Sum(REASONING, usages), U64_MAX)
          && (b.reasoning.Some? <==> Reasoned(usages) > 0)
          && OrFree(b.costUsd) == SumCost(usages)
          && (b.costUsd.Some? <==> Priced(usages) > 0))
  }

  lemma BillsOneMore(bill: Option<Usage>, usages: seq<Usage>, u: Usage)
    requires BillsAll(bill, usages) && InWords(u)
    ensures BillsAll(MergeUsage(bill, Some(u)), usages + [u])
  {
    assert (usages + [u])[..|usages|] == usages;
    if usages == [] {
      assert usages + [u] == [u] && [u][..0] == [];
    }
  }

  /** The reported bill is the sum over the attempts that carried usage, and absent exactly when none did. */
  lemma {:induction false} BillIsSum(log: seq<Attempt>)
    requires forall i :: 0 <= i < |log| && UsageOf(log[i].outcome).Some? ==> InWords(UsageOf(log[i].outcome).value)
    ensures BillsAll(Bill(log), Carried(log))
  {
    if log != [] {
      var n := |log| - 1;
      BillIsSum(log[..n]);
      hide BillsAll, InWords, UsageOf;
      var u := UsageOf(log[n].outcome);
      if u.Some? {
        BillsOneMore(Bill(log[..n]), Carried(log[..n]), u.value);
      } else {
        assert Carried(log) == Carried(log[..n]);
      }
    }
  }

  /** A delay is never longer than the largest jittered backoff. */
  lemma DelaysBounded(after: Option<nat>, coldStart: bool, attempt: nat, jitter: real)
    requires 0.0 <= jitter <= 0.25
    ensures ScheduleDelay(after, coldStart, attempt, jitter).None? <==> after.Some? && after.value > RETRY_AFTER_CAP
    ensures ScheduleDelay(after, coldStart, attempt, jitter).Some? ==>
              0.0 <= ScheduleDelay(after, coldStart, attempt, jitter).value <= 1280.0
  {
    Pow2Grows(Min(attempt, 10));
    hide Pow2;
    Jittered(TwoTo(Min(attempt, 10)), jitter);
  }

  lemma Jittered(base: real, jitter: real)
    requires 0.0 <= base <= 1024.0 && 0.0 <= jitter <= 0.25
    ensures 0.0 <= base * (1.0 + jitter) <= 1280.0
  {
    assert base * (1.0 + jitter) == base + base * jitter;
    assert base * 0.0 == 0.0 && base * 0.25 <= 256.0;
    Scaled(0.0, jitter, base);
    Scaled(jitter, 0.25, base);
  }

  lemma Scaled(a: real, b: real, base: real)
    requires a <= b && 0.0 <= base
    ensures base * a <= base * b
  {
    assert base * b - base * a == base * (b - a);
  }

  lemma Pow2Grows(k: nat)
    requires k <= 10
    ensures 1 <= Pow2(k) <= 1024
  {
    assert Pow2(10) == 1024;
    Pow2Order(k, 10);
  }

  lemma {:induction false} Pow2Order(k: nat, n: nat)
    requires k <= n
    ensures 1 <= Pow2(k) <= Pow2(n)
    decreases n
  {
    if n > 0 {
      if k < n { Pow2Order(k, n - 1); } else { Pow2Order(k - 1, n - 1); }
    }
  }
}
