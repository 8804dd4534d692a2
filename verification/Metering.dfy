/** Usage of provider requests and what a run is charged for them
    (crates/provider-core/src/types.rs, `record_usage` in crates/agent-loop/src/state.rs).
    Dollars are reals; token counts are u64 values. */
module Metering {
  import opened Base

  datatype Usage = Usage(
    input: nat,
    output: nat,
    cacheRead: nat,
    cacheWrite: nat,
    reasoning: Option<nat>,
    costUsd: Option<real>
  )

  datatype Report = Report(input: nat, output: nat, cacheRead: nat, reasoning: Option<nat>, costUsd: Option<real>)

  datatype Shape = Gross | MissPlusOut

  const ZERO_REPORT := Report(0, 0, 0, None, None)

  function OrZero(n: Option<nat>): nat {
    if n.Some? then n.value else 0
  }

  function OrFree(c: Option<real>): real {
    if c.Some? then c.value else 0.0
  }

  /** Sum of two independently billed requests. */
  function Plus(a: Usage, b: Usage): Usage {
    Usage(
      SatAdd(a.input, b.input, U64_MAX),
      SatAdd(a.output, b.output, U64_MAX),
      SatAdd(a.cacheRead, b.cacheRead, U64_MAX),
      SatAdd(a.cacheWrite, b.cacheWrite, U64_MAX),
      if b.reasoning.Some? then Some(SatAdd(OrZero(a.reasoning), b.reasoning.value, U64_MAX)) else a.reasoning,
      if b.costUsd.Some? then Some(OrFree(a.costUsd) + b.costUsd.value) else a.costUsd
    )
  }

  /** What a settled call billed: the final attempt and every failed re-send. */
  function BilledUsage(final: Usage, retries: Option<Usage>): Usage {
    if retries.Some? then Plus(retries.value, final) else final
  }

  /** The share of one reading that counts against the token cap; the bare `+` wraps. */
  function TokenCharge(shape: Shape, u: Usage): nat {
    match shape
    case Gross => (u.input + u.output) % (U64_MAX + 1)
    case MissPlusOut => (SatSub(u.input, u.cacheRead) + u.output) % (U64_MAX + 1)
  }

  /** `f64::round`: ties away from zero. */
  function Round(x: real): int {
    if x >= 0.0 then (x + 0.5).Floor else -((-x + 0.5).Floor)
  }

  function CentCharge(cost: real): nat {
    var cents := Round(cost * 100.0);
    if cents <= 0 then 0 else Min(cents, U64_MAX)
  }

  function AddToReport(r: Report, u: Usage): Report {
    Report(
      SatAdd(r.input, u.input, U64_MAX),
      SatAdd(r.output, u.output, U64_MAX),
      SatAdd(r.cacheRead, u.cacheRead, U64_MAX),
      if u.reasoning.Some? then Some(SatAdd(OrZero(r.reasoning), u.reasoning.value, U64_MAX)) else r.reasoning,
      if u.costUsd.Some? then Some(OrFree(r.costUsd) + u.costUsd.value) else r.costUsd
    )
  }

  // ---- a whole run's charges ----

  datatype Meter = Meter(tokens: nat, cents: nat, totals: Report)

  function Charge(shape: Shape, m: Meter, u: Usage): Meter {
    Meter(
      SatAdd(m.tokens, TokenCharge(shape, u), U64_MAX),
      if u.costUsd.Some? then SatAdd(m.cents, CentCharge(u.costUsd.value), U64_MAX) else m.cents,
      AddToReport(m.totals, u)
    )
  }

  function MeterOf(shape: Shape, charges: seq<Usage>): Meter {
    if charges == [] then Meter(0, 0, ZERO_REPORT)
    else Charge(shape, MeterOf(shape, charges[..|charges| - 1]), charges[|charges| - 1])
  }

  lemma MeterSnoc(shape: Shape, charges: seq<Usage>, u: Usage)
    ensures MeterOf(shape, charges + [u]) == Charge(shape, MeterOf(shape, charges), u)
  {
    assert (charges + [u])[..|charges|] == charges;
  }

  /** Sum of a per-request quantity, unbounded. */
  ghost function Sum(f: Usage -> nat, charges: seq<Usage>): nat {
    if charges == [] then 0 else Sum(f, charges[..|charges| - 1]) + f(charges[|charges| - 1])
  }

  ghost const INPUT: Usage -> nat := (u: Usage) => u.input
  ghost const OUTPUT: Usage -> nat := (u: Usage) => u.output
  ghost const CACHE_READ: Usage -> nat := (u: Usage) => u.cacheRead
  ghost const CACHE_WRITE: Usage -> nat := (u: Usage) => u.cacheWrite
  ghost const REASONING: Usage -> nat := (u: Usage) => OrZero(u.reasoning)
  ghost const CACHED: Usage -> nat := (u: Usage) => Min(u.input, u.cacheRead)

  ghost function SumCost(charges: seq<Usage>): real {
    if charges == [] then 0.0 else SumCost(charges[..|charges| - 1]) + OrFree(charges[|charges| - 1].costUsd)
  }

  ghost function Priced(charges: seq<Usage>): nat {
    if charges == [] then 0
    else Priced(charges[..|charges| - 1]) + (if charges[|charges| - 1].costUsd.Some? then 1 else 0)
  }

  ghost function Reasoned(charges: seq<Usage>): nat {
    if charges == [] then 0
    else Reasoned(charges[..|charges| - 1]) + (if charges[|charges| - 1].reasoning.Some? then 1 else 0)
  }

  lemma ChargeWithoutWrap(shape: Shape, u: Usage)
    requires u.input + u.output <= U64_MAX
    ensures TokenCharge(shape, u) + (if shape == MissPlusOut then CACHED(u) else 0) == INPUT(u) + OUTPUT(u)
  {
  }

  /** Every total of the report is the sum over all settlements, held at the word's end; the optional ones are
      there as soon as one settlement carried them. */
  lemma {:induction false} TotalsExact(shape: Shape, charges: seq<Usage>)
    ensures
      var r := MeterOf(shape, charges).totals;
      && r.input == Min(Sum(INPUT, charges), U64_MAX)
      && r.output == Min(Sum(OUTPUT, charges), U64_MAX)
      && r.cacheRead == Min(Sum(CACHE_READ, charges), U64_MAX)
      && OrZero(r.reasoning) == Min(Sum(REASONING, charges), U64_MAX) && (r.reasoning.Some? <==> Reasoned(charges) > 0)
      && OrFree(r.costUsd) == SumCost(charges) && (r.costUsd.Some? <==> Priced(charges) > 0)
  {
    if charges != [] {
      TotalsExact(shape, charges[..|charges| - 1]);
    }
  }

  /** Below the u64 ceiling the token cap counts exactly what the report says: all of it under `Gross`,
      everything but the cached share of each prompt under `MissPlusOut`. */
  lemma {:induction false} TokensExact(shape: Shape, charges: seq<Usage>)
    requires Sum(INPUT, charges) + Sum(OUTPUT, charges) <= U64_MAX
    ensures
      var m := MeterOf(shape, charges);
      m.tokens + (if shape == MissPlusOut then Sum(CACHED, charges) else 0) == m.totals.input + m.totals.output
  {
    TotalsExact(shape, charges);
    if charges != [] {
      var before, u := charges[..|charges| - 1], charges[|charges| - 1];
      TokensExact(shape, before);
      TotalsExact(shape, before);
      ChargeWithoutWrap(shape, u);
    }
  }

  lemma RoundWithinHalf(x: real)
    ensures -0.5 <= Round(x) as real - x <= 0.5
  {
  }

  /** The spend cap's integer cents stay within half a cent of the real cost for each priced request. */
  lemma {:induction false} SpendClose(shape: Shape, charges: seq<Usage>)
    requires forall i :: 0 <= i < |charges| ==> OrFree(charges[i].costUsd) >= 0.0
    requires MeterOf(shape, charges).cents < U64_MAX
    ensures
      var gap := MeterOf(shape, charges).cents as real - 100.0 * SumCost(charges);
      -0.5 * Priced(charges) as real <= gap <= 0.5 * Priced(charges) as real
  {
    if charges != [] {
      var before, u := charges[..|charges| - 1], charges[|charges| - 1];
      SpendClose(shape, before);
      if u.costUsd.Some? {
        RoundWithinHalf(u.costUsd.value * 100.0);
      }
    }
  }
}
