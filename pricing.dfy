/**
 * Usage-cost estimation: fixed per-million-token rates for input and
 * output, a fee per agent, and a discount on the token costs during the
 * night window of a fixed UTC-8 clock. Amounts are exact reals and instants
 * are epoch milliseconds.
 */
module Pricing {
  import opened Arith

  const MsPerHour: int := 3_600_000
  const MsPerDay: int := 24 * MsPerHour
  /** The offset of the pricing clock from UTC (UTC-8), in hours. */
  const PstOffsetHours: int := -8

  const InputCostPerMillion: real := 2.00
  const OutputCostPerMillion: real := 4.50
  const AgentBaseCost: real := 0.01
  /** What is left of the token costs at night (a 75% discount). */
  const NightMultiplier: real := 0.25

  /** The hour of the day, in UTC, of an instant in epoch milliseconds. */
  function UtcHour(ms: int): int {
    (ms / MsPerHour) % 24
  }

  /** `isNightTime`: on the UTC-8 clock the hour is 20 or later, or earlier than 6. */
  predicate IsNightTime(t: int) {
    var hour := UtcHour(t + PstOffsetHours * MsPerHour);
    hour >= 20 || hour < 6
  }

  /**
   * The night window in milliseconds: the time of day on the UTC-8 clock is
   * at least 20:00 or before 06:00.
   */
  lemma NightTimeByTimeOfDay(t: int)
    ensures IsNightTime(t) <==>
              var m := (t - 8 * MsPerHour) % MsPerDay; m >= 20 * MsPerHour || m < 6 * MsPerHour
  {
    var x := t - 8 * MsPerHour;
    var q, r := x / MsPerHour, x % MsPerHour;
    var h, k := q % 24, q / 24;
    assert x == q * MsPerHour + r;
    assert q == k * 24 + h;
    assert x == k * MsPerDay + (h * MsPerHour + r);
    DivModUnique(x, MsPerDay, k, h * MsPerHour + r);
  }

  /** The night window repeats every day. */
  lemma NightTimeIsDaily(t: int)
    ensures IsNightTime(t + MsPerDay) == IsNightTime(t)
  {
    var x := t - 8 * MsPerHour;
    var q, r := x / MsPerHour, x % MsPerHour;
    assert x == q * MsPerHour + r;
    DivModUnique(x + MsPerDay, MsPerHour, q + 24, r);
    DivModUnique(q + 24, 24, q / 24 + 1, q % 24);
  }

  /** 10:00 UTC on 1 January 1970 is 02:00 on the UTC-8 clock (night); 22:00 UTC is 14:00 (day). */
  lemma NightAndDayInstants()
    ensures IsNightTime(10 * MsPerHour) && !IsNightTime(22 * MsPerHour)
  {
  }

  datatype CostEstimate = CostEstimate(
    inputTokens: int,
    outputTokens: int,
    inputCost: real,
    outputCost: real,
    agentCost: real,
    totalCost: real,
    isNightTime: bool,
    discountApplied: bool)

  /**
   * `estimateTokenCost(inputTokens, outputTokens, numberOfAgents, createdAt)`:
   * the token counts are echoed, both flags report the night window of
   * `createdAt`, and the total is exactly the sum of the three costs.
   */
  function EstimateTokenCost(inputTokens: int, outputTokens: int, numberOfAgents: int, createdAt: int): (r: CostEstimate)
    ensures r.inputTokens == inputTokens && r.outputTokens == outputTokens
    ensures r.isNightTime == IsNightTime(createdAt) && r.discountApplied == IsNightTime(createdAt)
    ensures r.totalCost == r.agentCost + r.inputCost + r.outputCost
  {
    var nightTime := IsNightTime(createdAt);
    var discountMultiplier := if nightTime then NightMultiplier else 1.0;
    var agents := numberOfAgents as real;
    var agentCost := agents * AgentBaseCost;
    var inputCost := inputTokens as real / 1000000.0 * InputCostPerMillion * agents;
    var outputCost := outputTokens as real / 1000000.0 * OutputCostPerMillion * agents;
    var inputCost' := if nightTime then inputCost * discountMultiplier else inputCost;
    var outputCost' := if nightTime then outputCost * discountMultiplier else outputCost;
    CostEstimate(inputTokens, outputTokens, inputCost', outputCost', agentCost, agentCost + inputCost' + outputCost',
                 nightTime, nightTime)
  }

  /** By day the rates apply in full: $2.00 and $4.50 per million tokens per agent, plus $0.01 per agent. */
  lemma DaytimeCosts(inputTokens: int, outputTokens: int, numberOfAgents: int, createdAt: int)
    requires !IsNightTime(createdAt)
    ensures var r := EstimateTokenCost(inputTokens, outputTokens, numberOfAgents, createdAt);
            && r.agentCost == numberOfAgents as real / 100.0
            && r.inputCost == 2.0 * (inputTokens * numberOfAgents) as real / 1000000.0
            && r.outputCost == 4.5 * (outputTokens * numberOfAgents) as real / 1000000.0
  {
  }

  /**
   * At night the input and output costs are exactly a quarter of what the same
   * request costs by day, and the agent fee is not discounted.
   */
  lemma NightCostIsQuarterOfDay(inputTokens: int, outputTokens: int, numberOfAgents: int, night: int, day: int)
    requires IsNightTime(night) && !IsNightTime(day)
    ensures var n := EstimateTokenCost(inputTokens, outputTokens, numberOfAgents, night);
            var d := EstimateTokenCost(inputTokens, outputTokens, numberOfAgents, day);
            && n.inputCost == NightMultiplier * d.inputCost
            && n.outputCost == NightMultiplier * d.outputCost
            && n.agentCost == d.agentCost
            && n.totalCost == d.agentCost + NightMultiplier * (d.inputCost + d.outputCost)
  {
  }

  /** With non-negative inputs no cost is negative. */
  lemma CostsNonNegative(inputTokens: nat, outputTokens: nat, numberOfAgents: nat, createdAt: int)
    ensures var r := EstimateTokenCost(inputTokens, outputTokens, numberOfAgents, createdAt);
            r.inputCost >= 0.0 && r.outputCost >= 0.0 && r.agentCost >= 0.0 && r.totalCost >= 0.0
  {
  }

  /** At a fixed instant the total grows with the token counts and with the number of agents. */
  lemma TotalCostMonotone(i1: nat, o1: nat, a1: nat, i2: nat, o2: nat, a2: nat, createdAt: int)
    requires i1 <= i2 && o1 <= o2 && a1 <= a2
    ensures EstimateTokenCost(i1, o1, a1, createdAt).totalCost <= EstimateTokenCost(i2, o2, a2, createdAt).totalCost
  {
    PerTokenCostMonotone(i1, a1, i2, a2, InputCostPerMillion);
    PerTokenCostMonotone(o1, a1, o2, a2, OutputCostPerMillion);
  }

  /** A per-million rate applied to more tokens for more agents costs no less. */
  lemma PerTokenCostMonotone(t1: nat, a1: nat, t2: nat, a2: nat, rate: real)
    requires t1 <= t2 && a1 <= a2 && rate >= 0.0
    ensures t1 as real / 1000000.0 * rate * a1 as real <= t2 as real / 1000000.0 * rate * a2 as real
  {
    var d1, d2 := t1 as real / 1000000.0, t2 as real / 1000000.0;
    ScaleMonotone(d1, d2, rate);
    ScaleMonotone(d1 * rate, d2 * rate, a1 as real);
    ScaleMonotone(a1 as real, a2 as real, d2 * rate);
    assert d1 * rate * a1 as real <= d2 * rate * a1 as real <= d2 * rate * a2 as real;
  }

  lemma ScaleMonotone(x: real, y: real, c: real)
    requires 0.0 <= x <= y && c >= 0.0
    ensures 0.0 <= x * c <= y * c
    ensures c * x <= c * y
  {
    assert (y - x) * c >= 0.0;
  }

  /** Every cost of `n` agents is `n` times the cost of one agent. */
  lemma CostScalesWithAgents(inputTokens: int, outputTokens: int, numberOfAgents: int, createdAt: int)
    ensures var r := EstimateTokenCost(inputTokens, outputTokens, numberOfAgents, createdAt);
            var one := EstimateTokenCost(inputTokens, outputTokens, 1, createdAt);
            && r.inputCost == numberOfAgents as real * one.inputCost
            && r.outputCost == numberOfAgents as real * one.outputCost
            && r.totalCost == numberOfAgents as real * one.totalCost
  {
  }

  /** `Math.ceil(text.length / 4)`: the least count of four-character blocks that covers the text. */
  function TokenEstimate(text: string): (n: nat)
    ensures 4 * n - 4 < |text| <= 4 * n
  {
    (|text| + 3) / 4
  }

  /** `estimateTokensAndCost(input, output, numberOfAgents, createdAt)`: costs of the estimated token counts. */
  function EstimateTokensAndCost(input: string, output: string, numberOfAgents: int, createdAt: int): (r: CostEstimate)
    ensures r.inputTokens == TokenEstimate(input) && r.outputTokens == TokenEstimate(output)
    ensures r == EstimateTokenCost(r.inputTokens, r.outputTokens, numberOfAgents, createdAt)
  {
    EstimateTokenCost(TokenEstimate(input), TokenEstimate(output), numberOfAgents, createdAt)
  }

  /** "abcd" is one token, "abcde" two, and the default empty output none. */
  lemma TokenEstimateExamples(createdAt: int)
    ensures EstimateTokensAndCost("abcd", "", 1, createdAt).inputTokens == 1
    ensures EstimateTokensAndCost("abcde", "", 1, createdAt).inputTokens == 2
    ensures EstimateTokensAndCost("abcd", "", 1, createdAt).outputTokens == 0
  {
  }
}
