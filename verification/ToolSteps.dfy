/** What a tool step is billed (src/language-model.ts): an estimate that should
    cost what one model call with a single output token would, whatever output
    was streamed. The call and the step are priced by the context tier each of
    them falls in (src/billing.ts, src/pricing-data.ts). */
module ToolSteps {

  import opened StepUsage

  // ------------------------------------------------------------------- catalog

  /** USD per million tokens. */
  datatype Rates = Rates(input: real, output: real, cacheRead: Option<real>, cacheWrite: Option<real>)

  datatype ModelCost = ModelCost(base: Rates, over200k: Option<Rates>)

  const PER_MILLION := 1000000.0

  const CONTEXT_TIER_TOKENS := 200000.0

  /** A category without a rate is charged nothing. */
  function PerToken(r: Rates): Prices {
    Prices(r.input / PER_MILLION, r.output / PER_MILLION,
           (if r.cacheRead.Some? then r.cacheRead.value else 0.0) / PER_MILLION,
           (if r.cacheWrite.Some? then r.cacheWrite.value else 0.0) / PER_MILLION)
  }

  /** Is a prompt of `inputSide` tokens in the dearer context tier? */
  predicate Over(cost: ModelCost, inputSide: nat) {
    cost.over200k.Some? && inputSide as real > CONTEXT_TIER_TOKENS
  }

  function HostStepPrices(cost: ModelCost, inputSide: nat): Prices {
    PerToken(if Over(cost, inputSide) then cost.over200k.value else cost.base)
  }

  /** Output costs no less than input and cache read, and the dearer tier no less than the base. */
  ghost predicate Regular(c: ModelCost) {
    && OutputDearest(PerToken(c.base))
    && (c.over200k.Some? ==> OutputDearest(PerToken(c.over200k.value)) && NoDearer(PerToken(c.base), PerToken(c.over200k.value)))
  }

  ghost predicate OutputDearest(p: Prices) {
    BaseHigh(p) <= p.output
  }

  /** No price of `q` is above that of `p`. */
  ghost predicate NoDearer(q: Prices, p: Prices) {
    q.input <= p.input && q.output <= p.output && q.cacheRead <= p.cacheRead && q.cacheWrite <= p.cacheWrite
  }

  const ClaudeSonnet4 := ModelCost(Rates(3.0, 15.0, Some(0.3), Some(3.75)), Some(Rates(6.0, 22.5, Some(0.6), Some(7.5))))

  /** The rates the generated table holds, each once. */
  predicate Published(c: ModelCost) {
    || c == ModelCost(Rates(10.0, 50.0, Some(1.0), Some(12.5)), None)
    || c == ModelCost(Rates(10.0, 50.0, Some(0.25), Some(12.5)), None)
    || c == ModelCost(Rates(1.0, 5.0, Some(0.1), Some(1.25)), None)
    || c == ModelCost(Rates(0.1, 0.5, Some(0.01), Some(0.125)), None)
    || c == ModelCost(Rates(5.0, 25.0, Some(0.5), Some(6.25)), None)
    || c == ModelCost(Rates(4.0, 20.0, Some(0.2), Some(5.0)), None)
    || c == ClaudeSonnet4
    || c == ModelCost(Rates(3.0, 15.0, Some(0.3), Some(3.75)), None)
    || c == ModelCost(Rates(2.0, 10.0, Some(0.2), Some(2.5)), None)
    || c == ModelCost(Rates(2.0, 10.0, Some(0.1), Some(2.5)), None)
    || c == ModelCost(Rates(0.5, 2.5, Some(0.2), None), None)
    || c == ModelCost(Rates(3.0, 15.0, Some(0.5), None), None)
    || c == ModelCost(Rates(0.3, 1.2, Some(0.006), None), None)
    || c == ModelCost(Rates(0.3, 2.5, Some(0.03), None), None)
    || c == ModelCost(Rates(0.5, 3.0, Some(0.05), None), None)
    || c == ModelCost(Rates(2.0, 12.0, Some(0.2), None), None)
    || c == ModelCost(Rates(1.5, 9.0, Some(0.15), None), None)
    || c == ModelCost(Rates(1.5, 7.5, Some(0.15), None), None)
    || c == ModelCost(Rates(0.75, 3.75, Some(0.075), None), None)
    || c == ModelCost(Rates(2.0, 10.0, Some(0.1), None), None)
    || c == ModelCost(Rates(1.4, 4.4, Some(0.26), None), None)
    || c == ModelCost(Rates(0.15, 0.5, Some(0.029), None), None)
    || c == ModelCost(Rates(0.25, 2.0, Some(0.025), None), None)
    || c == ModelCost(Rates(1.25, 10.0, Some(0.125), None), None)
    || c == ModelCost(Rates(1.75, 14.0, Some(0.175), None), None)
    || c == ModelCost(Rates(2.5, 15.0, Some(0.25), None), None)
    || c == ModelCost(Rates(0.75, 4.5, Some(0.075), None), None)
    || c == ModelCost(Rates(0.2, 1.25, Some(0.02), None), None)
    || c == ModelCost(Rates(5.0, 30.0, Some(0.5), None), None)
    || c == ModelCost(Rates(0.2, 1.2, Some(0.02), Some(0.25)), None)
    || c == ModelCost(Rates(4.0, 20.0, Some(0.4), Some(5.0)), None)
    || c == ModelCost(Rates(2.0, 12.0, Some(0.2), Some(2.5)), None)
    || c == ModelCost(Rates(2.0, 6.0, Some(0.5), None), None)
    || c == ModelCost(Rates(4.0, 18.0, Some(1.0), None), None)
    || c == ModelCost(Rates(4.0, 12.0, Some(1.0), None), None)
    || c == ModelCost(Rates(2.0, 6.0, Some(0.5), None), Some(Rates(4.0, 12.0, Some(1.0), None)))
    || c == ModelCost(Rates(4.0, 12.0, Some(1.0), None), Some(Rates(6.0, 18.0, Some(1.5), None)))
    || c == ModelCost(Rates(0.95, 4.0, Some(0.19), None), None)
    || c == ModelCost(Rates(3.0, 15.0, Some(0.3), None), None)
    || c == ModelCost(Rates(1.25, 4.25, Some(0.15), None), None)
    || c == ModelCost(Rates(4.0, 20.0, Some(0.2), None), None)
  }

  lemma PublishedIsRegular(c: ModelCost)
    requires Published(c)
    ensures Regular(c)
  {}

  // ------------------------------------------------------------------ the step

  /** What a tool step is made from: the context occupancy, the prefix carried
      over from the previous step, the streamed output and reasoning as estimated,
      and the model's cost entry. */
  datatype ToolStep = ToolStep(used: nat, prefix: nat, estimated: nat, reasoning: nat, cost: ModelCost)

  function CallPrices(s: ToolStep): Prices
    requires s.used > 0
  {
    HostStepPrices(s.cost, s.used - 1)
  }

  /** The call the step should cost as much as: one output token, no target. */
  function OneCall(s: ToolStep): StepInput
    requires s.used > 0
  {
    StepInput(s.used as real, s.prefix as real, Finite(1.0), Finite(0.0), Some(CallPrices(s)), None)
  }

  function Target(s: ToolStep): real
    requires s.used > 0
  {
    ShapeStepUsage(OneCall(s)).costUsd
  }

  /** The output the step reports: what was estimated, within the target. */
  function StepOutput(s: ToolStep): (output: nat)
    requires s.used > 0
    ensures 1 <= output <= s.used
  {
    Min(s.used, Min(Max(1, s.estimated), MaxOutputWithinUsd(Finite(s.used as real), CallPrices(s), Target(s))))
  }

  function StepPrices(s: ToolStep): Prices
    requires s.used > 0
  {
    HostStepPrices(s.cost, s.used - StepOutput(s))
  }

  function ToStepInput(s: ToolStep): StepInput
    requires s.used > 0
  {
    StepInput(s.used as real, s.prefix as real, Finite(StepOutput(s) as real), Finite(s.reasoning as real),
              Some(StepPrices(s)), Some(Target(s)))
  }

  function Billed(s: ToolStep): real
    requires s.used > 0
  {
    ShapeStepUsage(ToStepInput(s)).costUsd
  }

  /** The step costs what the call does, up to half a price gap. */
  ghost predicate KeepsTarget(s: ToolStep)
    requires s.used > 0
  {
    Abs(Billed(s) - Target(s)) <= HalfGap(StepPrices(s))
  }

  /** The call is in the dearer tier, and its output takes the step out of it. */
  predicate LeavesTier(s: ToolStep)
    requires s.used > 0
  {
    Over(s.cost, s.used - 1) && !Over(s.cost, s.used - StepOutput(s))
  }

  // ------------------------------------------------------------------ the call

  /** What the call costs: the prefix, as far as it fits, read from cache, the
      rest new input. */
  function CallCost(s: ToolStep): real
    requires s.used > 0
  {
    var p, cached := CallPrices(s), Min(s.used - 1, s.prefix);
    Worth(1, p.output) + Worth(s.used - 1 - cached, p.input) + Worth(cached, p.cacheRead)
  }

  lemma TargetIsCallCost(s: ToolStep)
    requires s.used > 0
    ensures Target(s) == CallCost(s)
  {
    var i, p, cached := OneCall(s), CallPrices(s), Min(s.used - 1, s.prefix);
    assert Used(i) == s.used && OutputOf(i) == 1;
    var split := Split(s.used - 1 - cached, cached, 0);
    assert SplitOf(i, s.used - 1) == split;
    NoWrite(p, split);
  }

  lemma NoWrite(p: Prices, split: Split)
    requires split.cacheWrite == 0
    ensures InputCost(p, split) == Worth(split.noCache, p.input) + Worth(split.cacheRead, p.cacheRead)
  {}

  /** The call costs what some step with one output token can, and uses no cache write. */
  lemma CallCostBounds(s: ToolStep)
    requires s.used > 0
    ensures var p := CallPrices(s);
            LeastCost(p, s.used, 1) <= CallCost(s) <= Worth(1, p.output) + Worth(s.used - 1, BaseHigh(p))
  {
    var p, cached := CallPrices(s), Min(s.used - 1, s.prefix);
    var split := Split(s.used - 1 - cached, cached, 0);
    NoWrite(p, split);
    SplitCostLeast(p, split, Cheapest(p));
    BaseCostMost(p, split);
  }

  lemma BaseCostMost(p: Prices, s: Split)
    requires s.cacheWrite == 0
    ensures InputCost(p, s) <= Worth(Total(s), BaseHigh(p))
  {
    WorthAdds(s.noCache, s.cacheRead, BaseHigh(p));
    WorthMonotone(s.noCache, p.input, BaseHigh(p));
    WorthMonotone(s.cacheRead, p.cacheRead, BaseHigh(p));
  }

  // ------------------------------------------------------- what the step can cost

  /** Whatever was estimated, the output reported leaves room for the input. */
  lemma OutputAdmitted(used: nat, output: nat, p: Prices, target: real)
    requires 1 <= output <= used && LeastCost(p, used, 1) <= target
    requires output <= MaxOutputWithinUsd(Finite(used as real), p, target)
    ensures LeastCost(p, used, output) <= target
  {
    assert WholeTokens(Finite(used as real)) == used;
    if p.output > Cheapest(p) {
      MaxOutputIsGreatest(Finite(used as real), p, target, output);
    } else {
      MoreCheapOutput(used, output, p.output, Cheapest(p));
    }
  }

  lemma MoreCheapOutput(used: nat, output: nat, price: real, c: real)
    requires price <= c && 1 <= output <= used
    ensures Worth(output, price) + Worth(used - output, c) <= Worth(1, price) + Worth(used - 1, c)
  {
    WorthAdds(1, output - 1, price);
    WorthAdds(output - 1, used - output, c);
    WorthMonotone(output - 1, price, c);
  }

  lemma MostCostGrows(p: Prices, used: nat, output: nat)
    requires OutputDearest(p) && 1 <= output <= used
    ensures Worth(1, p.output) + Worth(used - 1, BaseHigh(p)) <= MostCost(p, used, output)
  {
    WorthAdds(1, output - 1, p.output);
    WorthAdds(output - 1, used - output, BaseHigh(p));
    WorthMonotone(output - 1, BaseHigh(p), p.output);
    WorthMonotone(used - output, BaseHigh(p), Dearest(p));
  }

  lemma LeastCostNoDearer(q: Prices, p: Prices, used: nat, output: nat)
    requires NoDearer(q, p) && output <= used
    ensures LeastCost(q, used, output) <= LeastCost(p, used, output)
  {
    WorthMonotone(output, q.output, p.output);
    WorthMonotone(used - output, Cheapest(q), Cheapest(p));
  }

  /** Moving tokens to the output can only lower the prompt's tier. */
  lemma StepIsNoDearer(s: ToolStep)
    requires s.used > 0 && Regular(s.cost)
    ensures NoDearer(StepPrices(s), CallPrices(s)) && OutputDearest(CallPrices(s))
    ensures !LeavesTier(s) ==> StepPrices(s) == CallPrices(s)
  {}

  /** Whatever the cost entry: what the step is billed, by where the call's cost
      lies between the least and the most the step can cost. */
  lemma BilledRange(s: ToolStep)
    requires s.used > 0
    ensures var q, output, target := StepPrices(s), StepOutput(s), CallCost(s);
            && (target <= LeastCost(q, s.used, output) ==> Billed(s) == LeastCost(q, s.used, output))
            && (target >= MostCost(q, s.used, output) ==> Billed(s) == MostCost(q, s.used, output))
            && (LeastCost(q, s.used, output) <= target <= MostCost(q, s.used, output) ==> KeepsTarget(s))
            && (KeepsTarget(s) <==> LeastCost(q, s.used, output) - HalfGap(q) <= target <= MostCost(q, s.used, output) + HalfGap(q))
  {
    var i := ToStepInput(s);
    assert Used(i) == s.used && OutputOf(i) == StepOutput(s);
    TargetIsCallCost(s);
    ShapeMeetsTarget(i);
    WithinHalfGapIff(i);
  }

  lemma CallCostIsCarriable(s: ToolStep)
    requires s.used > 0 && Regular(s.cost)
    ensures LeastCost(StepPrices(s), s.used, StepOutput(s)) <= CallCost(s)
    ensures !LeavesTier(s) ==> CallCost(s) <= MostCost(StepPrices(s), s.used, StepOutput(s))
  {
    var p, output := CallPrices(s), StepOutput(s);
    TargetIsCallCost(s);
    CallCostBounds(s);
    OutputAdmitted(s.used, output, p, CallCost(s));
    StepIsNoDearer(s);
    LeastCostNoDearer(StepPrices(s), p, s.used, output);
    MostCostGrows(p, s.used, output);
  }

  /** For every cost entry of the table, a tool step is never billed more than
      the call would cost, up to half a price gap. It is billed no less either if
      and only if it stays in the call's context tier, or the lower tier it falls
      to can carry the call's cost; otherwise it is billed the most it can be. */
  lemma EstimateKeepsOneCallCost(s: ToolStep)
    requires s.used > 0 && Published(s.cost)
    ensures var q, output, target := StepPrices(s), StepOutput(s), CallCost(s);
            && Billed(s) <= target + HalfGap(q)
            && (KeepsTarget(s) <==> !LeavesTier(s) || target <= MostCost(q, s.used, output) + HalfGap(q))
            && (!KeepsTarget(s) ==> Billed(s) == MostCost(q, s.used, output) < target - HalfGap(q))
  {
    PublishedIsRegular(s.cost);
    TargetIsCallCost(s);
    CallCostIsCarriable(s);
    BilledRange(s);
    HalfGapNonNegative(StepPrices(s));
  }

  // ------------------------------------------------------------- a tier crossing

  /** Just above the threshold: 600 tokens of output take the prompt below it. */
  lemma CrossingStep() returns (s: ToolStep)
    ensures s.used as real == 200500.0 && s.prefix == 0 && s.estimated as real == 600.0 && s.cost == ClaudeSonnet4
  {
    s := ToolStep(200500, 0, 600, 0, ClaudeSonnet4);
  }

  lemma CrossingCall(s: ToolStep)
    requires s.used as real == 200500.0 && s.prefix == 0 && s.cost == ClaudeSonnet4
    ensures Over(s.cost, s.used - 1) && CallPrices(s) == PerToken(s.cost.over200k.value) && CallCost(s) == 1.2030165
  {
    var p := CallPrices(s);
    WorthIsProduct(1, p.output);
    WorthIsProduct(s.used - 1, p.input);
  }

  lemma CrossingOutput(s: ToolStep)
    requires s.used as real == 200500.0 && s.prefix == 0 && s.estimated as real == 600.0 && s.cost == ClaudeSonnet4
    ensures StepOutput(s) == s.estimated
  {
    var p := CallPrices(s);
    CrossingCall(s);
    TargetIsCallCost(s);
    WorthIsProduct(s.used, Cheapest(p));
    assert WholeTokens(Finite(s.used as real)) == s.used;
    var room := Target(s) - Worth(s.used, Cheapest(p));
    FloorOfQuotient(room, p.output - Cheapest(p), s.estimated);
  }

  /** A published model and a step for which the lower tier cannot: the call
      costs 1.2030165 USD and the step is billed 0.758625. */
  lemma CrossingTierBillsLess() returns (s: ToolStep)
    ensures s.used > 0 && Published(s.cost) && LeavesTier(s) && !KeepsTarget(s)
    ensures s.used as real == 200500.0 && s.prefix == 0 && s.estimated as real == 600.0 && s.cost == ClaudeSonnet4
    ensures Target(s) == 1.2030165 && Billed(s) == 0.758625
  {
    s := CrossingStep();
    CrossingCall(s);
    CrossingOutput(s);
    CrossingBilled(s);
    TargetIsCallCost(s);
  }

  lemma CrossingBilled(s: ToolStep)
    requires s.used as real == 200500.0 && s.cost == ClaudeSonnet4
    requires StepOutput(s) as real == 600.0 && CallCost(s) == 1.2030165
    ensures !Over(s.cost, s.used - StepOutput(s)) && !KeepsTarget(s) && Billed(s) == 0.758625
  {
    var q, output := StepPrices(s), StepOutput(s);
    WorthIsProduct(output, q.output);
    WorthIsProduct(s.used - output, Dearest(q));
    BilledRange(s);
  }
}
