/**
 Token accounting: the usage adapter (telemetry.rs), the Anthropic mapping (agent.rs), the
 run's running total (token_consumption.rs) and the budget lattice (mission.rs).
 Ratios are exact rationals; the source's f64 rounding is left out.
 */
module Usage {
  import opened Common

  // ---------------------------------------------------------------- provider usage

  /** The counts of a `usage` object that are present and are u64 numbers. */
  datatype UsageObject = UsageObject(
    input: Option<nat>, cached: Option<nat>, output: Option<nat>,
    reasoningOutput: Option<nat>, reasoning: Option<nat>, total: Option<nat>)

  datatype Source = ProviderReported | WorkerCalculated | Unavailable

  datatype NormalizedUsage = NormalizedUsage(
    input: Option<nat>, cached: Option<nat>, output: Option<nat>, reasoning: Option<nat>,
    total: Option<nat>, source: Source)

  const NO_USAGE := NormalizedUsage(None, None, None, None, None, Unavailable)

  function CheckedAdd(a: nat, b: nat): Option<nat> { if a + b <= U64_MAX then Some(a + b) else None }

  function NormalizeUsage(usage: Option<UsageObject>): NormalizedUsage {
    if usage.None? then NO_USAGE else
    var u := usage.value;
    var cached := if u.input.Some? && u.cached.Some? && u.cached.value > u.input.value then None else u.cached;
    var reasoning := if u.reasoningOutput.Some? then u.reasoningOutput else u.reasoning;
    var calculated := if u.input.Some? && u.output.Some? then CheckedAdd(u.input.value, u.output.value) else None;
    var source :=
      if u.total.Some? then ProviderReported
      else if calculated.Some? then WorkerCalculated
      else if u.input.Some? || cached.Some? || u.output.Some? || reasoning.Some? then ProviderReported
      else Unavailable;
    NormalizedUsage(u.input, cached, u.output, reasoning, if u.total.Some? then u.total else calculated, source)
  }

  /** The adapter never passes on more cached input than input. */
  lemma AdapterBoundsCached(usage: Option<UsageObject>)
    ensures var n := NormalizeUsage(usage);
      n.input.Some? && n.cached.Some? ==> n.cached.value <= n.input.value
  {
  }

  /** Each count of a usage object: passed on, but cached input that cannot be part of input; the total reported or worked out. */
  lemma NormalizedExactly(u: UsageObject)
    ensures var n := NormalizeUsage(Some(u));
      && n.input == u.input && n.output == u.output
      && (n.cached == u.cached <==> u.cached.None? || u.input.None? || u.cached.value <= u.input.value)
      && (n.cached != u.cached ==> n.cached.None?)
      && (n.reasoning.Some? <==> u.reasoningOutput.Some? || u.reasoning.Some?)
      && (n.reasoning.Some? ==> n.reasoning == u.reasoningOutput || (u.reasoningOutput.None? && n.reasoning == u.reasoning))
      && (u.total.Some? ==> n.total == u.total)
      && (u.total.None? ==>
            (n.total.Some? <==> u.input.Some? && u.output.Some? && u.input.value + u.output.value <= U64_MAX)
            && (n.total.Some? ==> n.total == Some(u.input.value + u.output.value)))
      && (n.source == WorkerCalculated <==> u.total.None? && n.total.Some?)
      && (n.source == Unavailable <==>
            n.total.None? && n.input.None? && n.cached.None? && n.output.None? && n.reasoning.None?)
  {
  }

  /** Anthropic's own counts; `cacheWrite` and `cacheRead` default to zero. */
  datatype AnthropicUsage = AnthropicUsage(
    uncached: Option<nat>, cacheWrite: Option<nat>, cacheRead: Option<nat>, output: Option<nat>, thinking: Option<nat>)

  function OrZero(n: Option<nat>): nat { match n case Some(value) => value case None => 0 }

  function CanonicalUsage(u: AnthropicUsage): Option<UsageObject> {
    if u.output.None? || u.uncached.None? then None else
    match CheckedAdd(u.uncached.value, OrZero(u.cacheWrite))
    case None => None
    case Some(written) =>
      match CheckedAdd(written, OrZero(u.cacheRead))
      case None => None
      case Some(input) =>
        match CheckedAdd(input, u.output.value)
        case None => None
        case Some(total) =>
          Some(UsageObject(Some(input), Some(OrZero(u.cacheRead)), u.output, u.thinking, None, Some(total)))
  }

  /**
   The Anthropic mapping exists exactly when the two required counts do and everything
   together fits a u64; the adapter then passes every count on unchanged, with cached
   input within input and the total their sum.
   */
  lemma CanonicalUsagePassesThrough(u: AnthropicUsage)
    ensures CanonicalUsage(u).Some? <==>
      u.output.Some? && u.uncached.Some?
      && u.uncached.value + OrZero(u.cacheWrite) + OrZero(u.cacheRead) + u.output.value <= U64_MAX
    ensures CanonicalUsage(u).Some? ==>
      var n := NormalizeUsage(CanonicalUsage(u));
      && n.input == Some(u.uncached.value + OrZero(u.cacheWrite) + OrZero(u.cacheRead))
      && n.cached == Some(OrZero(u.cacheRead)) && n.output == u.output && n.reasoning == u.thinking
      && n.cached.value <= n.input.value && n.total == Some(n.input.value + n.output.value)
      && n.source == ProviderReported
  {
  }

  // ---------------------------------------------------------------- the running total

  datatype TokenConsumption = TokenConsumption(input: nat, cached: nat, output: nat)

  const NOTHING_CONSUMED := TokenConsumption(0, 0, 0)

  predicate FitsU64(c: TokenConsumption) { c.input <= U64_MAX && c.cached <= U64_MAX && c.output <= U64_MAX }

  /** `add_counts`, which may fail after it has already added some of the counts. */
  function AddCounts(c: TokenConsumption, input: nat, cached: nat, output: nat): (TokenConsumption, bool) {
    if cached > input then (c, false)
    else if c.input + input > U64_MAX then (c, false)
    else if c.cached + cached > U64_MAX then (c.(input := c.input + input), false)
    else if c.output + output > U64_MAX then (c.(input := c.input + input, cached := c.cached + cached), false)
    else
      var sum := TokenConsumption(c.input + input, c.cached + cached, c.output + output);
      (sum, sum.input + sum.output <= U64_MAX)
  }

  /** Cached and uncached input and output all only grow, even when the addition fails half-way. */
  predicate Grows(a: TokenConsumption, b: TokenConsumption) {
    a.input <= b.input && a.cached <= b.cached && a.output <= b.output
    && a.input - a.cached <= b.input - b.cached
  }

  lemma AddCountsGrows(c: TokenConsumption, input: nat, cached: nat, output: nat)
    requires FitsU64(c) && c.cached <= c.input
    ensures var (sum, ok) := AddCounts(c, input, cached, output);
      FitsU64(sum) && sum.cached <= sum.input && Grows(c, sum)
    ensures cached <= input && c.input + c.output + input + output <= U64_MAX ==>
      AddCounts(c, input, cached, output) == (TokenConsumption(c.input + input, c.cached + cached, c.output + output), true)
  {
  }

  // ---------------------------------------------------------------- budgets

  datatype BudgetUsage = BudgetUsage(
    initialPrompt: nat, turns: nat, toolCalls: nat, peakContext: nat,
    uncachedInput: nat, cachedInput: nat, output: nat, durationMs: nat)

  datatype BudgetStage = Normal | Constrained | FinalizationRequired | HardLimit

  predicate FitsWidths(u: BudgetUsage) {
    u.initialPrompt <= U64_MAX && u.turns <= U32_MAX && u.toolCalls <= U32_MAX && u.peakContext <= U64_MAX
    && u.uncachedInput <= U64_MAX && u.cachedInput <= U64_MAX && u.output <= U64_MAX && u.durationMs <= U64_MAX
  }

  predicate AtMost(a: BudgetUsage, b: BudgetUsage) {
    a.initialPrompt <= b.initialPrompt && a.turns <= b.turns && a.toolCalls <= b.toolCalls
    && a.peakContext <= b.peakContext && a.uncachedInput <= b.uncachedInput && a.cachedInput <= b.cachedInput
    && a.output <= b.output && a.durationMs <= b.durationMs
  }

  function CombinedWith(a: BudgetUsage, b: BudgetUsage): BudgetUsage
    requires FitsWidths(a)
  {
    BudgetUsage(
      Max(a.initialPrompt, b.initialPrompt),
      SaturatingAdd(a.turns, b.turns, U32_MAX),
      SaturatingAdd(a.toolCalls, b.toolCalls, U32_MAX),
      Max(a.peakContext, b.peakContext),
      SaturatingAdd(a.uncachedInput, b.uncachedInput, U64_MAX),
      SaturatingAdd(a.cachedInput, b.cachedInput, U64_MAX),
      SaturatingAdd(a.output, b.output, U64_MAX),
      SaturatingAdd(a.durationMs, b.durationMs, U64_MAX))
  }

  /** The merge is associative, commutative, inflationary and monotone. */
  lemma CombinedLattice(a: BudgetUsage, b: BudgetUsage, c: BudgetUsage)
    requires FitsWidths(a) && FitsWidths(b) && FitsWidths(c)
    ensures FitsWidths(CombinedWith(a, b)) && FitsWidths(CombinedWith(b, c)) && FitsWidths(CombinedWith(a, c))
    ensures CombinedWith(CombinedWith(a, b), c) == CombinedWith(a, CombinedWith(b, c))
    ensures CombinedWith(a, b) == CombinedWith(b, a)
    ensures AtMost(a, CombinedWith(a, b))
    ensures AtMost(b, c) ==> AtMost(CombinedWith(a, b), CombinedWith(a, c))
  {
  }

  /** Whether any dimension has reached `tenths` tenths of its limit. */
  predicate Reaches(u: BudgetUsage, budget: BudgetUsage, tenths: nat) {
    || u.initialPrompt * 10 >= tenths * Max(budget.initialPrompt, 1)
    || u.turns * 10 >= tenths * Max(budget.turns, 1)
    || u.toolCalls * 10 >= tenths * Max(budget.toolCalls, 1)
    || u.peakContext * 10 >= tenths * Max(budget.peakContext, 1)
    || u.uncachedInput * 10 >= tenths * Max(budget.uncachedInput, 1)
    || u.cachedInput * 10 >= tenths * Max(budget.cachedInput, 1)
    || u.output * 10 >= tenths * Max(budget.output, 1)
    || u.durationMs * 10 >= tenths * Max(budget.durationMs, 1)
  }

  function Stage(u: BudgetUsage, budget: BudgetUsage): BudgetStage {
    if Reaches(u, budget, 10) then HardLimit
    else if Reaches(u, budget, 9) then FinalizationRequired
    else if Reaches(u, budget, 7) then Constrained
    else Normal
  }

  function Rank(stage: BudgetStage): nat {
    match stage case Normal => 0 case Constrained => 1 case FinalizationRequired => 2 case HardLimit => 3
  }

  lemma StageMonotone(a: BudgetUsage, b: BudgetUsage, budget: BudgetUsage)
    requires AtMost(a, b)
    ensures Rank(Stage(a, budget)) <= Rank(Stage(b, budget))
  {
    forall tenths: nat | Reaches(a, budget, tenths) { ReachesMonotone(a, b, budget, tenths); }
  }

  lemma ReachesMonotone(a: BudgetUsage, b: BudgetUsage, budget: BudgetUsage, tenths: nat)
    requires AtMost(a, b) && Reaches(a, budget, tenths)
    ensures Reaches(b, budget, tenths)
  {
  }

  /** The dimensions of a usage, in one order. */
  function Dimensions(u: BudgetUsage): seq<nat> {
    [u.initialPrompt, u.turns, u.toolCalls, u.peakContext, u.uncachedInput, u.cachedInput, u.output, u.durationMs]
  }

  /** Some dimension is at or past this many tenths of its limit, a limit of nothing counting as one. */
  predicate At(u: BudgetUsage, budget: BudgetUsage, tenths: nat) {
    exists i :: 0 <= i < 8 && 10 * Dimensions(u)[i] >= tenths * Max(Dimensions(budget)[i], 1)
  }

  lemma ReachesIsAt(u: BudgetUsage, budget: BudgetUsage, tenths: nat)
    ensures Reaches(u, budget, tenths) <==> At(u, budget, tenths)
  {
    var d, b := Dimensions(u), Dimensions(budget);
    if Reaches(u, budget, tenths) {
      assert exists i :: 0 <= i < 8 && 10 * d[i] >= tenths * Max(b[i], 1) by {
        if 10 * d[0] >= tenths * Max(b[0], 1) {
        } else if 10 * d[1] >= tenths * Max(b[1], 1) {
        } else if 10 * d[2] >= tenths * Max(b[2], 1) {
        } else if 10 * d[3] >= tenths * Max(b[3], 1) {
        } else if 10 * d[4] >= tenths * Max(b[4], 1) {
        } else if 10 * d[5] >= tenths * Max(b[5], 1) {
        } else if 10 * d[6] >= tenths * Max(b[6], 1) {
        } else {
          assert 10 * d[7] >= tenths * Max(b[7], 1);
        }
      }
    }
  }

  /**
   The stage is that of the dimension furthest along: the hard limit exactly when one has
   reached its limit, finalization from nine tenths, constrained from seven, and otherwise
   normal, as it is while nothing has been used.
   */
  lemma StageExactly(u: BudgetUsage, budget: BudgetUsage)
    ensures Stage(u, budget) == HardLimit <==> At(u, budget, 10)
    ensures Stage(u, budget) == FinalizationRequired <==> At(u, budget, 9) && !At(u, budget, 10)
    ensures Stage(u, budget) == Constrained <==> At(u, budget, 7) && !At(u, budget, 9)
    ensures Stage(u, budget) == Normal <==> !At(u, budget, 7)
    ensures At(u, budget, 10) ==> At(u, budget, 9)
    ensures At(u, budget, 9) ==> At(u, budget, 7)
    ensures Stage(BudgetUsage(0, 0, 0, 0, 0, 0, 0, 0), budget) == Normal
  {
    ReachesIsAt(u, budget, 10);
    ReachesIsAt(u, budget, 9);
    ReachesIsAt(u, budget, 7);
  }

  // ---------------------------------------------------------------- totals without widths

  /** The usage of several parts: the largest prompt and context, and the sums of the rest. */
  function Together(a: BudgetUsage, b: BudgetUsage): BudgetUsage {
    BudgetUsage(Max(a.initialPrompt, b.initialPrompt), a.turns + b.turns, a.toolCalls + b.toolCalls,
                Max(a.peakContext, b.peakContext), a.uncachedInput + b.uncachedInput, a.cachedInput + b.cachedInput,
                a.output + b.output, a.durationMs + b.durationMs)
  }

  /** What of it fits the source's widths. */
  function Clipped(u: BudgetUsage): BudgetUsage {
    BudgetUsage(Min(u.initialPrompt, U64_MAX), Min(u.turns, U32_MAX), Min(u.toolCalls, U32_MAX), Min(u.peakContext, U64_MAX),
                Min(u.uncachedInput, U64_MAX), Min(u.cachedInput, U64_MAX), Min(u.output, U64_MAX),
                Min(u.durationMs, U64_MAX))
  }

  /** Saturating at each step is the same as adding everything up and saturating once. */
  lemma CombinedIsClipped(a: BudgetUsage, b: BudgetUsage)
    requires FitsWidths(b)
    ensures FitsWidths(Clipped(a)) && CombinedWith(Clipped(a), b) == Clipped(Together(a, b))
  {
  }
}
