/** The usage a step reports to the host (src/billing.ts): an exact partition of
    the context occupancy whose catalog price meets a target as closely as whole
    tokens allow.

    Prices are USD per token, over the reals: rounding of binary floating point
    is not modelled. A token counter may be any JavaScript number, so it is
    `Finite` or `NonFinite` (NaN and the infinities). */
module StepUsage {

  datatype Option<T> = None | Some(value: T)

  datatype Num = Finite(value: real) | NonFinite

  datatype Category = NoCache | CacheRead | CacheWrite

  datatype Prices = Prices(input: real, output: real, cacheRead: real, cacheWrite: real)

  /** Input tokens by category. */
  datatype Split = Split(noCache: nat, cacheRead: nat, cacheWrite: nat)

  datatype Usage = Usage(input: Split, output: nat, reasoning: nat)

  datatype Choice = Choice(category: Category, price: real)

  datatype StepInput = StepInput(
    usedTokens: real,
    prefixTokens: real,
    outputTokens: Num,
    reasoningTokens: Num,
    prices: Option<Prices>,
    targetUsd: Option<real>)

  datatype Shaped = Shaped(usage: Usage, costUsd: real)

  function Min(a: int, b: int): int {
    if a <= b then a else b
  }

  function Max(a: int, b: int): int {
    if a >= b then a else b
  }

  function MinReal(a: real, b: real): real {
    if a <= b then a else b
  }

  function MaxReal(a: real, b: real): real {
    if a >= b then a else b
  }

  /** Truncation toward zero. */
  function Trunc(x: real): int {
    if x >= 0.0 then x.Floor else -((-x).Floor)
  }

  /** The nearest whole number, halves up. */
  function Round(x: real): int {
    (x + 0.5).Floor
  }

  function WholeTokens(n: Num): nat {
    if n.Finite? && n.value > 0.0 then n.value.Floor else 0
  }

  // ------------------------------------------------------------ split and cost

  function PriceOf(p: Prices, c: Category): real {
    match c
    case NoCache => p.input
    case CacheRead => p.cacheRead
    case CacheWrite => p.cacheWrite
  }

  /** What `n` tokens cost at a price. */
  function Worth(n: nat, price: real): real {
    if n == 0 then 0.0 else Worth(n - 1, price) + price
  }

  lemma {:induction false} WorthIsProduct(n: nat, price: real)
    ensures Worth(n, price) == n as real * price
  {
    if n > 0 {
      WorthIsProduct(n - 1, price);
      assert (n - 1) as real == n as real - 1.0;
      assert (n as real - 1.0) * price == n as real * price - price;
    }
  }

  lemma {:induction false} WorthMonotone(n: nat, a: real, b: real)
    requires a <= b
    ensures Worth(n, a) <= Worth(n, b)
  {
    if n > 0 {
      WorthMonotone(n - 1, a, b);
    }
  }

  lemma {:induction false} WorthAdds(m: nat, n: nat, price: real)
    ensures Worth(m + n, price) == Worth(m, price) + Worth(n, price)
  {
    if n > 0 {
      WorthAdds(m, n - 1, price);
    }
  }

  function Add(s: Split, c: Category, n: nat): Split {
    match c
    case NoCache => s.(noCache := s.noCache + n)
    case CacheRead => s.(cacheRead := s.cacheRead + n)
    case CacheWrite => s.(cacheWrite := s.cacheWrite + n)
  }

  function Total(s: Split): nat {
    s.noCache + s.cacheRead + s.cacheWrite
  }

  function InputCost(p: Prices, s: Split): real {
    Worth(s.noCache, p.input) + Worth(s.cacheRead, p.cacheRead) + Worth(s.cacheWrite, p.cacheWrite)
  }

  function HostUsageCost(p: Prices, u: Usage): real {
    InputCost(p, u.input) + Worth(u.output, p.output)
  }

  // ------------------------------------------------- a mix of two categories

  /** The share of the dearer category that would meet the budget exactly. */
  function Share(n: nat, budget: real, low: real, high: real): real
    requires high > low
  {
    (budget - Worth(n, low)) / (high - low)
  }

  /** How many of `n` tokens the mix puts in the dearer category. */
  function AtHigh(n: nat, budget: real, low: real, high: real): (k: nat)
    ensures k <= n
  {
    if high > low then Min(n, Max(0, Round(Share(n, budget, low, high)))) else 0
  }

  function Mix(n: nat, budget: real, low: Choice, high: Choice): Split {
    var k := AtHigh(n, budget, low.price, high.price);
    Add(Add(Split(0, 0, 0), high.category, k), low.category, n - k)
  }

  function MixCost(n: nat, k: nat, low: real, high: real): real
    requires k <= n
  {
    Worth(k, high) + Worth(n - k, low)
  }

  function Abs(x: real): real {
    if x >= 0.0 then x else -x
  }

  lemma RoundBounds(q: real)
    ensures Round(q) as real - 0.5 <= q < Round(q) as real + 0.5
  {}

  lemma NearestWhole(q: real, r: int, k: int)
    requires r as real - 0.5 <= q <= r as real + 0.5
    ensures Abs(r as real - q) <= Abs(k as real - q) && Abs(r as real - q) <= 0.5
  {
    if k > r {
      assert k as real >= r as real + 1.0;
    } else if k < r {
      assert k as real <= r as real - 1.0;
    }
  }

  /** Clamping a nearest whole number into `0..n` keeps it the nearest there. */
  lemma ClampedNearest(n: nat, q: real, r: int, k: int)
    requires 0 <= k <= n && r as real - 0.5 <= q <= r as real + 0.5
    ensures Abs(Min(n, Max(0, r)) as real - q) <= Abs(k as real - q)
  {
    var at := Min(n, Max(0, r));
    if at == r {
      NearestWhole(q, r, k);
    } else if at < r {
      assert k as real <= at as real <= r as real - 1.0;
    } else {
      assert k as real >= at as real >= r as real + 1.0;
    }
  }

  lemma AbsScales(x: real, span: real)
    requires span > 0.0
    ensures Abs(x * span) == Abs(x) * span
  {
    if x >= 0.0 {
      assert x * span >= 0.0;
    } else {
      assert (-x) * span > 0.0;
    }
  }

  lemma MulMonotone(span: real, a: real, b: real)
    requires span >= 0.0 && a <= b
    ensures span * a <= span * b && a * span <= b * span
  {
    assert (b - a) * span >= 0.0;
  }

  lemma ShareMeetsBudget(n: nat, budget: real, low: real, high: real)
    requires high > low
    ensures Share(n, budget, low, high) * (high - low) == budget - Worth(n, low)
  {
    DivideBack(budget - Worth(n, low), high - low);
  }

  lemma DivideBack(x: real, span: real)
    requires span > 0.0
    ensures (x / span) * span == x
  {}

  lemma MixCostFrom(n: nat, k: nat, low: real, high: real)
    requires k <= n
    ensures MixCost(n, k, low, high) == Worth(n, low) + k as real * (high - low)
  {
    WorthAdds(k, n - k, low);
    WorthIsProduct(k, low);
    WorthIsProduct(k, high);
    assert k as real * (high - low) == k as real * high - k as real * low;
  }

  /** How far a mix that costs `cost` with `k` tokens at the dear price misses
      the budget that `q` tokens there would meet. */
  lemma MissScales(cost: real, budget: real, base: real, span: real, q: real, k: nat)
    requires span > 0.0 && q * span == budget - base && cost == base + k as real * span
    ensures Abs(cost - budget) == Abs(k as real - q) * span
  {
    AbsScales(k as real - q, span);
    DistributeDifference(k as real, q, span);
  }

  lemma DistributeDifference(x: real, y: real, span: real)
    ensures (x - y) * span == x * span - y * span
  {}

  lemma ScaledOrder(x: real, y: real, a: real, b: real, span: real)
    requires span > 0.0 && a <= b && x == a * span && y == b * span
    ensures x <= y
  {
    MulMonotone(span, a, b);
  }

  lemma CloserShare(cost: real, cost': real, budget: real, base: real, span: real, q: real, at: nat, k: nat)
    requires span > 0.0 && q * span == budget - base
    requires cost == base + at as real * span && cost' == base + k as real * span
    requires Abs(at as real - q) <= Abs(k as real - q)
    ensures Abs(cost - budget) <= Abs(cost' - budget)
  {
    MissScales(cost, budget, base, span, q, at);
    MissScales(cost', budget, base, span, q, k);
    ScaledOrder(Abs(cost - budget), Abs(cost' - budget), Abs(at as real - q), Abs(k as real - q), span);
  }

  lemma CloseShare(cost: real, budget: real, base: real, span: real, q: real, at: nat)
    requires span > 0.0 && q * span == budget - base && cost == base + at as real * span
    requires Abs(at as real - q) <= 0.5
    ensures Abs(cost - budget) <= span / 2.0
  {
    MissScales(cost, budget, base, span, q, at);
    ScaledOrder(Abs(cost - budget), 0.5 * span, Abs(at as real - q), 0.5, span);
  }

  lemma SpannedCost(n: nat, k: nat, low: real, high: real, span: real)
    requires k <= n && span == high - low
    ensures MixCost(n, k, low, high) == Worth(n, low) + k as real * span
  {
    MixCostFrom(n, k, low, high);
  }

  lemma FlatCost(n: nat, k: nat, price: real)
    requires k <= n
    ensures MixCost(n, k, price, price) == Worth(n, price)
  {
    WorthAdds(k, n - k, price);
  }

  lemma MixCloser(n: nat, budget: real, low: real, high: real, span: real, q: real, at: nat, k: nat)
    requires span == high - low > 0.0 && at <= n && k <= n && q * span == budget - Worth(n, low)
    requires Abs(at as real - q) <= Abs(k as real - q)
    ensures Abs(MixCost(n, at, low, high) - budget) <= Abs(MixCost(n, k, low, high) - budget)
  {
    SpannedCost(n, at, low, high, span);
    SpannedCost(n, k, low, high, span);
    CloserShare(MixCost(n, at, low, high), MixCost(n, k, low, high), budget, Worth(n, low), span, q, at, k);
  }

  lemma MixClose(n: nat, budget: real, low: real, high: real, span: real, q: real, at: nat)
    requires span == high - low > 0.0 && at <= n && q * span == budget - Worth(n, low)
    requires Abs(at as real - q) <= 0.5
    ensures Abs(MixCost(n, at, low, high) - budget) <= span / 2.0
  {
    SpannedCost(n, at, low, high, span);
    CloseShare(MixCost(n, at, low, high), budget, Worth(n, low), span, q, at);
  }

  /** No other whole-token mix of the two categories comes closer to the budget. */
  lemma MixIsClosest(n: nat, budget: real, low: real, high: real, k: nat)
    requires low <= high && k <= n
    ensures Abs(MixCost(n, AtHigh(n, budget, low, high), low, high) - budget) <= Abs(MixCost(n, k, low, high) - budget)
  {
    var at := AtHigh(n, budget, low, high);
    if low < high {
      var q := Share(n, budget, low, high);
      RoundBounds(q);
      ClampedNearest(n, q, Round(q), k);
      ShareMeetsBudget(n, budget, low, high);
      MixCloser(n, budget, low, high, high - low, q, at, k);
    } else {
      FlatCost(n, at, low);
      FlatCost(n, k, low);
    }
  }

  lemma ShareInRange(n: nat, budget: real, low: real, high: real)
    requires high > low
    ensures budget >= Worth(n, low) <==> Share(n, budget, low, high) >= 0.0
    ensures budget <= Worth(n, low) <==> Share(n, budget, low, high) <= 0.0
    ensures budget >= Worth(n, high) <==> Share(n, budget, low, high) >= n as real
    ensures budget <= Worth(n, high) <==> Share(n, budget, low, high) <= n as real
  {
    var q, span := Share(n, budget, low, high), high - low;
    ShareMeetsBudget(n, budget, low, high);
    SameOrder(0.0, q, span);
    SameOrder(n as real, q, span);
    MixCostFrom(n, n, low, high);
  }

  lemma SameOrder(a: real, b: real, span: real)
    requires span > 0.0
    ensures a <= b <==> a * span <= b * span
    ensures b <= a <==> b * span <= a * span
  {
    if a < b {
      assert (b - a) * span > 0.0;
    } else if b < a {
      assert (a - b) * span > 0.0;
    }
  }

  lemma ShareWithin(n: nat, budget: real, low: real, high: real) returns (q: real, span: real)
    requires low < high && Worth(n, low) <= budget <= Worth(n, high)
    ensures span == high - low && q * span == budget - Worth(n, low)
    ensures Abs(AtHigh(n, budget, low, high) as real - q) <= 0.5
  {
    q, span := Share(n, budget, low, high), high - low;
    ShareInRange(n, budget, low, high);
    RoundBounds(q);
    WholeInRange(n, q, Round(q));
    NearestWhole(q, Round(q), 0);
    ShareMeetsBudget(n, budget, low, high);
  }

  /** A budget the two categories bracket is met within half their price gap. */
  lemma MixWithin(n: nat, budget: real, low: real, high: real)
    requires Worth(n, low) <= budget <= Worth(n, high) && low <= high
    ensures Abs(MixCost(n, AtHigh(n, budget, low, high), low, high) - budget) <= (high - low) / 2.0
  {
    var at := AtHigh(n, budget, low, high);
    if low < high {
      var q, span := ShareWithin(n, budget, low, high);
      MixClose(n, budget, low, high, span, q, at);
    } else {
      FlatCost(n, at, low);
    }
  }

  lemma WholeInRange(n: nat, q: real, r: int)
    requires 0.0 <= q <= n as real && r as real - 0.5 <= q < r as real + 0.5
    ensures 0 <= r <= n
  {
    WholeNotAbove(r, n);
    WholeNotAbove(0, r);
  }

  lemma WholeNotAbove(a: int, b: int)
    requires a as real < b as real + 1.0
    ensures a <= b
  {}

  /** A budget below what the pair can carry gets the cheap end, one above it the dear end. */
  lemma MixOutside(n: nat, budget: real, low: real, high: real)
    requires low <= high
    ensures budget <= Worth(n, low) ==> MixCost(n, AtHigh(n, budget, low, high), low, high) == Worth(n, low)
    ensures budget >= Worth(n, high) ==> MixCost(n, AtHigh(n, budget, low, high), low, high) == Worth(n, high)
  {
    var at := AtHigh(n, budget, low, high);
    MixCostFrom(n, at, low, high);
    if low < high {
      var q, span := Share(n, budget, low, high), high - low;
      ShareInRange(n, budget, low, high);
      RoundBounds(q);
      if budget <= Worth(n, low) {
        WholeNotAbove(Round(q), 0);
      }
      if budget >= Worth(n, high) {
        WholeNotAbove(n, Round(q));
        assert at == n;
        assert MixCost(n, n, low, high) == Worth(n, high);
      }
    }
  }

  lemma AddCost(p: Prices, s: Split, c: Category, n: nat)
    ensures InputCost(p, Add(s, c, n)) == InputCost(p, s) + Worth(n, PriceOf(p, c))
    ensures Total(Add(s, c, n)) == Total(s) + n
  {
    match c
    case NoCache => WorthAdds(s.noCache, n, p.input);
    case CacheRead => WorthAdds(s.cacheRead, n, p.cacheRead);
    case CacheWrite => WorthAdds(s.cacheWrite, n, p.cacheWrite);
  }

  lemma MixShape(p: Prices, n: nat, budget: real, low: Choice, high: Choice)
    requires low.price == PriceOf(p, low.category) && high.price == PriceOf(p, high.category)
    ensures InputCost(p, Mix(n, budget, low, high)) == MixCost(n, AtHigh(n, budget, low.price, high.price), low.price, high.price)
  {
    var k := AtHigh(n, budget, low.price, high.price);
    var none := Split(0, 0, 0);
    AddCost(p, none, high.category, k);
    AddCost(p, Add(none, high.category, k), low.category, n - k);
  }

  // -------------------------------------------------------- choosing the pair

  /** A stable insertion by price: equal prices keep their order. */
  function Insert(c: Choice, sorted: seq<Choice>): (r: seq<Choice>)
    ensures |r| == |sorted| + 1
  {
    if sorted == [] then [c]
    else if c.price <= sorted[0].price then [c] + sorted
    else [sorted[0]] + Insert(c, sorted[1..])
  }

  function ByPrice(choices: seq<Choice>): (r: seq<Choice>)
    ensures |r| == |choices|
  {
    if choices == [] then [] else Insert(choices[0], ByPrice(choices[1..]))
  }

  function Pair(p: Prices): seq<Choice> {
    [Choice(NoCache, p.input), Choice(CacheRead, p.cacheRead)]
  }

  function All(p: Prices): seq<Choice> {
    [Choice(NoCache, p.input), Choice(CacheRead, p.cacheRead), Choice(CacheWrite, p.cacheWrite)]
  }

  ghost predicate Sorted(s: seq<Choice>) {
    forall i, j :: 0 <= i <= j < |s| ==> s[i].price <= s[j].price
  }

  lemma {:induction false} InsertKeeps(c: Choice, s: seq<Choice>)
    ensures multiset(Insert(c, s)) == multiset(s) + multiset{c}
  {
    if s != [] {
      assert s == [s[0]] + s[1..];
      if c.price > s[0].price {
        InsertKeeps(c, s[1..]);
      }
    }
  }

  lemma {:induction false} InsertSorts(c: Choice, s: seq<Choice>)
    requires Sorted(s)
    ensures Sorted(Insert(c, s))
    ensures Insert(c, s)[0] == c || (s != [] && Insert(c, s)[0] == s[0])
  {
    if s != [] && c.price > s[0].price {
      InsertSorts(c, s[1..]);
      var r := Insert(c, s[1..]);
      assert s[0].price <= r[0].price;
      forall i, j | 0 <= i <= j < |r| + 1
        ensures ([s[0]] + r)[i].price <= ([s[0]] + r)[j].price
      {
        if i > 0 {
          assert r[i - 1].price <= r[j - 1].price;
        } else if j > 0 {
          assert r[0].price <= r[j - 1].price;
        }
      }
    }
  }

  lemma {:induction false} ByPriceSorts(choices: seq<Choice>)
    ensures Sorted(ByPrice(choices)) && multiset(ByPrice(choices)) == multiset(choices)
  {
    if choices != [] {
      ByPriceSorts(choices[1..]);
      InsertSorts(choices[0], ByPrice(choices[1..]));
      InsertKeeps(choices[0], ByPrice(choices[1..]));
      assert choices == [choices[0]] + choices[1..];
    }
  }

  /** The first of the sorted list is a cheapest choice and the last a dearest. */
  lemma EndsOfByPrice(choices: seq<Choice>)
    requires choices != []
    ensures var s := ByPrice(choices);
            && s[0] in choices && s[|s| - 1] in choices
            && (forall c | c in choices :: s[0].price <= c.price <= s[|s| - 1].price)
  {
    ByPriceSorts(choices);
    var s := ByPrice(choices);
    assert s[0] in multiset(s) && s[|s| - 1] in multiset(s);
    assert s[0] in multiset(choices) && s[|s| - 1] in multiset(choices);
    forall c | c in choices
      ensures s[0].price <= c.price <= s[|s| - 1].price
    {
      assert c in multiset(choices);
      assert c in multiset(s);
    }
  }

  /** The input split that makes the step cost its target. */
  function TargetSplit(p: Prices, n: nat, budget: real): Split {
    var pair, all := ByPrice(Pair(p)), ByPrice(All(p));
    SplitAmong(n, budget, pair[0], pair[1], all[0], all[2])
  }

  function SplitAmong(n: nat, budget: real, low: Choice, high: Choice, cheapest: Choice, dearest: Choice): Split {
    if Worth(n, low.price) <= budget <= Worth(n, high.price) then Mix(n, budget, low, high)
    else if budget < Worth(n, low.price) then Mix(n, budget, cheapest, low)
    else Mix(n, budget, high, dearest)
  }

  function BaseLow(p: Prices): real {
    MinReal(p.input, p.cacheRead)
  }

  function BaseHigh(p: Prices): real {
    MaxReal(p.input, p.cacheRead)
  }

  function Cheapest(p: Prices): real {
    MinReal(BaseLow(p), p.cacheWrite)
  }

  function Dearest(p: Prices): real {
    MaxReal(BaseHigh(p), p.cacheWrite)
  }

  predicate PricedAt(p: Prices, c: Choice, price: real) {
    c.price == PriceOf(p, c.category) == price
  }

  lemma PairChosen(p: Prices)
    ensures var pair := ByPrice(Pair(p));
            && PricedAt(p, pair[0], BaseLow(p)) && PricedAt(p, pair[1], BaseHigh(p))
            && pair[0].category != CacheWrite && pair[1].category != CacheWrite
  {
    EndsOfByPrice(Pair(p));
    assert Pair(p)[0] in Pair(p) && Pair(p)[1] in Pair(p);
  }

  lemma AllChosen(p: Prices)
    ensures var all := ByPrice(All(p));
            PricedAt(p, all[0], Cheapest(p)) && PricedAt(p, all[2], Dearest(p))
  {
    EndsOfByPrice(All(p));
    assert All(p)[0] in All(p) && All(p)[1] in All(p) && All(p)[2] in All(p);
  }

  /** What a target asks of a step's cost. The four bounds are the costs at the
      cheapest category, at the cheaper and the dearer of input and cache read,
      and at the dearest category: outside them the cost is the nearest end, and
      between two of them it misses by at most half their price gap. */
  ghost predicate Meets(least: real, low: real, high: real, most: real, g1: real, g2: real, g3: real, budget: real, cost: real) {
    && (budget <= least ==> cost == least)
    && (budget >= most ==> cost == most)
    && (least <= budget <= low ==> Abs(cost - budget) <= g1 / 2.0)
    && (low <= budget <= high ==> Abs(cost - budget) <= g2 / 2.0)
    && (high <= budget <= most ==> Abs(cost - budget) <= g3 / 2.0)
  }

  ghost predicate MeetsBudget(p: Prices, n: nat, budget: real, cost: real) {
    Meets(Worth(n, Cheapest(p)), Worth(n, BaseLow(p)), Worth(n, BaseHigh(p)), Worth(n, Dearest(p)),
          BaseLow(p) - Cheapest(p), BaseHigh(p) - BaseLow(p), Dearest(p) - BaseHigh(p), budget, cost)
  }

  /** One bracket suffices: from a cost that meets the budget between `a` and `b`,
      adjacent among the four bounds, all clauses follow. */
  lemma BracketMeets(least: real, low: real, high: real, most: real, g1: real, g2: real, g3: real, budget: real, cost: real,
                     a: real, b: real, gap: real)
    requires least <= low <= high <= most && g1 >= 0.0 && g2 >= 0.0 && g3 >= 0.0
    requires (a == least && b == low && gap == g1 && budget <= low) || (a == low && b == high && gap == g2 && low <= budget <= high)
             || (a == high && b == most && gap == g3 && high <= budget)
    requires budget <= a ==> cost == a
    requires budget >= b ==> cost == b
    requires a <= budget <= b ==> Abs(cost - budget) <= gap / 2.0
    ensures Meets(least, low, high, most, g1, g2, g3, budget, cost)
  {}

  lemma PricesOrdered(p: Prices, n: nat)
    ensures Cheapest(p) <= BaseLow(p) <= BaseHigh(p) <= Dearest(p)
    ensures Worth(n, Cheapest(p)) <= Worth(n, BaseLow(p)) <= Worth(n, BaseHigh(p)) <= Worth(n, Dearest(p))
  {
    WorthMonotone(n, Cheapest(p), BaseLow(p));
    WorthMonotone(n, BaseLow(p), BaseHigh(p));
    WorthMonotone(n, BaseHigh(p), Dearest(p));
  }

  /** One mix meets a budget its two categories bracket, or misses at the near end. */
  lemma MixMeets(p: Prices, n: nat, budget: real, low: Choice, high: Choice, a: real, b: real)
    requires PricedAt(p, low, a) && PricedAt(p, high, b) && a <= b
    ensures var cost := InputCost(p, Mix(n, budget, low, high));
            && (budget <= Worth(n, a) ==> cost == Worth(n, a))
            && (budget >= Worth(n, b) ==> cost == Worth(n, b))
            && (Worth(n, a) <= budget <= Worth(n, b) ==> Abs(cost - budget) <= (b - a) / 2.0)
  {
    MixShape(p, n, budget, low, high);
    MixOutside(n, budget, a, b);
    if Worth(n, a) <= budget <= Worth(n, b) {
      MixWithin(n, budget, a, b);
    }
  }

  lemma SplitAmongMeets(p: Prices, n: nat, budget: real, low: Choice, high: Choice, cheapest: Choice, dearest: Choice)
    requires PricedAt(p, low, BaseLow(p)) && PricedAt(p, high, BaseHigh(p))
    requires PricedAt(p, cheapest, Cheapest(p)) && PricedAt(p, dearest, Dearest(p))
    requires low.category != CacheWrite && high.category != CacheWrite
    ensures MeetsBudget(p, n, budget, InputCost(p, SplitAmong(n, budget, low, high, cheapest, dearest)))
  {
    PricesOrdered(p, n);
    var c, l, h, d := Cheapest(p), BaseLow(p), BaseHigh(p), Dearest(p);
    if Worth(n, l) <= budget <= Worth(n, h) {
      MixMeets(p, n, budget, low, high, l, h);
      BracketMeets(Worth(n, c), Worth(n, l), Worth(n, h), Worth(n, d), l - c, h - l, d - h, budget,
                   InputCost(p, Mix(n, budget, low, high)), Worth(n, l), Worth(n, h), h - l);
    } else if budget < Worth(n, l) {
      MixMeets(p, n, budget, cheapest, low, c, l);
      BracketMeets(Worth(n, c), Worth(n, l), Worth(n, h), Worth(n, d), l - c, h - l, d - h, budget,
                   InputCost(p, Mix(n, budget, cheapest, low)), Worth(n, c), Worth(n, l), l - c);
    } else {
      MixMeets(p, n, budget, high, dearest, h, d);
      BracketMeets(Worth(n, c), Worth(n, l), Worth(n, h), Worth(n, d), l - c, h - l, d - h, budget,
                   InputCost(p, Mix(n, budget, high, dearest)), Worth(n, h), Worth(n, d), d - h);
    }
  }

  /** The cost of the split meets the budget as far as any split can. */
  lemma TargetSplitMeetsBudget(p: Prices, n: nat, budget: real)
    ensures MeetsBudget(p, n, budget, InputCost(p, TargetSplit(p, n, budget)))
  {
    PairChosen(p);
    AllChosen(p);
    var pair, all := ByPrice(Pair(p)), ByPrice(All(p));
    SplitAmongMeets(p, n, budget, pair[0], pair[1], all[0], all[2]);
  }

  lemma MixExact(n: nat, budget: real, low: Choice, high: Choice)
    ensures Total(Mix(n, budget, low, high)) == n
    ensures low.category != CacheWrite && high.category != CacheWrite ==> Mix(n, budget, low, high).cacheWrite == 0
  {}

  lemma SplitAmongExact(n: nat, budget: real, low: Choice, high: Choice, cheapest: Choice, dearest: Choice)
    ensures var s := SplitAmong(n, budget, low, high, cheapest, dearest);
            && Total(s) == n
            && ((low.category != CacheWrite && high.category != CacheWrite && Worth(n, low.price) <= budget <= Worth(n, high.price))
                ==> s.cacheWrite == 0)
  {
    MixExact(n, budget, low, high);
    MixExact(n, budget, cheapest, low);
    MixExact(n, budget, high, dearest);
  }

  /** The split is exact, and uses cache write only when input and cache read
      cannot reach the budget. */
  lemma TargetSplitExact(p: Prices, n: nat, budget: real)
    ensures Total(TargetSplit(p, n, budget)) == n
    ensures Worth(n, BaseLow(p)) <= budget <= Worth(n, BaseHigh(p)) ==> TargetSplit(p, n, budget).cacheWrite == 0
  {
    PairChosen(p);
    var pair, all := ByPrice(Pair(p)), ByPrice(All(p));
    SplitAmongExact(n, budget, pair[0], pair[1], all[0], all[2]);
  }

  // ------------------------------------------------------------ the whole step

  function Used(i: StepInput): nat {
    Max(0, Trunc(i.usedTokens))
  }

  function OutputOf(i: StepInput): (output: nat)
    ensures output <= Used(i) && (Used(i) > 0 ==> 1 <= output)
  {
    Min(Used(i), Max(1, WholeTokens(i.outputTokens)))
  }

  function SplitOf(i: StepInput, n: nat): Split {
    if i.prices.Some? && i.targetUsd.Some?
    then TargetSplit(i.prices.value, n, i.targetUsd.value - Worth(OutputOf(i), i.prices.value.output))
    else
      var cacheRead := Min(n, Max(0, Trunc(i.prefixTokens)));
      Split(n - cacheRead, cacheRead, 0)
  }

  function ShapeStepUsage(i: StepInput): Shaped {
    if Used(i) <= 0 then Shaped(Usage(Split(0, 0, 0), 0, 0), 0.0)
    else
      var output := OutputOf(i);
      var usage := Usage(SplitOf(i, Used(i) - output), output, Min(output, WholeTokens(i.reasoningTokens)));
      Shaped(usage, if i.prices.Some? then HostUsageCost(i.prices.value, usage) else 0.0)
  }

  lemma SplitIsExact(i: StepInput, n: nat)
    ensures Total(SplitOf(i, n)) == n
  {
    if i.prices.Some? && i.targetUsd.Some? {
      var budget := i.targetUsd.value - Worth(OutputOf(i), i.prices.value.output);
      TargetSplitExact(i.prices.value, n, budget);
      assert SplitOf(i, n) == TargetSplit(i.prices.value, n, budget);
    }
  }

  /** Every shaped step partitions the truncated occupancy exactly. */
  lemma ShapeIsPartition(i: StepInput, u: Usage)
    requires u == ShapeStepUsage(i).usage
    ensures Total(u.input) + u.output == Used(i) && u.reasoning <= u.output
    ensures Used(i) > 0 ==> 1 <= u.output <= Used(i)
  {
    if Used(i) > 0 {
      var output := OutputOf(i);
      var split := SplitOf(i, Used(i) - output);
      SplitIsExact(i, Used(i) - output);
      assert ShapeStepUsage(i).usage == Usage(split, output, Min(output, WholeTokens(i.reasoningTokens)));
    }
  }

  /** Nothing is reported of an empty step. Otherwise the output is what was
      counted, at least one token and at most all, the reasoning what of it was
      counted as such, the cost the price of every category, and without prices or
      a target the prefix is read from cache as far as it fits and the rest is new
      input. */
  lemma ShapeEffect(i: StepInput)
    ensures var Shaped(u, cost) := ShapeStepUsage(i);
            var used := if i.usedTokens >= 1.0 then i.usedTokens.Floor else 0;
            if used == 0 then u == Usage(Split(0, 0, 0), 0, 0) && cost == 0.0
            else
              var counted, thought := WholeTokens(i.outputTokens), WholeTokens(i.reasoningTokens);
              && u.output == (if counted < 1 then 1 else if counted > used then used else counted)
              && u.reasoning == (if thought > u.output then u.output else thought)
              && cost == (if i.prices.None? then 0.0
                          else var p := i.prices.value;
                               Worth(u.input.noCache, p.input) + Worth(u.input.cacheRead, p.cacheRead)
                               + Worth(u.input.cacheWrite, p.cacheWrite) + Worth(u.output, p.output))
              && (i.prices.None? || i.targetUsd.None? ==>
                    var prefix := if i.prefixTokens >= 1.0 then i.prefixTokens.Floor else 0;
                    && u.input.cacheWrite == 0
                    && u.input.cacheRead == (if prefix > used - u.output then used - u.output else prefix)
                    && u.input.noCache == used - u.output - u.input.cacheRead)
  {}

  /** Least and most a step of `used` tokens with `output` of them output can cost. */
  function LeastCost(p: Prices, used: nat, output: nat): real
    requires output <= used
  {
    Worth(output, p.output) + Worth(used - output, Cheapest(p))
  }

  function MostCost(p: Prices, used: nat, output: nat): real
    requires output <= used
  {
    Worth(output, p.output) + Worth(used - output, Dearest(p))
  }

  /** Half the widest gap between two categories that can bracket a budget. */
  function HalfGap(p: Prices): real {
    MaxReal(BaseHigh(p) - BaseLow(p), MaxReal(BaseLow(p) - Cheapest(p), Dearest(p) - BaseHigh(p))) / 2.0
  }

  lemma SplitCostLeast(p: Prices, s: Split, price: real)
    requires price <= p.input && price <= p.cacheRead && price <= p.cacheWrite
    ensures Worth(Total(s), price) <= InputCost(p, s)
  {
    WorthAdds(s.noCache, s.cacheRead, price);
    WorthAdds(s.noCache + s.cacheRead, s.cacheWrite, price);
    WorthMonotone(s.noCache, price, p.input);
    WorthMonotone(s.cacheRead, price, p.cacheRead);
    WorthMonotone(s.cacheWrite, price, p.cacheWrite);
  }

  lemma SplitCostMost(p: Prices, s: Split, price: real)
    requires p.input <= price && p.cacheRead <= price && p.cacheWrite <= price
    ensures InputCost(p, s) <= Worth(Total(s), price)
  {
    WorthAdds(s.noCache, s.cacheRead, price);
    WorthAdds(s.noCache + s.cacheRead, s.cacheWrite, price);
    WorthMonotone(s.noCache, p.input, price);
    WorthMonotone(s.cacheRead, p.cacheRead, price);
    WorthMonotone(s.cacheWrite, p.cacheWrite, price);
  }

  /** No partition with that output costs less than the least or more than the most. */
  lemma CarriableRange(p: Prices, u: Usage)
    ensures LeastCost(p, Total(u.input) + u.output, u.output) <= HostUsageCost(p, u) <= MostCost(p, Total(u.input) + u.output, u.output)
  {
    SplitCostLeast(p, u.input, Cheapest(p));
    SplitCostMost(p, u.input, Dearest(p));
    assert Total(u.input) + u.output - u.output == Total(u.input);
  }

  /** The clauses of `Meets` with the output's cost `x` on both sides. */
  lemma MeetsTarget(least: real, low: real, high: real, most: real, g1: real, g2: real, g3: real,
                    target: real, x: real, cost: real, gap: real)
    requires Meets(least, low, high, most, g1, g2, g3, target - x, cost) && least <= low <= high <= most
    requires g1 <= gap && g2 <= gap && g3 <= gap
    ensures target <= x + least ==> cost + x == x + least
    ensures target >= x + most ==> cost + x == x + most
    ensures x + least <= target <= x + most ==> Abs(cost + x - target) <= gap / 2.0
  {
    assert cost + x - target == cost - (target - x);
  }

  /** With a target, the cost is the least or the most the step can carry when
      the target lies outside that range, and within half a price gap inside it. */
  lemma ShapeMeetsTarget(i: StepInput)
    requires Used(i) > 0 && i.prices.Some? && i.targetUsd.Some?
    ensures var p, target, output := i.prices.value, i.targetUsd.value, OutputOf(i);
            var cost := ShapeStepUsage(i).costUsd;
            && (target <= LeastCost(p, Used(i), output) ==> cost == LeastCost(p, Used(i), output))
            && (target >= MostCost(p, Used(i), output) ==> cost == MostCost(p, Used(i), output))
            && (LeastCost(p, Used(i), output) <= target <= MostCost(p, Used(i), output) ==> Abs(cost - target) <= HalfGap(p))
  {
    var p, target, output := i.prices.value, i.targetUsd.value, OutputOf(i);
    var n: nat := Used(i) - output;
    var x := Worth(output, p.output);
    var c, l, h, d := Cheapest(p), BaseLow(p), BaseHigh(p), Dearest(p);
    TargetSplitMeetsBudget(p, n, target - x);
    PricesOrdered(p, n);
    var cost := InputCost(p, SplitOf(i, n));
    MeetsTarget(Worth(n, c), Worth(n, l), Worth(n, h), Worth(n, d), l - c, h - l, d - h, target, x,
                cost, MaxReal(h - l, MaxReal(l - c, d - h)));
    assert ShapeStepUsage(i).costUsd == cost + x;
  }

  // --------------------------------------------------- output within a target

  function MaxOutputWithinUsd(usedTokens: Num, p: Prices, targetUsd: real): (most: nat)
    ensures most <= WholeTokens(usedTokens)
  {
    var used := WholeTokens(usedTokens);
    var premium := p.output - Cheapest(p);
    if premium <= 0.0 then used
    else Min(used, Max(1, ((targetUsd - Worth(used, Cheapest(p))) / premium).Floor))
  }

  /** The cost of output beside the cheapest (or dearest) input, as a premium. */
  lemma CostAsPremium(used: nat, output: nat, price: real, c: real)
    requires output <= used
    ensures Worth(output, price) + Worth(used - output, c) == Worth(used, c) + output as real * (price - c)
  {
    MixCostFrom(used, output, c, price);
  }

  lemma FloorOfQuotient(room: real, premium: real, k: int)
    requires premium > 0.0
    ensures k as real * premium <= room <==> k <= (room / premium).Floor
  {
    var q := room / premium;
    assert q * premium == room;
    SameOrder(k as real, q, premium);
    WholeBelow(q, k);
  }

  lemma WholeBelow(q: real, k: int)
    ensures k as real <= q <==> k <= q.Floor
  {
    if k > q.Floor {
      assert k as real >= q.Floor as real + 1.0;
    }
  }

  /** Where output costs more than the cheapest input and one output token fits,
      the result is the greatest output whose cheapest split stays within the target. */
  lemma MaxOutputIsGreatest(usedTokens: Num, p: Prices, targetUsd: real, output: nat)
    requires p.output > Cheapest(p) && 1 <= WholeTokens(usedTokens)
    requires LeastCost(p, WholeTokens(usedTokens), 1) <= targetUsd
    requires output <= WholeTokens(usedTokens)
    ensures LeastCost(p, WholeTokens(usedTokens), output) <= targetUsd <==> output <= MaxOutputWithinUsd(usedTokens, p, targetUsd)
  {
    var used := WholeTokens(usedTokens);
    var premium := p.output - Cheapest(p);
    var room := targetUsd - Worth(used, Cheapest(p));
    CostAsPremium(used, output, p.output, Cheapest(p));
    CostAsPremium(used, 1, p.output, Cheapest(p));
    FloorOfQuotient(room, premium, output);
    FloorOfQuotient(room, premium, 1);
    assert 1 as real * premium == premium;
    assert 1 <= (room / premium).Floor;
  }

  /** Where output is no dearer than the cheapest input, reporting all of the
      step as output is what costs least. */
  lemma AllOutputIsCheapest(usedTokens: Num, p: Prices, targetUsd: real, output: nat)
    requires p.output <= Cheapest(p) && output <= WholeTokens(usedTokens)
    ensures LeastCost(p, WholeTokens(usedTokens), MaxOutputWithinUsd(usedTokens, p, targetUsd)) <= LeastCost(p, WholeTokens(usedTokens), output)
  {
    var used := WholeTokens(usedTokens);
    assert MaxOutputWithinUsd(usedTokens, p, targetUsd) == used;
    CheaperOutput(used, output, p.output, Cheapest(p));
  }

  lemma CheaperOutput(used: nat, output: nat, price: real, c: real)
    requires price <= c && output <= used
    ensures Worth(used, price) + Worth(0, c) <= Worth(output, price) + Worth(used - output, c)
  {
    WorthAdds(output, used - output, price);
    WorthMonotone(used - output, price, c);
  }

  /** Where not even one output token fits the target, one is reported all the same,
      and where output is no dearer than the cheapest input all of the step may be. */
  lemma MaxOutputOtherwise(usedTokens: Num, p: Prices, targetUsd: real)
    ensures var used, most := WholeTokens(usedTokens), MaxOutputWithinUsd(usedTokens, p, targetUsd);
            && (p.output <= p.input && p.output <= p.cacheRead && p.output <= p.cacheWrite ==> most == used)
            && (p.output > Cheapest(p) && used >= 1 && LeastCost(p, used, 1) > targetUsd ==> most == 1)
            && (used == 0 ==> most == 0)
  {
    var used := WholeTokens(usedTokens);
    if p.output > Cheapest(p) && used >= 1 {
      var premium := p.output - Cheapest(p);
      var room := targetUsd - Worth(used, Cheapest(p));
      CostAsPremium(used, 1, p.output, Cheapest(p));
      FloorOfQuotient(room, premium, 1);
      assert 1 as real * premium == premium;
    }
  }

  /** The two together: a step can keep its cost at the target (up to half a
      price gap) with exactly the outputs `maxOutputWithinUsd` admits; with one
      token more its cost is its least, and that is over the target. */
  lemma OutputWithinTargetKeepsIt(i: StepInput)
    requires Used(i) > 0 && i.prices.Some? && i.targetUsd.Some?
    requires i.prices.value.output > Cheapest(i.prices.value)
    requires LeastCost(i.prices.value, Used(i), 1) <= i.targetUsd.value
    ensures var p, target := i.prices.value, i.targetUsd.value;
            var most := MaxOutputWithinUsd(Finite(Used(i) as real), p, target);
            var cost := ShapeStepUsage(i).costUsd;
            && (OutputOf(i) <= most ==> cost <= target + HalfGap(p))
            && (OutputOf(i) > most ==> cost == LeastCost(p, Used(i), OutputOf(i)) && cost > target)
  {
    assert WholeTokens(Finite(Used(i) as real)) == Used(i);
    MaxOutputIsGreatest(Finite(Used(i) as real), i.prices.value, i.targetUsd.value, OutputOf(i));
    ShapeMeetsTarget(i);
    HalfGapNonNegative(i.prices.value);
  }

  lemma HalfGapNonNegative(p: Prices)
    ensures HalfGap(p) >= 0.0
  {}

  /** A cost meets its target up to half a price gap exactly when the target is
      that close to what a step with its output can carry. */
  lemma WithinHalfGapIff(i: StepInput)
    requires Used(i) > 0 && i.prices.Some? && i.targetUsd.Some?
    ensures var p, target, output := i.prices.value, i.targetUsd.value, OutputOf(i);
            Abs(ShapeStepUsage(i).costUsd - target) <= HalfGap(p)
            <==> LeastCost(p, Used(i), output) - HalfGap(p) <= target <= MostCost(p, Used(i), output) + HalfGap(p)
  {
    ShapeMeetsTarget(i);
    HalfGapNonNegative(i.prices.value);
    LeastBelowMost(i.prices.value, Used(i), OutputOf(i));
  }

  lemma LeastBelowMost(p: Prices, used: nat, output: nat)
    requires output <= used
    ensures LeastCost(p, used, output) <= MostCost(p, used, output)
  {
    WorthMonotone(used - output, Cheapest(p), Dearest(p));
  }
}
