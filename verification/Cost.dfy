/** Integer micro-USD accounting: saturating totals, the truncating per-response cost, and how
    far a sum of truncated costs can fall behind the cost of the summed usage. */
module Cost {
  import opened Turns
  import opened Wrappers

  const U64_MAX: nat := 0xFFFF_FFFF_FFFF_FFFF

  const PER_MILLION: nat := 1_000_000

  /** micro-USD per million tokens. */
  datatype Pricing = Pricing(prompt: nat, cached: nat, completion: nat)

  function Saturate(n: nat): nat {
    if n <= U64_MAX then n else U64_MAX
  }

  function AddCost(a: nat, b: nat): nat {
    Saturate(a + b)
  }

  /** `cached_tokens`: a reported zero counts as no report. */
  function CachedTokens(u: Usage): Option<nat> {
    match u.cached
    case Some(c) => if c > 0 then Some(c) else None
    case None => None
  }

  function Cached(u: Usage): nat {
    CachedTokens(u).GetOr(0)
  }

  function AddUsage(a: Usage, b: Usage): Usage {
    var cached := Saturate(Cached(a) + Cached(b));
    Usage(Saturate(a.prompt + b.prompt), Saturate(a.completion + b.completion), Saturate(a.total + b.total),
          if cached > 0 then Some(cached) else a.cached)
  }

  /** Tokens billed at the cached price: the cached share is part of the prompt. */
  function Discounted(u: Usage): nat {
    if Cached(u) <= u.prompt then Cached(u) else u.prompt
  }

  /** Token-price products. */
  function Priced(p: Pricing, prompt: int, discounted: int, completion: int): int {
    (prompt - discounted) * p.prompt + discounted * p.cached + completion * p.completion
  }

  /** What a usage costs, in millionths of a micro-USD. */
  function RawCost(p: Pricing, u: Usage): nat {
    Priced(p, u.prompt, Discounted(u), u.completion)
  }

  function CostOf(p: Pricing, u: Usage): nat {
    Saturate(RawCost(p, u) / PER_MILLION)
  }

  /** What each token costs: an answer of nothing is free, a prompt or completion token adds its price,
      and a prompt token found in the cache trades the prompt price for the cached one. */
  lemma PriceOfATokenMore(p: Pricing, u: Usage)
    ensures RawCost(p, Usage(0, 0, 0, None)) == 0
    ensures RawCost(p, u.(completion := u.completion + 1)) == RawCost(p, u) + p.completion
    ensures Cached(u) <= u.prompt ==> RawCost(p, u.(prompt := u.prompt + 1)) == RawCost(p, u) + p.prompt
    ensures Cached(u) < u.prompt ==>
              RawCost(p, u.(cached := Some(Cached(u) + 1))) + p.prompt == RawCost(p, u) + p.cached
    ensures Cached(u) > u.prompt ==> RawCost(p, u) == RawCost(p, u.(cached := Some(u.prompt)))
    ensures RawCost(p, u.(total := 0)) == RawCost(p, u)
  {
  }

  /** No report of cached tokens counts as a report of none. */
  lemma CachedTold(u: Usage)
    ensures Cached(u.(cached := None)) == 0
    ensures u.cached.Some? ==> Cached(u) == u.cached.value
  {
  }

  // ---------------------------------------------------------------------------------------
  // Merging
  // ---------------------------------------------------------------------------------------

  /** What merging can tell two usages apart by. */
  predicate SameTotals(a: Usage, b: Usage) {
    a.prompt == b.prompt && a.completion == b.completion && a.total == b.total && Cached(a) == Cached(b)
  }

  predicate InRange(u: Usage) {
    u.prompt <= U64_MAX && u.completion <= U64_MAX && u.total <= U64_MAX && Cached(u) <= U64_MAX
  }

  /** Merging is independent of grouping and order, saturation included. */
  lemma MergeOrderFree(a: Usage, b: Usage, c: Usage)
    ensures SameTotals(AddUsage(AddUsage(a, b), c), AddUsage(a, AddUsage(b, c)))
    ensures SameTotals(AddUsage(a, b), AddUsage(b, a))
    ensures InRange(a) ==> SameTotals(AddUsage(a, Usage(0, 0, 0, None)), a)
  {
  }

  lemma CostOrderFree(a: nat, b: nat, c: nat)
    ensures AddCost(AddCost(a, b), c) == AddCost(a, AddCost(b, c))
    ensures AddCost(a, b) == AddCost(b, a)
    ensures AddCost(a, b) == if a + b < 0x1_0000_0000_0000_0000 then a + b else 0xFFFF_FFFF_FFFF_FFFF
  {
  }

  // ---------------------------------------------------------------------------------------
  // The rounding gap
  // ---------------------------------------------------------------------------------------

  const NO_USAGE: Usage := Usage(0, 0, 0, None)

  function SumUsage(us: seq<Usage>): Usage {
    if us == [] then NO_USAGE else AddUsage(SumUsage(us[..|us| - 1]), us[|us| - 1])
  }

  function SumCosts(p: Pricing, us: seq<Usage>): nat {
    if us == [] then 0 else AddCost(SumCosts(p, us[..|us| - 1]), CostOf(p, us[|us| - 1]))
  }

  /** The micro-USD fractions the per-response divisions throw away, in millionths. */
  function Remainders(p: Pricing, us: seq<Usage>): nat {
    if us == [] then 0 else Remainders(p, us[..|us| - 1]) + RawCost(p, us[|us| - 1]) % PER_MILLION
  }

  function RawSum(p: Pricing, us: seq<Usage>): nat {
    if us == [] then 0 else RawSum(p, us[..|us| - 1]) + RawCost(p, us[|us| - 1])
  }

  /** The sums a run would have without saturation; `discounted` adds up what each response had
      billed at the cached price. */
  datatype Tally = Tally(prompt: nat, completion: nat, total: nat, cached: nat, discounted: nat)

  function TallyOf(us: seq<Usage>): Tally {
    if us == [] then Tally(0, 0, 0, 0, 0)
    else
      var t, u := TallyOf(us[..|us| - 1]), us[|us| - 1];
      Tally(t.prompt + u.prompt, t.completion + u.completion, t.total + u.total, t.cached + Cached(u),
            t.discounted + Discounted(u))
  }

  /** The tokens billed at the cached price when the summed usage is billed as one. */
  function DiscountedAtOnce(t: Tally): nat {
    if Saturate(t.cached) <= Saturate(t.prompt) then Saturate(t.cached) else Saturate(t.prompt)
  }

  /** What billing the summed usage leaves out, in millionths of a micro-USD: the tokens lost to
      saturation, and the discount for tokens that only the sum counts as cached (negative when the
      cached price is the higher one). */
  function Drift(p: Pricing, t: Tally): int {
    Priced(p, t.prompt - Saturate(t.prompt), t.discounted - DiscountedAtOnce(t), t.completion - Saturate(t.completion))
  }

  lemma {:induction false} SumIsTally(us: seq<Usage>)
    ensures var s, t := SumUsage(us), TallyOf(us);
            && s.prompt == Saturate(t.prompt) && s.completion == Saturate(t.completion)
            && s.total == Saturate(t.total) && Cached(s) == Saturate(t.cached)
    decreases |us|
  {
    if us != [] {
      SumIsTally(us[..|us| - 1]);
    }
  }

  lemma PricedAdds(p: Pricing, a: int, b: int, c: int, a': int, b': int, c': int)
    ensures Priced(p, a + a', b + b', c + c') == Priced(p, a, b, c) + Priced(p, a', b', c')
  {
  }

  lemma {:induction false} RawSumIsTally(p: Pricing, us: seq<Usage>)
    ensures var t := TallyOf(us); RawSum(p, us) == Priced(p, t.prompt, t.discounted, t.completion)
    decreases |us|
  {
    hide Priced;
    if us != [] {
      var init, u := us[..|us| - 1], us[|us| - 1];
      RawSumIsTally(p, init);
      var t := TallyOf(init);
      PricedAdds(p, t.prompt, t.discounted, t.completion, u.prompt, Discounted(u), u.completion);
    } else {
      Free(p);
    }
  }

  lemma Free(p: Pricing)
    ensures Priced(p, 0, 0, 0) == 0
  {
  }

  /** Billed as one, the summed usage costs what the responses cost, less the drift. */
  lemma RawCostOfSum(p: Pricing, us: seq<Usage>)
    ensures RawCost(p, SumUsage(us)) == RawSum(p, us) - Drift(p, TallyOf(us))
  {
    hide Priced;
    var s, t := SumUsage(us), TallyOf(us);
    SumIsTally(us);
    RawSumIsTally(p, us);
    PricedAdds(p, s.prompt, Discounted(s), s.completion,
               t.prompt - s.prompt, t.discounted - Discounted(s), t.completion - s.completion);
  }

  /** The truncated costs and the thrown-away fractions make up the whole. */
  lemma {:induction false} CostsPlusRemainders(p: Pricing, us: seq<Usage>) returns (costs: nat)
    ensures costs * PER_MILLION + Remainders(p, us) == RawSum(p, us) && SumCosts(p, us) == Saturate(costs)
    ensures Remainders(p, us) <= |us| * (PER_MILLION - 1)
    decreases |us|
  {
    hide RawCost;
    costs := 0;
    if us != [] {
      var init, u := us[..|us| - 1], us[|us| - 1];
      costs := CostsPlusRemainders(p, init);
      costs := costs + RawCost(p, u) / PER_MILLION;
    }
  }

  /** Reports whose cached share is part of the prompt, and totals that stay in 64 bits, do not
      drift. */
  lemma {:induction false} NoDrift(p: Pricing, us: seq<Usage>)
    requires forall i :: 0 <= i < |us| ==> Cached(us[i]) <= us[i].prompt
    ensures TallyOf(us).cached == TallyOf(us).discounted <= TallyOf(us).prompt
    ensures TallyOf(us).prompt <= U64_MAX && TallyOf(us).completion <= U64_MAX ==> Drift(p, TallyOf(us)) == 0
    decreases |us|
  {
    if us != [] {
      var init := us[..|us| - 1];
      assert forall i :: 0 <= i < |init| ==> init[i] == us[i];
      NoDrift(p, init);
    }
  }

  /** Both sides have run into the 64-bit limit. */
  predicate BothSaturate(p: Pricing, us: seq<Usage>) {
    RawSum(p, us) - Remainders(p, us) >= U64_MAX * PER_MILLION && RawCost(p, SumUsage(us)) >= U64_MAX * PER_MILLION
  }

  /** How far the sum of the truncated costs is from the cost of the summed usage, for any
      responses. They are equal exactly when the thrown-away fractions less the drift make up
      nothing or less than one micro-USD (or both have saturated). Without drift the sum of the
      costs is never the larger one, and falls short by at most `n - 1` micro-USD; it is the larger
      one only when the drift outweighs the fractions. */
  lemma RoundingGap(p: Pricing, us: seq<Usage>)
    ensures SumCosts(p, us) == CostOf(p, SumUsage(us)) <==>
            0 <= Remainders(p, us) - Drift(p, TallyOf(us)) < PER_MILLION || BothSaturate(p, us)
    ensures us != [] && Drift(p, TallyOf(us)) == 0 ==>
              SumCosts(p, us) <= CostOf(p, SumUsage(us)) <= SumCosts(p, us) + |us| - 1
    ensures SumCosts(p, us) > CostOf(p, SumUsage(us)) ==> Drift(p, TallyOf(us)) > Remainders(p, us)
  {
    hide RawCost, Drift, RawSum, Remainders, SumUsage, TallyOf, SumCosts, Saturate;
    RawCostOfSum(p, us);
    var costs := CostsPlusRemainders(p, us);
    Gap(costs, Remainders(p, us) - Drift(p, TallyOf(us)), |us|);
  }

  lemma Gap(q: nat, r: int, n: nat)
    requires q * PER_MILLION + r >= 0
    ensures var d := (q * PER_MILLION + r) / PER_MILLION;
            && (Saturate(q) == Saturate(d) <==>
                0 <= r < PER_MILLION || (q >= U64_MAX && q * PER_MILLION + r >= U64_MAX * PER_MILLION))
            && (Saturate(q) > Saturate(d) ==> r < 0)
            && (n > 0 && 0 <= r <= n * (PER_MILLION - 1) ==> Saturate(q) <= Saturate(d) <= Saturate(q) + n - 1)
  {
  }

  lemma TwoResponses(p: Pricing, a: Usage, b: Usage)
    ensures SumUsage([a, b]) == AddUsage(AddUsage(NO_USAGE, a), b)
    ensures SumCosts(p, [a, b]) == AddCost(AddCost(0, CostOf(p, a)), CostOf(p, b))
  {
    hide AddUsage, AddCost, CostOf;
    assert [a, b][..1] == [a] && [a][..0] == [];
    assert SumUsage([a]) == AddUsage(SumUsage([]), a);
    assert SumCosts(p, [a]) == AddCost(SumCosts(p, []), CostOf(p, a));
  }

  lemma OneOrNothing(p: Pricing, u: Usage, billed: nat)
    requires p == Pricing(100_000, 0, 0) && billed == u.prompt - Discounted(u) && (billed == 0 || billed == 10)
    ensures CostOf(p, u) == if billed == 10 then 1 else 0
  {
    var raw := RawCost(p, u);
    assert raw == billed * 100_000;
    hide RawCost;
    if billed == 10 {
      assert raw == PER_MILLION;
    }
  }

  /** A response that reports more cached than prompt tokens, then one that reports none: the parts
      cost one micro-USD, the whole is free. */
  lemma CachedBeyondPrompt()
    ensures var p, a, b := Pricing(100_000, 0, 0), Usage(10, 0, 10, Some(20)), Usage(10, 0, 10, None);
            SumCosts(p, [a, b]) == 1 && CostOf(p, SumUsage([a, b])) == 0
  {
    hide SumUsage, SumCosts, CostOf, RawCost;
    var p, a, b := Pricing(100_000, 0, 0), Usage(10, 0, 10, Some(20)), Usage(10, 0, 10, None);
    TwoResponses(p, a, b);
    OneOrNothing(p, a, 0);
    OneOrNothing(p, b, 10);
    OneOrNothing(p, Usage(20, 0, 20, Some(20)), 0);
  }

  /** Two responses of one token each at half a micro-USD: the parts cost nothing, the whole
      costs one micro-USD. */
  lemma TruncationIsNotAdditive()
    ensures var p, u := Pricing(500_000, 0, 0), Usage(1, 0, 1, None);
            SumCosts(p, [u, u]) == 0 && CostOf(p, SumUsage([u, u])) == 1
  {
    hide SumUsage, SumCosts;
    TwoResponses(Pricing(500_000, 0, 0), Usage(1, 0, 1, None), Usage(1, 0, 1, None));
  }
}
