/** What a request costs: flat prices, prices by tier of the input size, and the two ways of counting
    cached tokens. Prices and costs are exact reals. */
module Cost {
  import opened Sequences

  datatype Limit = Upto(tokens: nat) | Unlimited

  datatype Tier = Tier(contextWindow: Limit, inputPrice: Option<real>, outputPrice: Option<real>,
                       cacheReadsPrice: Option<real>, cacheWritesPrice: Option<real>)

  /** `tiers` is empty where the model has none. */
  datatype ModelInfo = ModelInfo(inputPrice: Option<real>, outputPrice: Option<real>, cacheReadsPrice: Option<real>,
                                 cacheWritesPrice: Option<real>, thinkingOutputPrice: Option<real>, tiers: seq<Tier>)

  /** Per million tokens. */
  datatype Prices = Prices(input: real, output: real, cacheReads: real, cacheWrites: real)

  predicate Within(a: Limit, b: Limit) {
    b.Unlimited? || (a.Upto? && a.tokens <= b.tokens)
  }

  predicate Fits(total: nat, t: Tier) {
    Within(Upto(total), t.contextWindow)
  }

  function PriceOr(price: Option<real>, other: real): real {
    if price.Some? then price.value else other
  }

  function Default(model: ModelInfo): Prices {
    Prices(PriceOr(model.inputPrice, 0.0), PriceOr(model.outputPrice, 0.0),
           PriceOr(model.cacheReadsPrice, 0.0), PriceOr(model.cacheWritesPrice, 0.0))
  }

  /** The prices a tier gives, with the model's own for those it leaves out. */
  function Apply(t: Tier, p: Prices): Prices {
    Prices(PriceOr(t.inputPrice, p.input), PriceOr(t.outputPrice, p.output),
           PriceOr(t.cacheReadsPrice, p.cacheReads), PriceOr(t.cacheWritesPrice, p.cacheWrites))
  }

  // ----- Tiers by ascending context window

  function Insert(t: Tier, sorted: seq<Tier>): seq<Tier> {
    if sorted == [] then [t]
    else if Within(t.contextWindow, sorted[0].contextWindow) then [t] + sorted
    else [sorted[0]] + Insert(t, sorted[1..])
  }

  function Sorted(tiers: seq<Tier>): seq<Tier> {
    if tiers == [] then [] else Insert(tiers[0], Sorted(tiers[1..]))
  }

  ghost predicate Ascending(tiers: seq<Tier>) {
    forall i, j :: 0 <= i < j < |tiers| ==> Within(tiers[i].contextWindow, tiers[j].contextWindow)
  }

  lemma {:induction false} InsertPermutes(t: Tier, sorted: seq<Tier>)
    ensures multiset(Insert(t, sorted)) == multiset(sorted) + multiset{t}
  {
    if sorted != [] {
      assert sorted == [sorted[0]] + sorted[1..];
      InsertPermutes(t, sorted[1..]);
    }
  }

  lemma {:induction false} InsertAscends(t: Tier, sorted: seq<Tier>)
    requires Ascending(sorted)
    ensures Ascending(Insert(t, sorted))
  {
    if sorted != [] && !Within(t.contextWindow, sorted[0].contextWindow) {
      var rest := Insert(t, sorted[1..]);
      InsertAscends(t, sorted[1..]);
      InsertPermutes(t, sorted[1..]);
      forall j | 0 <= j < |rest| ensures Within(sorted[0].contextWindow, rest[j].contextWindow) {
        assert rest[j] in multiset(sorted[1..]) + multiset{t};
      }
    }
  }

  lemma {:induction false} SortedAscends(tiers: seq<Tier>)
    ensures Ascending(Sorted(tiers)) && multiset(Sorted(tiers)) == multiset(tiers)
  {
    if tiers != [] {
      SortedAscends(tiers[1..]);
      InsertAscends(tiers[0], Sorted(tiers[1..]));
      InsertPermutes(tiers[0], Sorted(tiers[1..]));
      assert tiers == [tiers[0]] + tiers[1..];
    }
  }

  /** The first tier that the total fits, or the last tier. */
  function TierIndex(sorted: seq<Tier>, total: nat): (i: nat)
    requires sorted != []
    ensures i < |sorted|
  {
    if Fits(total, sorted[0]) || |sorted| == 1 then 0 else 1 + TierIndex(sorted[1..], total)
  }

  lemma {:induction false} TierIndexIs(sorted: seq<Tier>, total: nat)
    requires sorted != []
    ensures var i := TierIndex(sorted, total);
      && (Fits(total, sorted[i]) || i == |sorted| - 1)
      && forall k :: 0 <= k < i ==> !Fits(total, sorted[k])
  {
    if !Fits(total, sorted[0]) && |sorted| > 1 {
      TierIndexIs(sorted[1..], total);
      var i := TierIndex(sorted[1..], total);
      assert forall k :: 1 <= k < i + 1 ==> sorted[k] == sorted[1..][k - 1];
    }
  }

  function EffectivePrices(model: ModelInfo, total: nat, thinkingBudget: Option<nat>): Prices {
    var sorted := Sorted(model.tiers);
    var tiered := if sorted == [] then Default(model) else Apply(sorted[TierIndex(sorted, total)], Default(model));
    if thinkingBudget.Some? && thinkingBudget.value > 0 && model.thinkingOutputPrice.Some?
    then tiered.(output := model.thinkingOutputPrice.value)
    else tiered
  }

  function PerMillion(price: real, tokens: nat): real {
    price / 1000000.0 * tokens as real
  }

  function Total(p: Prices, input: nat, output: nat, cacheWrites: nat, cacheReads: nat): real {
    PerMillion(p.cacheWrites, cacheWrites) + PerMillion(p.cacheReads, cacheReads) + PerMillion(p.input, input)
    + PerMillion(p.output, output)
  }

  function OrZero(tokens: Option<nat>): nat {
    if tokens.Some? then tokens.value else 0
  }

  /** `input` does not include the cached tokens. */
  function Anthropic(model: ModelInfo, input: nat, output: nat, cacheWrites: Option<nat>, cacheReads: Option<nat>,
                     thinkingBudget: Option<nat>): real {
    var w, r := OrZero(cacheWrites), OrZero(cacheReads);
    Total(EffectivePrices(model, input + w + r, thinkingBudget), input, output, w, r)
  }

  /** `input` includes the cached tokens. */
  function OpenAI(model: ModelInfo, input: nat, output: nat, cacheWrites: Option<nat>, cacheReads: Option<nat>,
                  thinkingBudget: Option<nat>): real {
    var w, r := OrZero(cacheWrites), OrZero(cacheReads);
    var nonCached := if input - w - r > 0 then input - w - r else 0;
    Total(EffectivePrices(model, input, thinkingBudget), nonCached, output, w, r)
  }

  // ----- What each kind of token costs

  /** The sum of the four kinds of tokens, each at its own price per million. */
  function Bill(input: real, output: real, cacheWrites: real, cacheReads: real, n: nat, o: nat, w: nat, r: nat): real {
    input / 1000000.0 * n as real + output / 1000000.0 * o as real
    + cacheWrites / 1000000.0 * w as real + cacheReads / 1000000.0 * r as real
  }

  /** Without tiers: the model's own prices, nothing for a price it leaves out, and output at the thinking
      price if there is one and a thinking budget is used. */
  lemma FlatBill(model: ModelInfo, n: nat, o: nat, w: nat, r: nat, thinkingBudget: Option<nat>)
    requires model.tiers == []
    ensures Anthropic(model, n, o, Some(w), Some(r), thinkingBudget) ==
      Bill(if model.inputPrice.Some? then model.inputPrice.value else 0.0,
           if thinkingBudget.Some? && thinkingBudget.value > 0 && model.thinkingOutputPrice.Some? then model.thinkingOutputPrice.value
           else if model.outputPrice.Some? then model.outputPrice.value else 0.0,
           if model.cacheWritesPrice.Some? then model.cacheWritesPrice.value else 0.0,
           if model.cacheReadsPrice.Some? then model.cacheReadsPrice.value else 0.0, n, o, w, r)
  {
  }

  /** With tiers: the prices of the tier for the whole input, the model's own where that tier leaves one out. */
  lemma TierBill(model: ModelInfo, t: Tier, n: nat, o: nat, w: nat, r: nat)
    requires DistinctLimits(model.tiers) && IsTierFor(model.tiers, n + w + r, t)
    requires t.inputPrice.Some? && t.outputPrice.Some? && t.cacheWritesPrice.Some? && t.cacheReadsPrice.Some?
    ensures Anthropic(model, n, o, Some(w), Some(r), None) ==
      Bill(t.inputPrice.value, t.outputPrice.value, t.cacheWritesPrice.value, t.cacheReadsPrice.value, n, o, w, r)
  {
    ChosenTier(model.tiers, n + w + r);
  }

  /** A price that the tier leaves out is the model's. */
  lemma TierFallsBack(model: ModelInfo, t: Tier, total: nat)
    requires DistinctLimits(model.tiers) && IsTierFor(model.tiers, total, t)
    ensures var p, flat := EffectivePrices(model, total, None), EffectivePrices(model.(tiers := []), total, None);
      && (t.inputPrice.None? ==> p.input == flat.input) && (t.outputPrice.None? ==> p.output == flat.output)
      && (t.cacheWritesPrice.None? ==> p.cacheWrites == flat.cacheWrites)
      && (t.cacheReadsPrice.None? ==> p.cacheReads == flat.cacheReads)
  {
    ChosenTier(model.tiers, total);
  }

  // ----- Both ways of counting agree

  lemma OpenAIIsAnthropic(model: ModelInfo, n: nat, output: nat, w: Option<nat>, r: Option<nat>, thinkingBudget: Option<nat>)
    ensures OpenAI(model, n + OrZero(w) + OrZero(r), output, w, r, thinkingBudget)
         == Anthropic(model, n, output, w, r, thinkingBudget)
  {
  }

  // ----- The tier depends on the set of tiers, not on their order

  /** The smallest tier that the total fits, or the largest of all. */
  ghost predicate IsTierFor(tiers: seq<Tier>, total: nat, t: Tier) {
    && t in tiers
    && (forall u :: u in tiers && Fits(total, u) ==> Fits(total, t) && Within(t.contextWindow, u.contextWindow))
    && (!Fits(total, t) ==> forall u :: u in tiers ==> Within(u.contextWindow, t.contextWindow))
  }

  lemma SameMembers(a: seq<Tier>, b: seq<Tier>)
    requires multiset(a) == multiset(b)
    ensures forall t :: t in a <==> t in b
  {
    forall t ensures t in a <==> t in b {
      assert t in a <==> t in multiset(a);
      assert t in b <==> t in multiset(b);
    }
  }

  lemma ChosenTier(tiers: seq<Tier>, total: nat)
    requires tiers != []
    ensures Sorted(tiers) != [] && IsTierFor(tiers, total, Sorted(tiers)[TierIndex(Sorted(tiers), total)])
  {
    SortedAscends(tiers);
    var sorted := Sorted(tiers);
    SameMembers(tiers, sorted);
    assert tiers[0] in sorted;
    TierIndexIs(sorted, total);
    var i := TierIndex(sorted, total);
    var t := sorted[i];
    assert t in sorted;
    forall u | u in tiers && Fits(total, u) ensures Fits(total, t) && Within(t.contextWindow, u.contextWindow) {
      var j :| 0 <= j < |sorted| && sorted[j] == u;
      assert i <= j;
      if i == j { assert t == u; }
    }
    if !Fits(total, t) {
      forall u | u in tiers ensures Within(u.contextWindow, t.contextWindow) {
        var j :| 0 <= j < |sorted| && sorted[j] == u;
        if j == i { assert t == u; }
      }
    }
  }

  ghost predicate DistinctLimits(tiers: seq<Tier>) {
    forall t, u :: t in tiers && u in tiers && t.contextWindow == u.contextWindow ==> t == u
  }

  /** Listing the tiers in another order changes no cost, when no two tiers share a context window. */
  lemma TierOrderIrrelevant(model: ModelInfo, tiers: seq<Tier>, total: nat, thinkingBudget: Option<nat>)
    requires multiset(tiers) == multiset(model.tiers) && DistinctLimits(tiers)
    ensures EffectivePrices(model.(tiers := tiers), total, thinkingBudget) == EffectivePrices(model, total, thinkingBudget)
  {
    SameMembers(tiers, model.tiers);
    if tiers == [] || model.tiers == [] {
      assert |tiers| == |multiset(tiers)| && |model.tiers| == |multiset(model.tiers)|;
    } else {
      ChosenTier(tiers, total);
      ChosenTier(model.tiers, total);
    }
  }

  // ----- Cost never falls as input grows

  predicate AtMost(p: Prices, q: Prices) {
    p.input <= q.input && p.output <= q.output && p.cacheReads <= q.cacheReads && p.cacheWrites <= q.cacheWrites
  }

  /** No effective price falls along the tiers, and input is never negatively priced. */
  ghost predicate RisingTiers(model: ModelInfo) {
    var sorted := Sorted(model.tiers);
    && (forall i, j :: 0 <= i < j < |sorted| ==> AtMost(Apply(sorted[i], Default(model)), Apply(sorted[j], Default(model))))
    && (forall i :: 0 <= i < |sorted| ==> Apply(sorted[i], Default(model)).input >= 0.0)
    && Default(model).input >= 0.0
  }

  lemma TierIndexGrows(sorted: seq<Tier>, a: nat, b: nat)
    requires sorted != [] && a <= b
    ensures TierIndex(sorted, a) <= TierIndex(sorted, b)
  {
    TierIndexIs(sorted, a);
    TierIndexIs(sorted, b);
    var j := TierIndex(sorted, b);
    assert Fits(b, sorted[j]) ==> Fits(a, sorted[j]);
  }

  lemma PricesGrow(model: ModelInfo, a: nat, b: nat, thinkingBudget: Option<nat>)
    requires RisingTiers(model) && a <= b
    ensures AtMost(EffectivePrices(model, a, thinkingBudget), EffectivePrices(model, b, thinkingBudget))
    ensures EffectivePrices(model, a, thinkingBudget).input >= 0.0
  {
    var sorted := Sorted(model.tiers);
    if sorted != [] { TierIndexGrows(sorted, a, b); }
  }

  lemma PerMillionGrows(p: real, q: real, x: nat, y: nat)
    requires p <= q && x <= y && (x == y || 0.0 <= q)
    ensures PerMillion(p, x) <= PerMillion(q, y)
  {
    var u, v := p / 1000000.0, q / 1000000.0;
    assert u * x as real <= v * x as real by { assert (v - u) * x as real >= 0.0; }
    if x < y { assert v * (y - x) as real >= 0.0; }
    assert v * y as real == v * x as real + v * (y - x) as real;
  }

  lemma TotalGrows(p: Prices, q: Prices, x: nat, y: nat, output: nat, w: nat, r: nat)
    requires AtMost(p, q) && x <= y && 0.0 <= q.input
    ensures Total(p, x, output, w, r) <= Total(q, y, output, w, r)
  {
    PerMillionGrows(p.cacheWrites, q.cacheWrites, w, w);
    PerMillionGrows(p.cacheReads, q.cacheReads, r, r);
    PerMillionGrows(p.input, q.input, x, y);
    PerMillionGrows(p.output, q.output, output, output);
  }

  lemma PricedTotalGrows(model: ModelInfo, a: nat, b: nat, thinkingBudget: Option<nat>,
                         x: nat, y: nat, output: nat, w: nat, r: nat)
    requires RisingTiers(model) && a <= b && x <= y
    ensures Total(EffectivePrices(model, a, thinkingBudget), x, output, w, r)
         <= Total(EffectivePrices(model, b, thinkingBudget), y, output, w, r)
  {
    PricesGrow(model, a, b, thinkingBudget);
    TotalGrows(EffectivePrices(model, a, thinkingBudget), EffectivePrices(model, b, thinkingBudget), x, y, output, w, r);
  }

  /** More input never costs less, within a tier or across tiers. */
  lemma AnthropicNeverFalls(model: ModelInfo, a: nat, b: nat, output: nat, w: Option<nat>, r: Option<nat>, thinkingBudget: Option<nat>)
    requires RisingTiers(model) && a <= b
    ensures Anthropic(model, a, output, w, r, thinkingBudget) <= Anthropic(model, b, output, w, r, thinkingBudget)
  {
    PricedTotalGrows(model, a + OrZero(w) + OrZero(r), b + OrZero(w) + OrZero(r), thinkingBudget,
                     a, b, output, OrZero(w), OrZero(r));
  }

  /** The same where the input includes the cached tokens. */
  lemma OpenAINeverFalls(model: ModelInfo, a: nat, b: nat, output: nat, w: Option<nat>, r: Option<nat>, thinkingBudget: Option<nat>)
    requires RisingTiers(model) && a <= b
    ensures OpenAI(model, a, output, w, r, thinkingBudget) <= OpenAI(model, b, output, w, r, thinkingBudget)
  {
    var x := if a - OrZero(w) - OrZero(r) > 0 then a - OrZero(w) - OrZero(r) else 0;
    var y := if b - OrZero(w) - OrZero(r) > 0 then b - OrZero(w) - OrZero(r) else 0;
    PricedTotalGrows(model, a, b, thinkingBudget, x, y, output, OrZero(w), OrZero(r));
  }

  function Ceiling(x: real): (n: nat)
    ensures n as real >= x
  {
    if x <= 0.0 then 0 else x.Floor + 1
  }

  /** Where the output price does fall between two input sizes, some amount of output makes the larger
      input the cheaper one. */
  lemma FallingOutputPrice(model: ModelInfo, a: nat, b: nat, thinkingBudget: Option<nat>) returns (output: nat)
    requires EffectivePrices(model, a, thinkingBudget).output > EffectivePrices(model, b, thinkingBudget).output
    ensures Anthropic(model, a, output, None, None, thinkingBudget) > Anthropic(model, b, output, None, None, thinkingBudget)
  {
    var p, q := EffectivePrices(model, a, thinkingBudget), EffectivePrices(model, b, thinkingBudget);
    var drop := p.output / 1000000.0 - q.output / 1000000.0;
    var gap := PerMillion(q.input, b) - PerMillion(p.input, a);
    output := Ceiling(gap / drop) + 1;
    OutputOutweighs(gap, drop, output);
    assert PerMillion(p.output, output) - PerMillion(q.output, output) == drop * output as real;
  }

  lemma OutputOutweighs(gap: real, drop: real, output: nat)
    requires drop > 0.0 && output as real > gap / drop
    ensures drop * output as real > gap
  {
    assert drop * (gap / drop) == gap;
    assert drop * (output as real - gap / drop) > 0.0;
  }
}
