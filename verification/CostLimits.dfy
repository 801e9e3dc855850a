/** Exactly which prices make the cost fall nowhere as the input grows. */
module CostLimits {
  import opened Sequences
  import opened Cost

  ghost predicate AnthropicSteady(model: ModelInfo, thinkingBudget: Option<nat>) {
    forall a, b, output, w, r :: a <= b ==>
      Anthropic(model, a, output, w, r, thinkingBudget) <= Anthropic(model, b, output, w, r, thinkingBudget)
  }

  ghost predicate UncachedSteady(model: ModelInfo, thinkingBudget: Option<nat>) {
    forall a, b, output :: a <= b ==>
      Anthropic(model, a, output, None, None, thinkingBudget) <= Anthropic(model, b, output, None, None, thinkingBudget)
  }

  ghost predicate OpenAISteady(model: ModelInfo, thinkingBudget: Option<nat>) {
    forall a, b, output, w, r :: a <= b ==>
      OpenAI(model, a, output, w, r, thinkingBudget) <= OpenAI(model, b, output, w, r, thinkingBudget)
  }

  // ----- From one total to a larger one

  /** The output price does not fall, and all of the input costs no less. */
  predicate InputRises(p: Prices, q: Prices, s: nat, t: nat) {
    p.output <= q.output && PerMillion(p.input, s) <= PerMillion(q.input, t)
  }

  /** If all of the smaller input was cached, the larger one costs no less: a fall of the cache price is
      made up for by the price of the input added. */
  predicate CachedRises(p: real, q: real, input: real, s: nat, t: nat)
    requires s <= t
  {
    PerMillion(p, s) <= PerMillion(q, s) + PerMillion(input, t - s)
  }

  predicate Rises(p: Prices, q: Prices, s: nat, t: nat)
    requires s <= t
  {
    && InputRises(p, q, s, t)
    && CachedRises(p.cacheWrites, q.cacheWrites, q.input, s, t)
    && CachedRises(p.cacheReads, q.cacheReads, q.input, s, t)
  }

  ghost predicate UncachedPricesRise(model: ModelInfo, thinkingBudget: Option<nat>) {
    forall s: nat, t: nat :: s <= t ==>
      InputRises(EffectivePrices(model, s, thinkingBudget), EffectivePrices(model, t, thinkingBudget), s, t)
  }

  ghost predicate PricesRise(model: ModelInfo, thinkingBudget: Option<nat>) {
    forall s: nat, t: nat :: s <= t ==>
      Rises(EffectivePrices(model, s, thinkingBudget), EffectivePrices(model, t, thinkingBudget), s, t)
  }

  ghost predicate CachePricesRise(model: ModelInfo, thinkingBudget: Option<nat>) {
    forall s: nat, t: nat :: s <= t ==>
      CacheAtMost(EffectivePrices(model, s, thinkingBudget), EffectivePrices(model, t, thinkingBudget))
  }

  predicate CacheAtMost(p: Prices, q: Prices) {
    p.cacheWrites <= q.cacheWrites && p.cacheReads <= q.cacheReads
  }

  // ----- Arithmetic

  lemma Scales(x: real, n: real, y: real)
    requires n >= 0.0 && x <= y
    ensures x * n <= y * n
  {
    assert (y - x) * n >= 0.0;
  }

  lemma Factor(x: real, n: real)
    requires n > 0.0 && x * n >= 0.0
    ensures x >= 0.0
  {
    assert x == (x * n) / n;
  }

  lemma Zero(price: real)
    ensures PerMillion(price, 0) == 0.0
  {
  }

  /** A mixture of input, writes and reads costs no less if each of them alone costs no less. */
  lemma Mixture(pi: real, pw: real, pr: real, qi: real, qw: real, qr: real, n: real, w: real, r: real, d: real)
    requires n >= 0.0 && w >= 0.0 && r >= 0.0 && n + w + r > 0.0
    requires pi * (n + w + r) <= qi * (n + w + r + d)
    requires pw * (n + w + r) <= qw * (n + w + r) + qi * d
    requires pr * (n + w + r) <= qr * (n + w + r) + qi * d
    ensures pi * n + pw * w + pr * r <= qi * (n + d) + qw * w + qr * r
  {
    var s, e := n + w + r, qi * (n + d) + qw * w + qr * r - (pi * n + pw * w + pr * r);
    var v1, v2, v3 := qi * (s + d) - pi * s, qw * s + qi * d - pw * s, qr * s + qi * d - pr * s;
    MixtureIs(pi, pw, pr, qi, qw, qr, n, w, r, d);
    Scales(0.0, n, v1);
    Scales(0.0, w, v2);
    Scales(0.0, r, v3);
    assert e * s == v1 * n + v2 * w + v3 * r;
    Factor(e, s);
  }

  lemma MixtureIs(pi: real, pw: real, pr: real, qi: real, qw: real, qr: real, n: real, w: real, r: real, d: real)
    ensures var s := n + w + r;
      (qi * (n + d) + qw * w + qr * r - (pi * n + pw * w + pr * r)) * s
      == (qi * (s + d) - pi * s) * n + (qw * s + qi * d - pw * s) * w + (qr * s + qi * d - pr * s) * r
  {
  }

  lemma RisingTotals(p: Prices, q: Prices, n: nat, d: nat, output: nat, w: nat, r: nat)
    requires Rises(p, q, n + w + r, n + w + r + d)
    ensures Total(p, n, output, w, r) <= Total(q, n + d, output, w, r)
  {
    var s := n + w + r;
    var m := 1000000.0;
    Scales(p.output / m, output as real, q.output / m);
    if s == 0 {
      Zero(p.input); Zero(p.cacheWrites); Zero(p.cacheReads); Zero(q.cacheWrites); Zero(q.cacheReads);
    } else {
      assert s as real == n as real + w as real + r as real && (s + d) as real == s as real + d as real;
      assert (n + d) as real == n as real + d as real;
      Mixture(p.input / m, p.cacheWrites / m, p.cacheReads / m, q.input / m, q.cacheWrites / m, q.cacheReads / m,
              n as real, w as real, r as real, d as real);
    }
  }

  // ----- Anthropic-style counting

  lemma UncachedTotal(model: ModelInfo, a: nat, output: nat, thinkingBudget: Option<nat>)
    ensures var p := EffectivePrices(model, a, thinkingBudget);
      Anthropic(model, a, output, None, None, thinkingBudget) == PerMillion(p.input, a) + PerMillion(p.output, output)
  {
    var p := EffectivePrices(model, a, thinkingBudget);
    Zero(p.cacheWrites);
    Zero(p.cacheReads);
  }

  lemma UncachedNecessary(model: ModelInfo, thinkingBudget: Option<nat>, s: nat, t: nat)
    requires UncachedSteady(model, thinkingBudget) && s <= t
    ensures InputRises(EffectivePrices(model, s, thinkingBudget), EffectivePrices(model, t, thinkingBudget), s, t)
  {
    var p, q := EffectivePrices(model, s, thinkingBudget), EffectivePrices(model, t, thinkingBudget);
    if p.output > q.output { var output := FallingOutputPrice(model, s, t, thinkingBudget); }
    UncachedTotal(model, s, 0, thinkingBudget);
    UncachedTotal(model, t, 0, thinkingBudget);
    Zero(p.output);
    Zero(q.output);
    assert Anthropic(model, s, 0, None, None, thinkingBudget) <= Anthropic(model, t, 0, None, None, thinkingBudget);
  }

  /** Without cached tokens, cost falls nowhere exactly if the output price falls nowhere and the price of the
      whole input falls nowhere: a falling input price alone need make nothing cheaper. */
  lemma UncachedNeverFallsIff(model: ModelInfo, thinkingBudget: Option<nat>)
    ensures UncachedSteady(model, thinkingBudget) <==> UncachedPricesRise(model, thinkingBudget)
  {
    if UncachedSteady(model, thinkingBudget) {
      forall s: nat, t: nat | s <= t
        ensures InputRises(EffectivePrices(model, s, thinkingBudget), EffectivePrices(model, t, thinkingBudget), s, t)
      {
        UncachedNecessary(model, thinkingBudget, s, t);
      }
    }
    if UncachedPricesRise(model, thinkingBudget) {
      forall a, b, output | a <= b
        ensures Anthropic(model, a, output, None, None, thinkingBudget) <= Anthropic(model, b, output, None, None, thinkingBudget)
      {
        UncachedSufficient(model, thinkingBudget, a, b, output);
      }
    }
  }

  lemma UncachedSufficient(model: ModelInfo, thinkingBudget: Option<nat>, a: nat, b: nat, output: nat)
    requires UncachedPricesRise(model, thinkingBudget) && a <= b
    ensures Anthropic(model, a, output, None, None, thinkingBudget) <= Anthropic(model, b, output, None, None, thinkingBudget)
  {
    var p, q := EffectivePrices(model, a, thinkingBudget), EffectivePrices(model, b, thinkingBudget);
    assert InputRises(p, q, a, b);
    UncachedTotal(model, a, output, thinkingBudget);
    UncachedTotal(model, b, output, thinkingBudget);
    Scales(p.output / 1000000.0, output as real, q.output / 1000000.0);
  }

  lemma OnlyWrites(p: Prices, n: nat, w: nat)
    ensures Total(p, n, 0, w, 0) == PerMillion(p.cacheWrites, w) + PerMillion(p.input, n)
  {
    Zero(p.cacheReads);
    Zero(p.output);
  }

  lemma OnlyReads(p: Prices, n: nat, r: nat)
    ensures Total(p, n, 0, 0, r) == PerMillion(p.cacheReads, r) + PerMillion(p.input, n)
  {
    Zero(p.cacheWrites);
    Zero(p.output);
  }

  lemma AnthropicNecessary(model: ModelInfo, thinkingBudget: Option<nat>, s: nat, t: nat)
    requires AnthropicSteady(model, thinkingBudget) && s <= t
    ensures Rises(EffectivePrices(model, s, thinkingBudget), EffectivePrices(model, t, thinkingBudget), s, t)
  {
    var p, q := EffectivePrices(model, s, thinkingBudget), EffectivePrices(model, t, thinkingBudget);
    UncachedNecessary(model, thinkingBudget, s, t);
    Zero(p.input);
    assert Anthropic(model, 0, 0, Some(s), None, thinkingBudget) <= Anthropic(model, t - s, 0, Some(s), None, thinkingBudget);
    OnlyWrites(p, 0, s);
    OnlyWrites(q, t - s, s);
    assert Anthropic(model, 0, 0, None, Some(s), thinkingBudget) <= Anthropic(model, t - s, 0, None, Some(s), thinkingBudget);
    OnlyReads(p, 0, s);
    OnlyReads(q, t - s, s);
  }

  lemma AnthropicSufficient(model: ModelInfo, thinkingBudget: Option<nat>, a: nat, b: nat, output: nat, w: Option<nat>, r: Option<nat>)
    requires PricesRise(model, thinkingBudget) && a <= b
    ensures Anthropic(model, a, output, w, r, thinkingBudget) <= Anthropic(model, b, output, w, r, thinkingBudget)
  {
    var s, t := a + OrZero(w) + OrZero(r), b + OrZero(w) + OrZero(r);
    assert Rises(EffectivePrices(model, s, thinkingBudget), EffectivePrices(model, t, thinkingBudget), s, t);
    assert t == s + (b - a) && b == a + (b - a);
    RisingTotals(EffectivePrices(model, s, thinkingBudget), EffectivePrices(model, t, thinkingBudget),
                 a, b - a, output, OrZero(w), OrZero(r));
  }

  /** With cached tokens, the same exactly if moreover no cache price falls by more than the added input costs. */
  lemma AnthropicNeverFallsIff(model: ModelInfo, thinkingBudget: Option<nat>)
    ensures AnthropicSteady(model, thinkingBudget) <==> PricesRise(model, thinkingBudget)
  {
    if AnthropicSteady(model, thinkingBudget) {
      forall s: nat, t: nat | s <= t
        ensures Rises(EffectivePrices(model, s, thinkingBudget), EffectivePrices(model, t, thinkingBudget), s, t)
      {
        AnthropicNecessary(model, thinkingBudget, s, t);
      }
    }
    if PricesRise(model, thinkingBudget) {
      forall a, b, output, w, r | a <= b
        ensures Anthropic(model, a, output, w, r, thinkingBudget) <= Anthropic(model, b, output, w, r, thinkingBudget)
      {
        AnthropicSufficient(model, thinkingBudget, a, b, output, w, r);
      }
    }
  }

  // ----- OpenAI-style counting

  function Uncached(input: nat, cached: nat): nat {
    if input > cached then input - cached else 0
  }

  /** More is reported as cached than the smaller input holds. */
  lemma OvercachedTotals(p: Prices, q: Prices, s: nat, t: nat, output: nat, w: nat, r: nat)
    requires s <= t && s <= w + r && Rises(p, q, s, t) && CacheAtMost(p, q)
    ensures Total(p, 0, output, w, r) <= Total(q, Uncached(t, w + r), output, w, r)
  {
    var k := w + r;
    Zero(p.input);
    Zero(q.input);
    PerMillionGrows(p.output, q.output, output, output);
    if k < t && q.input < 0.0 {
      NegativeInput(p, q, s, t, w, r);
    } else {
      PerMillionGrows(p.cacheWrites, q.cacheWrites, w, w);
      PerMillionGrows(p.cacheReads, q.cacheReads, r, r);
      if k < t { PerMillionGrows(0.0, q.input, t - k, t - k); }
      assert PerMillion(q.input, Uncached(t, k)) >= 0.0;
    }
  }

  lemma NegativeInput(p: Prices, q: Prices, s: nat, t: nat, w: nat, r: nat)
    requires s <= t && s <= w + r < t && Rises(p, q, s, t) && CacheAtMost(p, q) && q.input < 0.0
    ensures PerMillion(p.cacheWrites, w) + PerMillion(p.cacheReads, r)
         <= PerMillion(q.cacheWrites, w) + PerMillion(q.cacheReads, r) + PerMillion(q.input, t - w - r)
  {
    var m, k := 1000000.0, w + r;
    var x, dw, dr := q.input / m, (q.cacheWrites - p.cacheWrites) / m, (q.cacheReads - p.cacheReads) / m;
    if s == 0 {
      Zero(p.input);
      Factor(x, t as real);
    } else {
      var g := x * (t - s) as real;
      assert g + dw * s as real >= 0.0 && g + dr * s as real >= 0.0;
      Scales(s as real, dw, k as real);
      Scales(s as real, dr, k as real);
      SharedGap(g, dw, dr, w as real, r as real);
      assert x * (t - k) as real >= g by { assert x * (k - s) as real <= 0.0; }
    }
  }

  lemma SharedGapIs(g: real, dw: real, dr: real, w: real, r: real)
    ensures var k := w + r; (g + dw * w + dr * r) * k == (g + dw * k) * w + (g + dr * k) * r
  {
  }

  /** If each of two gains over the whole makes up for a gap, so do they in shares. */
  lemma SharedGap(g: real, dw: real, dr: real, w: real, r: real)
    requires w >= 0.0 && r >= 0.0 && w + r > 0.0
    requires g + dw * (w + r) >= 0.0 && g + dr * (w + r) >= 0.0
    ensures g + dw * w + dr * r >= 0.0
  {
    var k, e := w + r, g + dw * w + dr * r;
    Scales(0.0, w, g + dw * k);
    Scales(0.0, r, g + dr * k);
    SharedGapIs(g, dw, dr, w, r);
    Factor(e, k);
  }

  lemma OpenAITotal(model: ModelInfo, input: nat, output: nat, w: Option<nat>, r: Option<nat>, thinkingBudget: Option<nat>)
    ensures OpenAI(model, input, output, w, r, thinkingBudget)
         == Total(EffectivePrices(model, input, thinkingBudget), Uncached(input, OrZero(w) + OrZero(r)), output, OrZero(w), OrZero(r))
  {
  }

  lemma OpenAISufficient(model: ModelInfo, thinkingBudget: Option<nat>, a: nat, b: nat, output: nat, w: Option<nat>, r: Option<nat>)
    requires PricesRise(model, thinkingBudget) && CachePricesRise(model, thinkingBudget) && a <= b
    ensures OpenAI(model, a, output, w, r, thinkingBudget) <= OpenAI(model, b, output, w, r, thinkingBudget)
  {
    var p, q := EffectivePrices(model, a, thinkingBudget), EffectivePrices(model, b, thinkingBudget);
    var cw, cr := OrZero(w), OrZero(r);
    OpenAITotal(model, a, output, w, r, thinkingBudget);
    OpenAITotal(model, b, output, w, r, thinkingBudget);
    assert Rises(p, q, a, b) && CacheAtMost(p, q);
    if a <= cw + cr {
      OvercachedTotals(p, q, a, b, output, cw, cr);
    } else {
      var n := a - cw - cr;
      assert n + cw + cr == a && n + cw + cr + (b - a) == b && Uncached(b, cw + cr) == n + (b - a);
      RisingTotals(p, q, n, b - a, output, cw, cr);
    }
  }

  lemma OpenAINecessary(model: ModelInfo, thinkingBudget: Option<nat>, s: nat, t: nat)
    requires OpenAISteady(model, thinkingBudget) && s <= t
    ensures Rises(EffectivePrices(model, s, thinkingBudget), EffectivePrices(model, t, thinkingBudget), s, t)
    ensures CacheAtMost(EffectivePrices(model, s, thinkingBudget), EffectivePrices(model, t, thinkingBudget))
  {
    var p, q := EffectivePrices(model, s, thinkingBudget), EffectivePrices(model, t, thinkingBudget);
    assert UncachedSteady(model, thinkingBudget) by {
      forall a, b, output | a <= b
        ensures Anthropic(model, a, output, None, None, thinkingBudget) <= Anthropic(model, b, output, None, None, thinkingBudget)
      {
        OpenAIIsAnthropic(model, a, output, None, None, thinkingBudget);
        OpenAIIsAnthropic(model, b, output, None, None, thinkingBudget);
        assert OpenAI(model, a, output, None, None, thinkingBudget) <= OpenAI(model, b, output, None, None, thinkingBudget);
      }
    }
    UncachedNecessary(model, thinkingBudget, s, t);
    WritesNecessary(model, thinkingBudget, s, t, s);
    WritesNecessary(model, thinkingBudget, s, t, t);
    ReadsNecessary(model, thinkingBudget, s, t, s);
    ReadsNecessary(model, thinkingBudget, s, t, t);
    Zero(q.input);
    if t > 0 {
      Divides(p.cacheWrites, q.cacheWrites, t);
      Divides(p.cacheReads, q.cacheReads, t);
    }
  }

  lemma Divides(p: real, q: real, t: nat)
    requires PerMillion(p, t) <= PerMillion(q, t) && t > 0
    ensures p <= q
  {
    Factor(q / 1000000.0 - p / 1000000.0, t as real);
  }

  lemma WritesNecessary(model: ModelInfo, thinkingBudget: Option<nat>, s: nat, t: nat, w: nat)
    requires OpenAISteady(model, thinkingBudget) && s <= w <= t
    ensures var p, q := EffectivePrices(model, s, thinkingBudget), EffectivePrices(model, t, thinkingBudget);
      PerMillion(p.cacheWrites, w) <= PerMillion(q.cacheWrites, w) + PerMillion(q.input, t - w)
  {
    var p, q := EffectivePrices(model, s, thinkingBudget), EffectivePrices(model, t, thinkingBudget);
    assert OpenAI(model, s, 0, Some(w), None, thinkingBudget) <= OpenAI(model, t, 0, Some(w), None, thinkingBudget);
    OpenAITotal(model, s, 0, Some(w), None, thinkingBudget);
    OpenAITotal(model, t, 0, Some(w), None, thinkingBudget);
    OnlyWrites(p, 0, w);
    OnlyWrites(q, t - w, w);
    Zero(p.input);
  }

  lemma ReadsNecessary(model: ModelInfo, thinkingBudget: Option<nat>, s: nat, t: nat, r: nat)
    requires OpenAISteady(model, thinkingBudget) && s <= r <= t
    ensures var p, q := EffectivePrices(model, s, thinkingBudget), EffectivePrices(model, t, thinkingBudget);
      PerMillion(p.cacheReads, r) <= PerMillion(q.cacheReads, r) + PerMillion(q.input, t - r)
  {
    var p, q := EffectivePrices(model, s, thinkingBudget), EffectivePrices(model, t, thinkingBudget);
    assert OpenAI(model, s, 0, None, Some(r), thinkingBudget) <= OpenAI(model, t, 0, None, Some(r), thinkingBudget);
    OpenAITotal(model, s, 0, None, Some(r), thinkingBudget);
    OpenAITotal(model, t, 0, None, Some(r), thinkingBudget);
    OnlyReads(p, 0, r);
    OnlyReads(q, t - r, r);
    Zero(p.input);
  }

  /** Where the input includes the cached tokens, the same exactly if moreover no cache price falls at all:
      more may be reported as cached than there is input. */
  lemma OpenAINeverFallsIff(model: ModelInfo, thinkingBudget: Option<nat>)
    ensures OpenAISteady(model, thinkingBudget)
       <==> PricesRise(model, thinkingBudget) && CachePricesRise(model, thinkingBudget)
  {
    if OpenAISteady(model, thinkingBudget) {
      forall s: nat, t: nat | s <= t
        ensures Rises(EffectivePrices(model, s, thinkingBudget), EffectivePrices(model, t, thinkingBudget), s, t)
        ensures CacheAtMost(EffectivePrices(model, s, thinkingBudget), EffectivePrices(model, t, thinkingBudget))
      {
        OpenAINecessary(model, thinkingBudget, s, t);
      }
    }
    if PricesRise(model, thinkingBudget) && CachePricesRise(model, thinkingBudget) {
      forall a, b, output, w, r | a <= b
        ensures OpenAI(model, a, output, w, r, thinkingBudget) <= OpenAI(model, b, output, w, r, thinkingBudget)
      {
        OpenAISufficient(model, thinkingBudget, a, b, output, w, r);
      }
    }
  }
}
