/** The conditions on prices, checked at finitely many input sizes read off the tier table. */
module CostTiers {
  import opened Sequences
  import opened Cost
  import opened CostLimits

  /** The input sizes at which a price may change, and those just after. */
  function Checkpoints(tiers: seq<Tier>): set<nat> {
    if tiers == [] then {0}
    else
      var limit := tiers[0].contextWindow;
      (if limit.Upto? then {limit.tokens, limit.tokens + 1} else {}) + Checkpoints(tiers[1..])
  }

  /** A tier ends at this size. */
  predicate IsLimit(tiers: seq<Tier>, s: nat) {
    exists i :: 0 <= i < |tiers| && tiers[i].contextWindow == Upto(s)
  }

  predicate IsCheckpoint(tiers: seq<Tier>, s: nat) {
    s == 0 || IsLimit(tiers, s) || (s > 0 && IsLimit(tiers, s - 1))
  }

  lemma LimitCons(tiers: seq<Tier>, s: nat)
    requires tiers != []
    ensures IsLimit(tiers, s) <==> tiers[0].contextWindow == Upto(s) || IsLimit(tiers[1..], s)
  {
    var rest := tiers[1..];
    if i :| 0 <= i < |rest| && rest[i].contextWindow == Upto(s) { assert tiers[i + 1].contextWindow == Upto(s); }
    if i :| 0 < i < |tiers| && tiers[i].contextWindow == Upto(s) { assert rest[i - 1].contextWindow == Upto(s); }
  }

  lemma {:induction false} CheckpointsAre(tiers: seq<Tier>, s: nat)
    ensures s in Checkpoints(tiers) <==> IsCheckpoint(tiers, s)
  {
    if tiers != [] {
      CheckpointsAre(tiers[1..], s);
      LimitCons(tiers, s);
      if s > 0 { LimitCons(tiers, s - 1); }
    }
  }

  // ----- Prices between limits

  /** Totals that fit the same tiers have the same tier. */
  lemma {:induction false} SameTier(sorted: seq<Tier>, a: nat, b: nat)
    requires sorted != [] && forall i :: 0 <= i < |sorted| ==> (Fits(a, sorted[i]) <==> Fits(b, sorted[i]))
    ensures TierIndex(sorted, a) == TierIndex(sorted, b)
  {
    if !Fits(a, sorted[0]) && |sorted| > 1 {
      assert forall i :: 0 <= i < |sorted| - 1 ==> sorted[1..][i] == sorted[i + 1];
      SameTier(sorted[1..], a, b);
    }
  }

  lemma SamePrices(model: ModelInfo, a: nat, b: nat, thinkingBudget: Option<nat>)
    requires a <= b && forall s: nat :: a <= s < b ==> !IsLimit(model.tiers, s)
    ensures EffectivePrices(model, a, thinkingBudget) == EffectivePrices(model, b, thinkingBudget)
  {
    var sorted := Sorted(model.tiers);
    if sorted != [] {
      SortedAscends(model.tiers);
      SameMembers(sorted, model.tiers);
      forall i | 0 <= i < |sorted| ensures Fits(a, sorted[i]) <==> Fits(b, sorted[i]) {
        assert sorted[i] in model.tiers;
        var limit := sorted[i].contextWindow;
        if limit.Upto? && a <= limit.tokens < b { assert IsLimit(model.tiers, limit.tokens); }
      }
      SameTier(sorted, a, b);
    }
  }

  /** The checkpoint that speaks for total `s`: the same prices reach from it to `s`, and past `s` if `s` is no limit. */
  lemma {:induction false} CheckpointBefore(model: ModelInfo, s: nat) returns (c: nat)
    ensures c <= s && c in Checkpoints(model.tiers)
    ensures forall x: nat :: c <= x < s ==> !IsLimit(model.tiers, x)
  {
    CheckpointsAre(model.tiers, s);
    if s == 0 || IsLimit(model.tiers, s - 1) {
      c := s;
    } else {
      c := CheckpointBefore(model, s - 1);
    }
  }

  // ----- From step to step

  predicate StepRises(model: ModelInfo, thinkingBudget: Option<nat>, s: nat) {
    Rises(EffectivePrices(model, s, thinkingBudget), EffectivePrices(model, s + 1, thinkingBudget), s, s + 1)
  }

  predicate UncachedStepRises(model: ModelInfo, thinkingBudget: Option<nat>, s: nat) {
    InputRises(EffectivePrices(model, s, thinkingBudget), EffectivePrices(model, s + 1, thinkingBudget), s, s + 1)
  }

  predicate CacheStepRises(model: ModelInfo, thinkingBudget: Option<nat>, s: nat) {
    CacheAtMost(EffectivePrices(model, s, thinkingBudget), EffectivePrices(model, s + 1, thinkingBudget))
  }

  /** Within a tier one token more costs its price, anywhere. */
  lemma OneTokenMore(price: real, s: nat)
    ensures PerMillion(price, s + 1) == PerMillion(price, s) + price / 1000000.0
    ensures PerMillion(price, s + 1 - s) == price / 1000000.0
  {
  }

  lemma SameTierInput(p: Prices, c: nat, s: nat)
    ensures InputRises(p, p, c, c + 1) <==> InputRises(p, p, s, s + 1)
  {
    OneTokenMore(p.input, c);
    OneTokenMore(p.input, s);
  }

  lemma SameTierRises(p: Prices, c: nat, s: nat)
    ensures Rises(p, p, c, c + 1) <==> Rises(p, p, s, s + 1)
  {
    OneTokenMore(p.input, c);
    OneTokenMore(p.input, s);
  }

  lemma StepFromCheckpoint(model: ModelInfo, thinkingBudget: Option<nat>, s: nat) returns (c: nat)
    ensures c in Checkpoints(model.tiers)
    ensures UncachedStepRises(model, thinkingBudget, c) ==> UncachedStepRises(model, thinkingBudget, s)
    ensures StepRises(model, thinkingBudget, c) ==> StepRises(model, thinkingBudget, s)
    ensures CacheStepRises(model, thinkingBudget, c) ==> CacheStepRises(model, thinkingBudget, s)
  {
    CheckpointsAre(model.tiers, s);
    if IsLimit(model.tiers, s) {
      c := s;
    } else {
      c := CheckpointBefore(model, s);
      SamePrices(model, c, s, thinkingBudget);
      SamePrices(model, c, c + 1, thinkingBudget) by { assert forall x: nat :: c <= x <= s ==> !IsLimit(model.tiers, x); }
      SamePrices(model, s, s + 1, thinkingBudget);
      SameTierInput(EffectivePrices(model, s, thinkingBudget), c, s);
      SameTierRises(EffectivePrices(model, s, thinkingBudget), c, s);
    }
  }

  // ----- Rises add up

  lemma InputRisesAdds(p: Prices, q: Prices, r: Prices, s: nat, u: nat, t: nat)
    requires InputRises(p, q, s, u) && InputRises(q, r, u, t)
    ensures InputRises(p, r, s, t)
  {
  }

  /** For one cache price: what the added input makes up for at each step, it makes up for in all. */
  lemma CachedRisesAdds(p: real, q: real, r: real, qi: real, ri: real, s: nat, u: nat, t: nat)
    requires s <= u <= t && CachedRises(p, q, qi, s, u) && CachedRises(q, r, ri, u, t)
    requires PerMillion(qi, u) <= PerMillion(ri, t)
    ensures CachedRises(p, r, ri, s, t)
  {
    if s == 0 {
      NothingCached(p, r, ri, qi, u, t);
    } else {
      var m := 1000000.0;
      CachedArithmetic(p / m, q / m, r / m, qi / m, ri / m, s as real, u as real, t as real);
      assert (u - s) as real == u as real - s as real && (t - u) as real == t as real - u as real;
      assert (t - s) as real == t as real - s as real;
    }
  }

  lemma NothingCached(p: real, r: real, ri: real, qi: real, u: nat, t: nat)
    requires CachedRises(0.0, 0.0, qi, 0, u) && PerMillion(qi, u) <= PerMillion(ri, t)
    ensures CachedRises(p, r, ri, 0, t)
  {
    Zero(p);
    Zero(r);
    Zero(0.0);
  }

  lemma CachedArithmetic(p: real, q: real, r: real, qi: real, ri: real, s: real, u: real, t: real)
    requires 0.0 < s <= u <= t
    requires p * s <= q * s + qi * (u - s) && q * u <= r * u + ri * (t - u) && qi * u <= ri * t
    ensures p * s <= r * s + ri * (t - s)
  {
    var gain := r * s + ri * (t - s) - p * s;
    var a := q * s + qi * (u - s) - p * s;
    var b := r * u + ri * (t - u) - q * u;
    var c := ri * t - qi * u;
    Scales(0.0, u, a);
    Scales(0.0, s, b);
    Scales(0.0, u - s, c);
    CachedIs(p, q, r, qi, ri, s, u, t);
    assert gain * u == a * u + b * s + c * (u - s);
    Factor(gain, u);
  }

  lemma CachedIs(p: real, q: real, r: real, qi: real, ri: real, s: real, u: real, t: real)
    ensures (r * s + ri * (t - s) - p * s) * u
         == (q * s + qi * (u - s) - p * s) * u + (r * u + ri * (t - u) - q * u) * s + (ri * t - qi * u) * (u - s)
  {
  }

  lemma RisesAdds(p: Prices, q: Prices, r: Prices, s: nat, u: nat, t: nat)
    requires s <= u <= t && Rises(p, q, s, u) && Rises(q, r, u, t)
    ensures Rises(p, r, s, t)
  {
    CachedRisesAdds(p.cacheWrites, q.cacheWrites, r.cacheWrites, q.input, r.input, s, u, t);
    CachedRisesAdds(p.cacheReads, q.cacheReads, r.cacheReads, q.input, r.input, s, u, t);
  }

  lemma RisesNowhere(p: Prices, s: nat)
    ensures Rises(p, p, s, s)
  {
    Zero(p.input);
  }

  lemma {:induction false} UncachedFromSteps(model: ModelInfo, thinkingBudget: Option<nat>, s: nat, t: nat)
    requires s <= t && forall x: nat :: UncachedStepRises(model, thinkingBudget, x)
    ensures InputRises(EffectivePrices(model, s, thinkingBudget), EffectivePrices(model, t, thinkingBudget), s, t)
    decreases t - s
  {
    if s < t {
      UncachedFromSteps(model, thinkingBudget, s, t - 1);
      assert UncachedStepRises(model, thinkingBudget, t - 1);
    }
  }

  lemma {:induction false} RisesFromSteps(model: ModelInfo, thinkingBudget: Option<nat>, s: nat, t: nat)
    requires s <= t && forall x: nat :: StepRises(model, thinkingBudget, x)
    ensures Rises(EffectivePrices(model, s, thinkingBudget), EffectivePrices(model, t, thinkingBudget), s, t)
    decreases t - s
  {
    if s < t {
      RisesFromSteps(model, thinkingBudget, s, t - 1);
      assert StepRises(model, thinkingBudget, t - 1);
      RisesAdds(EffectivePrices(model, s, thinkingBudget), EffectivePrices(model, t - 1, thinkingBudget),
                EffectivePrices(model, t, thinkingBudget), s, t - 1, t);
    } else {
      RisesNowhere(EffectivePrices(model, s, thinkingBudget), s);
    }
  }

  lemma {:induction false} CacheFromSteps(model: ModelInfo, thinkingBudget: Option<nat>, s: nat, t: nat)
    requires s <= t && forall x: nat :: CacheStepRises(model, thinkingBudget, x)
    ensures CacheAtMost(EffectivePrices(model, s, thinkingBudget), EffectivePrices(model, t, thinkingBudget))
    decreases t - s
  {
    if s < t {
      CacheFromSteps(model, thinkingBudget, s, t - 1);
      assert CacheStepRises(model, thinkingBudget, t - 1);
    }
  }

  // ----- Theorems

  /** Without cached tokens: cost falls nowhere exactly if at no checkpoint one token more makes it fall. */
  lemma UncachedAtCheckpoints(model: ModelInfo, thinkingBudget: Option<nat>)
    ensures UncachedSteady(model, thinkingBudget)
       <==> forall c :: c in Checkpoints(model.tiers) ==> UncachedStepRises(model, thinkingBudget, c)
  {
    UncachedNeverFallsIff(model, thinkingBudget);
    if forall c :: c in Checkpoints(model.tiers) ==> UncachedStepRises(model, thinkingBudget, c) {
      forall x: nat ensures UncachedStepRises(model, thinkingBudget, x) {
        var c := StepFromCheckpoint(model, thinkingBudget, x);
      }
      forall s: nat, t: nat | s <= t
        ensures InputRises(EffectivePrices(model, s, thinkingBudget), EffectivePrices(model, t, thinkingBudget), s, t)
      {
        UncachedFromSteps(model, thinkingBudget, s, t);
      }
    }
  }

  lemma PricesRiseAtCheckpoints(model: ModelInfo, thinkingBudget: Option<nat>)
    ensures PricesRise(model, thinkingBudget)
       <==> forall c :: c in Checkpoints(model.tiers) ==> StepRises(model, thinkingBudget, c)
  {
    if forall c :: c in Checkpoints(model.tiers) ==> StepRises(model, thinkingBudget, c) {
      forall x: nat ensures StepRises(model, thinkingBudget, x) {
        var c := StepFromCheckpoint(model, thinkingBudget, x);
      }
      forall s: nat, t: nat | s <= t
        ensures Rises(EffectivePrices(model, s, thinkingBudget), EffectivePrices(model, t, thinkingBudget), s, t)
      {
        RisesFromSteps(model, thinkingBudget, s, t);
      }
    }
  }

  lemma CacheAtCheckpoints(model: ModelInfo, thinkingBudget: Option<nat>)
    ensures CachePricesRise(model, thinkingBudget)
       <==> forall c :: c in Checkpoints(model.tiers) ==> CacheStepRises(model, thinkingBudget, c)
  {
    if forall c :: c in Checkpoints(model.tiers) ==> CacheStepRises(model, thinkingBudget, c) {
      forall x: nat ensures CacheStepRises(model, thinkingBudget, x) {
        var c := StepFromCheckpoint(model, thinkingBudget, x);
      }
      forall s: nat, t: nat | s <= t
        ensures CacheAtMost(EffectivePrices(model, s, thinkingBudget), EffectivePrices(model, t, thinkingBudget))
      {
        CacheFromSteps(model, thinkingBudget, s, t);
      }
    }
  }

  /** With cached tokens counted apart. */
  lemma AnthropicAtCheckpoints(model: ModelInfo, thinkingBudget: Option<nat>)
    ensures AnthropicSteady(model, thinkingBudget)
       <==> forall c :: c in Checkpoints(model.tiers) ==> StepRises(model, thinkingBudget, c)
  {
    AnthropicNeverFallsIff(model, thinkingBudget);
    PricesRiseAtCheckpoints(model, thinkingBudget);
  }

  /** With cached tokens counted in. */
  lemma OpenAIAtCheckpoints(model: ModelInfo, thinkingBudget: Option<nat>)
    ensures OpenAISteady(model, thinkingBudget)
       <==> forall c :: c in Checkpoints(model.tiers) ==>
              StepRises(model, thinkingBudget, c) && CacheStepRises(model, thinkingBudget, c)
  {
    OpenAINeverFallsIff(model, thinkingBudget);
    PricesRiseAtCheckpoints(model, thinkingBudget);
    CacheAtCheckpoints(model, thinkingBudget);
  }
}
