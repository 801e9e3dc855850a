/** In which order memories are loaded, said on the ranker's map and on counts of prompt tokens. */
module MemoryOrder {
  import opened Sequences
  import opened MemoryRanking

  /** Two positions of a ranking, and where their memories stood before. */
  lemma RankedPair(score: ScoreOf, ms: seq<Memory>, i: nat, j: nat) returns (p: nat, q: nat)
    requires i < j < |ms|
    ensures |Ranking(score, ms)| == |ms| && p < |ms| && q < |ms| && p != q
    ensures Memories(Ranking(score, ms))[i] == ms[p] && Memories(Ranking(score, ms))[j] == ms[q]
    ensures var a, b := score(ms[p]) + Bonus(ms[p]), score(ms[q]) + Bonus(ms[q]); a > b || (a == b && p < q)
  {
    RankingSorted(score, ms);
    var r := Ranking(score, ms);
    p, q := r[i].idx, r[j].idx;
    assert r[i] in r && r[j] in r;
  }

  /** What is loaded is the beginning of what is offered. */
  lemma LoadedIsBeginning(offered: seq<Memory>, k: nat, loaded: Loaded, i: nat)
    requires k <= |offered| && Cut(offered, k) == Some(loaded) && i < |loaded.memories|
    ensures i < |offered| && loaded.memories[i] == offered[i]
  {
  }

  ghost predicate BothScopes(projectList: seq<Memory>, globalList: seq<Memory>) {
    (forall m :: m in projectList ==> !m.isGlobal) && (forall m :: m in globalList ==> m.isGlobal)
  }

  lemma ProjectsComeFirst(projectList: seq<Memory>, globalList: seq<Memory>, p: nat, q: nat)
    requires BothScopes(projectList, globalList) && p < |projectList + globalList| && q < |projectList + globalList|
    requires var ms := projectList + globalList; !ms[p].isGlobal && ms[q].isGlobal
    ensures p < q
  {
    ScopeAt(projectList, globalList, p);
    ScopeAt(projectList, globalList, q);
  }

  lemma ScopeAt(projectList: seq<Memory>, globalList: seq<Memory>, p: nat)
    requires BothScopes(projectList, globalList) && p < |projectList + globalList|
    ensures (projectList + globalList)[p].isGlobal <==> p >= |projectList|
  {
    if p < |projectList| {
      assert projectList[p] in projectList;
    } else {
      assert globalList[p - |projectList|] in globalList;
    }
  }

  lemma OfferedLength(combined: seq<Memory>, promptTokens: seq<string>, ranker: Option<map<string, real>>)
    ensures |Offered(combined, promptTokens, ranker)| == |combined|
  {
    var offered := Offered(combined, promptTokens, ranker);
    OfferedPermutes(combined, promptTokens, ranker);
    assert |multiset(offered)| == |offered| && |multiset(combined)| == |combined|;
  }

  /** With a ranker, of two loaded memories the first has the higher score on the ranker's map, a memory that the
      map does not name counting as zero: within one scope as it is, a global one only if it is ahead by more
      than 0.05, a project one if it is behind by 0.05 at most; equals keep the order they were listed in. */
  lemma LoadedByRanker(projectList: seq<Memory>, globalList: seq<Memory>, promptTokens: seq<string>,
                       scores: map<string, real>, k: nat, loaded: Loaded, i: nat, j: nat) returns (p: nat, q: nat)
    requires BothScopes(projectList, globalList)
    requires k <= |Offered(projectList + globalList, promptTokens, Some(scores))|
    requires Cut(Offered(projectList + globalList, promptTokens, Some(scores)), k) == Some(loaded)
    requires i < j < |loaded.memories|
    ensures var a, b, listed := loaded.memories[i], loaded.memories[j], projectList + globalList;
      var x, y := if a.name in scores then scores[a.name] else 0.0, if b.name in scores then scores[b.name] else 0.0;
      && p < |listed| && q < |listed| && p != q && listed[p] == a && listed[q] == b
      && (a.isGlobal == b.isGlobal ==> x > y || (x == y && p < q))
      && (a.isGlobal && !b.isGlobal ==> x > y + 0.05)
      && (!a.isGlobal && b.isGlobal ==> x + 0.05 >= y)
  {
    var listed := projectList + globalList;
    OfferedLength(listed, promptTokens, Some(scores));
    p, q := RankedPair(RankerScore(scores), listed, i, j);
    if listed[p].isGlobal && !listed[q].isGlobal { ProjectsComeFirst(projectList, globalList, q, p); }
  }

  // ----- By tokens

  /** How many distinct prompt tokens occur in the memory. */
  function Hits(m: Memory, promptTokens: seq<string>): nat {
    |set t | t in promptTokens && t in m.tokens|
  }

  function DistinctTokens(promptTokens: seq<string>): nat {
    |set t | t in promptTokens|
  }

  lemma ScoreIsHits(m: Memory, promptTokens: seq<string>)
    requires promptTokens != []
    ensures DistinctTokens(promptTokens) > 0
    ensures Overlap(m.tokens, TokenSet(promptTokens)) * DistinctTokens(promptTokens) as real == Hits(m, promptTokens) as real
  {
    var prompt := TokenSet(promptTokens);
    assert promptTokens[0] in prompt;
    assert prompt == set t | t in promptTokens;
    assert prompt * m.tokens == set t | t in promptTokens && t in m.tokens;
  }

  /** Comparing shares of a whole is comparing counts; 0.05 is a twentieth of the whole. */
  lemma SharesAndCounts(x: real, y: real, n: nat, h: nat, g: nat)
    requires n > 0 && x * n as real == h as real && y * n as real == g as real
    ensures (x > y <==> h > g) && (x == y <==> h == g)
    ensures x > y + 0.05 <==> 20 * h > 20 * g + n
    ensures x + 0.05 >= y <==> 20 * h + n >= 20 * g
  {
    ByDifference(x, y, n as real, h as real, g as real);
    ByDifference(y, x, n as real, g as real, h as real);
    AsCounts(h, g, n);
  }

  lemma ByDifference(x: real, y: real, n: real, a: real, b: real)
    requires n > 0.0 && x * n == a && y * n == b
    ensures (x > y <==> a > b) && (x == y <==> a == b) && (x > y + 0.05 <==> a > b + 0.05 * n)
  {
    assert (x - y) * n == a - b;
    assert (x - y - 0.05) * n == (x - y) * n - 0.05 * n;
    Sign(x - y, n);
    Sign(x - y - 0.05, n);
  }

  lemma AsCounts(h: nat, g: nat, n: nat)
    ensures (h as real > g as real <==> h > g) && (h as real == g as real <==> h == g)
    ensures h as real > g as real + 0.05 * n as real <==> 20 * h > 20 * g + n
    ensures g as real > h as real + 0.05 * n as real <==> 20 * g > 20 * h + n
  {
    assert (20 * g + n) as real == 20.0 * g as real + n as real && (20 * h) as real == 20.0 * h as real;
    assert (20 * h + n) as real == 20.0 * h as real + n as real && (20 * g) as real == 20.0 * g as real;
  }

  lemma Sign(d: real, n: real)
    requires n > 0.0
    ensures (d > 0.0 <==> d * n > 0.0) && (d == 0.0 <==> d * n == 0.0)
  {
    if d > 0.0 { assert d * n > 0.0; } else if d < 0.0 { assert d * n < 0.0; }
  }

  /** Without a ranker, if any memory has a prompt token, the same with the number of distinct prompt tokens
      that occur as the score, 0.05 being a twentieth of their number. */
  lemma LoadedByTokens(projectList: seq<Memory>, globalList: seq<Memory>, promptTokens: seq<string>,
                       k: nat, loaded: Loaded, i: nat, j: nat) returns (p: nat, q: nat)
    requires BothScopes(projectList, globalList) && promptTokens != []
    requires exists m :: m in projectList + globalList && Hits(m, promptTokens) > 0
    requires k <= |Offered(projectList + globalList, promptTokens, None)|
    requires Cut(Offered(projectList + globalList, promptTokens, None), k) == Some(loaded)
    requires i < j < |loaded.memories|
    ensures var a, b, listed := loaded.memories[i], loaded.memories[j], projectList + globalList;
      var x, y, n := Hits(a, promptTokens), Hits(b, promptTokens), DistinctTokens(promptTokens);
      && p < |listed| && q < |listed| && p != q && listed[p] == a && listed[q] == b
      && (a.isGlobal == b.isGlobal ==> x > y || (x == y && p < q))
      && (a.isGlobal && !b.isGlobal ==> 20 * x > 20 * y + n)
      && (!a.isGlobal && b.isGlobal ==> 20 * x + n >= 20 * y)
  {
    var listed := projectList + globalList;
    HitIsAnyHit(listed, promptTokens);
    OfferedLength(listed, promptTokens, None);
    p, q := RankedPair(TokenScore(promptTokens), listed, i, j);
    var a, b := listed[p], listed[q];
    ScoresCompare(a, b, promptTokens);
    if a.isGlobal && !b.isGlobal { ProjectsComeFirst(projectList, globalList, q, p); }
  }

  lemma ScoresCompare(a: Memory, b: Memory, promptTokens: seq<string>)
    requires promptTokens != []
    ensures var u, v := TokenScore(promptTokens)(a), TokenScore(promptTokens)(b);
      var x, y, n := Hits(a, promptTokens), Hits(b, promptTokens), DistinctTokens(promptTokens);
      && (u > v <==> x > y) && (u == v <==> x == y)
      && (u > v + 0.05 <==> 20 * x > 20 * y + n) && (u + 0.05 >= v <==> 20 * x + n >= 20 * y)
  {
    ScoreIsHits(a, promptTokens);
    ScoreIsHits(b, promptTokens);
    SharesAndCounts(TokenScore(promptTokens)(a), TokenScore(promptTokens)(b),
                    DistinctTokens(promptTokens), Hits(a, promptTokens), Hits(b, promptTokens));
  }

  lemma ScoredIsHit(m: Memory, promptTokens: seq<string>)
    requires promptTokens != []
    ensures TokenScore(promptTokens)(m) > 0.0 <==> Hits(m, promptTokens) > 0
  {
    var score, n := Overlap(m.tokens, TokenSet(promptTokens)), DistinctTokens(promptTokens);
    ScoreIsHits(m, promptTokens);
    Sign(score, n as real);
    assert TokenScore(promptTokens)(m) == score;
  }

  lemma HitIsAnyHit(ms: seq<Memory>, promptTokens: seq<string>)
    requires promptTokens != []
    ensures AnyHit(promptTokens, ms) <==> exists m :: m in ms && Hits(m, promptTokens) > 0
  {
    if i :| 0 <= i < |ms| && TokenScore(promptTokens)(ms[i]) > 0.0 {
      ScoredIsHit(ms[i], promptTokens);
      assert ms[i] in ms;
    }
    if m :| m in ms && Hits(m, promptTokens) > 0 {
      var i :| 0 <= i < |ms| && ms[i] == m;
      ScoredIsHit(ms[i], promptTokens);
      assert TokenScore(promptTokens)(ms[i]) > 0.0;
    }
  }

  /** Without a ranker, and without a prompt token in any memory, memories are loaded as they are listed. */
  lemma LoadedAsListed(combined: seq<Memory>, promptTokens: seq<string>)
    requires promptTokens == [] || forall m :: m in combined ==> Hits(m, promptTokens) == 0
    ensures Offered(combined, promptTokens, None) == combined
  {
    if promptTokens != [] { HitIsAnyHit(combined, promptTokens); }
  }
}
