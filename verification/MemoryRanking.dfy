/** Which memories go into a prompt: scored, ranked, and cut at the character budget. */
module MemoryRanking {
  import opened Sequences

  /** `tokens` are the distinct relevance tokens of description and body; `textLength` is the length of both. */
  datatype Memory = Memory(name: string, isGlobal: bool, textLength: nat, tokens: set<string>)

  const MEMORY_BUDGET_CHARS := 8_000
  const ENTRY_OVERHEAD := 64
  const PROJECT_BONUS := 0.05

  // ----- Scoring

  /** The share of the distinct prompt tokens that occur in the memory. */
  function Overlap(tokens: set<string>, prompt: set<string>): (score: real)
    ensures 0.0 <= score <= 1.0
    ensures score == 1.0 <==> prompt != {} && prompt <= tokens
    ensures score == 0.0 <==> prompt !! tokens
  {
    var common := prompt * tokens;
    if prompt == {} then 0.0
    else
      ShareOfCommon(common, prompt);
      assert forall t :: t in prompt && t in tokens ==> t in common;
      assert common == {} ==> prompt !! tokens;
      assert prompt !! tokens ==> common == {} by { assert forall t :: t in common ==> t in prompt && t in tokens; }
      assert prompt <= tokens <==> common == prompt;
      |common| as real / |prompt| as real
  }

  lemma ShareOfCommon(common: set<string>, prompt: set<string>)
    requires common <= prompt && prompt != {}
    ensures 0.0 <= |common| as real / |prompt| as real <= 1.0
    ensures |common| as real / |prompt| as real == 1.0 <==> common == prompt
    ensures |common| as real / |prompt| as real == 0.0 <==> common == {}
  {
    SubsetSize(common, prompt);
    if common != prompt { StrictSubsetSize(common, prompt); }
    ShareBounds(|common|, |prompt|);
  }

  lemma {:induction false} SubsetSize<T>(a: set<T>, b: set<T>)
    requires a <= b
    ensures |a| <= |b|
  {
    if a != {} {
      var x :| x in a;
      SubsetSize(a - {x}, b - {x});
    }
  }

  lemma StrictSubsetSize<T>(a: set<T>, b: set<T>)
    requires a < b
    ensures |a| < |b|
  {
    var x :| x in b && x !in a;
    SubsetSize(a, b - {x});
  }

  lemma ShareBounds(k: nat, n: nat)
    requires k <= n && n > 0
    ensures 0.0 <= k as real / n as real <= 1.0
    ensures (k as real / n as real == 1.0) <==> k == n
    ensures (k as real / n as real == 0.0) <==> k == 0
  {
    var q := k as real / n as real;
    assert q * n as real == k as real;
  }

  function TokenSet(tokens: seq<string>): set<string> {
    set t | t in tokens
  }

  /** The score depends on the distinct prompt tokens alone, not on their order or number. */
  method ScoreMemoryRelevance(memory: Memory, promptTokens: seq<string>) returns (score: real)
    ensures score == Overlap(memory.tokens, TokenSet(promptTokens))
    ensures 0.0 <= score <= 1.0
  {
    if |promptTokens| == 0 { return 0.0; }
    assert promptTokens[0] in TokenSet(promptTokens);
    assert memory.tokens == {} ==> TokenSet(promptTokens) !! memory.tokens;
    if |memory.tokens| == 0 { return 0.0; }
    var hits := 0;
    var seen: set<string> := {};
    for i := 0 to |promptTokens|
      invariant seen == TokenSet(promptTokens[..i])
      invariant hits == |seen * memory.tokens|
    {
      var tok := promptTokens[i];
      assert promptTokens[..i + 1] == promptTokens[..i] + [tok];
      if tok in seen { continue; }
      ghost var before := seen;
      seen := seen + {tok};
      if tok in memory.tokens {
        hits := hits + 1;
        assert seen * memory.tokens == before * memory.tokens + {tok};
      } else {
        assert seen * memory.tokens == before * memory.tokens;
      }
    }
    assert promptTokens[..|promptTokens|] == promptTokens;
    score := hits as real / |seen| as real;
  }

  // ----- Ranking

  datatype Scored = Scored(memory: Memory, score: real, idx: nat)

  /** The comparator: higher score first, ties in the original order. */
  predicate Before(a: Scored, b: Scored) {
    a.score > b.score || (a.score == b.score && a.idx < b.idx)
  }

  ghost predicate Sorted(s: seq<Scored>) {
    forall i, j :: 0 <= i < j < |s| ==> Before(s[i], s[j])
  }

  ghost predicate DistinctIdx(s: seq<Scored>) {
    forall i, j :: 0 <= i < j < |s| ==> s[i].idx != s[j].idx
  }

  function Insert(x: Scored, s: seq<Scored>): (r: seq<Scored>)
    ensures multiset(r) == multiset{x} + multiset(s)
  {
    if s == [] || Before(x, s[0]) then [x] + s
    else
      assert s == [s[0]] + s[1..];
      [s[0]] + Insert(x, s[1..])
  }

  function Sort(s: seq<Scored>): (r: seq<Scored>)
    ensures multiset(r) == multiset(s)
  {
    if s == [] then []
    else
      assert s == [s[0]] + s[1..];
      Insert(s[0], Sort(s[1..]))
  }

  lemma {:induction false} InsertSorted(x: Scored, s: seq<Scored>)
    requires Sorted(s) && forall y :: y in s ==> y.idx != x.idx
    ensures Sorted(Insert(x, s))
  {
    if s != [] && !Before(x, s[0]) {
      InsertSorted(x, s[1..]);
      var r := Insert(x, s[1..]);
      forall k | 0 <= k < |r| ensures Before(s[0], r[k]) {
        assert r[k] in multiset(r);
        if r[k] != x { var j :| 0 <= j < |s[1..]| && s[1..][j] == r[k]; assert s[j + 1] == r[k]; }
      }
    }
  }

  lemma {:induction false} SortSorted(s: seq<Scored>)
    requires DistinctIdx(s)
    ensures Sorted(Sort(s))
  {
    if s != [] {
      SortSorted(s[1..]);
      forall y | y in Sort(s[1..]) ensures y.idx != s[0].idx {
        assert y in multiset(Sort(s[1..]));
        var j :| 0 <= j < |s[1..]| && s[1..][j] == y;
        assert s[j + 1] == y;
      }
      InsertSorted(s[0], Sort(s[1..]));
    }
  }

  lemma SameHead(a: seq<Scored>, b: seq<Scored>)
    requires Sorted(a) && Sorted(b) && multiset(a) == multiset(b) && a != []
    ensures b != [] && a[0] == b[0]
  {
    assert a[0] in multiset(b);
    assert b[0] in multiset(a);
  }

  lemma SameTail(x: Scored, a: seq<Scored>, b: seq<Scored>)
    requires multiset([x] + a) == multiset([x] + b)
    ensures multiset(a) == multiset(b)
  {
    assert multiset(a) == multiset([x] + a) - multiset{x};
    assert multiset(b) == multiset([x] + b) - multiset{x};
  }

  /** The comparator leaves one answer: any correct sorting algorithm returns this list. */
  lemma {:induction false} SortUnique(a: seq<Scored>, b: seq<Scored>)
    requires Sorted(a) && Sorted(b) && multiset(a) == multiset(b)
    ensures a == b
  {
    if a == [] {
      assert |multiset(b)| == 0;
    } else {
      SameHead(a, b);
      assert a == [a[0]] + a[1..] && b == [a[0]] + b[1..];
      SameTail(a[0], a[1..], b[1..]);
      SortUnique(a[1..], b[1..]);
    }
  }

  type ScoreOf = Memory -> real

  function Bonus(m: Memory): real {
    if m.isGlobal then 0.0 else PROJECT_BONUS
  }

  function ScoreAll(score: ScoreOf, ms: seq<Memory>): seq<Scored> {
    seq(|ms|, i requires 0 <= i < |ms| => Scored(ms[i], score(ms[i]) + Bonus(ms[i]), i))
  }

  function Memories(s: seq<Scored>): seq<Memory> {
    seq(|s|, i requires 0 <= i < |s| => s[i].memory)
  }

  function Ranking(score: ScoreOf, ms: seq<Memory>): seq<Scored> {
    Sort(ScoreAll(score, ms))
  }

  lemma RankingSorted(score: ScoreOf, ms: seq<Memory>)
    ensures Sorted(Ranking(score, ms))
    ensures |Ranking(score, ms)| == |ms|
    ensures forall x :: x in Ranking(score, ms) ==>
      x.idx < |ms| && x.memory == ms[x.idx] && x.score == score(x.memory) + Bonus(x.memory)
  {
    var s, r := ScoreAll(score, ms), Ranking(score, ms);
    SortSorted(s);
    assert |multiset(r)| == |r| && |multiset(s)| == |s|;
    forall x | x in r ensures x in s { assert x in multiset(r); }
  }

  lemma MemoriesCons(x: Scored, s: seq<Scored>)
    ensures Memories([x] + s) == [x.memory] + Memories(s)
  {
  }

  lemma {:induction false} InsertMemories(x: Scored, s: seq<Scored>)
    ensures multiset(Memories(Insert(x, s))) == multiset{x.memory} + multiset(Memories(s))
  {
    if s == [] || Before(x, s[0]) {
      MemoriesCons(x, s);
    } else {
      InsertMemories(x, s[1..]);
      MemoriesCons(s[0], Insert(x, s[1..]));
      MemoriesCons(s[0], s[1..]);
      assert s == [s[0]] + s[1..];
    }
  }

  lemma {:induction false} SortMemories(s: seq<Scored>)
    ensures multiset(Memories(Sort(s))) == multiset(Memories(s))
  {
    if s != [] {
      SortMemories(s[1..]);
      InsertMemories(s[0], Sort(s[1..]));
      MemoriesCons(s[0], s[1..]);
      assert s == [s[0]] + s[1..];
    }
  }

  /** Ranking drops and invents nothing. */
  lemma RankingPermutes(score: ScoreOf, ms: seq<Memory>)
    ensures multiset(Memories(Ranking(score, ms))) == multiset(ms)
  {
    SortMemories(ScoreAll(score, ms));
    assert Memories(ScoreAll(score, ms)) == ms;
  }

  /** Project memories are listed before global ones. */
  ghost predicate ProjectFirst(ms: seq<Memory>) {
    forall i, j :: 0 <= i < |ms| && 0 <= j < |ms| && !ms[i].isGlobal && ms[j].isGlobal ==> i < j
  }

  /** A global memory precedes a project memory exactly if it beats it by more than the bonus. */
  lemma GlobalPrecedesProject(score: ScoreOf, ms: seq<Memory>, g: nat, p: nat)
    requires ProjectFirst(ms)
    requires g < |Ranking(score, ms)| && p < |Ranking(score, ms)|
    requires Ranking(score, ms)[g].memory.isGlobal && !Ranking(score, ms)[p].memory.isGlobal
    ensures g < p <==> score(Ranking(score, ms)[g].memory) > score(Ranking(score, ms)[p].memory) + PROJECT_BONUS
  {
    RankingSorted(score, ms);
    var r := Ranking(score, ms);
    assert r[g] in r && r[p] in r;
    assert r[p].idx < r[g].idx;
    assert g != p;
  }

  // ----- The budget

  function EntrySize(m: Memory): nat {
    ENTRY_OVERHEAD + m.textLength
  }

  function TotalSize(ms: seq<Memory>): nat {
    if ms == [] then 0 else TotalSize(ms[..|ms| - 1]) + EntrySize(ms[|ms| - 1])
  }

  datatype Loaded = Loaded(memories: seq<Memory>, totalChars: nat, truncated: bool)

  /** `k` is the length of the longest prefix of `ms` within the budget. */
  ghost predicate LongestPrefix(ms: seq<Memory>, k: nat) {
    && k <= |ms| && TotalSize(ms[..k]) <= MEMORY_BUDGET_CHARS
    && forall n :: k < n <= |ms| ==> TotalSize(ms[..n]) > MEMORY_BUDGET_CHARS
  }

  /** The first `k` memories as the loader reports them; nothing at all is reported as None. */
  function Cut(ms: seq<Memory>, k: nat): Option<Loaded>
    requires k <= |ms|
  {
    if k == 0 then None else Some(Loaded(ms[..k], TotalSize(ms[..k]), k < |ms|))
  }

  lemma {:induction false} TotalGrows(ms: seq<Memory>, k: nat, n: nat)
    requires k <= n <= |ms|
    ensures TotalSize(ms[..k]) <= TotalSize(ms[..n])
    decreases n - k
  {
    if k < n {
      TotalGrows(ms, k, n - 1);
      assert ms[..n][..n - 1] == ms[..n - 1];
    }
  }

  method ClampToBudget(combined: seq<Memory>) returns (loaded: Option<Loaded>)
    ensures exists k :: LongestPrefix(combined, k) && loaded == Cut(combined, k)
    ensures loaded.None? <==> combined == [] || 64 + combined[0].textLength > 8_000
    ensures loaded.Some? ==>
      && loaded.value.memories <= combined && loaded.value.totalChars == TotalSize(loaded.value.memories) <= 8_000
      && (loaded.value.truncated <==> |loaded.value.memories| < |combined|)
      && (loaded.value.truncated ==> loaded.value.totalChars + 64 + combined[|loaded.value.memories|].textLength > 8_000)
  {
    var included: seq<Memory> := [];
    var totalChars := 0;
    var truncated := false;
    var i := 0;
    while i < |combined|
      invariant 0 <= i <= |combined|
      invariant included == combined[..i] && totalChars == TotalSize(included) <= MEMORY_BUDGET_CHARS && !truncated
    {
      var m := combined[i];
      assert combined[..i + 1][..i] == combined[..i];
      if totalChars + EntrySize(m) > MEMORY_BUDGET_CHARS {
        truncated := true;
        forall n | i < n <= |combined| ensures TotalSize(combined[..n]) > MEMORY_BUDGET_CHARS {
          TotalGrows(combined, i + 1, n);
        }
        break;
      }
      included := included + [m];
      totalChars := totalChars + EntrySize(m);
      i := i + 1;
    }
    assert LongestPrefix(combined, i);
    if i > 0 {
      TotalGrows(combined, 1, i);
      assert combined[..1][..0] == [] && TotalSize(combined[..1]) == EntrySize(combined[0]);
    }
    if |included| == 0 { return None; }
    return Some(Loaded(included, totalChars, truncated));
  }

  // ----- Loading

  /** The order memories are offered in: by the ranker's scores, else by token overlap, else unchanged. */
  function Offered(combined: seq<Memory>, promptTokens: seq<string>, ranker: Option<map<string, real>>): seq<Memory> {
    if ranker.Some? then Memories(Ranking(RankerScore(ranker.value), combined))
    else if promptTokens != [] && AnyHit(promptTokens, combined) then
      Memories(Ranking(TokenScore(promptTokens), combined))
    else combined
  }

  function RankerScore(scores: map<string, real>): ScoreOf {
    (m: Memory) => if m.name in scores then scores[m.name] else 0.0
  }

  function TokenScore(promptTokens: seq<string>): ScoreOf {
    (m: Memory) => Overlap(m.tokens, TokenSet(promptTokens))
  }

  predicate AnyHit(promptTokens: seq<string>, ms: seq<Memory>) {
    exists i :: 0 <= i < |ms| && TokenScore(promptTokens)(ms[i]) > 0.0
  }

  lemma OfferedPermutes(combined: seq<Memory>, promptTokens: seq<string>, ranker: Option<map<string, real>>)
    ensures multiset(Offered(combined, promptTokens, ranker)) == multiset(combined)
  {
    if ranker.Some? { RankingPermutes(RankerScore(ranker.value), combined); }
    RankingPermutes(TokenScore(promptTokens), combined);
  }

  /** The loop that scores every memory and asks whether any scored at all. */
  method ScoreEach(combined: seq<Memory>, promptTokens: seq<string>) returns (anyHit: bool)
    ensures anyHit <==> AnyHit(promptTokens, combined)
  {
    anyHit := false;
    for i := 0 to |combined|
      invariant anyHit <==> exists j :: 0 <= j < i && TokenScore(promptTokens)(combined[j]) > 0.0
    {
      var base := ScoreMemoryRelevance(combined[i], promptTokens);
      if base > 0.0 { anyHit := true; }
    }
  }

  /** `ranker` holds the semantic scores where a ranker was given a prompt and answered. */
  method LoadRelevantMemories(projectList: seq<Memory>, globalList: seq<Memory>, promptTokens: seq<string>,
                              ranker: Option<map<string, real>>) returns (loaded: Option<Loaded>)
    ensures exists k :: LongestPrefix(Offered(projectList + globalList, promptTokens, ranker), k) &&
                        loaded == Cut(Offered(projectList + globalList, promptTokens, ranker), k)
  {
    var combined := projectList + globalList;
    ghost var offered := Offered(combined, promptTokens, ranker);
    OfferedPermutes(combined, promptTokens, ranker);
    if |combined| == 0 {
      assert |multiset(offered)| == 0;
      assert LongestPrefix(offered, 0);
      return None;
    }
    if ranker.Some? {
      loaded := ClampToBudget(Memories(Ranking(RankerScore(ranker.value), combined)));
      return;
    }
    var anyHit := ScoreEach(combined, promptTokens);
    if |promptTokens| > 0 && anyHit {
      combined := Memories(Ranking(TokenScore(promptTokens), combined));
    }
    loaded := ClampToBudget(combined);
  }
}
