/** Where anchor words come from: the shuffled dictionary first, then combinations of its words. */
module AnchorWords {
  import opened Sequences
  import opened AnchorDocuments

  // ----- Words of the dictionary and their combinations

  /** A word as drawn from the dictionary; an empty dictionary yields the text of `undefined`. */
  predicate IsDrawn(dictionary: seq<string>, w: string) {
    w in dictionary || (dictionary == [] && w == "undefined")
  }

  ghost predicate IsPair(dictionary: seq<string>, w: string) {
    exists a, b :: IsDrawn(dictionary, a) && IsDrawn(dictionary, b) && w == a + b
  }

  ghost predicate IsTriple(dictionary: seq<string>, w: string) {
    exists a, b, c :: IsDrawn(dictionary, a) && IsDrawn(dictionary, b) && IsDrawn(dictionary, c) && w == a + b + c
  }

  ghost predicate IsCombination(dictionary: seq<string>, w: string) {
    IsPair(dictionary, w) || IsTriple(dictionary, w)
  }

  ghost predicate IsWord(dictionary: seq<string>, w: string) {
    IsDrawn(dictionary, w) || IsCombination(dictionary, w)
  }

  ghost predicate AllCombinations(dictionary: seq<string>, words: seq<string>) {
    forall i :: 0 <= i < |words| ==> IsCombination(dictionary, words[i])
  }

  ghost predicate AllWords(dictionary: seq<string>, words: seq<string>) {
    forall i :: 0 <= i < |words| ==> IsWord(dictionary, words[i])
  }

  ghost predicate PairUsed(dictionary: seq<string>, usedWords: set<Anchor>) {
    exists w :: IsPair(dictionary, w) && Some(w) in usedWords
  }

  ghost predicate TripleUsed(dictionary: seq<string>, usedWords: set<Anchor>) {
    exists w :: IsTriple(dictionary, w) && Some(w) in usedWords
  }

  /** Only then may a refill bring nothing. */
  ghost predicate Exhausted(dictionary: seq<string>, usedWords: set<Anchor>) {
    PairUsed(dictionary, usedWords) && TripleUsed(dictionary, usedWords)
  }

  // ----- Drawing

  method DrawWord(dictionary: seq<string>) returns (w: string)
    ensures IsDrawn(dictionary, w)
  {
    if dictionary == [] { return "undefined"; }
    var k :| 0 <= k < |dictionary|;
    return dictionary[k];
  }

  method DrawPair(dictionary: seq<string>) returns (w: string)
    ensures IsPair(dictionary, w)
  {
    var w1 := DrawWord(dictionary);
    var w2 := DrawWord(dictionary);
    return w1 + w2;
  }

  method DrawTriple(dictionary: seq<string>) returns (w: string)
    ensures IsTriple(dictionary, w)
  {
    var w1 := DrawWord(dictionary);
    var w2 := DrawWord(dictionary);
    var w3 := DrawWord(dictionary);
    return w1 + w2 + w3;
  }

  /** The Fisher-Yates shuffle: any permutation may come out. */
  method Shuffle(words: seq<string>) returns (r: seq<string>)
    ensures |r| == |words| && multiset(r) == multiset(words)
  {
    r := words;
    var i := |r| - 1;
    while i > 0
      invariant -1 <= i < |r| == |words|
      invariant multiset(r) == multiset(words)
    {
      var j :| 0 <= j <= i;
      r := r[i := r[j]][j := r[i]];
      i := i - 1;
    }
  }

  /** None of the words has been used. */
  ghost predicate Unused(words: seq<string>, usedWords: set<Anchor>) {
    forall i :: 0 <= i < |words| ==> Some(words[i]) !in usedWords
  }

  ghost predicate AllUsed(words: seq<string>, usedWords: set<Anchor>) {
    forall i :: 0 <= i < |words| ==> Some(words[i]) in usedWords
  }

  /** The two-word combinations of a refill: a full load unless one of them is in use. */
  method DrawPairs(dictionary: seq<string>, usedWords: set<Anchor>) returns (newWords: seq<string>)
    ensures AllCombinations(dictionary, newWords) && Unused(newWords, usedWords) && |newWords| <= 10_000
    ensures !PairUsed(dictionary, usedWords) ==> |newWords| == 10_000
  {
    newWords := [];
    var attempts := 0;
    while |newWords| < 10_000 && attempts < 50_000
      invariant AllCombinations(dictionary, newWords) && Unused(newWords, usedWords) && |newWords| <= 10_000
      invariant !PairUsed(dictionary, usedWords) ==> |newWords| == attempts
      decreases 50_000 - attempts
    {
      var word := DrawPair(dictionary);
      if Some(word) !in usedWords { newWords := newWords + [word]; }
      attempts := attempts + 1;
    }
  }

  /** Appends unused combinations: 10000 if no two-word combination is in use, and 100 at least if no
      three-word combination is. */
  method Refill(dictionary: seq<string>, usedWords: set<Anchor>, pool: seq<string>) returns (pool': seq<string>)
    ensures pool <= pool' && Unused(pool'[|pool|..], usedWords) && AllCombinations(dictionary, pool'[|pool|..])
    ensures |pool'| <= |pool| + 10_000
    ensures !PairUsed(dictionary, usedWords) ==> |pool'| == |pool| + 10_000
    ensures !TripleUsed(dictionary, usedWords) ==> |pool'| >= |pool| + 100
  {
    var newWords := DrawPairs(dictionary, usedWords);
    if |newWords| < 100 {
      ghost var pairs := |newWords|;
      for i := 0 to 100
        invariant AllCombinations(dictionary, newWords) && Unused(newWords, usedWords) && |newWords| <= 100 + i
        invariant PairUsed(dictionary, usedWords)
        invariant !TripleUsed(dictionary, usedWords) ==> |newWords| == pairs + i
      {
        var word := DrawTriple(dictionary);
        if Some(word) !in usedWords { newWords := newWords + [word]; }
      }
    }
    var shuffled := Shuffle(newWords);
    forall i | 0 <= i < |shuffled| ensures Some(shuffled[i]) !in usedWords && IsCombination(dictionary, shuffled[i]) {
      assert shuffled[i] in multiset(newWords);
    }
    pool' := pool + shuffled;
  }

  /** Entry i is the last of the pool that is not in use. */
  ghost predicate LastUnused(pool: seq<string>, usedWords: set<Anchor>, i: nat) {
    i < |pool| && Some(pool[i]) !in usedWords && AllUsed(pool[i + 1..], usedWords)
  }

  /** What a call may hand out: the last unused entry of the pool, dropping what lies above it; without one,
      a combination from a refill, or `undefined` if refills may bring nothing. */
  ghost predicate HandsOut(dictionary: seq<string>, usedWords: set<Anchor>, pool: seq<string>, word: Anchor, pool': seq<string>) {
    || (exists i: nat :: LastUnused(pool, usedWords, i) && word == Some(pool[i]) && pool' == pool[..i])
    || (AllUsed(pool, usedWords) && AllCombinations(dictionary, pool') &&
        match word
        case None => Exhausted(dictionary, usedWords) && pool' == []
        case Some(w) => IsCombination(dictionary, w))
  }

  /** Pops words until one is unused. The call may go on for ever only once `undefined` has been handed
      out, refilling in vain; `patience` bounds the vain refills after which the model stops watching. */
  method GetUniqueWord(dictionary: seq<string>, usedWords: set<Anchor>, pool: seq<string>, patience: nat)
    returns (returned: bool, word: Anchor, pool': seq<string>)
    ensures returned ==> word !in usedWords && HandsOut(dictionary, usedWords, pool, word, pool')
    ensures forall i: nat :: LastUnused(pool, usedWords, i) ==> returned && word == Some(pool[i]) && pool' == pool[..i]
    ensures !returned ==> None in usedWords && AllUsed(pool, usedWords) && Exhausted(dictionary, usedWords)
  {
    pool' := pool;
    word := None;
    var vain := 0;
    ghost var refilled := false;
    while true
      invariant !refilled ==> |pool'| <= |pool| && pool' == pool[..|pool'|] && AllUsed(pool[|pool'|..], usedWords)
      invariant refilled ==> AllUsed(pool, usedWords) && AllCombinations(dictionary, pool')
      invariant vain > 0 ==> None in usedWords && Exhausted(dictionary, usedWords)
      invariant vain <= patience
      decreases patience - vain, |pool'|
    {
      if |pool'| == 0 {
        if !refilled { assert pool[0..] == pool; }
        refilled := true;
        pool' := Refill(dictionary, usedWords, pool');
        assert pool'[0..] == pool';
      }
      if |pool'| == 0 {
        if None !in usedWords { return true, None, pool'; }
        if vain == patience { return false, None, pool'; }
        vain := vain + 1;
      } else {
        var top := |pool'| - 1;
        word := Some(pool'[top]);
        if !refilled { PopOne(pool, usedWords, top); }
        pool' := pool'[..top];
        if word !in usedWords { return true, word, pool'; }
      }
    }
  }

  /** The entry below those found in use. */
  lemma PopOne(pool: seq<string>, usedWords: set<Anchor>, top: nat)
    requires top < |pool| && AllUsed(pool[top + 1..], usedWords)
    ensures pool[..top + 1][..top] == pool[..top]
    ensures Some(pool[top]) in usedWords ==> AllUsed(pool[top..], usedWords)
    ensures Some(pool[top]) !in usedWords ==> LastUnused(pool, usedWords, top)
    ensures Some(pool[top]) !in usedWords ==> forall i: nat :: LastUnused(pool, usedWords, i) ==> i == top
    ensures Some(pool[top]) !in usedWords ==> !AllUsed(pool, usedWords)
  {
    assert pool[top..] == [pool[top]] + pool[top + 1..];
    UsedAbove(pool, usedWords, top);
    forall i: nat | LastUnused(pool, usedWords, i) && Some(pool[top]) !in usedWords ensures i == top {
      UsedAbove(pool, usedWords, i);
    }
  }

  lemma UsedAbove(pool: seq<string>, usedWords: set<Anchor>, i: nat)
    requires i < |pool| && AllUsed(pool[i + 1..], usedWords)
    ensures forall k :: i < k < |pool| ==> Some(pool[k]) in usedWords
  {
    forall k | i < k < |pool| ensures Some(pool[k]) in usedWords { assert pool[i + 1..][k - i - 1] == pool[k]; }
  }

  // ----- What holds of the words of every file

  /** Some word of the dictionary has not been used. */
  ghost predicate Spare(dictionary: seq<string>, usedWords: set<Anchor>) {
    exists w :: w in dictionary && Some(w) !in usedWords
  }

  /** As long as a dictionary word is spare nothing but dictionary words has been used. */
  ghost predicate Frugal(dictionary: seq<string>, usedWords: set<Anchor>) {
    Spare(dictionary, usedWords) ==> forall a :: a in usedWords ==> a.Some? && a.value in dictionary
  }

  /** All words come from the dictionary, combinations after single ones and `undefined` last. */
  ghost predicate AnchorsMade(dictionary: seq<string>, usedWords: set<Anchor>) {
    && (forall a :: a in usedWords && a.Some? ==> IsWord(dictionary, a.value))
    && (None in usedWords ==> Exhausted(dictionary, usedWords))
    && Frugal(dictionary, usedWords)
  }

  /** The pool holds every spare dictionary word, and nothing else as long as there is one. */
  ghost predicate Stocked(dictionary: seq<string>, pool: seq<string>, usedWords: set<Anchor>) {
    && AllWords(dictionary, pool)
    && (forall w :: w in dictionary ==> Some(w) in usedWords || w in pool)
    && (Spare(dictionary, usedWords) ==> forall w :: w in pool ==> w in dictionary)
  }

  ghost predicate Made(dictionary: seq<string>, pool: seq<string>, usedWords: set<Anchor>) {
    AnchorsMade(dictionary, usedWords) && Stocked(dictionary, pool, usedWords)
  }

  ghost predicate WordsMade(dictionary: seq<string>, d: Document) {
    AnchorsMade(dictionary, d.usedWords) && (d.pool.Some? ==> Stocked(dictionary, d.pool.value, d.usedWords))
  }

  lemma PoppedStocked(dictionary: seq<string>, pool: seq<string>, usedWords: set<Anchor>, i: nat)
    requires Made(dictionary, pool, usedWords) && LastUnused(pool, usedWords, i)
    ensures Stocked(dictionary, pool[..i], usedWords + {Some(pool[i])})
    ensures Spare(dictionary, usedWords) ==> pool[i] in dictionary
  {
    var used' := usedWords + {Some(pool[i])};
    assert pool[i] in pool;
    UsedAbove(pool, usedWords, i);
    forall w | w in dictionary && Some(w) !in used' ensures w in pool[..i] {
      var k :| 0 <= k < |pool| && pool[k] == w;
      assert k < i && pool[..i][k] == w;
    }
    forall w | w in pool[..i] ensures w in pool { }
  }

  /** Without an unused entry in a stocked pool no dictionary word is spare. */
  lemma NothingSpare(dictionary: seq<string>, pool: seq<string>, usedWords: set<Anchor>)
    requires Stocked(dictionary, pool, usedWords) && AllUsed(pool, usedWords)
    ensures !Spare(dictionary, usedWords)
  {
  }

  lemma ExhaustedStays(dictionary: seq<string>, usedWords: set<Anchor>, word: Anchor)
    requires Exhausted(dictionary, usedWords)
    ensures Exhausted(dictionary, usedWords + {word})
  {
    var v :| IsPair(dictionary, v) && Some(v) in usedWords;
    var w :| IsTriple(dictionary, w) && Some(w) in usedWords;
    assert Some(v) in usedWords + {word} && Some(w) in usedWords + {word};
  }

  /** Handing out a word keeps pool and used words in order. */
  lemma MadeNext(dictionary: seq<string>, pool: seq<string>, usedWords: set<Anchor>, word: Anchor, pool': seq<string>)
    requires Made(dictionary, pool, usedWords) && HandsOut(dictionary, usedWords, pool, word, pool')
    ensures Made(dictionary, pool', usedWords + {word})
    ensures Spare(dictionary, usedWords) ==> word.Some? && word.value in dictionary
  {
    var used' := usedWords + {word};
    if Exhausted(dictionary, usedWords) { ExhaustedStays(dictionary, usedWords, word); }
    assert Spare(dictionary, used') ==> Spare(dictionary, usedWords);
    if i: nat :| LastUnused(pool, usedWords, i) && word == Some(pool[i]) && pool' == pool[..i] {
      PoppedStocked(dictionary, pool, usedWords, i);
    } else {
      NothingSpare(dictionary, pool, usedWords);
    }
  }

  /** A dictionary in use for no file yet, in any order. */
  lemma ShuffledStocked(dictionary: seq<string>, pool: seq<string>)
    requires multiset(pool) == multiset(dictionary)
    ensures Made(dictionary, pool, {})
  {
    forall w ensures w in pool <==> w in dictionary {
      assert w in pool <==> w in multiset(pool);
      assert w in dictionary <==> w in multiset(dictionary);
    }
  }

  // ----- The unused words of the dictionary

  function UnusedOf(dictionary: seq<string>, usedWords: set<Anchor>): (r: seq<string>)
    ensures forall w :: w in r <==> w in dictionary && Some(w) !in usedWords
  {
    if dictionary == [] then []
    else (if Some(dictionary[0]) in usedWords then [] else [dictionary[0]]) + UnusedOf(dictionary[1..], usedWords)
  }

  lemma {:induction false} UnusedOfPush(dictionary: seq<string>, w: string, usedWords: set<Anchor>)
    ensures UnusedOf(dictionary + [w], usedWords)
         == UnusedOf(dictionary, usedWords) + if Some(w) in usedWords then [] else [w]
  {
    if dictionary == [] {
      assert [] + [w] == [w] && [w][1..] == [];
    } else {
      var first := if Some(dictionary[0]) in usedWords then [] else [dictionary[0]];
      var rest, last := UnusedOf(dictionary[1..], usedWords), if Some(w) in usedWords then [] else [w];
      UnusedOfPush(dictionary[1..], w, usedWords);
      assert (dictionary + [w])[1..] == dictionary[1..] + [w] && (dictionary + [w])[0] == dictionary[0];
      assert first + (rest + last) == first + rest + last;
    }
  }

  lemma DealtStocked(dictionary: seq<string>, pool: seq<string>, usedWords: set<Anchor>)
    requires multiset(pool) == multiset(UnusedOf(dictionary, usedWords))
    ensures Stocked(dictionary, pool, usedWords)
  {
    var unused := UnusedOf(dictionary, usedWords);
    forall w ensures w in pool <==> w in unused {
      assert w in pool <==> w in multiset(pool);
      assert w in unused <==> w in multiset(unused);
    }
  }

  /** Once as many words are used as the dictionary lists none of it is spare. */
  lemma NoneLeftStocked(dictionary: seq<string>, usedWords: set<Anchor>)
    requires AnchorsMade(dictionary, usedWords) && |usedWords| >= |dictionary|
    ensures Stocked(dictionary, [], usedWords)
  {
    if Spare(dictionary, usedWords) {
      var w :| w in dictionary && Some(w) !in usedWords;
      MoreThan(usedWords + {Some(w)}, DictionaryWords(dictionary));
      AtMostListed(dictionary);
      assert false;
    }
  }

  lemma {:induction false} AtMostListed(dictionary: seq<string>)
    ensures |DictionaryWords(dictionary)| <= |dictionary|
  {
    if dictionary != [] {
      AtMostListed(dictionary[1..]);
      assert dictionary == [dictionary[0]] + dictionary[1..];
      assert DictionaryWords(dictionary) == {Some(dictionary[0])} + DictionaryWords(dictionary[1..]);
    } else {
      assert DictionaryWords(dictionary) == {};
    }
  }

  // ----- Counting

  /** The distinct words of the dictionary, as anchors. */
  function DictionaryWords(dictionary: seq<string>): set<Anchor> {
    set w | w in dictionary :: Some(w)
  }

  lemma {:induction false} MoreThan(a: set<Anchor>, b: set<Anchor>)
    requires a <= b
    ensures |a| <= |b| && (|a| == |b| ==> a == b)
  {
    assert |b - a| == |b| - |a| by {
      assert b == a + (b - a);
    }
    if |a| == |b| { assert b - a == {}; }
  }

  lemma SpareWhileShort(dictionary: seq<string>, usedWords: set<Anchor>)
    requires |usedWords| < |DictionaryWords(dictionary)|
    ensures Spare(dictionary, usedWords)
  {
    if !Spare(dictionary, usedWords) {
      MoreThan(DictionaryWords(dictionary), usedWords);
    }
  }

  lemma {:induction false} WordsCount(anchors: seq<Anchor>)
    requires Distinct(anchors)
    ensures |Words(anchors)| == |anchors|
  {
    if anchors == [] {
      assert Words(anchors) == {};
    } else {
      var before, last := anchors[..|anchors| - 1], anchors[|anchors| - 1];
      WordsCount(before);
      assert anchors == before + [last];
      assert Words(anchors) == Words(before) + {last};
      assert last !in Words(before);
    }
  }

  ghost predicate FromDictionary(dictionary: seq<string>, anchors: seq<Anchor>) {
    forall i :: 0 <= i < |anchors| ==> anchors[i].Some? && anchors[i].value in dictionary
  }

  /** A file for which no more words were used than the dictionary has bears dictionary words only. */
  lemma FewWordsFromDictionary(dictionary: seq<string>, d: Document)
    requires DocumentOk(d) && AnchorsMade(dictionary, d.usedWords) && |d.usedWords| <= |DictionaryWords(dictionary)|
    ensures FromDictionary(dictionary, d.anchors)
  {
    if !Spare(dictionary, d.usedWords) {
      MoreThan(DictionaryWords(dictionary), d.usedWords);
    }
    forall i | 0 <= i < |d.anchors| ensures d.anchors[i].Some? && d.anchors[i].value in dictionary {
      assert d.anchors[i] in Words(d.anchors);
    }
  }
}
