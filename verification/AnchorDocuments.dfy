/** Anchors of one tracked file: what a reconciliation keeps, what it draws fresh, and what no run brings back. */
module AnchorDocuments {
  import opened Sequences
  import opened Fnv
  import opened EditScripts

  /** An anchor word; None is the `undefined` that popping an empty pool yields. */
  type Anchor = Option<string>

  datatype Document = Document(hashes: seq<Hash>, anchors: seq<Anchor>, usedWords: set<Anchor>, pool: Option<seq<string>>)

  function Hashes(lines: seq<Text>): seq<Hash> {
    seq(|lines|, i requires 0 <= i < |lines| => HashOf(lines[i]))
  }

  ghost predicate Distinct(anchors: seq<Anchor>) {
    forall i, j :: 0 <= i < j < |anchors| ==> anchors[i] != anchors[j]
  }

  function Words(anchors: seq<Anchor>): set<Anchor> {
    set a | a in anchors
  }

  /** One anchor per line, pairwise distinct, all of them recorded as used. */
  ghost predicate DocumentOk(d: Document) {
    |d.anchors| == |d.hashes| && Distinct(d.anchors) && Words(d.anchors) <= d.usedWords
  }

  /** Line j of the new document keeps the anchor of its origin or gets a word never used before. */
  ghost predicate AnchorFollows(origin: Option<nat>, before: Document, anchor: Anchor) {
    match origin
    case Some(i) => i < |before.anchors| && anchor == before.anchors[i]
    case None => anchor !in before.usedWords
  }

  ghost predicate Follows(changes: seq<Change>, before: Document, after: Document) {
    && |Origins(changes, 0)| == |after.anchors|
    && (forall j :: 0 <= j < |after.anchors| ==> AnchorFollows(Origins(changes, 0)[j], before, after.anchors[j]))
    && after.usedWords == before.usedWords + Words(after.anchors)
  }

  /** What `reconcile` does to a file it already tracks, for some valid edit script. */
  ghost predicate Reconciled(before: Document, lines: seq<Text>, after: Document) {
    DocumentOk(after) && after.hashes == Hashes(lines) &&
    exists changes :: EditScripts.Valid(changes, before.hashes, after.hashes) && Follows(changes, before, after)
  }

  /** What `reconcile` does to a file it sees for the first time. */
  ghost predicate FirstSeen(lines: seq<Text>, after: Document) {
    DocumentOk(after) && after.hashes == Hashes(lines) && after.usedWords == Words(after.anchors)
  }

  // ----- The fast path

  lemma IdentityOrigins(n: nat)
    ensures Origins([Kept(n)], 0) == seq(n, i => Some(i))
  {
    assert [Kept(n)][1..] == [];
    assert Origins([Kept(n)], 0) == seq(n, i => Some(0 + i)) + [];
  }

  /** Keeping the whole document is a reconciliation by the identity script. */
  lemma FastPathReconciles(d: Document, lines: seq<Text>)
    requires DocumentOk(d) && d.hashes == Hashes(lines)
    ensures Reconciled(d, lines, d)
  {
    var n := |d.hashes|;
    IdentityOrigins(n);
    var changes := [Kept(n)];
    assert changes[1..] == [] && d.hashes[n..] == [] && d.hashes[..n] == d.hashes;
    assert EditScripts.Valid(changes, d.hashes, d.hashes);
    assert Follows(changes, d, d);
  }

  /** The diff path on the identity script returns what the fast path returns. */
  lemma IdentityScriptKeepsAnchors(before: Document, after: Document)
    requires DocumentOk(before) && Follows([Kept(|before.hashes|)], before, after)
    ensures after.anchors == before.anchors
  {
    IdentityOrigins(|before.hashes|);
    forall j | 0 <= j < |after.anchors| ensures after.anchors[j] == before.anchors[j] {
      assert AnchorFollows(Origins([Kept(|before.hashes|)], 0)[j], before, after.anchors[j]);
    }
  }

  /** An edit of one code unit in one line is never taken for no edit at all. */
  lemma OneUnitEditMissesFastPath(lines: seq<Text>, lines': seq<Text>, k: nat, i: nat)
    requires k < |lines| == |lines'| && DifferAt(lines[k], lines'[k], i)
    ensures Hashes(lines) != Hashes(lines')
  {
    OneUnitChangesHash(lines[k], lines'[k], i);
    assert Hashes(lines)[k] != Hashes(lines')[k];
  }

  // ----- One reconciliation

  /** Anchors come from equal old lines in their old order, or are words never used for the file. */
  lemma ReconciledLine(before: Document, lines: seq<Text>, after: Document, changes: seq<Change>, j: nat)
    requires DocumentOk(before) && DocumentOk(after) && after.hashes == Hashes(lines) && j < |after.anchors|
    requires EditScripts.Valid(changes, before.hashes, after.hashes) && Follows(changes, before, after)
    ensures var origin := Origins(changes, 0)[j];
      if origin.Some? then
        origin.value < |before.anchors| && before.hashes[origin.value] == HashOf(lines[j]) && after.anchors[j] == before.anchors[origin.value]
      else after.anchors[j] !in before.usedWords
    ensures OldLength(changes) == |before.anchors|
  {
    assert AnchorFollows(Origins(changes, 0)[j], before, after.anchors[j]);
    if Origins(changes, 0)[j].Some? { OriginMatches(changes, before.hashes, after.hashes, 0, j); }
    OldLengthIs(changes, before.hashes, after.hashes);
  }

  /** Lines that keep their anchors appear in the same order in both documents. */
  lemma ReconciledOrder(before: Document, lines: seq<Text>, after: Document, i: nat, j: nat) returns (x: nat, y: nat)
    requires DocumentOk(before) && Reconciled(before, lines, after)
    requires i < j < |after.anchors| && after.anchors[i] in before.anchors && after.anchors[j] in before.anchors
    ensures x < y < |before.anchors| && after.anchors[i] == before.anchors[x] && after.anchors[j] == before.anchors[y]
  {
    var changes :| EditScripts.Valid(changes, before.hashes, after.hashes) && Follows(changes, before, after);
    var o := Origins(changes, 0);
    assert AnchorFollows(o[i], before, after.anchors[i]) && AnchorFollows(o[j], before, after.anchors[j]);
    assert after.anchors[i] in Words(before.anchors) && after.anchors[j] in Words(before.anchors);
    OriginsAscend(changes, 0, i, j);
    x, y := o[i].value, o[j].value;
  }

  /** A word of the new document is an old anchor or was never used. */
  lemma ReconciledWord(before: Document, lines: seq<Text>, after: Document, w: Anchor)
    requires Reconciled(before, lines, after) && w in after.anchors
    ensures w in before.anchors || w !in before.usedWords
  {
    var changes :| EditScripts.Valid(changes, before.hashes, after.hashes) && Follows(changes, before, after);
    var j :| 0 <= j < |after.anchors| && after.anchors[j] == w;
    assert AnchorFollows(Origins(changes, 0)[j], before, after.anchors[j]);
  }

  // ----- Runs

  /** The documents of one file over a run of reconciliations. */
  ghost predicate IsHistory(docs: seq<Document>, texts: seq<seq<Text>>) {
    |docs| == |texts| && |docs| > 0 && FirstSeen(texts[0], docs[0]) &&
    forall i :: 0 <= i < |docs| - 1 ==> Reconciled(docs[i], texts[i + 1], docs[i + 1])
  }

  lemma HistoryBegins(d: Document, lines: seq<Text>)
    requires FirstSeen(lines, d)
    ensures IsHistory([d], [lines])
  {
  }

  lemma HistoryGrows(docs: seq<Document>, texts: seq<seq<Text>>, d: Document, lines: seq<Text>)
    requires IsHistory(docs, texts) && Reconciled(docs[|docs| - 1], lines, d)
    ensures IsHistory(docs + [d], texts + [lines])
  {
    var docs', texts' := docs + [d], texts + [lines];
    forall i | 0 <= i < |docs'| - 1 ensures Reconciled(docs'[i], texts'[i + 1], docs'[i + 1]) {
      if i < |docs| - 1 { assert docs'[i] == docs[i] && docs'[i + 1] == docs[i + 1] && texts'[i + 1] == texts[i + 1]; }
    }
  }

  lemma {:induction false} HistoryOk(docs: seq<Document>, texts: seq<seq<Text>>, i: nat)
    requires IsHistory(docs, texts) && i < |docs|
    ensures DocumentOk(docs[i]) && |docs[i].anchors| == |texts[i]| && docs[i].hashes == Hashes(texts[i])
  {
    if i > 0 { assert Reconciled(docs[i - 1], texts[i - 1 + 1], docs[i - 1 + 1]); }
  }

  lemma {:induction false} UsedWordsGrow(docs: seq<Document>, texts: seq<seq<Text>>, i: nat, j: nat)
    requires IsHistory(docs, texts) && i <= j < |docs|
    ensures docs[i].usedWords <= docs[j].usedWords
    decreases j
  {
    if i < j {
      UsedWordsGrow(docs, texts, i, j - 1);
      assert Reconciled(docs[j - 1], texts[j - 1 + 1], docs[j - 1 + 1]);
    }
  }

  /** An anchor word that has left the file never returns. */
  lemma {:induction false} AnchorNeverReturns(docs: seq<Document>, texts: seq<seq<Text>>, i: nat, j: nat, k: nat, w: Anchor)
    requires IsHistory(docs, texts) && i <= j <= k < |docs|
    requires w in docs[i].anchors && w !in docs[j].anchors
    ensures w !in docs[k].anchors
    decreases k
  {
    if j < k {
      AnchorNeverReturns(docs, texts, i, j, k - 1, w);
      if w in docs[k].anchors {
        assert Reconciled(docs[k - 1], texts[k - 1 + 1], docs[k - 1 + 1]);
        ReconciledWord(docs[k - 1], texts[k], docs[k], w);
        HistoryOk(docs, texts, i);
        assert w in Words(docs[i].anchors);
        UsedWordsGrow(docs, texts, i, k - 1);
      }
    }
  }

  /** Line y of the new document, if its word is an old one, has the hash of the line that had the word. */
  lemma ReconciledHash(before: Document, lines: seq<Text>, after: Document, x: nat, y: nat)
    requires DocumentOk(before) && Reconciled(before, lines, after)
    requires x < |before.anchors| && y < |after.anchors| && after.anchors[y] == before.anchors[x]
    ensures after.hashes[y] == before.hashes[x]
  {
    var changes :| EditScripts.Valid(changes, before.hashes, after.hashes) && Follows(changes, before, after);
    assert AnchorFollows(Origins(changes, 0)[y], before, after.anchors[y]);
    assert before.anchors[x] in Words(before.anchors);
    OriginMatches(changes, before.hashes, after.hashes, 0, y);
  }

  /** Throughout a run one anchor word stands for one line hash. */
  lemma {:induction false} AnchorNamesOneHash(docs: seq<Document>, texts: seq<seq<Text>>, i: nat, k: nat, x: nat, y: nat)
    requires IsHistory(docs, texts) && i <= k < |docs|
    requires x < |docs[i].anchors| && y < |docs[k].anchors| && docs[i].anchors[x] == docs[k].anchors[y]
    ensures |docs[i].hashes| == |docs[i].anchors| && |docs[k].hashes| == |docs[k].anchors|
    ensures docs[i].hashes[x] == docs[k].hashes[y]
    decreases k
  {
    HistoryOk(docs, texts, i);
    HistoryOk(docs, texts, k);
    if i < k {
      HistoryOk(docs, texts, k - 1);
      assert Reconciled(docs[k - 1], texts[k - 1 + 1], docs[k - 1 + 1]);
      var w := docs[k].anchors[y];
      ReconciledWord(docs[k - 1], texts[k], docs[k], w);
      assert w in Words(docs[i].anchors);
      UsedWordsGrow(docs, texts, i, k - 1);
      var z :| 0 <= z < |docs[k - 1].anchors| && docs[k - 1].anchors[z] == w;
      ReconciledHash(docs[k - 1], texts[k], docs[k], z, y);
      AnchorNamesOneHash(docs, texts, i, k - 1, x, z);
    } else {
      assert x == y;
    }
  }
}
