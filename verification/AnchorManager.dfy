/** The manager's static state as an object, and every operation on it. */
module AnchorManager {
  import opened Sequences
  import opened InsertionMap
  import opened Lru
  import opened Fnv
  import opened EditScripts
  import opened AnchorDocuments
  import opened AnchorWords
  import opened AnchorStateManager

  /** The decimal digits of `n`. */
  function Decimal(n: nat): string {
    if n < 10 then ["0123456789"[n]] else Decimal(n / 10) + ["0123456789"[n % 10]]
  }

  /** The positional labels of a file too long to track. */
  function LineLabels(n: nat): seq<Anchor> {
    seq(n, i requires 0 <= i => Some("L" + Decimal(i + 1)))
  }

  function TaskOf(taskId: Option<string>): string {
    match taskId
    case None => DEFAULT_TASK
    case Some(task) => task
  }

  method ComputeHashes(lines: seq<Text>) returns (hashes: seq<Hash>)
    ensures hashes == Hashes(lines)
  {
    hashes := [];
    for i := 0 to |lines|
      invariant |hashes| == i && forall j :: 0 <= j < i ==> hashes[j] == HashOf(lines[j])
    {
      var h := ComputeHash(lines[i]);
      hashes := hashes + [h];
    }
  }

  class Manager {
    const dictionary: seq<string>
    var storage: Storage
    /** The tasks touched since the last reset, oldest first. */
    ghost var touched: seq<string>

    ghost predicate Valid()
      reads this
    {
      StorageOk(storage) && Keys(storage) == LastN(Recency(touched), MAX_TRACKED_TASKS) && StorageMade(dictionary, storage)
    }

    constructor (dictionary: seq<string>)
      ensures Valid() && storage == [] && touched == [] && this.dictionary == dictionary
    {
      this.dictionary := dictionary;
      storage := [];
      touched := [];
    }

    /** The last 50 distinct tasks touched are stored, oldest first, with 1024 files each at most. */
    lemma KeepsLastFifty()
      requires Valid()
      ensures Keys(storage) == LastN(Recency(touched), 50)
      ensures forall task :: |FilesOf(storage, task)| <= 1024
    {
      forall task ensures |FilesOf(storage, task)| <= 1024 { assert FilesOk(FilesOf(storage, task)); }
    }

    /** What touching a task once more does to the cache, whatever else the operation does. */
    lemma TouchedOnce(task: string)
      requires Valid()
      ensures Touch(Keys(storage), task, MAX_TRACKED_TASKS) == LastN(Recency(touched + [task]), MAX_TRACKED_TASKS)
    {
      var trace := touched + [task];
      assert trace[..|trace| - 1] == touched;
      RecencyLists(touched);
      TouchLastN(Recency(touched), task, MAX_TRACKED_TASKS);
    }

    method GetTaskState(taskId: Option<string>) returns (state: Files)
      requires Valid()
      modifies this
      ensures Valid() && touched == old(touched) + [TaskOf(taskId)]
      ensures storage == TouchTask(old(storage), TaskOf(taskId))
      ensures state == FilesOf(storage, TaskOf(taskId)) == FilesOf(old(storage), TaskOf(taskId))
      ensures Get(storage, TaskOf(taskId)) == Some(state)
    {
      var task := TaskOf(taskId);
      TouchedOnce(task);
      TouchTaskKeeps(storage, task);
      TouchMade(dictionary, storage, task);
      touched := touched + [task];
      var found := Get(storage, task);
      if found.None? {
        DeleteAbsent(storage, task);
        state := [];
        storage := Set(storage, task, state);
        if |storage| > MAX_TRACKED_TASKS { storage := storage[1..]; }
      } else {
        state := found.value;
        DeleteKeys(storage, task);
        assert |Keys(Delete(storage, task))| == |Delete(storage, task)|;
        WithoutShrinks(Keys(storage), task);
        SetKeys(Delete(storage, task), task, state);
        assert |Keys(Set(Delete(storage, task), task, state))| == |Set(Delete(storage, task), task, state)|;
        storage := Delete(storage, task);
        storage := Set(storage, task, state);
      }
    }

    static lemma WithoutShrinks(keys: seq<string>, k: string)
      requires k in keys
      ensures |Without(keys, k)| < |keys|
    {
      if keys[0] != k { WithoutShrinks(keys[1..], k); }
    }

    method UpdateState(absolutePath: string, document: Document, taskId: Option<string>)
      requires Valid() && DocumentOk(document) && WordsMade(dictionary, document)
      modifies this
      ensures Valid() && touched == old(touched) + [TaskOf(taskId)]
      ensures storage == PutDocument(old(storage), TaskOf(taskId), absolutePath, document)
      ensures Lookup(storage, TaskOf(taskId), absolutePath) == Some(document)
    {
      var task := TaskOf(taskId);
      ghost var final := PutDocument(storage, task, absolutePath, document);
      PutDocumentKeeps(storage, task, absolutePath, document);
      PutMade(dictionary, storage, task, absolutePath, document);
      TouchedOnce(task);
      var state := GetTaskState(taskId);
      state := ReplaceFile(state, absolutePath, document);
      assert final == Set(storage, task, state);
      storage := Set(storage, task, state);
    }

    /** The deletion, insertion and eviction in the task's own map. */
    static method ReplaceFile(state: Files, absolutePath: string, document: Document) returns (state': Files)
      ensures state' == Refresh(state, absolutePath, document, MAX_TRACKED_FILES)
    {
      state' := Delete(state, absolutePath);
      state' := Set(state', absolutePath, document);
      if |state'| > MAX_TRACKED_FILES { state' := state'[1..]; }
    }

    method IsTracking(absolutePath: string, taskId: Option<string>) returns (tracking: bool)
      requires Valid()
      modifies this
      ensures Valid() && touched == old(touched) + [TaskOf(taskId)]
      ensures storage == TouchTask(old(storage), TaskOf(taskId))
      ensures tracking <==> Lookup(old(storage), TaskOf(taskId), absolutePath).Some?
    {
      var state := GetTaskState(taskId);
      tracking := Get(state, absolutePath).Some?;
    }

    method GetAnchors(absolutePath: string, taskId: Option<string>) returns (anchors: Option<seq<Anchor>>)
      requires Valid()
      modifies this
      ensures Valid() && touched == old(touched) + [TaskOf(taskId)]
      ensures storage == TouchTask(old(storage), TaskOf(taskId))
      ensures match Lookup(old(storage), TaskOf(taskId), absolutePath)
              case None => anchors == None
              case Some(d) => anchors == Some(d.anchors)
    {
      var state := GetTaskState(taskId);
      match Get(state, absolutePath)
      case None => anchors := None;
      case Some(d) => anchors := Some(d.anchors);
    }

    method ClearState(absolutePath: string, taskId: Option<string>)
      requires Valid()
      modifies this
      ensures Valid() && touched == old(touched) + [TaskOf(taskId)]
      ensures storage == DropFile(old(storage), TaskOf(taskId), absolutePath)
      ensures Lookup(storage, TaskOf(taskId), absolutePath) == None
      ensures forall path :: path != absolutePath ==>
        Lookup(storage, TaskOf(taskId), path) == Lookup(old(storage), TaskOf(taskId), path)
    {
      var task := TaskOf(taskId);
      DropMade(dictionary, storage, task, absolutePath);
      var state := GetTaskState(taskId);
      ClearKeeps(storage, task, absolutePath);
      storage := Set(storage, task, Delete(state, absolutePath));
    }

    method Reset(taskId: Option<string>)
      requires Valid()
      modifies this
      ensures Valid()
      ensures storage == Forget(old(storage), taskId)
    {
      ForgetMade(dictionary, storage, taskId);
      if taskId.Some? && taskId.value != "" {
        var task := taskId.value;
        ForgetTaskOk(storage, task);
        storage := Delete(storage, task);
        touched := Keys(storage);
        RecencyOfDistinct(touched);
      } else {
        storage := [];
        touched := [];
      }
    }

    /** The first time a file is seen every line gets a word from the shuffled dictionary. */
    method FirstAnchors(currentHashes: seq<Hash>, patience: nat) returns (returned: bool, d: Document)
      ensures returned ==> DocumentOk(d) && d.hashes == currentHashes && d.usedWords == Words(d.anchors)
      ensures returned ==> WordsMade(dictionary, d)
      ensures |currentHashes| <= |DictionaryWords(dictionary)| ==> returned && FromDictionary(dictionary, d.anchors)
    {
      var usedWords: set<Anchor> := {};
      var pool := Shuffle(dictionary);
      ShuffledStocked(dictionary, pool);
      var anchors: seq<Anchor> := [];
      ghost var nothing := Document([], [], {}, None);
      for i := 0 to |currentHashes|
        invariant |anchors| == i && Drawn(nothing, 0, anchors, usedWords) && Made(dictionary, pool, usedWords)
      {
        var word;
        ghost var current := pool;
        WordsCount(anchors);
        assert usedWords == Words(anchors);
        if i < |DictionaryWords(dictionary)| { SpareWhileShort(dictionary, usedWords); }
        returned, word, pool := GetUniqueWord(dictionary, usedWords, pool, patience);
        if !returned { d := Document([], [], {}, None); return; }
        MadeNext(dictionary, current, usedWords, word, pool);
        DrawNew(nothing, 0, anchors, usedWords, word);
        anchors := anchors + [word];
        usedWords := usedWords + {word};
      }
      d := Document(currentHashes, anchors, usedWords, Some(pool));
      WordsCount(anchors);
      assert usedWords == Words(anchors);
      if |currentHashes| <= |DictionaryWords(dictionary)| { FewWordsFromDictionary(dictionary, d); }
      return true, d;
    }

    /** The pool of a tracked file; if it is empty, the unused dictionary words in any order. */
    method PoolFor(d: Document) returns (pool: seq<string>)
      ensures d.pool.Some? && d.pool.value != [] ==> pool == d.pool.value
      ensures !(d.pool.Some? && d.pool.value != []) ==>
        multiset(pool) == if |d.usedWords| < |dictionary| then multiset(UnusedOf(dictionary, d.usedWords)) else multiset([])
      ensures WordsMade(dictionary, d) ==> Stocked(dictionary, pool, d.usedWords)
    {
      pool := match d.pool case None => [] case Some(p) => p;
      if |pool| == 0 && |d.usedWords| < |dictionary| {
        for i := 0 to |dictionary|
          invariant pool == UnusedOf(dictionary[..i], d.usedWords)
        {
          assert dictionary[..i + 1] == dictionary[..i] + [dictionary[i]];
          UnusedOfPush(dictionary[..i], dictionary[i], d.usedWords);
          if Some(dictionary[i]) !in d.usedWords {
            pool := pool + [dictionary[i]];
          } else {
            assert pool + [] == pool;
          }
        }
        assert dictionary[..|dictionary|] == dictionary;
        pool := Shuffle(pool);
        DealtStocked(dictionary, pool, d.usedWords);
      } else if |pool| == 0 && WordsMade(dictionary, d) {
        NoneLeftStocked(dictionary, d.usedWords);
      }
    }

    /** The diff path for a tracked file. */
    method DiffAnchors(before: Document, currentHashes: seq<Hash>, patience: nat) returns (returned: bool, d: Document)
      requires DocumentOk(before)
      ensures returned ==> DocumentOk(d) && d.hashes == currentHashes
      ensures returned ==> exists changes :: EditScripts.Valid(changes, before.hashes, d.hashes) && Follows(changes, before, d)
      ensures returned && WordsMade(dictionary, before) ==> WordsMade(dictionary, d)
    {
      var changes := DiffArrays(before.hashes, currentHashes);
      var pool := PoolFor(before);
      var anchors, usedWords, oldIdx;
      returned, anchors, usedWords, pool, oldIdx := ApplyScript(dictionary, before, changes, currentHashes, pool, patience);
      d := Document(currentHashes, anchors, usedWords, Some(pool));
      if returned {
        OriginsLength(changes, before.hashes, currentHashes, 0);
        assert Follows(changes, before, d);
      }
    }

    /** `returned` is false where the search for an unused word has refilled in vain more than `patience` times. */
    method Reconcile(absolutePath: string, currentLines: seq<Text>, taskId: Option<string>, patience: nat)
      returns (returned: bool, anchors: seq<Anchor>)
      requires Valid()
      modifies this
      ensures Valid()
      ensures |currentLines| > 50_000 ==>
        returned && anchors == LineLabels(|currentLines|) && storage == old(storage) && touched == old(touched)
      ensures Lookup(old(storage), TaskOf(taskId), absolutePath).None? && |currentLines| <= |DictionaryWords(dictionary)| ==> returned
      ensures |currentLines| <= MAX_TRACKED_LINES && !returned ==> storage == TouchTask(old(storage), TaskOf(taskId))
      ensures |currentLines| <= MAX_TRACKED_LINES && returned ==>
        var task := TaskOf(taskId);
        var now := Lookup(storage, task, absolutePath);
        && now.Some? && anchors == now.value.anchors && |anchors| == |currentLines|
        && storage == PutDocument(old(storage), task, absolutePath, now.value)
        && match Lookup(old(storage), task, absolutePath)
           case None =>
             FirstSeen(currentLines, now.value) &&
             (|currentLines| <= |DictionaryWords(dictionary)| ==> FromDictionary(dictionary, anchors))
           case Some(before) =>
             Reconciled(before, currentLines, now.value) && (before.hashes == Hashes(currentLines) ==> now.value == before)
    {
      if |currentLines| > MAX_TRACKED_LINES { return true, LineLabels(|currentLines|); }
      var task := TaskOf(taskId);
      ghost var start := storage;
      var state := GetTaskState(taskId);
      var currentHashes := ComputeHashes(currentLines);
      var tracked := Get(state, absolutePath);
      TouchTaskTwice(start, task);
      assert forall d :: PutDocument(storage, task, absolutePath, d) == PutDocument(start, task, absolutePath, d);
      if tracked.Some? {
        assert DocumentOk(tracked.value) by {
          assert FilesOk(FilesOf(storage, task));
        }
        assert MadeAt(dictionary, storage, task, absolutePath);
        var identical := SameHashes(tracked.value.hashes, currentHashes);
        if identical {
          FastPathReconciles(tracked.value, currentLines);
          UpdateState(absolutePath, tracked.value, taskId);
          return true, tracked.value.anchors;
        }
      }
      var d;
      if tracked.None? {
        returned, d := FirstAnchors(currentHashes, patience);
      } else {
        returned, d := DiffAnchors(tracked.value, currentHashes, patience);
      }
      anchors := d.anchors;
      if returned { UpdateState(absolutePath, d, taskId); }
    }

    /** The comparison of the fast path, line by line. */
    static method SameHashes(a: seq<Hash>, b: seq<Hash>) returns (identical: bool)
      ensures identical <==> a == b
    {
      if |a| != |b| { return false; }
      for i := 0 to |b|
        invariant a[..i] == b[..i]
      {
        if a[i] != b[i] { return false; }
      }
      assert a == a[..|a|] && b == b[..|b|];
      return true;
    }
  
    /** What one reconciliation makes of the file, tracked before or not. */
    method ReconcileOnce(absolutePath: string, lines: seq<Text>, taskId: Option<string>, patience: nat)
      returns (returned: bool, ghost d: Document)
      requires Valid() && |lines| <= MAX_TRACKED_LINES
      modifies this
      ensures Valid()
      ensures returned ==> Lookup(storage, TaskOf(taskId), absolutePath) == Some(d)
      ensures returned && Lookup(old(storage), TaskOf(taskId), absolutePath).None? ==> FirstSeen(lines, d)
      ensures returned && Lookup(old(storage), TaskOf(taskId), absolutePath).Some? ==>
        Reconciled(Lookup(old(storage), TaskOf(taskId), absolutePath).value, lines, d)
    {
      var anchors;
      returned, anchors := Reconcile(absolutePath, lines, taskId, patience);
      d := if returned then Lookup(storage, TaskOf(taskId), absolutePath).value else Document([], [], {}, None);
    }

    /** One more reconciliation of a file whose documents so far form a history. */
    method ReconcileNext(absolutePath: string, ghost docs: seq<Document>, ghost texts: seq<seq<Text>>, lines: seq<Text>,
                         taskId: Option<string>, patience: nat) returns (returned: bool, ghost d: Document)
      requires Valid() && |lines| <= MAX_TRACKED_LINES && IsHistory(docs, texts)
      requires Lookup(storage, TaskOf(taskId), absolutePath) == Some(docs[|docs| - 1])
      modifies this
      ensures Valid()
      ensures returned ==> IsHistory(docs + [d], texts + [lines])
      ensures returned ==> Lookup(storage, TaskOf(taskId), absolutePath) == Some(d)
    {
      returned, d := ReconcileOnce(absolutePath, lines, taskId, patience);
      if returned { HistoryGrows(docs, texts, d, lines); }
    }

    /** The first reconciliation of a file. */
    method ReconcileFirst(absolutePath: string, lines: seq<Text>, taskId: Option<string>, patience: nat)
      returns (returned: bool, ghost d: Document)
      requires Valid() && |lines| <= MAX_TRACKED_LINES
      requires Lookup(storage, TaskOf(taskId), absolutePath) == None
      modifies this
      ensures Valid()
      ensures returned ==> IsHistory([d], [lines])
      ensures returned ==> Lookup(storage, TaskOf(taskId), absolutePath) == Some(d)
    {
      returned, d := ReconcileOnce(absolutePath, lines, taskId, patience);
      if returned { HistoryBegins(d, lines); }
    }

    /** A run of reconciliations of one file: its documents form a history. */
    method ReconcileEach(absolutePath: string, texts: seq<seq<Text>>, taskId: Option<string>, patience: nat)
      returns (returned: bool, ghost docs: seq<Document>)
      requires Valid() && |texts| > 0 && Lookup(storage, TaskOf(taskId), absolutePath) == None
      requires forall i :: 0 <= i < |texts| ==> |texts[i]| <= MAX_TRACKED_LINES
      modifies this
      decreases |texts|
      ensures Valid()
      ensures returned ==> IsHistory(docs, texts) && Lookup(storage, TaskOf(taskId), absolutePath) == Some(docs[|docs| - 1])
    {
      var n := |texts| - 1;
      ghost var d;
      if n == 0 {
        assert texts == [texts[0]];
        returned, d := ReconcileFirst(absolutePath, texts[0], taskId, patience);
        docs := [d];
      } else {
        var before := texts[..n];
        assert texts == before + [texts[n]];
        returned, docs := ReconcileEach(absolutePath, before, taskId, patience);
        if returned {
          returned, d := ReconcileNext(absolutePath, docs, before, texts[n], taskId, patience);
          docs := docs + [d];
        }
      }
    }
  }
}
