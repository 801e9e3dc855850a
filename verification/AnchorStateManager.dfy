/** The anchor manager: unique words from a shuffled pool, reconciliation, and the two-level cache. */
module AnchorStateManager {
  import opened Sequences
  import opened InsertionMap
  import opened Lru
  import opened Fnv
  import opened EditScripts
  import opened AnchorDocuments
  import opened AnchorWords

  type Files = Entries<string, Document>
  type Storage = Entries<string, Files>

  const MAX_TRACKED_LINES := 50_000
  const MAX_TRACKED_FILES := 1024
  const MAX_TRACKED_TASKS := 50
  const DEFAULT_TASK := "default"

  // ----- The cache as a value

  function FilesOf(s: Storage, task: string): Files {
    match Get(s, task)
    case None => []
    case Some(files) => files
  }

  /** `getTaskState`: the task becomes the most recent one; a new one may push the oldest out. */
  function TouchTask(s: Storage, task: string): Storage {
    Refresh(s, task, FilesOf(s, task), MAX_TRACKED_TASKS)
  }

  /** `updateState`: the document becomes the most recent one of the most recent task. */
  function PutDocument(s: Storage, task: string, path: string, d: Document): Storage {
    var s' := TouchTask(s, task);
    Set(s', task, Refresh(FilesOf(s', task), path, d, MAX_TRACKED_FILES))
  }

  /** `clearState`: the task is touched and the file dropped from it. */
  function DropFile(s: Storage, task: string, path: string): Storage {
    var s' := TouchTask(s, task);
    Set(s', task, Delete(FilesOf(s', task), path))
  }

  /** `reset`: an empty task id clears everything, as no task id does. */
  function Forget(s: Storage, taskId: Option<string>): Storage {
    if taskId.Some? && taskId.value != "" then Delete(s, taskId.value) else []
  }

  function Lookup(s: Storage, task: string, path: string): Option<Document> {
    Get(FilesOf(s, task), path)
  }

  ghost predicate FilesOk(files: Files) {
    UniqueKeys(files) && |files| <= MAX_TRACKED_FILES &&
    forall path :: path in Keys(files) ==> DocumentOk(Get(files, path).value)
  }

  ghost predicate StorageOk(s: Storage) {
    UniqueKeys(s) && |s| <= MAX_TRACKED_TASKS &&
    forall task :: FilesOk(FilesOf(s, task))
  }

  /** Touching keeps every file of every surviving task and moves the task's key as the simple cache does. */
  lemma TouchTaskKeeps(s: Storage, task: string)
    requires StorageOk(s)
    ensures StorageOk(TouchTask(s, task))
    ensures Keys(TouchTask(s, task)) == Touch(Keys(s), task, MAX_TRACKED_TASKS)
    ensures FilesOf(TouchTask(s, task), task) == FilesOf(s, task)
    ensures Get(TouchTask(s, task), task) == Some(FilesOf(s, task))
    ensures forall other :: other in Keys(TouchTask(s, task)) ==> FilesOf(TouchTask(s, task), other) == FilesOf(s, other)
  {
    var files := FilesOf(s, task);
    var s' := TouchTask(s, task);
    RefreshTouches(s, task, files, MAX_TRACKED_TASKS);
    TouchedLast(Keys(s), task, MAX_TRACKED_TASKS);
    forall other ensures other in Keys(s') ==> FilesOf(s', other) == FilesOf(s, other) {
      if other in Keys(s') { RefreshGet(s, task, files, MAX_TRACKED_TASKS, other); }
    }
    RefreshGet(s, task, files, MAX_TRACKED_TASKS, task);
    forall other ensures FilesOk(FilesOf(s', other)) {
      if other in Keys(s') { assert FilesOk(FilesOf(s, other)); }
    }
  }

  lemma RefreshFilesOk(files: Files, path: string, d: Document)
    requires FilesOk(files) && DocumentOk(d)
    ensures FilesOk(Refresh(files, path, d, MAX_TRACKED_FILES))
    ensures Get(Refresh(files, path, d, MAX_TRACKED_FILES), path) == Some(d)
    ensures Keys(Refresh(files, path, d, MAX_TRACKED_FILES)) == Touch(Keys(files), path, MAX_TRACKED_FILES)
  {
    var files' := Refresh(files, path, d, MAX_TRACKED_FILES);
    RefreshTouches(files, path, d, MAX_TRACKED_FILES);
    TouchedLast(Keys(files), path, MAX_TRACKED_FILES);
    RefreshGet(files, path, d, MAX_TRACKED_FILES, path);
    forall p | p in Keys(files') ensures DocumentOk(Get(files', p).value) {
      RefreshGet(files, path, d, MAX_TRACKED_FILES, p);
    }
  }

  /** The document just put is tracked, the task is the most recent one, the files are a simple cache too. */
  lemma PutDocumentKeeps(s: Storage, task: string, path: string, d: Document)
    requires StorageOk(s) && DocumentOk(d)
    ensures StorageOk(PutDocument(s, task, path, d))
    ensures Keys(PutDocument(s, task, path, d)) == Touch(Keys(s), task, MAX_TRACKED_TASKS)
    ensures Lookup(PutDocument(s, task, path, d), task, path) == Some(d)
    ensures Keys(FilesOf(PutDocument(s, task, path, d), task)) == Touch(Keys(FilesOf(s, task)), path, MAX_TRACKED_FILES)
  {
    var s' := TouchTask(s, task);
    TouchTaskKeeps(s, task);
    var files' := Refresh(FilesOf(s', task), path, d, MAX_TRACKED_FILES);
    assert FilesOk(FilesOf(s', task));
    RefreshFilesOk(FilesOf(s', task), path, d);
    SetKeys(s', task, files');
    var s'' := Set(s', task, files');
    assert |s''| == |Keys(s'')|;
    assert |Keys(s')| == |s'|;
    forall other ensures FilesOf(s'', other) == if other == task then files' else FilesOf(s', other) {
      GetSet(s', task, files', other);
    }
  }

  /** Touching twice is touching once. */
  lemma TouchTaskTwice(s: Storage, task: string)
    requires StorageOk(s)
    ensures TouchTask(TouchTask(s, task), task) == TouchTask(s, task)
  {
    var s' := TouchTask(s, task);
    TouchTaskKeeps(s, task);
    TouchedLast(Keys(s), task, MAX_TRACKED_TASKS);
    assert Keys(s')[|s'| - 1] == task;
    GetAt(s', |s'| - 1);
    RefreshLast(s', task, FilesOf(s', task));
  }

  lemma {:induction false} RefreshLast(m: Storage, k: string, v: Files)
    requires UniqueKeys(m) && m != [] && m[|m| - 1] == (k, v)
    ensures Set(Delete(m, k), k, v) == m
  {
    if |m| == 1 {
      assert m == [(k, v)];
      assert Delete(m, k) == [];
    } else {
      assert m[0].0 != k;
      assert forall i :: 0 <= i < |m| - 1 ==> m[1..][i] == m[i + 1];
      RefreshLast(m[1..], k, v);
      assert ([m[0]] + Delete(m[1..], k))[1..] == Delete(m[1..], k);
    }
  }

  // ----- What an operation does to the other files

  lemma ForgetTaskOk(s: Storage, task: string)
    requires StorageOk(s)
    ensures StorageOk(Delete(s, task)) && Keys(Delete(s, task)) == Without(Keys(s), task)
  {
    DeleteKeys(s, task);
    assert |Keys(Delete(s, task))| == |Delete(s, task)| && |Keys(s)| == |s|;
    forall other ensures FilesOk(FilesOf(Delete(s, task), other)) {
      GetDelete(s, task, other);
      assert FilesOk(FilesOf(s, other));
    }
  }

  /** Dropping one file of a task leaves every other file and every key order alone. */
  lemma ClearKeeps(s: Storage, task: string, path: string)
    requires StorageOk(s) && task in Keys(s)
    ensures var s' := Set(s, task, Delete(FilesOf(s, task), path));
      StorageOk(s') && Keys(s') == Keys(s) && Lookup(s', task, path) == None &&
      forall p :: p != path ==> Lookup(s', task, p) == Lookup(s, task, p)
  {
    var files := FilesOf(s, task);
    var files' := Delete(files, path);
    var s' := Set(s, task, files');
    assert FilesOk(files);
    SetKeys(s, task, files');
    assert |Keys(s')| == |s'| && |Keys(s)| == |s|;
    assert FilesOf(s', task) == files' by { GetSet(s, task, files', task); }
    ClearFile(files, path);
    forall other ensures FilesOk(FilesOf(s', other)) {
      GetSet(s, task, files', other);
      assert FilesOk(FilesOf(s, other));
    }
  }

  lemma ClearFile(files: Files, path: string)
    requires FilesOk(files)
    ensures FilesOk(Delete(files, path))
    ensures forall p :: Get(Delete(files, path), p) == if p == path then None else Get(files, p)
  {
    var files' := Delete(files, path);
    DeleteKeys(files, path);
    assert |Keys(files')| == |files'| && |Keys(files)| == |files|;
    forall p ensures Get(files', p) == if p == path then None else Get(files, p) {
      GetDelete(files, path, p);
    }
  }

  /** A file is where it was, or is not tracked any more. */
  ghost predicate KeptOrLost(s: Storage, s': Storage, task: string, path: string) {
    Lookup(s', task, path) == None || Lookup(s', task, path) == Lookup(s, task, path)
  }

  lemma TouchKeeps(s: Storage, t: string, task: string, path: string)
    requires StorageOk(s)
    ensures StorageOk(TouchTask(s, t)) && KeptOrLost(s, TouchTask(s, t), task, path)
  {
    TouchTaskKeeps(s, t);
    if task !in Keys(TouchTask(s, t)) { assert FilesOf(TouchTask(s, t), task) == []; }
  }

  lemma PutKeeps(s: Storage, t: string, p: string, d: Document, task: string, path: string)
    requires StorageOk(s) && (t != task || p != path)
    ensures KeptOrLost(s, PutDocument(s, t, p, d), task, path)
  {
    var s' := TouchTask(s, t);
    TouchKeeps(s, t, task, path);
    var files := FilesOf(s', t);
    var files' := Refresh(files, p, d, MAX_TRACKED_FILES);
    GetSet(s', t, files', task);
    if t == task {
      assert FilesOk(files);
      RefreshTouches(files, p, d, MAX_TRACKED_FILES);
      if path in Keys(files') { RefreshGet(files, p, d, MAX_TRACKED_FILES, path); }
    }
  }

  lemma DropKeeps(s: Storage, t: string, p: string, task: string, path: string)
    requires StorageOk(s)
    ensures StorageOk(DropFile(s, t, p)) && KeptOrLost(s, DropFile(s, t, p), task, path)
  {
    var s' := TouchTask(s, t);
    TouchTaskKeeps(s, t);
    TouchKeeps(s, t, task, path);
    ClearKeeps(s', t, p);
    GetSet(s', t, Delete(FilesOf(s', t), p), task);
  }

  lemma ForgetKeeps(s: Storage, taskId: Option<string>, task: string, path: string)
    requires StorageOk(s)
    ensures StorageOk(Forget(s, taskId)) && KeptOrLost(s, Forget(s, taskId), task, path)
  {
    if taskId.Some? && taskId.value != "" {
      ForgetTaskOk(s, taskId.value);
      GetDelete(s, taskId.value, task);
    }
  }

  // ----- All words come from the dictionary

  ghost predicate StorageMade(dictionary: seq<string>, s: Storage) {
    forall task, path :: MadeAt(dictionary, s, task, path)
  }

  ghost predicate MadeAt(dictionary: seq<string>, s: Storage, task: string, path: string) {
    Lookup(s, task, path).Some? ==> WordsMade(dictionary, Lookup(s, task, path).value)
  }

  /** Of every tracked file: as long as a dictionary word is spare it was given dictionary words only, and
      `undefined` was given only after a pair and a triple of dictionary words. */
  lemma TrackedWordsInOrder(dictionary: seq<string>, s: Storage, task: string, path: string)
    requires StorageMade(dictionary, s) && Lookup(s, task, path).Some?
    ensures var d := Lookup(s, task, path).value;
      && (Spare(dictionary, d.usedWords) ==> forall a :: a in d.usedWords ==> a.Some? && a.value in dictionary)
      && (None in d.usedWords ==> PairUsed(dictionary, d.usedWords) && TripleUsed(dictionary, d.usedWords))
      && (forall a :: a in d.usedWords && a.Some? ==> IsWord(dictionary, a.value))
  {
    assert MadeAt(dictionary, s, task, path);
  }

  lemma TouchMade(dictionary: seq<string>, s: Storage, t: string)
    requires StorageOk(s) && StorageMade(dictionary, s)
    ensures StorageMade(dictionary, TouchTask(s, t))
  {
    forall task, path ensures MadeAt(dictionary, TouchTask(s, t), task, path) {
      TouchKeeps(s, t, task, path);
      assert MadeAt(dictionary, s, task, path);
    }
  }

  lemma PutMade(dictionary: seq<string>, s: Storage, t: string, p: string, d: Document)
    requires StorageOk(s) && DocumentOk(d) && StorageMade(dictionary, s) && WordsMade(dictionary, d)
    ensures StorageMade(dictionary, PutDocument(s, t, p, d))
  {
    PutDocumentKeeps(s, t, p, d);
    forall task, path ensures MadeAt(dictionary, PutDocument(s, t, p, d), task, path) {
      if t != task || p != path { PutKeeps(s, t, p, d, task, path); }
      assert MadeAt(dictionary, s, task, path);
    }
  }

  lemma DropMade(dictionary: seq<string>, s: Storage, t: string, p: string)
    requires StorageOk(s) && StorageMade(dictionary, s)
    ensures StorageMade(dictionary, DropFile(s, t, p))
  {
    forall task, path ensures MadeAt(dictionary, DropFile(s, t, p), task, path) {
      DropKeeps(s, t, p, task, path);
      assert MadeAt(dictionary, s, task, path);
    }
  }

  lemma ForgetMade(dictionary: seq<string>, s: Storage, taskId: Option<string>)
    requires StorageOk(s) && StorageMade(dictionary, s)
    ensures StorageMade(dictionary, Forget(s, taskId))
  {
    forall task, path ensures MadeAt(dictionary, Forget(s, taskId), task, path) {
      ForgetKeeps(s, taskId, task, path);
      assert MadeAt(dictionary, s, task, path);
    }
  }

  // ----- Reconciling one document

  /** The anchors so far come from old lines before `oldIdx` or are new to the file, and are used words. */
  ghost predicate Drawn(before: Document, oldIdx: nat, anchors: seq<Anchor>, usedWords: set<Anchor>) {
    && Distinct(anchors) && usedWords == before.usedWords + Words(anchors)
    && forall j :: 0 <= j < |anchors| ==>
      anchors[j] !in before.usedWords || exists i :: 0 <= i < oldIdx && i < |before.anchors| && anchors[j] == before.anchors[i]
  }

  /** The anchors so far follow the first origins. */
  ghost predicate FollowsSoFar(origins: seq<Option<nat>>, before: Document, anchors: seq<Anchor>) {
    |anchors| <= |origins| && forall j :: 0 <= j < |anchors| ==> AnchorFollows(origins[j], before, anchors[j])
  }

  lemma DrawNew(before: Document, oldIdx: nat, anchors: seq<Anchor>, usedWords: set<Anchor>, word: Anchor)
    requires Drawn(before, oldIdx, anchors, usedWords) && word !in usedWords
    ensures Drawn(before, oldIdx, anchors + [word], usedWords + {word})
  {
    assert Words(anchors + [word]) == Words(anchors) + {word};
    assert word !in Words(anchors);
    forall i | 0 <= i < |anchors| ensures anchors[i] != word { assert anchors[i] in Words(anchors); }
  }

  lemma DrawOld(before: Document, oldIdx: nat, anchors: seq<Anchor>, usedWords: set<Anchor>)
    requires DocumentOk(before) && Drawn(before, oldIdx, anchors, usedWords) && oldIdx < |before.anchors|
    ensures Drawn(before, oldIdx + 1, anchors + [before.anchors[oldIdx]], usedWords + {before.anchors[oldIdx]})
  {
    var word := before.anchors[oldIdx];
    assert Words(anchors + [word]) == Words(anchors) + {word};
    assert word in Words(before.anchors);
    forall i | 0 <= i < |anchors| ensures anchors[i] != word { }
  }

  method AddLines(dictionary: seq<string>, before: Document, ghost oldIdx: nat, ghost origins: seq<Option<nat>>, count: nat,
                  anchors: seq<Anchor>, usedWords: set<Anchor>, pool: seq<string>, patience: nat)
    returns (returned: bool, anchors': seq<Anchor>, usedWords': set<Anchor>, pool': seq<string>)
    requires Drawn(before, oldIdx, anchors, usedWords) && FollowsSoFar(origins, before, anchors)
    requires |anchors| + count <= |origins|
    requires forall j :: |anchors| <= j < |anchors| + count ==> origins[j] == None
    ensures returned ==> Drawn(before, oldIdx, anchors', usedWords') && FollowsSoFar(origins, before, anchors')
    ensures returned ==> |anchors'| == |anchors| + count
    ensures returned && Made(dictionary, pool, usedWords) ==> Made(dictionary, pool', usedWords')
  {
    anchors', usedWords', pool' := anchors, usedWords, pool;
    for i := 0 to count
      invariant Drawn(before, oldIdx, anchors', usedWords') && FollowsSoFar(origins, before, anchors')
      invariant |anchors'| == |anchors| + i
      invariant Made(dictionary, pool, usedWords) ==> Made(dictionary, pool', usedWords')
    {
      var word;
      ghost var current := pool';
      returned, word, pool' := GetUniqueWord(dictionary, usedWords', pool', patience);
      if !returned { return; }
      if Made(dictionary, pool, usedWords) { MadeNext(dictionary, current, usedWords', word, pool'); }
      DrawNew(before, oldIdx, anchors', usedWords', word);
      assert AnchorFollows(origins[|anchors'|], before, word);
      anchors' := anchors' + [word];
      usedWords' := usedWords' + {word};
    }
    returned := true;
  }

  method KeepLines(before: Document, oldIdx: nat, ghost origins: seq<Option<nat>>, count: nat,
                   anchors: seq<Anchor>, usedWords: set<Anchor>)
    returns (oldIdx': nat, anchors': seq<Anchor>, usedWords': set<Anchor>)
    requires DocumentOk(before) && Drawn(before, oldIdx, anchors, usedWords) && FollowsSoFar(origins, before, anchors)
    requires |anchors| + count <= |origins| && oldIdx + count <= |before.anchors|
    requires forall j :: |anchors| <= j < |anchors| + count ==> origins[j] == Some(oldIdx + j - |anchors|)
    ensures oldIdx' == oldIdx + count && |anchors'| == |anchors| + count
    ensures Drawn(before, oldIdx', anchors', usedWords') && FollowsSoFar(origins, before, anchors')
    ensures usedWords' == usedWords
  {
    oldIdx', anchors', usedWords' := oldIdx, anchors, usedWords;
    for i := 0 to count
      invariant oldIdx' == oldIdx + i && |anchors'| == |anchors| + i
      invariant Drawn(before, oldIdx', anchors', usedWords') && FollowsSoFar(origins, before, anchors')
      invariant usedWords' == usedWords
    {
      DrawOld(before, oldIdx', anchors', usedWords');
      var preservedWord := before.anchors[oldIdx'];
      assert preservedWord in Words(before.anchors);
      assert AnchorFollows(origins[|anchors'|], before, preservedWord);
      anchors' := anchors' + [preservedWord];
      usedWords' := usedWords' + {preservedWord};
      oldIdx' := oldIdx' + 1;
    }
  }

  /** The script from change c on turns the old hashes from `i` on into the new ones from `n` on. */
  ghost predicate Remaining(changes: seq<Change>, c: nat, before: seq<Hash>, i: nat, after: seq<Hash>, n: nat,
                            origins: seq<Option<nat>>) {
    c <= |changes| && i <= |before| && n <= |after| == |origins| &&
    EditScripts.Valid(changes[c..], before[i..], after[n..]) && origins[n..] == Origins(changes[c..], i)
  }

  lemma NextAdded(changes: seq<Change>, c: nat, before: seq<Hash>, i: nat, after: seq<Hash>, n: nat, origins: seq<Option<nat>>)
    requires c < |changes| && Remaining(changes, c, before, i, after, n, origins) && changes[c].Added?
    ensures n + changes[c].count <= |after|
    ensures forall j :: n <= j < n + changes[c].count ==> origins[j] == None
    ensures Remaining(changes, c + 1, before, i, after, n + changes[c].count, origins)
  {
    var count := changes[c].count;
    assert changes[c..][0] == changes[c] && changes[c..][1..] == changes[c + 1..];
    assert after[n..][count..] == after[n + count..];
    assert forall j :: 0 <= j < count ==> origins[n + j] == origins[n..][j];
    assert origins[n..][count..] == origins[n + count..];
  }

  lemma NextRemoved(changes: seq<Change>, c: nat, before: seq<Hash>, i: nat, after: seq<Hash>, n: nat, origins: seq<Option<nat>>)
    requires c < |changes| && Remaining(changes, c, before, i, after, n, origins) && changes[c].Removed?
    ensures i + changes[c].count <= |before|
    ensures Remaining(changes, c + 1, before, i + changes[c].count, after, n, origins)
  {
    assert changes[c..][0] == changes[c] && changes[c..][1..] == changes[c + 1..];
    assert before[i..][changes[c].count..] == before[i + changes[c].count..];
  }

  lemma NextKept(changes: seq<Change>, c: nat, before: seq<Hash>, i: nat, after: seq<Hash>, n: nat, origins: seq<Option<nat>>)
    requires c < |changes| && Remaining(changes, c, before, i, after, n, origins) && changes[c].Kept?
    ensures i + changes[c].count <= |before| && n + changes[c].count <= |after|
    ensures forall j :: n <= j < n + changes[c].count ==> origins[j] == Some(i + j - n)
    ensures Remaining(changes, c + 1, before, i + changes[c].count, after, n + changes[c].count, origins)
  {
    var count := changes[c].count;
    assert changes[c..][0] == changes[c] && changes[c..][1..] == changes[c + 1..];
    assert before[i..][count..] == before[i + count..];
    assert after[n..][count..] == after[n + count..];
    assert forall j :: 0 <= j < count ==> origins[n + j] == origins[n..][j];
    assert origins[n..][count..] == origins[n + count..];
  }

  lemma DrawnLater(before: Document, i: nat, i': nat, anchors: seq<Anchor>, usedWords: set<Anchor>)
    requires i <= i' && Drawn(before, i, anchors, usedWords)
    ensures Drawn(before, i', anchors, usedWords)
  {
  }

  lemma WholeScript(changes: seq<Change>, before: seq<Hash>, after: seq<Hash>)
    requires EditScripts.Valid(changes, before, after)
    ensures Remaining(changes, 0, before, 0, after, 0, Origins(changes, 0))
  {
    OriginsLength(changes, before, after, 0);
    assert changes[0..] == changes && before[0..] == before && after[0..] == after;
    assert Origins(changes, 0)[0..] == Origins(changes, 0);
  }

  /** One change of the script. */
  method ApplyChange(dictionary: seq<string>, before: Document, changes: seq<Change>, c: nat, ghost after: seq<Hash>,
                     ghost origins: seq<Option<nat>>, anchors: seq<Anchor>, usedWords: set<Anchor>, pool: seq<string>,
                     oldIdx: nat, patience: nat)
    returns (returned: bool, anchors': seq<Anchor>, usedWords': set<Anchor>, pool': seq<string>, oldIdx': nat)
    requires DocumentOk(before) && c < |changes| && Remaining(changes, c, before.hashes, oldIdx, after, |anchors|, origins)
    requires Drawn(before, oldIdx, anchors, usedWords) && FollowsSoFar(origins, before, anchors)
    ensures returned ==> Remaining(changes, c + 1, before.hashes, oldIdx', after, |anchors'|, origins)
    ensures returned ==> Drawn(before, oldIdx', anchors', usedWords') && FollowsSoFar(origins, before, anchors')
    ensures returned && Made(dictionary, pool, usedWords) ==> Made(dictionary, pool', usedWords')
  {
    returned, anchors', usedWords', pool', oldIdx' := true, anchors, usedWords, pool, oldIdx;
    var change := changes[c];
    if change.Added? {
      NextAdded(changes, c, before.hashes, oldIdx, after, |anchors|, origins);
      returned, anchors', usedWords', pool' :=
        AddLines(dictionary, before, oldIdx, origins, change.count, anchors, usedWords, pool, patience);
    } else if change.Removed? {
      NextRemoved(changes, c, before.hashes, oldIdx, after, |anchors|, origins);
      DrawnLater(before, oldIdx, oldIdx + change.count, anchors, usedWords);
      oldIdx' := oldIdx + change.count;
    } else {
      NextKept(changes, c, before.hashes, oldIdx, after, |anchors|, origins);
      oldIdx', anchors', usedWords' := KeepLines(before, oldIdx, origins, change.count, anchors, usedWords);
    }
  }

  /** The walk over the edit script: whatever valid script the diff returns, old index and origins agree. */
  method ApplyScript(dictionary: seq<string>, before: Document, changes: seq<Change>, ghost after: seq<Hash>,
                     pool: seq<string>, patience: nat)
    returns (returned: bool, anchors: seq<Anchor>, usedWords: set<Anchor>, pool': seq<string>, oldIdx: nat)
    requires DocumentOk(before) && EditScripts.Valid(changes, before.hashes, after)
    ensures returned ==> oldIdx == |before.hashes|
    ensures returned ==> |anchors| == |after| && Distinct(anchors) && FollowsSoFar(Origins(changes, 0), before, anchors)
    ensures returned ==> usedWords == before.usedWords + Words(anchors)
    ensures returned && Made(dictionary, pool, before.usedWords) ==> Made(dictionary, pool', usedWords)
  {
    ghost var origins := Origins(changes, 0);
    WholeScript(changes, before.hashes, after);
    anchors, usedWords, pool', oldIdx := [], before.usedWords, pool, 0;
    returned := true;
    for c := 0 to |changes|
      invariant returned && Remaining(changes, c, before.hashes, oldIdx, after, |anchors|, origins)
      invariant Drawn(before, oldIdx, anchors, usedWords) && FollowsSoFar(origins, before, anchors)
      invariant Made(dictionary, pool, before.usedWords) ==> Made(dictionary, pool', usedWords)
    {
      returned, anchors, usedWords, pool', oldIdx :=
        ApplyChange(dictionary, before, changes, c, after, origins, anchors, usedWords, pool', oldIdx, patience);
      if !returned { return; }
    }
    assert changes[|changes|..] == [];
  }
}
