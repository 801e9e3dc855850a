# Verified models of anchors, memory, hooks, ACP streaming, terminals and cost

Dafny models of five parts of the agent, with the properties they are built for.

- **Stable line anchors** (`Fnv`, `EditScripts`, `AnchorDocuments`, `AnchorWords`, `AnchorStateManager`, `AnchorManager`, `AnchorRuns`,
  `Lru`, `InsertionMap`, `LineHashing`). Each tracked file has its line hashes, one word per line, all words ever used and a
  pool of spare words, in a two-level least-recently-used store. Random choice is nondeterministic; the diff is any
  valid edit script.
- **Memory store** (`MemoryProtocol`, `MemoryConsistency`, `MemoryContents`, `MemoryLimits`, `MemoryFile`,
  `MemoryRanking`, `MemoryOrder`). Saves,
  deletes and index rebuilds of any number of processes are a step relation; `mkdir`, `rename` and `unlink` are one
  step each, everything else is interleaved. A reader that finds a file corrupt renames what is at its path when it
  gets there. A run is *safe* if no lock was removed as stale, no quarantine took away a sound file that no rebuild was to
  list, and no rebuild gave up that was needed; it removes no lock as stale if no lock gets older than
  `LOCK_STALE_MS` and no stat reply is acted upon that late. `MemoryLimits` shows runs that are
  not safe and fail.
- **Hook pipeline** (`HookMessages`, `HookMerging`, `HookOutputs`, `HookReordering`, `HookIdempotence`, `HookPipeline`,
  `HookStability`, `HookLimits`). `HookMessages` says what the four passes compute; `HookPipeline` proves the loops compute it.
- **ACP streaming** (`AcpTranslation`, `AcpSession`, `AcpSafety`, `AcpStreams`, `AcpCommands`, `AcpText`, `AcpReplies`,
  `AcpLifecycle`, `AcpMessages`, `AcpVoices`, `AcpAgent`).
  One session: messages, permission replies and new prompts in any order, with a log of all that was sent. `AcpAgent`
  is the program's own form, fields updated in place, proved equal to the functions on which runs are studied.
- **Terminals and cost** (`TerminalOutput`, `TerminalProcess`, `TerminalIds`, `Cost`, `CostLimits`, `CostTiers`). Polled
  output as a stream, the id maps, and tiered prices over exact reals.

Where a promised property fails, the code is modelled as it is, an input on which it fails is given, and the exact
condition under which it holds is proved:

- A saved memory can be read back exactly if its description is not blank (`MemoryFile.ParsePrint`).
- A global memory precedes a project memory exactly if its score is higher by more than 0.05
  (`MemoryRanking.GlobalPrecedesProject`).
- Removing a stale lock costs mutual exclusion exactly if there is a lock to remove
  (`MemoryConsistency.BreakingALiveLock`), which can happen even if every holder releases in time
  (`MemoryLimits.LateStatLosesExclusion`).
- A quarantine parts index and store exactly if it meets a sound file that no rebuild will list
  (`MemoryConsistency.QuarantineKeepsStep`).
- A rebuild that gives up leaves a path behind exactly if no other is to list it and something was left to do about it
  (`MemoryConsistency.GiveUpKeepsStep`).
- With tool variants that share timestamps the hook pipeline is idempotent exactly if no hook is passed over
  (`HookStability.IdempotentIff`), and exactly the messages behind a tool of their timestamp that got hooks are lost
  (`HookStability.UnmovedMessageComesOut`).
- A streamed command ask announces a new call for each partial message (`AcpCommands.StreamedCommandAsk`).
- Reasoning sent in its own field without text is not remembered: `AcpText.SentTextEndsWithLatestContent` and
  `AcpText.GrowingTextSentOnce` say exactly when the text sent stays right.
- A permission reply updates the call asked about exactly if it is still current (`AcpReplies.ReplyUpdatesAskedIff`),
  that is, if nothing has moved the current call since (`AcpReplies.ReplyUpdatesAskedIffNeverMoved`).
- The terminal id maps stay inverse exactly if no id is assigned, and none given up, that is tracked for another terminal
  (`TerminalIds.InverseIffClean`).
- A process reports completion once exactly if no poll is in flight when it completes (`TerminalOutput.CompletedOnceIff`).
- A tier price may fall without making a larger input cheaper; exactly which prices never do so is said by
  `CostLimits` for all input sizes and by `CostTiers` at finitely many of them.

Where comments and code differ the code is followed: `getUniqueWord` is typed as returning a
string, but a refill that brings no word leaves the pool empty, `pop` then yields `undefined` as an anchor, and from then
on the search for a word may not end; `formatLineWithHash` is documented with a colon but prints the delimiter; the
comment on `reconcile` names Myers' algorithm, of which only validity of the script is used.

To check the project: `dafny verify dfyconfig.toml`.

## Model

| member | source | states |
|---|---|---|
| `EditScripts.OldLengthIs` | src/utils/AnchorStateManager.ts:189-211 | Any valid edit script uses up exactly the old hashes: removed and kept counts add up to the old length |
| `EditScripts.OriginsLength` | src/utils/AnchorStateManager.ts:191-211 | Any valid edit script accounts for every new line, in both walks of it |
| `EditScripts.OriginMatches` | src/utils/AnchorStateManager.ts:199-210 | A line that a valid script calls unchanged has equal hashes at its old and new index |
| `EditScripts.OriginsAscend` | src/utils/AnchorStateManager.ts:199-210 | Unchanged lines come from strictly ascending old indices, so no old anchor is carried over twice |
| `EditScripts.DiffArrays` | src/utils/AnchorStateManager.ts:169 | A real diff: for any two lists it returns a valid edit script between them, so the contract assumed of the diff library can be met |
| `Fnv.ComputeHash` | src/utils/AnchorStateManager.ts:19-30 | The hash loop over UTF-16 code units computes FNV-1a modulo 2^32 for every line |
| `Fnv.KnownHashes` | src/utils/AnchorStateManager.ts:19-30 | The hash of the empty text and of 'a' are the published values of 32-bit FNV-1a |
| `Fnv.StepInjective` | src/utils/AnchorStateManager.ts:25-27 | One FNV-1a step with a fixed code unit never maps two hash states to one: the prime has an inverse modulo 2^32 |
| `Fnv.StepSeparates` | src/utils/AnchorStateManager.ts:25-27 | One FNV-1a step from one state separates any two code units |
| `Fnv.OneUnitChangesHash` | src/utils/AnchorStateManager.ts:19-30 | Two lines of equal length that differ in exactly one code unit have different hashes |
| `Fnv.ContentHash` | src/utils/line-hashing.ts:12-18 | The text is the padded hexadecimal form of the FNV-1a hash: eight digits of 0-9a-f that denote it |
| `Fnv.ContentHashIsHex` | src/utils/line-hashing.ts:12-18 | That text has exactly eight digits of 0-9a-f and denotes exactly the number used by the anchors |
| `Fnv.ContentHashInjective` | src/utils/line-hashing.ts:12-18 | Equal texts mean equal hashes: nothing is lost in formatting |
| `AnchorDocuments.FastPathReconciles` | src/utils/AnchorStateManager.ts:129-143 | Leaving an unchanged document as it is meets the specification of reconciling through a diff |
| `AnchorDocuments.IdentityScriptKeepsAnchors` | src/utils/AnchorStateManager.ts:169-217 | With the script that keeps every line the diff path returns exactly the anchors of the fast path |
| `AnchorDocuments.OneUnitEditMissesFastPath` | src/utils/AnchorStateManager.ts:130-143 | A document with one code unit changed in one line never takes the fast path |
| `AnchorDocuments.ReconciledLine` | src/utils/AnchorStateManager.ts:171-217 | After reconciling, each line has either the anchor of an old line of equal hash or a word never handed out for the file |
| `AnchorDocuments.ReconciledOrder` | src/utils/AnchorStateManager.ts:199-210 | Anchors carried over keep their order |
| `AnchorDocuments.AnchorNeverReturns` | src/utils/AnchorStateManager.ts:171-217 | Over any run of reconciliations, an anchor that has left the file never comes back |
| `AnchorDocuments.AnchorNamesOneHash` | src/utils/AnchorStateManager.ts:171-217 | Over any run, all lines that ever bear one anchor have one and the same hash |
| `AnchorStateManager.TouchTaskKeeps` | src/utils/AnchorStateManager.ts:94-113 | Touching a task does to the task ids what a least-recently-used list of 50 does, and changes no surviving task's files |
| `AnchorStateManager.PutDocumentKeeps` | src/utils/AnchorStateManager.ts:219-232 | A document just put is tracked; tasks and files move as least-recently-used lists of 50 and 1024 do; every document stays well formed |
| `AnchorStateManager.TouchTaskTwice` | src/utils/AnchorStateManager.ts:94-113 | Touching the same task twice in a row is touching it once, so reconciling may look the task up twice |
| `AnchorWords.Refill` | src/utils/AnchorStateManager.ts:41-77 | A refill appends unused combinations of two or three dictionary words, at most 10000: exactly 10000 if no pair is in use, 100 at least if no triple is |
| `AnchorWords.DrawPairs` | src/utils/AnchorStateManager.ts:46-57 | The two-word combinations of a refill, none in use, exactly 10000 unless one of them is |
| `AnchorWords.GetUniqueWord` | src/utils/AnchorStateManager.ts:79-92 | The last unused entry of the pool comes out and what lies above it is dropped; without one, a combination from a refill; `undefined` only if the pool holds nothing unused and a pair and a triple are in use; the search can fail to return only then, once `undefined` has been handed out |
| `AnchorWords.MadeNext` | src/utils/AnchorStateManager.ts:79-92 | As long as a dictionary word is unused for a file the next word is a dictionary word, and the pool holds every unused one |
| `AnchorWords.FewWordsFromDictionary` | src/utils/AnchorStateManager.ts:145-164 | A file for which no more words were used than the dictionary has distinct ones bears dictionary words only, never `undefined` |
| `AnchorStateManager.TrackedWordsInOrder` | src/utils/AnchorStateManager.ts:79-217 | Of every tracked file: dictionary words first, combinations only once these are all used, `undefined` only after a pair and a triple |
| `AnchorStateManager.AddLines` | src/utils/AnchorStateManager.ts:192-198 | Inserted lines get words outside all words ever handed out for the file, pairwise distinct |
| `AnchorStateManager.KeepLines` | src/utils/AnchorStateManager.ts:202-210 | Unchanged lines get their old words, and the old index advances with them |
| `AnchorStateManager.ApplyScript` | src/utils/AnchorStateManager.ts:189-211 | For every valid script: one anchor per new line, pairwise distinct, each as its origin demands, the old index ending exactly at the old length, the used words growing by the anchors |
| `Lru.TouchLastN` | src/utils/AnchorStateManager.ts:94-113 | Touching the last n of a list of distinct keys is taking the last n after touching |
| `Lru.RecencyLists` | src/utils/AnchorStateManager.ts:94-113 | The order meant lists each key used exactly once, a key used later being listed later |
| `Lru.CacheIsRecency` | src/utils/AnchorStateManager.ts:94-113 | From empty, the keys of a bounded cache are always the last n distinct keys touched, in order of their last access |
| `AnchorManager.Manager.GetTaskState` | src/utils/AnchorStateManager.ts:94-113 | Stored tasks are always the last 50 distinct tasks touched, oldest first (part of Valid); the task's files are returned unchanged |
| `AnchorManager.Manager.KeepsLastFifty` | src/utils/AnchorStateManager.ts:15-17 | The last 50 distinct tasks touched are stored, oldest first, with at most 1024 files each |
| `AnchorManager.Manager.UpdateState` | src/utils/AnchorStateManager.ts:219-232 | The document is stored as the newest of its task, the oldest file pushed out beyond 1024 |
| `AnchorManager.Manager.FirstAnchors` | src/utils/AnchorStateManager.ts:145-164 | A file first seen gets distinct words, dictionary words only if it has no more lines than the dictionary has distinct words |
| `AnchorManager.Manager.PoolFor` | src/utils/AnchorStateManager.ts:173-187 | The file's pool, or if it is empty the unused dictionary words in some order |
| `AnchorManager.Manager.Reconcile` | src/utils/AnchorStateManager.ts:119-217 | One anchor per line up to 50000 lines, the tracked document follows from the one before by some valid edit script, unchanged hashes return the stored document itself, a file first seen gets dictionary words as long as there are enough, and the file is tracked afterwards with the anchors returned; beyond the limit the labels L1, L2, … and no change |
| `AnchorManager.Manager.ReconcileEach` | src/utils/AnchorStateManager.ts:119-217 | Any number of reconciliations of one file form a history, to which the theorems on histories apply |
| `AnchorManager.Manager.IsTracking` | src/utils/AnchorStateManager.ts:237-239 | Tells whether the file is tracked; only the task's place in the order changes |
| `AnchorManager.Manager.GetAnchors` | src/utils/AnchorStateManager.ts:244-246 | Returns the anchors last stored for the file, or nothing; only the task's place in the order changes |
| `AnchorManager.Manager.ClearState` | src/utils/AnchorStateManager.ts:251-253 | Exactly this file is dropped from its task, the task moving to the newest place; all other files of the task are as before |
| `AnchorManager.Manager.Reset` | src/utils/AnchorStateManager.ts:258-264 | The storage is what forgetting leaves |
| `AnchorRuns.ForgetForgets` | src/utils/AnchorStateManager.ts:258-264 | A reset without a task id forgets every file, one with a task id exactly that task's files |
| `AnchorRuns.StepKeeps` | src/utils/AnchorStateManager.ts:94-264 | Reconciling, querying, clearing or resetting anything else leaves a file's document as it is or loses it, never changes it |
| `AnchorRuns.TrackedFileHasHistory` | src/utils/AnchorStateManager.ts:119-264 | In every run over any tasks and files, with evictions, clearing and resets: a file is tracked exactly if it was reconciled since it was last not tracked, these reconciliations form a history, and the last document is the one tracked |
| `AnchorRuns.AnchorNeverReturnsWhileTracked` | src/utils/AnchorStateManager.ts:119-264 | In every such run, while a file stays tracked an anchor that has left it never comes back |
| `LineHashing.SplitLinesIsSplit` | src/utils/line-hashing.ts:63 | Splitting at LF or CRLF is turning CRLF into LF and splitting at LF |
| `LineHashing.TrackedAnchorsPlain` | src/utils/AnchorStateManager.ts:41-92 | Every anchor of every tracked document is put together from dictionary words, so free of newlines and delimiters if these are |
| `LineHashing.HashLinesStateful` | src/utils/line-hashing.ts:58-67 | Prints each line after its anchor: the anchors then tracked for the file, or the labels L1, L2, … above 50000 lines; if no dictionary word holds a newline or a delimiter, splitting and joining what was printed recovers the document with CRLF turned into LF, for every document |
| `LineHashing.SplitFormatted` | src/utils/line-hashing.ts:34-48 | Splitting a printed line gives back its anchor, trimmed, and its content, whatever the content holds |
| `LineHashing.HashedLinesRoundTrip` | src/utils/line-hashing.ts:34-67 | Splitting each printed line and joining the contents recovers the document with CRLF turned into LF, and the anchors are read back, for anchors without newline or delimiter |
| `MemoryConsistency.DifferenceIsDue` | src/utils/ailiance-memory.ts:497-525 | At every point of a safe run, any path on which index and store differ has a rebuild still to list it or a holder that has listed it as it is now |
| `MemoryConsistency.QuiescentIndexIsStore` | src/utils/ailiance-memory.ts:497-525 | In every interleaving of saves, deletes and readers of any number of processes that is safe, rebuilds that give up included: once nothing is in progress the index is exactly the store |
| `MemoryContents.StoreIsLastContent` | src/utils/ailiance-memory.ts:158-191 | In every run, at every path is what its last change left there, read off the run: the entry of a sound save, a file that does not parse after a broken one, nothing after a deletion or a quarantine, what was there at first if there was no change |
| `MemoryContents.IndexListsLastSaves` | src/utils/ailiance-memory.ts:318-348 | Once nothing is in progress in a safe run, the index lists exactly the paths whose last change was a sound save, each with the entry saved last; so what was deleted is gone from both |
| `MemoryConsistency.AtMostOneRebuild` | src/utils/ailiance-memory.ts:235-269 | At most one rebuild of all processes is between acquiring and releasing the lock, in every run in which no lock was removed as stale |
| `MemoryConsistency.OnlyCreatorRemovesLock` | src/utils/ailiance-memory.ts:245-265 | In every such run a lock is only ever removed by the operation that created it, at its release |
| `MemoryConsistency.OneRebuildPerProcess` | src/utils/ailiance-memory.ts:520-524 | The rebuilds of one process run one at a time, in every run whatever |
| `MemoryConsistency.AcquireEnds` | src/utils/ailiance-memory.ts:235-269 | In every run whatever, stale locks included, each step of an acquiring operation is enabled and lowers a measure of at most 201 that no other step raises: the lock is had or given up within 50 attempts |
| `MemoryContents.LockAgesFromTouch` | src/utils/ailiance-memory.ts:238-257 | In every run the age of a lock counts from its creation or the writing of its owner file |
| `MemoryContents.ContendedAttempt` | src/utils/ailiance-memory.ts:236-268 | A lock gone by the stat is tried for at once, one untouched for more than 30 seconds is removed and tried for at once, any other is slept on; each way the next of at most 50 attempts follows |
| `MemoryConsistency.BreakingALiveLock` | src/utils/ailiance-memory.ts:254-260 | The first removal of a stale lock, followed by a new attempt, leaves two rebuilds holding the lock exactly if there was a lock to remove |
| `MemoryConsistency.TimelyBreaksNoLock` | src/utils/ailiance-memory.ts:254-260 | If no lock gets older than 30 seconds and no stat reply is acted upon that late, no lock is removed as stale |
| `MemoryConsistency.GiveUpKeepsStep` | src/utils/ailiance-memory.ts:268 | A rebuild that gives up keeps a path in step exactly if another operation is still to list it, or index or holder and every snapshot are right about it already |
| `MemoryConsistency.NoGiveUpIsHarmless` | src/utils/ailiance-memory.ts:268 | In a run in which no rebuild gave up nothing is asked of those that do |
| `MemoryConsistency.QuarantineKeepsStep` | src/utils/ailiance-memory.ts:93-152 | At any point of a safe run, a reader's quarantine of a file keeps that path in step exactly if there is no sound file at it by then or a rebuild is still to list it |
| `MemoryConsistency.QuarantineAtRest` | src/utils/ailiance-memory.ts:142-152 | With nothing in progress, a quarantine leaves index and store equal exactly if it finds no sound file |
| `MemoryLimits.SlowHolderLosesExclusion` | src/utils/ailiance-memory.ts:254-260 | A run in which a holder outlives 30 seconds and two rebuilds hold the lock at once |
| `MemoryLimits.LateStatLosesExclusion` | src/utils/ailiance-memory.ts:254-260 | Timely holders alone do not suffice: a run in which every lock is released in time, yet a stat reply acted upon after 30 seconds removes another's new lock and two rebuilds hold the lock at once |
| `MemoryLimits.LateQuarantineLosesFile` | src/utils/ailiance-memory.ts:84-152 | A run in which a reader finds a file corrupt, a save replaces and indexes it, and the reader then renames the sound file away: the index stays ahead of the store |
| `MemoryLimits.GivingUpLosesUpdate` | src/utils/ailiance-memory.ts:268 | A timely run in which the rebuild that gives up was needed, and the index stays behind the store with nothing in progress |
| `MemoryFile.ReadFrontmatter` | src/utils/ailiance-memory.ts:100-113 | The line loop reads the fields of all lines in turn, a later line winning, lines without colon, key or value skipped |
| `MemoryFile.ParseMemory` | src/utils/ailiance-memory.ts:92-128 | Parsing cuts at the first closing delimiter and quarantines exactly where a delimiter or a required field is missing |
| `MemoryFile.PrintedLines` | src/utils/ailiance-memory.ts:174-187 | The lines of the frontmatter, literally |
| `MemoryFile.ParsedIsComplete` | src/utils/ailiance-memory.ts:105-128 | Whatever file parses has a name, a description, a type, a scope and a date, none empty |
| `MemoryFile.ClosingFound` | src/utils/ailiance-memory.ts:93 | In a printed file the first closing delimiter is the printed one, whatever the fields and the body are |
| `MemoryFile.ParsePrint` | src/utils/ailiance-memory.ts:158-191 | Parsing what was saved gives back every field and the trimmed body, for every body, exactly if the description is not blank; with a blank one the file is quarantined |
| `MemoryFile.SavedIsReadBack` | src/utils/ailiance-memory.ts:158-191 | Saving throws exactly if the name is not allowed, and else writes a file that parses to what was saved, unless the description is blank |
| `MemoryFile.NamesAreSafe` | src/utils/ailiance-memory.ts:169-172 | An allowed name holds no separator, dot, colon, space or newline, so it stays in its directory and on its line |
| `MemoryFile.PlainNamesAreOk` | src/utils/ailiance-memory.ts:169 | Letters, digits, hyphens and underscores after a letter or digit are allowed |
| `MemoryRanking.Overlap` | src/utils/ailiance-memory.ts:476-490 | A score lies between 0 and 1, is 1 exactly if all prompt tokens occur and 0 exactly if none does |
| `MemoryRanking.ScoreMemoryRelevance` | src/utils/ailiance-memory.ts:476-490 | The counting loop computes the share of distinct prompt tokens that occur, so order and repetition do not matter |
| `MemoryRanking.RankingSorted` | src/utils/ailiance-memory.ts:639-651 | The ranked list is sorted by score plus project bonus, ties in original order |
| `MemoryRanking.SortUnique` | src/utils/ailiance-memory.ts:613-625 | There is only one list sorted by the comparator, so the result does not depend on the sorting algorithm |
| `MemoryRanking.RankingPermutes` | src/utils/ailiance-memory.ts:639-652 | Ranking drops and invents no memory |
| `MemoryRanking.GlobalPrecedesProject` | src/utils/ailiance-memory.ts:631-651 | A global memory precedes a project memory exactly if its score is higher by more than the bonus 0.05 |
| `MemoryOrder.LoadedByRanker` | src/utils/ailiance-memory.ts:601-629 | Of two memories loaded with a ranker: within one scope the higher score on the ranker's own map comes first, a memory not named counting as zero; a global one precedes a project one only if ahead by more than 0.05, a project one only if behind by 0.05 at most; equals keep the order listed |
| `MemoryOrder.LoadedByTokens` | src/utils/ailiance-memory.ts:637-656 | The same without a ranker, said on the number of distinct prompt tokens that occur, 0.05 being a twentieth of their number |
| `MemoryOrder.LoadedAsListed` | src/utils/ailiance-memory.ts:644-656 | Without a ranker and without a hit memories are loaded as listed |
| `MemoryOrder.ScoreIsHits` | src/utils/ailiance-memory.ts:476-490 | The score times the number of distinct prompt tokens is the number of them that occur |
| `MemoryRanking.ClampToBudget` | src/utils/ailiance-memory.ts:665-682 | The result is the longest prefix within 8000 characters at 64 and the text length for each memory, with its size and whether anything was cut, or nothing if not even the first fits |
| `MemoryRanking.LoadRelevantMemories` | src/utils/ailiance-memory.ts:580-657 | What is loaded is the longest prefix within budget of the memories ranked by the ranker, else by token overlap if any memory scores, else in their original order |
| `HookMerging.MessageKinds` | src/shared/combineHookSequences.ts:18-40 | Tools, hooks and outputs are told apart by these types, and no message is of two kinds |
| `HookMerging.AppendedOutputKeepsMetadata` | src/shared/combineHookSequences.ts:46-59 | Output appended to a hook never changes the text its metadata is parsed from, wherever the marker occurs |
| `HookMerging.ReaderFits` | src/shared/combineHookSequences.ts:46-59 | For every metadata parser that rejects the empty text, the PreToolUse test accepts hooks only and is blind to appended output: the two conditions assumed below |
| `HookMerging.DedupeKeepsNewest` | src/shared/combineHookSequences.ts:72-87 | On every list, exactly the messages survive that no later variant of their tool supersedes, and each timestamp keeps one tool at most |
| `HookMerging.DedupeDistinct` | src/shared/combineHookSequences.ts:72-87 | If only tool variants share timestamps, no timestamps are shared after the first pass |
| `HookMerging.MergedIsMap` | src/shared/combineHookSequences.ts:138-166 | If only tool variants share timestamps, merging gives each hook the outputs that follow it and drops the outputs |
| `HookMerging.MergedKeepsMessages` | src/shared/combineHookSequences.ts:97-166 | On every list, the first two passes keep every surviving message but hook outputs in place, each hook becoming the last hook of its timestamp with the outputs that follow that one |
| `HookMerging.MappedKeepsMessages` | src/shared/combineHookSequences.ts:97-166 | Where no hooks share a timestamp only the texts of hooks change, and only by appending |
| `HookOutputs.AppendedText` | src/shared/combineHookSequences.ts:97-129 | What merging appends, in closed form: nothing without outputs before the next hook, else the marker on its own line once and then each non-empty output on its own line, in order |
| `HookOutputs.HookComesOutWithOutputs` | src/shared/combineHookSequences.ts:97-166 | If only tool variants share timestamps, each hook comes out with its text followed by exactly that |
| `HookOutputs.OutputComesOut` | src/shared/combineHookSequences.ts:97-166 | No output is lost: one that follows a hook comes out as a line of that hook's text |
| `HookReordering.PipelinePermutes` | src/shared/combineHookSequences.ts:358-372 | If only tool variants share timestamps, the output is a permutation of the input without hook outputs and superseded variants, hooks merged |
| `HookReordering.PipelineKeepsOrder` | src/shared/combineHookSequences.ts:280-339 | All messages that are not moved keep their relative order |
| `HookReordering.PipelinePlacesHooks` | src/shared/combineHookSequences.ts:219-339 | Every moved PreToolUse hook ends directly before its tool, only hooks moved to the same tool between |
| `HookIdempotence.PipelineIsCarry` | src/shared/combineHookSequences.ts:358-372 | With distinct timestamps the four passes amount to merging and one walk that carries a hook to the next tool |
| `HookIdempotence.PipelineIdempotent` | src/shared/combineHookSequences.ts:358-372 | With distinct timestamps, running the pipeline on its own output changes nothing |
| `HookIdempotence.PipelineMovesSameHooks` | src/shared/combineHookSequences.ts:219-263 | With distinct timestamps, a second run moves the same hooks to the same tools |
| `HookStability.MovedIff` | src/shared/combineHookSequences.ts:183-263 | On every list, a message is moved exactly if it is a PreToolUse hook and, after the last message of its timestamp, an older tool comes before any other such hook; and to that tool |
| `HookStability.IdempotentIff` | src/shared/combineHookSequences.ts:358-372 | If only tool variants share timestamps, a second run changes nothing exactly if, in the deduplicated input, no hook that is not moved has an older tool without hooks as the next that stays to stop it and a message that stays between them |
| `HookStability.AgreeingTargetsIdempotent` | src/shared/combineHookSequences.ts:358-372 | In particular if dropping superseded variants changes no hook's target |
| `HookStability.UnmovedMessageComesOut` | src/shared/combineHookSequences.ts:305-339 | On every list, a message that is not moved comes out exactly if it is a tool or some occurrence of it has no tool of its timestamp before it to which hooks are moved |
| `HookLimits.SharedTimestampLosesMessage` | src/shared/combineHookSequences.ts:313-323 | For every metadata parser that reads the hookName PreToolUse in its JSON: a list on which a message that shares a tool's timestamp is lost |
| `HookLimits.SharedTimestampBreaksIdempotence` | src/shared/combineHookSequences.ts:358-372 | For every such parser: a list in which two variants of a tool share a timestamp and a second run moves one more hook |
| `HookPipeline.DedupeToolOrCommandMessagesByTimestamp` | src/shared/combineHookSequences.ts:72-87 | The loops compute the first pass, for every list |
| `HookPipeline.CombineHookWithOutputs` | src/shared/combineHookSequences.ts:97-129 | The index-driven loop appends exactly the outputs up to the next hook and says where to go on |
| `HookPipeline.CombineAllHooks` | src/shared/combineHookSequences.ts:138-166 | The jumping loop and its map compute the second pass, for every list |
| `HookPipeline.FindImmediateNextToolTimestamp` | src/shared/combineHookSequences.ts:183-202 | The search finds the next tool unless a PreToolUse hook comes before it |
| `HookPipeline.BuildPreToolUseMap` | src/shared/combineHookSequences.ts:219-263 | The map lists under each tool exactly the hooks to be moved to it, in order |
| `HookPipeline.ReorderWithPreToolUseHooks` | src/shared/combineHookSequences.ts:280-339 | The loop with its two sets computes the reordering, for every list |
| `HookPipeline.Combine` | src/shared/combineHookSequences.ts:358-372 | The four passes together compute the pipeline function on which the theorems above are proved |
| `AcpAgent.SessionState.WebSearchMarkerMessage` | cli/src/agent/messageTranslator.ts:402-443 | Updates, remembered call and returned id after a web-search marker, partial or complete, as the translation function on which runs are studied gives them |
| `AcpAgent.SessionState.PlainCommandToolMessage` | cli/src/agent/messageTranslator.ts:774-812 | A command that is not blank continues the current call exactly if that call is a pending execution |
| `AcpAgent.SessionState.ToolMessage` | cli/src/agent/messageTranslator.ts:672-772 | A tool message opens, updates or ends the current call |
| `AcpAgent.SessionState.CommandMessage` | cli/src/agent/messageTranslator.ts:817-856 | A command always opens a new call in progress |
| `AcpAgent.SessionState.CommandOutputMessage` | cli/src/agent/messageTranslator.ts:861-937 | Output updates the current call, completion ends it, without one it is shown as text |
| `AcpAgent.SessionState.BrowserActionMessage` | cli/src/agent/messageTranslator.ts:950-979 | A browser action announces the current call, again if there is one |
| `AcpAgent.SessionState.ToolAskMessage` | cli/src/agent/messageTranslator.ts:527-605 | A tool ask reuses the call of its earlier partial messages, else opens one, and asks for permission once complete |
| `AcpAgent.SessionState.SayMessage` | cli/src/agent/messageTranslator.ts:209-400 | Every say message has the updates and the new session of the translation function; where the program throws nothing has changed |
| `AcpAgent.SessionState.AskMessage` | cli/src/agent/messageTranslator.ts:449-667 | Every ask message has the updates, the new session, the call id and the permission request of the translation function |
| `AcpAgent.SessionState.TranslateMessage` | cli/src/agent/messageTranslator.ts:176-204 | A message of either type likewise, with the call its earlier partial messages opened; each update names a call known or just announced, whatever calls were known |
| `AcpAgent.Agent.StreamText` | cli/src/agent/IsaacAgent.ts:1106-1151 | Sends exactly the new part of a streamed text and remembers the content |
| `AcpAgent.Agent.ProcessMessageWithDelta` | cli/src/agent/IsaacAgent.ts:1085-1192 | The whole new state of session, maps and log after one message; the announced-ids invariant is kept |
| `AcpAgent.Agent.PermissionReply` | cli/src/agent/IsaacAgent.ts:969-1034 | The state after the client's reply to a permission request, a failure to hand it to the task included; the announced-ids invariant is kept |
| `AcpAgent.Agent.PromptCleared` | cli/src/agent/IsaacAgent.ts:759-761 | A new prompt forgets contents and calls of messages and nothing else |
| `AcpSafety.TranslateOk` | cli/src/agent/messageTranslator.ts:176-937 | Any message in any session: each update names a call known or just announced, the session keeps to announced calls, a request concerns the current pending call |
| `AcpSafety.UpdatesFollowAnnouncements` | cli/src/agent/messageTranslator.ts:176-937 | In every run, every tool_call_update and every permission request names an id that an earlier tool_call announced |
| `AcpSafety.CurrentAndPendingAnnounced` | cli/src/agent/messageTranslator.ts:176-937 | In every run, the current call and all pending calls are announced |
| `AcpSafety.RequestConcernsCurrentPending` | cli/src/agent/IsaacAgent.ts:1170-1176 | A permission request concerns the call that is current and pending when it is made |
| `AcpLifecycle.TranslationLawful` | cli/src/agent/messageTranslator.ts:176-979 | Any message in any session: it sends completed or failed for a call exactly if the call was current or is announced by it and none is current afterwards, failed exactly for errors, in progress only for the call that stays current, pending only for asks, and a call is announced with the status of its kind of message |
| `AcpLifecycle.UnparsedTool` | cli/src/agent/messageTranslator.ts:757-812 | A tool message that does not parse goes on with the current call if that is a pending execution and the text is not blank, and is shown as text otherwise |
| `AcpLifecycle.NamesItsCall` | cli/src/agent/messageTranslator.ts:176-204 | Exactly markers and tool asks return a call id, and it is the call they speak of |
| `AcpMessages.AnnouncesIff` | cli/src/agent/messageTranslator.ts:209-667 | Exactly which messages announce a call, and of which kind |
| `AcpMessages.PendingIsKept` | cli/src/agent/messageTranslator.ts:449-812 | Asks add the call they announce as pending and of its kind; otherwise only an unparsed command changes a pending call |
| `AcpMessages.ShowsIff` | cli/src/agent/messageTranslator.ts:209-667 | Exactly which messages show text, and which text |
| `AcpMessages.ThrowsIff` | cli/src/agent/messageTranslator.ts:309-321 | The program throws exactly on a browser result for a current call whose text is no JSON |
| `AcpLifecycle.EndedAtMostOnce` | cli/src/agent/messageTranslator.ts:176-979 | In every run messages end each call once at most, unless a further message of its own tool ask comes when it is no longer current |
| `AcpVoices.ChunksVoiced` | cli/src/agent/IsaacAgent.ts:1127-1145 | In every run a chunk belongs to a message of the run, a thought to reasoning and any other to a message that is no reasoning |
| `AcpVoices.PromptResends` | cli/src/agent/IsaacAgent.ts:759-761 | After a new prompt a streamed message is sent whole again; session, open requests and log are untouched |
| `AcpVoices.SettledTextIsRemembered` | cli/src/agent/IsaacAgent.ts:1180-1183 | A message that is not streamed is remembered by its text once settled |
| `AcpVoices.RequestsAccounted` | cli/src/agent/IsaacAgent.ts:1170-1176 | In every run the requests made are those open and those answered |
| `AcpVoices.ReplyClosesRequest` | cli/src/agent/IsaacAgent.ts:1170-1190 | A reply closes its request, and its tool ask is forgotten unless the task throws in the end |
| `AcpVoices.ReplyTells` | cli/src/agent/IsaacAgent.ts:982-1026 | A reply tells in progress exactly if it allowed, and ends with failed exactly unless it allowed and the task took it |
| `AcpStreams.OtherProcess` | cli/src/agent/IsaacAgent.ts:1085-1192 | Messages of other timestamps never touch what matters to a timestamp: its updates, call, content and open requests |
| `AcpStreams.StreamedToolAsk` | cli/src/agent/messageTranslator.ts:527-605 | Any number of partial tool asks and a complete one, with anything of other timestamps in between: one tool_call, all further updates on its id, one permission request |
| `AcpCommands.StreamedCommandAsk` | cli/src/agent/messageTranslator.ts:496-525 | A command or browser ask streamed the same way announces a new call for every message, all of different ids, and asks for the last only |
| `AcpText.SentTextEndsWithLatestContent` | cli/src/agent/IsaacAgent.ts:1106-1151 | In every run, over any prompts, the text sent for a streamed message ends with its latest non-empty content at every moment exactly if each reasoning field that came without text happens to repeat the content before it; so always if reasoning comes as text |
| `AcpText.GrowingTextSentOnce` | cli/src/agent/IsaacAgent.ts:1106-1151 | Within a prompt, if each content extends the one before, the text sent is the last content, after one newline for completion results, exactly if no reasoning came without text |
| `AcpText.ReasoningFieldBreaksTheText` | cli/src/agent/messageTranslator.ts:246-254 | A run in which reasoning comes without text in its own field and the text sent no longer ends with the content |
| `AcpReplies.AskedCallIsCurrent` | cli/src/agent/IsaacAgent.ts:1170-1176 | A request is made for the call that is current then |
| `AcpReplies.ReplyUpdatesAskedIff` | cli/src/agent/IsaacAgent.ts:982-1034 | A permission reply updates the call it was asked for exactly if that call is current when the reply arrives; else it updates the call current instead, or none |
| `AcpReplies.ReplyUpdatesAskedIffNeverMoved` | cli/src/agent/IsaacAgent.ts:969-1034 | From the request, or the last message that recalled its call, to the reply: the reply updates the call asked about exactly if no event moved the current call in between |
| `AcpReplies.LostCallStaysLost` | cli/src/agent/messageTranslator.ts:176-937 | A call that is not current becomes so only by a further message of the tool ask that opened it |
| `AcpReplies.OtherEventsKeepCurrent` | cli/src/agent/messageTranslator.ts:176-937 | Text, reasoning, questions, hook status, notices, replies and prompts never move the current call |
| `AcpReplies.ReplyUpdatesAnotherCall` | cli/src/agent/IsaacAgent.ts:982-1034 | A run in which a reply about one command updates another, announced meanwhile |
| `TerminalOutput.WholeIffExtending` | cli/src/acp/AcpTerminalManager.ts:203-249 | Throughout a run, with polls answered in any order, retrieved and unretrieved text make up the longest snapshot exactly if each longer snapshot extends the longest before it |
| `TerminalOutput.CollectedIsLongestPrefix` | cli/src/acp/AcpTerminalManager.ts:165-249 | If the snapshots are prefixes of one stream, retrieved and unretrieved text make up the longest of them and a prefix of the stream |
| `TerminalOutput.LongestIsLongest` | cli/src/acp/AcpTerminalManager.ts:220-223 | The snapshot meant is a snapshot seen, and none is longer |
| `TerminalOutput.LinesCarryCollected` | cli/src/acp/AcpTerminalManager.ts:228-234 | The line events carry exactly the collected text without its newlines, whatever the snapshots are |
| `TerminalOutput.StoppedSendsNothing` | cli/src/acp/AcpTerminalManager.ts:180-218 | Once polling has stopped no further poll is sent |
| `TerminalOutput.StopsPolling` | cli/src/acp/AcpTerminalManager.ts:159-218 | Continuing, terminating, a failed answer and one that saw the exit stop it |
| `TerminalOutput.GoesOn` | cli/src/acp/AcpTerminalManager.ts:207-263 | Until then each tick polls, and an exit seen completes the process when the wait is over unless it was continued or terminated |
| `TerminalOutput.ContinuedCompletesByPollOnly` | cli/src/acp/AcpTerminalManager.ts:250-263 | A process that was continued completes by no exit, only by a poll in flight |
| `TerminalOutput.FreshProcess` | cli/src/acp/AcpTerminalManager.ts:203-218 | A process just run has reported nothing, is polled at the next tick, and completes once its exit is seen and the wait over |
| `TerminalOutput.CompletionsInAll` | cli/src/acp/AcpTerminalManager.ts:237-263 | A process reports completion at least once and at most once more for each poll in flight when it completes |
| `TerminalOutput.CompletedOnceIff` | cli/src/acp/AcpTerminalManager.ts:207-263 | Whatever follows, a process reports completion exactly once if and only if no poll is in flight when it completes |
| `TerminalOutput.EveryCountOccurs` | cli/src/acp/AcpTerminalManager.ts:207-242 | In every run that completes, each number of reports within that bound occurs in some continuation |
| `TerminalProcess.AcpTerminalProcess.GetUnretrievedOutput` | cli/src/acp/AcpTerminalManager.ts:165-169 | Hands out what waits, and what was collected stays the same |
| `TerminalProcess.AcpTerminalProcess.PollAnswered` | cli/src/acp/AcpTerminalManager.ts:212-244 | The state after the answer to a poll, whatever happened since it was sent |
| `TerminalProcess.AcpTerminalProcess.EmitLines` | cli/src/acp/AcpTerminalManager.ts:228-234 | Emits the non-empty parts between newlines in order |
| `TerminalIds.InverseIffClean` | cli/src/acp/AcpTerminalManager.ts:478-756 | Throughout a run the maps from numeric to string id and from string id to terminal are inverse exactly if each id the client assigns is tracked for no other terminal and no terminal gives up an id by then tracked for another |
| `TerminalIds.KeptTerminalTakesEntry` | cli/src/acp/AcpTerminalManager.ts:490-504 | A run in which a terminal kept over disposeAll is run again and takes away the entry of another that was given its old id |
| `TerminalIds.IdMapsAreInverse` | cli/src/acp/AcpTerminalManager.ts:478-639 | In every clean run a terminal is found under its string id exactly when that is the id its numeric id leads to: no entry is left over |
| `TerminalIds.ReusedIdBreaksInverse` | cli/src/acp/AcpTerminalManager.ts:494-504 | In particular the maps are no longer inverse once a command gets an id that another tracked terminal bears |
| `TerminalIds.GotIsIdle` | cli/src/acp/AcpTerminalManager.ts:521-581 | In every run whatever, the terminal handed out is tracked, idle and in the directory asked for; one of that directory is taken as it is if there is one, and a new one is made only if reuse is off or all are busy |
| `TerminalIds.Manager.GetOrCreateTerminal` | cli/src/acp/AcpTerminalManager.ts:521-581 | First idle terminal of the directory, else with reuse any idle one moved there, else a new one under a new number |
| `TerminalIds.Manager.SetTerminalBusy` | cli/src/acp/AcpTerminalManager.ts:440-463 | Exactly the flag of this terminal changes |
| `TerminalIds.Manager.CommandStarted` | cli/src/acp/AcpTerminalManager.ts:490-504 | The terminal leaves its old id and is tracked under the new one in both maps |
| `TerminalIds.Manager.TerminalCreated` | cli/src/acp/AcpTerminalManager.ts:735-756 | A terminal created directly gets the next number and is tracked in both maps |
| `TerminalIds.Manager.DisposeAll` | cli/src/acp/AcpTerminalManager.ts:626-639 | Nothing is tracked any more and numbers go on |
| `Cost.ChosenTier` | src/utils/cost.ts:27-48 | The tier applied is the smallest the total fits, or the largest if it fits none |
| `Cost.TierOrderIrrelevant` | src/utils/cost.ts:28-48 | Listing the tiers in another order changes no price, if no two share a context window |
| `Cost.FlatBill` | src/utils/cost.ts:15-66 | Without tiers each kind of token is billed at the model's own price for it, a price left out counting as nothing, output at the thinking price where that applies |
| `Cost.TierBill` | src/utils/cost.ts:27-66 | With tiers each kind of token is billed at the tier's price for it |
| `Cost.TierFallsBack` | src/utils/cost.ts:32-47 | A price that the tier leaves out is the model's |
| `Cost.OpenAIIsAnthropic` | src/utils/cost.ts:68-119 | OpenAI-style cost of n+w+r input tokens is Anthropic-style cost of n with w cache writes and r cache reads |
| `Cost.AnthropicNeverFalls` | src/utils/cost.ts:68-92 | If effective prices do not fall along the sorted tiers, cost never falls as input grows, across tier boundaries too |
| `Cost.OpenAINeverFalls` | src/utils/cost.ts:95-119 | The same where the input includes the cached tokens |
| `CostLimits.UncachedNeverFallsIff` | src/utils/cost.ts:27-66 | Without cached tokens, cost falls nowhere exactly if the effective output price falls nowhere and the price of the whole input falls nowhere |
| `CostLimits.AnthropicNeverFallsIff` | src/utils/cost.ts:68-92 | With cached tokens, exactly if moreover no fall of a cache price, applied to the whole smaller input, exceeds what the added input costs |
| `CostLimits.OpenAINeverFallsIff` | src/utils/cost.ts:95-119 | Where the input includes the cached tokens, exactly if moreover no cache price falls at all |
| `CostTiers.UncachedAtCheckpoints` | src/utils/cost.ts:27-66 | Without cached tokens that can be told from the tier table: exactly if one token more makes the cost fall neither at a context window nor just after one nor at zero |
| `CostTiers.AnthropicAtCheckpoints` | src/utils/cost.ts:68-92 | The same with cached tokens, with the condition on all four prices at these sizes |
| `CostTiers.OpenAIAtCheckpoints` | src/utils/cost.ts:95-119 | The same where the input includes the cached tokens |

## Left out

- AnchorWords.GetUniqueWord: returns always unless `undefined` is in use; then the program may refill for ever, and the model stops watching after `patience` vain refills.
- AnchorManager.Manager.Reconcile: says nothing where the search for a word did not return; which dictionary words and combinations are drawn is left open, as shuffling is; the anchors are copied where the program hands out the stored array itself.
- EditScripts.DiffArrays: one real diff, not the library's; its scripts are valid but not minimal.
- LineHashing.HashedLinesRoundTrip: anchors with a delimiter or a newline are excluded; for these splitting cannot give them back. That the shipped dictionary file holds no such word is not part of this model.
- MemoryConsistency.QuiescentIndexIsStore: listing the store is one read per path; input and output errors, leftover temporary files and crashes are not modelled.
- MemoryConsistency.AcquireEnds: counts steps of the operation itself; that the scheduler and the file system answer is assumed.
- MemoryFile.ParsePrint: name as the program demands, other fields on one line, trimmed and not empty; scope and type are any such text.
- MemoryRanking.LoadRelevantMemories: the tokenizer, the semantic ranker and the listing by creation date are inputs; scores are exact reals.
- HookStability.IdempotentIff: lists in which messages other than tool variants share timestamps are covered by `HookStability.UnmovedMessageComesOut` only.
- AcpAgent.Agent.ProcessMessageWithDelta: one message is handled at a time; two handlers interleaved while an update is being sent would read the same last content. A permission request does not block other messages.
- AcpAgent.Agent.PermissionReply: a session, task and permission handler exist, and sending an update does not fail; messages handled between the two updates of one reply, and several sessions, which would share the two maps keyed by timestamp, are not modelled.
- Titles, raw input and output, contents, locations and terminal metadata of tool calls; ending of prompts; plan updates; `cancel`.
- JSON and regular expressions for messages: parsed tool kinds, hook metadata, markers and questions are given functions of the text. Generated ids are unique.
- TerminalOutput.CollectedIsLongestPrefix: hot flags, error events and timers' lengths are left out; the exit timeout may fire at any time after the exit was seen.
- TerminalIds.IdMapsAreInverse: released flags, handles, last commands and busy flags of directly created terminals are left out.
- Cost: rounding of floating point, and `calculateApiCostQwen`, whose body is that of the OpenAI form.
- `combineApiRequests`, `combineCommandSequences`, `combineErrorRetryMessages`, retry helpers, the tree-sitter bridge, telemetry and settings would only add easier members.
