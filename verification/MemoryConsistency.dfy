/** The index converges to the store: in every run that breaks no live lock, quarantines no sound file and
    gives up no rebuild that is needed, once nothing is in progress they agree. */
module MemoryConsistency {
  import opened Sequences
  import opened MemoryProtocol

  // ----- Mutual exclusion

  predicate Holding(phase: Phase) {
    phase.Listing? || phase.Releasing?
  }

  predicate AttemptOk(phase: Phase) {
    match phase
    case Trying(k) => k <= LOCK_RETRY_MAX
    case Contended(k) => k < LOCK_RETRY_MAX
    case Statted(k, _) => k < LOCK_RETRY_MAX
    case Sleeping(k) => k < LOCK_RETRY_MAX
    case Breaking(k) => k < LOCK_RETRY_MAX
    case _ => true
  }

  /** The lock exists exactly while its creator rebuilds, and nobody else does. */
  ghost predicate LockInv(s: State) {
    && (s.lock.Some? ==> s.lock.value.creator in s.ops && Holding(s.ops[s.lock.value.creator].phase))
    && (forall id :: id in s.ops && Holding(s.ops[id].phase) ==> s.lock.Some? && s.lock.value.creator == id)
  }

  /** What the removal of a stale lock must not do. */
  predicate BreaksNothing(s: State, a: Action) {
    a.RemoveStale? ==> s.lock.None?
  }

  lemma LockRephased(s: State, id: OpId, phase: Phase)
    requires LockInv(s) && id in s.ops && Holding(phase) == Holding(s.ops[id].phase)
    ensures LockInv(SetPhase(s, id, phase))
  {
  }

  lemma LockFinished(s: State, id: OpId)
    requires LockInv(s) && id in s.ops
    ensures Holding(s.ops[id].phase) ==> LockInv(Finish(s, id).(lock := None))
    ensures !Holding(s.ops[id].phase) ==> LockInv(Finish(s, id))
  {
  }

  lemma LockStep(s: State, id: OpId, a: Action)
    requires LockInv(s) && BreaksNothing(s, a) && Enabled(s, id, a)
    ensures LockInv(Next(s, id, a))
  {
    if a.MakeDirectory? {
      if s.lock.Some? { LockRephased(s, id, Contended(s.ops[id].phase.attempt)); }
    } else if a.Release? || a.GiveUp? {
      LockFinished(s, id);
    } else if !Outside(a) && !a.Start? && !a.TouchOwner? {
      LockRephased(s, id, Next(s, id, a).ops[id].phase);
    }
  }

  // ----- The promise chains

  /** The operations of process `pid` that are past their file changes, in queueing order. */
  ghost predicate ChainOk(s: State, pid: Pid) {
    var chain := Chain(s, pid);
    && (forall i :: 0 <= i < |chain| ==> chain[i] in s.ops && s.ops[chain[i]].pid == pid && !s.ops[chain[i]].phase.Mutating?)
    && (forall i :: 0 < i < |chain| ==> s.ops[chain[i]].phase == Chained)
    && (forall i, j :: 0 <= i < j < |chain| ==> chain[i] != chain[j])
  }

  ghost predicate ChainInv(s: State) {
    && (forall pid :: ChainOk(s, pid))
    && (forall id :: id in s.ops && !s.ops[id].phase.Mutating? ==> id in Chain(s, s.ops[id].pid))
  }

  /** The chain of process `pid` changes only as its operations are queued and finished. */
  lemma ChainAfter(s: State, id: OpId, a: Action, pid: Pid)
    requires Enabled(s, id, a)
    ensures a.Enqueue? && s.ops[id].pid == pid ==> Chain(Next(s, id, a), pid) == Chain(s, pid) + [id]
    ensures (a.Release? || a.GiveUp?) && s.ops[id].pid == pid && Chain(s, pid) != [] ==>
      Chain(Next(s, id, a), pid) == Chain(s, pid)[1..]
    ensures !a.Enqueue? && !a.Release? && !a.GiveUp? ==> Chain(Next(s, id, a), pid) == Chain(s, pid)
    ensures (a.Enqueue? || a.Release? || a.GiveUp?) && s.ops[id].pid != pid ==> Chain(Next(s, id, a), pid) == Chain(s, pid)
  {
  }

  /** An operation that is neither changing files nor waiting stands at the head of its chain. */
  lemma RunningIsHead(s: State, id: OpId)
    requires ChainInv(s) && id in s.ops && !s.ops[id].phase.Mutating? && !s.ops[id].phase.Chained?
    ensures AtHead(s, id)
  {
    assert ChainOk(s, s.ops[id].pid);
  }

  lemma ChainGrows(s: State, id: OpId, pid: Pid)
    requires ChainInv(s) && Enabled(s, id, Enqueue) && s.ops[id].pid == pid
    ensures ChainOk(Next(s, id, Enqueue), pid)
  {
    assert ChainOk(s, pid);
  }

  lemma ChainShrinks(s: State, id: OpId, a: Action, pid: Pid)
    requires ChainInv(s) && Enabled(s, id, a) && (a.Release? || a.GiveUp?) && s.ops[id].pid == pid
    ensures ChainOk(Next(s, id, a), pid)
  {
    assert ChainOk(s, pid);
    RunningIsHead(s, id);
    var s', chain := Next(s, id, a), Chain(s, pid);
    assert Chain(s', pid) == chain[1..];
    assert forall i :: 0 < i < |chain| ==> chain[i] != chain[0];
    assert forall i :: 0 <= i < |chain| - 1 ==> chain[1..][i] == chain[i + 1];
  }

  /** A step that leaves the chain alone turns no queued operation into a running one but its head. */
  lemma ChainStays(s: State, id: OpId, a: Action, pid: Pid)
    requires ChainInv(s) && Enabled(s, id, a)
    requires Chain(Next(s, id, a), pid) == Chain(s, pid)
    requires (a.Enqueue? || a.Release? || a.GiveUp?) ==> s.ops[id].pid != pid
    ensures ChainOk(Next(s, id, a), pid)
  {
    assert ChainOk(s, pid);
    var s', chain := Next(s, id, a), Chain(s, pid);
    if id in s.ops && !s.ops[id].phase.Mutating? && !s.ops[id].phase.Chained? { RunningIsHead(s, id); }
    forall i | 0 <= i < |chain|
      ensures chain[i] in s'.ops && s'.ops[chain[i]].pid == pid && !s'.ops[chain[i]].phase.Mutating?
      ensures i > 0 ==> s'.ops[chain[i]].phase == Chained
    {
      assert chain[i] != id ==> chain[i] in s'.ops && s'.ops[chain[i]] == s.ops[chain[i]];
    }
  }

  lemma ChainOkStep(s: State, id: OpId, a: Action, pid: Pid)
    requires ChainInv(s) && Enabled(s, id, a)
    ensures ChainOk(Next(s, id, a), pid)
  {
    ChainAfter(s, id, a, pid);
    if a.Enqueue? && s.ops[id].pid == pid {
      ChainGrows(s, id, pid);
    } else if (a.Release? || a.GiveUp?) && s.ops[id].pid == pid {
      ChainShrinks(s, id, a, pid);
    } else {
      ChainStays(s, id, a, pid);
    }
  }

  lemma ChainMemberStep(s: State, id: OpId, a: Action, o: OpId)
    requires ChainInv(s) && Enabled(s, id, a)
    requires o in Next(s, id, a).ops && !Next(s, id, a).ops[o].phase.Mutating?
    ensures o in Chain(Next(s, id, a), Next(s, id, a).ops[o].pid)
  {
    var s' := Next(s, id, a);
    var pid := s'.ops[o].pid;
    ChainAfter(s, id, a, pid);
    if !(a.Enqueue? && o == id) {
      var chain := Chain(s, pid);
      assert o in s.ops && o in chain;
      if (a.Release? || a.GiveUp?) && s.ops[id].pid == pid {
        RunningIsHead(s, id);
        assert chain == [id] + chain[1..];
      }
    }
  }

  lemma ChainStep(s: State, id: OpId, a: Action)
    requires ChainInv(s) && Enabled(s, id, a)
    ensures ChainInv(Next(s, id, a))
  {
    var s' := Next(s, id, a);
    forall pid ensures ChainOk(s', pid) { ChainOkStep(s, id, a, pid); }
    forall o | o in s'.ops && !s'.ops[o].phase.Mutating? ensures o in Chain(s', s'.ops[o].pid) {
      ChainMemberStep(s, id, a, o);
    }
  }

  // ----- Index, store and snapshots

  /** An operation in this phase still has to list `n` for the index. */
  predicate WillList(phase: Phase, n: Path) {
    match phase
    case Listing(seen, _) => n !in seen
    case Releasing => false
    case _ => true
  }

  ghost predicate Due(s: State, n: Path) {
    exists id :: id in s.ops && WillList(s.ops[id].phase, n)
  }

  /** Operation `id` has listed `n` and not yet written the index. */
  predicate Listed(s: State, id: OpId, n: Path) {
    id in s.ops && s.ops[id].phase.Listing? && n in s.ops[id].phase.seen
  }

  predicate ListedRight(s: State, id: OpId, n: Path) {
    Listed(s, id, n) && Lookup(s.ops[id].phase.snapshot, n) == Lookup(s.store, n)
  }

  /** Wherever the index or a snapshot differs from the store, a rebuild still has to list that path. */
  ghost predicate SyncAt(s: State, n: Path) {
    && (Lookup(s.index, n) == Lookup(s.store, n) || Due(s, n) || exists id :: ListedRight(s, id, n))
    && (forall id :: Listed(s, id, n) ==> ListedRight(s, id, n) || Due(s, n))
  }

  /** Nothing is stored, listed or planned at a path that is no memory's. */
  ghost predicate Bounded(s: State) {
    && s.store.Keys <= s.paths && s.index.Keys <= s.paths
    && (forall id :: id in s.ops ==> PhaseBounded(s.ops[id].phase, s.paths))
  }

  predicate PhaseBounded(phase: Phase, paths: set<Path>) {
    match phase
    case Listing(_, snapshot) => snapshot.Keys <= paths
    case Mutating(todo) => todo.Keys <= paths
    case _ => true
  }

  lemma PhaseStep(s: State, id: OpId, a: Action, o: OpId)
    requires Bounded(s) && Enabled(s, id, a) && o in Next(s, id, a).ops
    ensures PhaseBounded(Next(s, id, a).ops[o].phase, s.paths)
  {
    assert o in s.ops ==> PhaseBounded(s.ops[o].phase, s.paths);
  }

  lemma FilesStep(s: State, id: OpId, a: Action)
    requires Bounded(s) && Enabled(s, id, a)
    ensures Next(s, id, a).store.Keys <= s.paths && Next(s, id, a).index.Keys <= s.paths && Next(s, id, a).paths == s.paths
  {
    assert id in s.ops ==> PhaseBounded(s.ops[id].phase, s.paths);
  }

  ghost predicate SyncInv(s: State) {
    Bounded(s) && forall n :: n in s.paths ==> SyncAt(s, n)
  }

  /** Another operation still has to list `n`. */
  ghost predicate DueBesides(s: State, id: OpId, n: Path) {
    exists o :: o != id && o in s.ops && WillList(s.ops[o].phase, n)
  }

  /** Nothing is left to do about `n`: index or holder is right, and so is every snapshot. */
  ghost predicate InStep(s: State, n: Path) {
    && (Lookup(s.index, n) == Lookup(s.store, n) || exists id :: ListedRight(s, id, n))
    && (forall id :: Listed(s, id, n) ==> ListedRight(s, id, n))
  }

  /** A rebuild that gives up keeps a path in step exactly if another is still to list it or nothing is left to do. */
  lemma GiveUpKeepsStep(s: State, id: OpId, n: Path)
    requires Enabled(s, id, GiveUp)
    ensures SyncAt(Next(s, id, GiveUp), n) <==> DueBesides(s, id, n) || InStep(s, n)
  {
    var s' := Next(s, id, GiveUp);
    assert forall o :: Listed(s', o, n) <==> Listed(s, o, n);
    assert forall o :: ListedRight(s', o, n) <==> ListedRight(s, o, n);
    if o :| o != id && o in s.ops && WillList(s.ops[o].phase, n) { DueIn(s', o, n); }
    if o :| o in s'.ops && WillList(s'.ops[o].phase, n) { assert o != id && o in s.ops && s.ops[o] == s'.ops[o]; }
  }

  /** What a rebuild that gives up must not leave behind. */
  ghost predicate LeavesNothing(s: State, id: OpId, a: Action) {
    a.GiveUp? ==> forall n :: n in s.paths ==> DueBesides(s, id, n) || InStep(s, n)
  }

  lemma DueIn(s: State, id: OpId, n: Path)
    requires id in s.ops && WillList(s.ops[id].phase, n)
    ensures Due(s, n)
  {
  }

  /** Once due, a path stays due until it is listed. */
  lemma DueKept(s: State, id: OpId, a: Action, n: Path)
    requires Enabled(s, id, a) && Due(s, n) && !a.GiveUp?
    requires a != ReadFile(n) && n in s.paths
    ensures Due(Next(s, id, a), n)
  {
    var w :| w in s.ops && WillList(s.ops[w].phase, n);
    DueIn(Next(s, id, a), w, n);
  }

  /** What the quarantine of a file must not do: take away a sound one that no rebuild will list. */
  ghost predicate LosesNothing(s: State, a: Action) {
    a.Quarantine? ==> a.path !in s.store || Due(s, a.path)
  }

  lemma SyncAtStep(s: State, id: OpId, a: Action, n: Path)
    requires LockInv(s) && BreaksNothing(s, a) && LosesNothing(s, a) && LeavesNothing(s, id, a) && Enabled(s, id, a)
    requires n in s.paths && SyncAt(s, n) && SyncInv(s)
    ensures SyncAt(Next(s, id, a), n)
  {
    var s' := Next(s, id, a);
    LockStep(s, id, a);
    if a.GiveUp? {
      GiveUpKeepsStep(s, id, n);
    } else if a == ReadFile(n) {
      assert ListedRight(s', id, n);
      forall o | Listed(s', o, n) ensures ListedRight(s', o, n) { assert Holding(s'.ops[o].phase); }
    } else if a == Mutate(n) {
      DueIn(s', id, n);
    } else {
      if Due(s, n) {
        DueKept(s, id, a, n);
      } else {
        forall o | Listed(s', o, n) ensures ListedRight(s', o, n) {
          assert Listed(s, o, n);
        }
        if exists o :: ListedRight(s, o, n) {
          var o :| ListedRight(s, o, n);
          assert (a.WriteIndex? && id == o) || ListedRight(s', o, n);
        } else {
          assert a.WriteIndex? ==> Listed(s, id, n);
        }
      }
    }
  }

  lemma BoundsStep(s: State, id: OpId, a: Action)
    requires Bounded(s) && Enabled(s, id, a)
    ensures Bounded(Next(s, id, a)) && Next(s, id, a).paths == s.paths
  {
    FilesStep(s, id, a);
    forall o | o in Next(s, id, a).ops ensures PhaseBounded(Next(s, id, a).ops[o].phase, s.paths) { PhaseStep(s, id, a, o); }
  }

  lemma SyncStep(s: State, id: OpId, a: Action)
    requires LockInv(s) && BreaksNothing(s, a) && LosesNothing(s, a) && LeavesNothing(s, id, a) && SyncInv(s) && Enabled(s, id, a)
    ensures SyncInv(Next(s, id, a))
  {
    var s' := Next(s, id, a);
    BoundsStep(s, id, a);
    forall n | n in s'.paths ensures SyncAt(s', n) {
      assert SyncAt(s, n);
      SyncAtStep(s, id, a, n);
    }
  }

  // ----- Runs

  /** No removal of a stale lock in the run removed a lock. */
  ghost predicate BreaksNoLock(run: Run) {
    run.Then? ==> BreaksNothing(Now(run.before), run.action) && BreaksNoLock(run.before)
  }

  /** No quarantine in the run took away a sound file that no rebuild was to list. */
  ghost predicate LosesNoFile(run: Run) {
    run.Then? ==> LosesNothing(Now(run.before), run.action) && LosesNoFile(run.before)
  }

  /** Whenever a rebuild of the run gave up, nothing was left to do or another rebuild was to do it. */
  ghost predicate HarmlessGiveUps(run: Run) {
    run.Then? ==> LeavesNothing(Now(run.before), run.id, run.action) && HarmlessGiveUps(run.before)
  }

  ghost predicate SafeRun(run: Run) {
    IsRun(run) && BreaksNoLock(run) && LosesNoFile(run) && HarmlessGiveUps(run)
  }

  /** In particular if no rebuild gave up. */
  lemma {:induction false} NoGiveUpIsHarmless(run: Run)
    requires IsRun(run) && !Now(run).gaveUp
    ensures HarmlessGiveUps(run)
  {
    if run.Then? {
      GivenUpStays(Now(run.before), run.id, run.action);
      NoGiveUpIsHarmless(run.before);
    }
  }

  lemma GivenUpStays(s: State, id: OpId, a: Action)
    requires Enabled(s, id, a)
    ensures Next(s, id, a).gaveUp <==> s.gaveUp || a.GiveUp?
  {
  }

  ghost predicate AttemptInv(s: State) {
    forall id :: id in s.ops ==> AttemptOk(s.ops[id].phase)
  }

  lemma AttemptStep(s: State, id: OpId, a: Action)
    requires AttemptInv(s) && Enabled(s, id, a)
    ensures AttemptInv(Next(s, id, a))
  {
  }

  /** Attempts stay in bounds and chains in order, in every run whatever. */
  lemma {:induction false} AnyRunInv(run: Run)
    requires IsRun(run)
    ensures ChainInv(Now(run)) && AttemptInv(Now(run))
  {
    if run.Then? {
      AnyRunInv(run.before);
      ChainStep(Now(run.before), run.id, run.action);
      AttemptStep(Now(run.before), run.id, run.action);
    }
  }

  lemma {:induction false} LockRunInv(run: Run)
    requires IsRun(run) && BreaksNoLock(run)
    ensures LockInv(Now(run))
  {
    if run.Then? {
      LockRunInv(run.before);
      LockStep(Now(run.before), run.id, run.action);
    }
  }

  lemma InitialSync(s: State)
    requires Initial(s)
    ensures SyncInv(s)
  {
    forall n | n in s.paths ensures SyncAt(s, n) { }
  }

  lemma {:induction false} SyncRunInv(run: Run)
    requires SafeRun(run)
    ensures SyncInv(Now(run))
  {
    match run
    case Begin(s) => InitialSync(s);
    case Then(before, id, a) =>
      SyncRunInv(before);
      LockRunInv(before);
      SyncStep(Now(before), id, a);
  }

  lemma NothingBreaking(s: State, id: OpId, a: Action)
    requires Enabled(s, id, a) && Timely(s)
    requires forall o :: o in s.ops ==> !s.ops[o].phase.Breaking?
    ensures forall o :: o in Next(s, id, a).ops ==> !Next(s, id, a).ops[o].phase.Breaking?
  {
  }

  /** A timely run never removes a lock as stale. */
  lemma {:induction false} TimelyBreaksNoLock(run: Run)
    requires TimelyRun(run)
    ensures BreaksNoLock(run) && forall id :: id in Now(run).ops ==> !Now(run).ops[id].phase.Breaking?
  {
    if run.Then? {
      TimelyBreaksNoLock(run.before);
      NothingBreaking(Now(run.before), run.id, run.action);
    }
  }

  /** At every point of a safe run, a path on which index and store differ is still to be listed. */
  lemma DifferenceIsDue(run: Run, n: Path)
    requires SafeRun(run)
    requires Lookup(Now(run).index, n) != Lookup(Now(run).store, n)
    ensures Due(Now(run), n) || exists id :: ListedRight(Now(run), id, n)
  {
    SyncRunInv(run);
    assert SyncAt(Now(run), n);
  }

  /** Once no operation is in progress the index lists exactly the stored memories. */
  lemma QuiescentIndexIsStore(run: Run)
    requires SafeRun(run) && Now(run).ops == map[]
    ensures Now(run).index == Now(run).store
  {
    SyncRunInv(run);
    var s := Now(run);
    forall n ensures Lookup(s.index, n) == Lookup(s.store, n) { assert n in s.paths ==> SyncAt(s, n); }
    forall n ensures n in s.index <==> n in s.store { assert Lookup(s.index, n) == Lookup(s.store, n); }
    forall n | n in s.index ensures s.index[n] == s.store[n] { assert Lookup(s.index, n) == Lookup(s.store, n); }
  }

  /** A quarantine keeps a path in step exactly if there is no sound file at it, or a rebuild still to list it. */
  lemma QuarantineKeepsStep(run: Run, id: OpId, n: Path)
    requires SafeRun(run) && n in Now(run).paths && Enabled(Now(run), id, Quarantine(n))
    ensures SyncAt(Next(Now(run), id, Quarantine(n)), n) <==> n !in Now(run).store || Due(Now(run), n)
  {
    var s := Now(run);
    var s' := Next(s, id, Quarantine(n));
    SyncRunInv(run);
    LockRunInv(run);
    if n !in s.store || Due(s, n) {
      SyncAtStep(s, id, Quarantine(n), n);
    } else {
      assert SyncAt(s, n) && s'.ops == s.ops && !Due(s', n);
      if o :| ListedRight(s, o, n) {
        assert Listed(s', o, n) && !ListedRight(s', o, n);
      } else {
        assert forall o :: Listed(s', o, n) <==> Listed(s, o, n);
      }
    }
  }

  /** With nothing in progress, a quarantine leaves index and store equal exactly if it finds no sound file. */
  lemma QuarantineAtRest(run: Run, id: OpId, n: Path)
    requires SafeRun(run) && Now(run).ops == map[] && Enabled(Now(run), id, Quarantine(n))
    ensures Next(Now(run), id, Quarantine(n)).index == Next(Now(run), id, Quarantine(n)).store <==> n !in Now(run).store
  {
    var s := Now(run);
    var s' := Next(s, id, Quarantine(n));
    QuiescentIndexIsStore(run);
    if n in s.store {
      assert n in s'.index && n !in s'.store;
    } else {
      assert s'.store == s.store;
    }
  }

  /** At most one rebuild in all processes is between acquire and release. */
  lemma AtMostOneRebuild(run: Run, x: OpId, y: OpId)
    requires IsRun(run) && BreaksNoLock(run) && x in Now(run).ops && y in Now(run).ops
    requires Holding(Now(run).ops[x].phase) && Holding(Now(run).ops[y].phase)
    ensures x == y
  {
    LockRunInv(run);
  }

  ghost predicate TwoHold(s: State) {
    exists x, y :: x != y && x in s.ops && y in s.ops && Holding(s.ops[x].phase) && Holding(s.ops[y].phase)
  }

  /** The first removal of a lock as stale: whoever removes it and tries again holds the lock together
      with another exactly if there was a lock to remove. */
  lemma BreakingALiveLock(run: Run, id: OpId)
    requires IsRun(run) && BreaksNoLock(run) && Enabled(Now(run), id, RemoveStale)
    requires Now(run).ops[id].phase.attempt + 1 < LOCK_RETRY_MAX
    ensures var s' := Next(Now(run), id, RemoveStale);
      Enabled(s', id, MakeDirectory) && (TwoHold(Next(s', id, MakeDirectory)) <==> Now(run).lock.Some?)
  {
    LockRunInv(run);
    var s := Now(run);
    var s'' := Next(Next(s, id, RemoveStale), id, MakeDirectory);
    assert Holding(s''.ops[id].phase);
    if s.lock.Some? {
      var other := s.lock.value.creator;
      assert other != id && s''.ops[other] == s.ops[other];
    }
  }

  lemma LockRemoval(s: State, id: OpId, a: Action)
    requires LockInv(s) && BreaksNothing(s, a) && Enabled(s, id, a) && s.lock.Some?
    ensures Next(s, id, a).lock.None? || Next(s, id, a).lock.value.creator != s.lock.value.creator ==>
      id == s.lock.value.creator && a == Release
  {
  }

  /** A lock is removed by its creator only, at its release. */
  lemma OnlyCreatorRemovesLock(run: Run)
    requires IsRun(run) && BreaksNoLock(run) && run.Then? && Now(run.before).lock.Some?
    requires Now(run).lock.None? || Now(run).lock.value.creator != Now(run.before).lock.value.creator
    ensures run.id == Now(run.before).lock.value.creator && run.action == Release
  {
    LockRunInv(run.before);
    LockRemoval(Now(run.before), run.id, run.action);
  }

  /** In any run, the rebuilds of one process run one at a time. */
  lemma OneRebuildPerProcess(run: Run, x: OpId, y: OpId)
    requires IsRun(run)
    requires x in Now(run).ops && y in Now(run).ops && Now(run).ops[x].pid == Now(run).ops[y].pid
    requires !Now(run).ops[x].phase.Mutating? && !Now(run).ops[x].phase.Chained?
    requires !Now(run).ops[y].phase.Mutating? && !Now(run).ops[y].phase.Chained?
    ensures x == y
  {
    AnyRunInv(run);
    assert ChainOk(Now(run), Now(run).ops[x].pid);
  }

  // ----- Acquiring the lock ends

  /** How many more steps of its own an operation can take before it holds the lock or gives up. */
  function AcquireSteps(phase: Phase): nat {
    match phase
    case Trying(k) => if k < LOCK_RETRY_MAX then 4 * (LOCK_RETRY_MAX - k) + 1 else 1
    case Contended(k) => if k < LOCK_RETRY_MAX then 4 * (LOCK_RETRY_MAX - k) else 0
    case Statted(k, _) => if k < LOCK_RETRY_MAX then 4 * (LOCK_RETRY_MAX - k) - 1 else 0
    case Sleeping(k) => if k < LOCK_RETRY_MAX then 4 * (LOCK_RETRY_MAX - k) - 2 else 0
    case Breaking(k) => if k < LOCK_RETRY_MAX then 4 * (LOCK_RETRY_MAX - k) - 2 else 0
    case _ => 0
  }

  predicate Acquiring(phase: Phase) {
    phase.Trying? || phase.Contended? || phase.Statted? || phase.Sleeping? || phase.Breaking?
  }

  /** The step an acquiring operation takes next. */
  function AcquireAction(phase: Phase): Action {
    match phase
    case Trying(k) => if k < LOCK_RETRY_MAX then MakeDirectory else GiveUp
    case Contended(_) => Stat
    case Statted(_, _) => CheckAge
    case Breaking(_) => RemoveStale
    case _ => Wake
  }

  lemma OwnAcquireStep(s: State, id: OpId, a: Action)
    requires Enabled(s, id, a) && id in s.ops && Acquiring(s.ops[id].phase) && AttemptOk(s.ops[id].phase) && !Outside(a)
    ensures a == AcquireAction(s.ops[id].phase)
    ensures id in Next(s, id, a).ops ==> AcquireSteps(Next(s, id, a).ops[id].phase) < AcquireSteps(s.ops[id].phase)
  {
  }

  lemma OtherAcquireStep(s: State, id: OpId, a: Action, o: OpId)
    requires Enabled(s, o, a) && id in s.ops && (id != o || Outside(a))
    ensures id in Next(s, o, a).ops && Next(s, o, a).ops[id].phase == s.ops[id].phase
  {
  }

  /** In any run, each of an acquiring operation's own steps is enabled and brings it closer; no other step sets
      it back: after at most 201 steps of its own, in 50 attempts, it holds the lock or has thrown. */
  lemma AcquireEnds(run: Run, id: OpId)
    requires IsRun(run) && run.Then?
    requires id in Now(run.before).ops && Acquiring(Now(run.before).ops[id].phase)
    ensures 1 <= AcquireSteps(Now(run.before).ops[id].phase) <= 4 * LOCK_RETRY_MAX + 1
    ensures Enabled(Now(run.before), id, AcquireAction(Now(run.before).ops[id].phase))
    ensures run.id == id && !Outside(run.action) && id in Now(run).ops ==>
      AcquireSteps(Now(run).ops[id].phase) < AcquireSteps(Now(run.before).ops[id].phase)
    ensures run.id != id || Outside(run.action) ==>
      id in Now(run).ops && Now(run).ops[id].phase == Now(run.before).ops[id].phase
  {
    AnyRunInv(run.before);
    if run.id == id && !Outside(run.action) {
      OwnAcquireStep(Now(run.before), id, run.action);
    } else {
      OtherAcquireStep(Now(run.before), id, run.action, run.id);
    }
  }
}
