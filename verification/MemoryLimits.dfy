/** Runs that break a live lock, quarantine a sound file or give up a rebuild, and what becomes of the index. */
module MemoryLimits {
  import opened Sequences
  import opened MemoryProtocol
  import opened MemoryConsistency

  /** The state before anything has happened, with one path `p` to save. */
  function Fresh(p: Path): State {
    State({p}, map[], {}, multiset{}, map[], None, 0, map[], map[], false)
  }

  /** `s` after operation `id` of process `id` has saved `p` and is about to try the lock. */
  function Saved(s: State, id: nat, p: Path, entry: Entry): State {
    s.(store := s.store[p := entry], corrupt := s.corrupt - {p}, ops := s.ops[id := Op(id, Trying(0))], chains := s.chains[id := [id]])
  }

  /** What is asked of every state of a run: nothing, that holders are in time, that all are in time. */
  datatype Mode = Any | Holders | Everyone

  ghost predicate Ok(mode: Mode, s: State) {
    match mode
    case Any => true
    case Holders => HolderTimely(s)
    case Everyone => Timely(s)
  }

  ghost predicate AlwaysOk(mode: Mode, run: Run) {
    Ok(mode, Now(run)) && (run.Then? ==> AlwaysOk(mode, run.before))
  }

  lemma {:induction false} AlwaysTimely(run: Run)
    requires IsRun(run)
    ensures AlwaysOk(Everyone, run) <==> TimelyRun(run)
  {
    if run.Then? { AlwaysTimely(run.before); }
  }

  /** States that such runs can end in. */
  type Reachable = State -> bool

  ghost function Runs(mode: Mode): Reachable {
    s => exists run :: IsRun(run) && AlwaysOk(mode, run) && Now(run) == s
  }

  /** `reach` is kept by every step to a state that is in time. */
  ghost predicate Closed(reach: Reachable, mode: Mode) {
    forall s, id, a :: reach(s) && Enabled(s, id, a) && Ok(mode, Next(s, id, a)) ==> reach(Next(s, id, a))
  }

  lemma RunsClosed(mode: Mode)
    ensures Closed(Runs(mode), mode)
  {
    var reach := Runs(mode);
    forall s, id, a | reach(s) && Enabled(s, id, a) && Ok(mode, Next(s, id, a)) ensures reach(Next(s, id, a)) {
      var run :| IsRun(run) && AlwaysOk(mode, run) && Now(run) == s;
      var run' := Then(run, id, a);
      assert IsRun(run') && Now(run') == Next(s, id, a);
    }
  }

  lemma RunsBegin(mode: Mode, s: State)
    requires Initial(s)
    ensures Runs(mode)(s)
  {
    var run := Begin(s);
    assert IsRun(run) && TimelyRun(run) && Now(run) == s;
  }

  /** One more step. */
  lemma Do(reach: Reachable, mode: Mode, s: State, id: OpId, a: Action)
    requires Closed(reach, mode) && reach(s) && Enabled(s, id, a)
    requires Ok(mode, Next(s, id, a))
    ensures reach(Next(s, id, a))
  {
  }

  /** `s` with operation `id` of process `id` in another phase. */
  function At(s: State, id: nat, phase: Phase): State {
    s.(ops := s.ops[id := Op(id, phase)])
  }

  lemma TimelyAt(mode: Mode, s: State, id: nat, phase: Phase)
    requires Ok(mode, s) && !phase.Statted?
    ensures Ok(mode, At(s, id, phase))
  {
  }

  /** Changing phase twice is changing it once. */
  lemma AtAt(s: State, id: nat, phase: Phase, phase': Phase)
    ensures SetPhase(At(s, id, phase), id, phase') == At(s, id, phase')
  {
    assert s.ops[id := Op(id, phase)][id := Op(id, phase')] == s.ops[id := Op(id, phase')];
  }

  lemma StartSave(s: State, id: nat, p: Path, entry: Entry)
    requires id !in s.ops && p in s.paths
    ensures Enabled(s, id, Start(id, map[p := Sound(entry)]))
    ensures Next(s, id, Start(id, map[p := Sound(entry)])) == At(s, id, Mutating(map[p := Sound(entry)]))
  {
    var todo: map<Path, Change> := map[p := Sound(entry)];
    assert p in todo;
  }

  lemma WriteSave(s: State, id: nat, p: Path, entry: Entry)
    ensures Enabled(At(s, id, Mutating(map[p := Sound(entry)])), id, Mutate(p))
    ensures Next(At(s, id, Mutating(map[p := Sound(entry)])), id, Mutate(p))
         == At(s.(store := s.store[p := entry], corrupt := s.corrupt - {p}), id, Mutating(map[]))
  {
    var todo: map<Path, Change> := map[p := Sound(entry)];
    assert p in todo && todo - {p} == map[];
    AtAt(s, id, Mutating(todo), Mutating(map[]));
  }

  lemma QueueSave(s: State, id: nat)
    requires id !in s.chains
    ensures Enabled(At(s, id, Mutating(map[])), id, Enqueue)
    ensures Next(At(s, id, Mutating(map[])), id, Enqueue) == At(s.(chains := s.chains[id := [id]]), id, Chained)
  {
    assert [] + [id] == [id];
    AtAt(s, id, Mutating(map[]), Chained);
  }

  lemma BeginSave(s: State, id: nat)
    requires id in s.chains && s.chains[id] == [id]
    ensures Enabled(At(s, id, Chained), id, BeginRun)
    ensures Next(At(s, id, Chained), id, BeginRun) == At(s, id, Trying(0))
  {
    AtAt(s, id, Chained, Trying(0));
  }

  lemma SaveUpToLock(reach: Reachable, mode: Mode, s: State, id: nat, p: Path, entry: Entry)
    requires Closed(reach, mode) && reach(s) && Ok(mode, s)
    requires id !in s.ops && p in s.paths && id !in s.chains
    ensures reach(Saved(s, id, p, entry)) && Ok(mode, Saved(s, id, p, entry))
  {
    var stored := s.(store := s.store[p := entry], corrupt := s.corrupt - {p});
    var chained := stored.(chains := s.chains[id := [id]]);
    var todo: map<Path, Change> := map[p := Sound(entry)];
    assert Ok(mode, stored) && Ok(mode, chained);
    TimelyAt(mode, s, id, Mutating(todo));
    TimelyAt(mode, stored, id, Mutating(map[]));
    TimelyAt(mode, chained, id, Chained);
    TimelyAt(mode, chained, id, Trying(0));
    StartSave(s, id, p, entry);
    Do(reach, mode, s, id, Start(id, todo));
    WriteSave(s, id, p, entry);
    Do(reach, mode, At(s, id, Mutating(todo)), id, Mutate(p));
    QueueSave(stored, id);
    Do(reach, mode, At(stored, id, Mutating(map[])), id, Enqueue);
    BeginSave(chained, id);
    Do(reach, mode, At(chained, id, Chained), id, BeginRun);
  }

  lemma {:induction false} Ticks(reach: Reachable, mode: Mode, s: State, n: nat)
    requires Closed(reach, mode) && reach(s) && (mode == Any || (mode == Holders && s.lock.None?))
    ensures reach(s.(clock := s.clock + n))
  {
    if n > 0 {
      Ticks(reach, mode, s, n - 1);
      Do(reach, mode, s.(clock := s.clock + n - 1), 0, Tick);
    }
  }

  /** A free lock is taken at the next attempt. */
  lemma TakeLock(reach: Reachable, mode: Mode, s: State, id: nat, k: nat)
    requires Closed(reach, mode) && reach(At(s, id, Trying(k))) && k < LOCK_RETRY_MAX && s.lock.None? && Ok(mode, s)
    ensures reach(At(s.(lock := Some(Lock(id, s.clock))), id, Listing({}, map[])))
  {
    AtAt(s, id, Trying(k), Listing({}, map[]));
    assert At(s.(lock := Some(Lock(id, s.clock))), id, Listing({}, map[]))
      == SetPhase(At(s, id, Trying(k)), id, Listing({}, map[])).(lock := Some(Lock(id, s.clock)));
    TimelyAt(mode, s.(lock := Some(Lock(id, s.clock))), id, Listing({}, map[]));
    Do(reach, mode, At(s, id, Trying(k)), id, MakeDirectory);
  }

  /** A lock found taken is looked at. */
  lemma LookAtLock(reach: Reachable, mode: Mode, s: State, id: nat)
    requires Closed(reach, mode) && reach(At(s, id, Trying(0))) && s.lock.Some? && Ok(mode, s)
    requires mode != Everyone
    ensures reach(At(s, id, Statted(0, s.lock.value.mtime)))
  {
    AtAt(s, id, Trying(0), Contended(0));
    TimelyAt(mode, s, id, Contended(0));
    Do(reach, mode, At(s, id, Trying(0)), id, MakeDirectory);
    AtAt(s, id, Contended(0), Statted(0, s.lock.value.mtime));
    Do(reach, mode, At(s, id, Contended(0)), id, Stat);
  }

  /** Whatever lock there is by then, one that looked stale is broken and replaced. */
  lemma BreakLock(reach: Reachable, mode: Mode, s: State, id: nat, mtime: nat)
    requires Closed(reach, mode) && reach(At(s, id, Statted(0, mtime))) && s.clock > mtime + LOCK_STALE_MS
    requires mode != Everyone && Ok(mode, s)
    ensures reach(At(s.(lock := Some(Lock(id, s.clock))), id, Listing({}, map[])))
  {
    var free := s.(lock := None);
    AtAt(s, id, Statted(0, mtime), Breaking(0));
    TimelyAt(mode, s, id, Breaking(0));
    Do(reach, mode, At(s, id, Statted(0, mtime)), id, CheckAge);
    AtAt(s, id, Breaking(0), Trying(1));
    assert At(free, id, Trying(1)) == SetPhase(At(s, id, Breaking(0)), id, Trying(1)).(lock := None);
    Do(reach, mode, At(s, id, Breaking(0)), id, RemoveStale);
    TakeLock(reach, mode, free, id, 1);
    assert free.(lock := Some(Lock(id, s.clock))) == s.(lock := Some(Lock(id, s.clock)));
  }

  predicate TwoHolders(s: State, x: OpId, y: OpId) {
    x in s.ops && y in s.ops && x != y && Holding(s.ops[x].phase) && Holding(s.ops[y].phase)
  }

  lemma SlowHolder(reach: Reachable, p: Path) returns (s: State)
    requires Closed(reach, Any) && reach(Fresh(p))
    ensures reach(s) && TwoHolders(s, 1, 2)
  {
    var listing := Listing({}, map[]);
    SaveUpToLock(reach, Any, Fresh(p), 1, p, "one");
    var first := Fresh(p).(store := map[p := "one"], chains := map[1 := [1]]);
    assert Saved(Fresh(p), 1, p, "one") == At(first, 1, Trying(0));
    TakeLock(reach, Any, first, 1, 0);
    var held := At(first.(lock := Some(Lock(1, 0))), 1, listing);
    Ticks(reach, Any, held, LOCK_STALE_MS + 1);
    var late := held.(clock := LOCK_STALE_MS + 1);
    SaveUpToLock(reach, Any, late, 2, p, "two");
    var second := late.(store := late.store[p := "two"], chains := late.chains[2 := [2]]);
    assert Saved(late, 2, p, "two") == At(second, 2, Trying(0));
    LookAtLock(reach, Any, second, 2);
    BreakLock(reach, Any, second, 2, 0);
    s := At(second.(lock := Some(Lock(2, LOCK_STALE_MS + 1))), 2, listing);
    assert s.ops[1].phase == listing && s.ops[2].phase == listing;
  }

  /** A holder that outlives LOCK_STALE_MS is joined by a second one. */
  lemma SlowHolderLosesExclusion(p: Path) returns (s: State)
    ensures Runs(Any)(s) && TwoHolders(s, 1, 2)
  {
    RunsClosed(Any);
    RunsBegin(Any, Fresh(p));
    s := SlowHolder(Runs(Any), p);
  }

  /** `s` after operation `id` has listed its only path, written the index and released the lock. */
  function Rebuilt(s: State, id: nat, p: Path): State {
    s.(ops := s.ops - {id}, index := Apply(map[], p, Lookup(s.store, p)), lock := None,
       chains := s.chains[id := if Chain(s, id) == [] then [] else Chain(s, id)[1..]])
  }

  lemma Rebuild(reach: Reachable, mode: Mode, s: State, id: nat, p: Path)
    requires Closed(reach, mode) && reach(At(s, id, Listing({}, map[]))) && s.paths == {p} && Ok(mode, s)
    requires mode != Everyone
    ensures reach(Rebuilt(s, id, p))
  {
    var snapshot := Apply(map[], p, Lookup(s.store, p));
    var written := s.(index := snapshot);
    AtAt(s, id, Listing({}, map[]), Listing({p}, snapshot));
    assert {} + {p} == {p};
    TimelyAt(mode, s, id, Listing({p}, snapshot));
    Do(reach, mode, At(s, id, Listing({}, map[])), id, ReadFile(p));
    AtAt(written, id, Listing({p}, snapshot), Releasing);
    TimelyAt(mode, written, id, Releasing);
    assert Next(At(s, id, Listing({p}, snapshot)), id, WriteIndex) == At(written, id, Releasing);
    Do(reach, mode, At(s, id, Listing({p}, snapshot)), id, WriteIndex);
    assert At(written, id, Releasing).ops - {id} == s.ops - {id};
    Do(reach, mode, At(written, id, Releasing), id, Release);
  }

  /** Operation 2 has looked at the lock of operation 1, which is then released; much later 3 takes it. */
  lemma LateStat(reach: Reachable, p: Path) returns (s: State)
    requires Closed(reach, Holders) && reach(Fresh(p))
    ensures reach(s) && TwoHolders(s, 2, 3)
  {
    var listing := Listing({}, map[]);
    SaveUpToLock(reach, Holders, Fresh(p), 1, p, "one");
    var first := Fresh(p).(store := map[p := "one"], chains := map[1 := [1]]);
    assert Saved(Fresh(p), 1, p, "one") == At(first, 1, Trying(0));
    TakeLock(reach, Holders, first, 1, 0);
    var held := At(first.(lock := Some(Lock(1, 0))), 1, listing);
    SaveUpToLock(reach, Holders, held, 2, p, "two");
    var second := held.(store := held.store[p := "two"], chains := held.chains[2 := [2]]);
    assert Saved(held, 2, p, "two") == At(second, 2, Trying(0));
    LookAtLock(reach, Holders, second, 2);
    var looked := At(second, 2, Statted(0, 0));
    assert At(looked, 1, listing) == looked;
    Rebuild(reach, Holders, looked, 1, p);
    s := LateBreak(reach, Rebuilt(looked, 1, p), p);
  }

  lemma LateBreak(reach: Reachable, free: State, p: Path) returns (s: State)
    requires Closed(reach, Holders) && reach(free) && free.lock.None? && free.clock == 0 && p in free.paths && free.corrupt == {}
    requires 2 in free.ops && free.ops[2] == Op(2, Statted(0, 0)) && 3 !in free.ops && 3 !in free.chains
    ensures reach(s) && TwoHolders(s, 2, 3)
  {
    var listing := Listing({}, map[]);
    Ticks(reach, Holders, free, LOCK_STALE_MS + 1);
    var late := free.(clock := LOCK_STALE_MS + 1);
    SaveUpToLock(reach, Holders, late, 3, p, "three");
    var third := late.(store := late.store[p := "three"], chains := late.chains[3 := [3]]);
    assert Saved(late, 3, p, "three") == At(third, 3, Trying(0));
    TakeLock(reach, Holders, third, 3, 0);
    var held := At(third.(lock := Some(Lock(3, late.clock))), 3, listing);
    assert At(held, 2, Statted(0, 0)) == held;
    BreakLock(reach, Holders, held, 2, 0);
    s := At(held.(lock := Some(Lock(2, late.clock))), 2, listing);
    assert s.ops[2].phase == listing && s.ops[3].phase == listing;
  }

  /** Holders that all release in time do not suffice: a stat reply acted upon late breaks a new lock. */
  lemma LateStatLosesExclusion(p: Path) returns (s: State)
    ensures Runs(Holders)(s) && TwoHolders(s, 2, 3)
  {
    RunsClosed(Holders);
    RunsBegin(Holders, Fresh(p));
    s := LateStat(Runs(Holders), p);
  }

  /** A reader has found the file of `p` corrupt; a save replaces it and its rebuild ends; the reader renames it. */
  lemma LateQuarantine(reach: Reachable, p: Path) returns (s: State)
    requires Closed(reach, Holders) && reach(Fresh(p).(corrupt := {p}))
    ensures reach(s) && s.ops == map[] && !s.gaveUp && s.index == map[p := "one"] && s.store == map[]
  {
    var found := Fresh(p).(corrupt := {p}, suspects := multiset{p});
    assert multiset{} + multiset{p} == multiset{p};
    Do(reach, Holders, Fresh(p).(corrupt := {p}), 0, FindCorrupt(p));
    SaveUpToLock(reach, Holders, found, 1, p, "one");
    var first := found.(store := map[p := "one"], corrupt := {}, chains := map[1 := [1]]);
    assert found.corrupt - {p} == {};
    assert Saved(found, 1, p, "one") == At(first, 1, Trying(0));
    TakeLock(reach, Holders, first, 1, 0);
    var held := first.(lock := Some(Lock(1, 0)));
    Rebuild(reach, Holders, held, 1, p);
    var rebuilt := Rebuilt(held, 1, p);
    assert rebuilt.ops == map[] && rebuilt.index == map[p := "one"];
    Do(reach, Holders, rebuilt, 0, Quarantine(p));
    s := Next(rebuilt, 0, Quarantine(p));
  }

  /** A quarantine that comes late takes a sound file away and leaves the index ahead of the store for good. */
  lemma LateQuarantineLosesFile(p: Path) returns (s: State)
    ensures Runs(Holders)(s) && s.ops == map[] && !s.gaveUp && s.index == map[p := "one"] && s.store == map[]
  {
    RunsClosed(Holders);
    RunsBegin(Holders, Fresh(p).(corrupt := {p}));
    s := LateQuarantine(Runs(Holders), p);
  }

  /** One attempt against a lock that is there and not stale. */
  lemma AttemptFails(reach: Reachable, s: State, id: nat, k: nat)
    requires Closed(reach, Everyone) && reach(At(s, id, Trying(k))) && Timely(s) && s.lock.Some? && k < LOCK_RETRY_MAX
    ensures reach(At(s, id, Trying(k + 1)))
  {
    var mtime := s.lock.value.mtime;
    AtAt(s, id, Trying(k), Contended(k));
    TimelyAt(Everyone, s, id, Contended(k));
    Do(reach, Everyone, At(s, id, Trying(k)), id, MakeDirectory);
    AtAt(s, id, Contended(k), Statted(k, mtime));
    assert Timely(At(s, id, Statted(k, mtime)));
    Do(reach, Everyone, At(s, id, Contended(k)), id, Stat);
    AtAt(s, id, Statted(k, mtime), Sleeping(k));
    TimelyAt(Everyone, s, id, Sleeping(k));
    Do(reach, Everyone, At(s, id, Statted(k, mtime)), id, CheckAge);
    AtAt(s, id, Sleeping(k), Trying(k + 1));
    TimelyAt(Everyone, s, id, Trying(k + 1));
    Do(reach, Everyone, At(s, id, Sleeping(k)), id, Wake);
  }

  lemma {:induction false} AttemptsFail(reach: Reachable, s: State, id: nat, k: nat)
    requires Closed(reach, Everyone) && reach(At(s, id, Trying(k))) && Timely(s) && s.lock.Some? && k <= LOCK_RETRY_MAX
    ensures reach(At(s, id, Trying(LOCK_RETRY_MAX)))
    decreases LOCK_RETRY_MAX - k
  {
    if k < LOCK_RETRY_MAX {
      AttemptFails(reach, s, id, k);
      AttemptsFail(reach, s, id, k + 1);
    }
  }

  lemma ListOne(reach: Reachable, s: State, id: nat, p: Path)
    requires Closed(reach, Everyone) && reach(At(s, id, Listing({}, map[]))) && Timely(s)
    requires p in s.paths && s.store == map[p := "one"]
    ensures reach(At(s, id, Listing({p}, map[p := "one"]))) && Timely(At(s, id, Listing({p}, map[p := "one"])))
  {
    AtAt(s, id, Listing({}, map[]), Listing({p}, map[p := "one"]));
    TimelyAt(Everyone, s, id, Listing({p}, map[p := "one"]));
    assert {} + {p} == {p};
    Do(reach, Everyone, At(s, id, Listing({}, map[])), id, ReadFile(p));
  }

  lemma WriteAndRelease(reach: Reachable, s: State, id: nat, p: Path)
    requires Closed(reach, Everyone) && reach(At(s, id, Listing({p}, map[p := "one"]))) && Timely(s)
    requires s.ops == map[] && s.paths == {p} && id in s.chains
    ensures reach(s.(index := map[p := "one"], lock := None, chains := s.chains[id := if s.chains[id] == [] then [] else s.chains[id][1..]]))
  {
    var listing := At(s, id, Listing({p}, map[p := "one"]));
    var written := s.(index := map[p := "one"]);
    AtAt(written, id, Listing({p}, map[p := "one"]), Releasing);
    TimelyAt(Everyone, written, id, Releasing);
    assert Next(listing, id, WriteIndex) == At(written, id, Releasing);
    Do(reach, Everyone, listing, id, WriteIndex);
    assert At(written, id, Releasing).ops - {id} == s.ops;
    Do(reach, Everyone, At(written, id, Releasing), id, Release);
  }

  /** The second rebuild gives up and is gone. */
  lemma Abandon(reach: Reachable, s: State, id: nat)
    requires Closed(reach, Everyone) && reach(At(s, id, Trying(LOCK_RETRY_MAX))) && Timely(s) && id !in s.ops
    requires id in s.chains && s.chains[id] == [id]
    ensures reach(s.(gaveUp := true, chains := s.chains[id := []]))
  {
    var stuck := At(s, id, Trying(LOCK_RETRY_MAX));
    assert stuck.ops - {id} == s.ops;
    assert [id][1..] == [];
    Do(reach, Everyone, stuck, id, GiveUp);
  }

  /** Nothing in progress, one rebuild has given up, and the index is behind the store. */
  predicate StaleIndex(s: State, p: Path) {
    s.ops == map[] && s.gaveUp && s.index == map[p := "one"] && s.store == map[p := "two"]
  }

  lemma GivingUp(reach: Reachable, p: Path) returns (s: State)
    requires Closed(reach, Everyone) && reach(Fresh(p))
    ensures reach(s) && StaleIndex(s, p)
  {
    SaveUpToLock(reach, Everyone, Fresh(p), 1, p, "one");
    var first := Fresh(p).(store := map[p := "one"], chains := map[1 := [1]]);
    assert Saved(Fresh(p), 1, p, "one") == At(first, 1, Trying(0));
    TakeLock(reach, Everyone, first, 1, 0);
    var held := first.(lock := Some(Lock(1, 0)));
    ListOne(reach, held, 1, p);
    var listed := At(held, 1, Listing({p}, map[p := "one"]));
    SaveUpToLock(reach, Everyone, listed, 2, p, "two");
    var second := listed.(store := map[p := "two"], chains := map[1 := [1], 2 := [2]]);
    assert listed.store[p := "two"] == map[p := "two"];
    assert Saved(listed, 2, p, "two") == At(second, 2, Trying(0));
    AttemptsFail(reach, second, 2, 0);
    Abandon(reach, second, 2);
    var alone := held.(store := map[p := "two"], chains := map[1 := [1], 2 := []], gaveUp := true);
    assert second.(gaveUp := true, chains := second.chains[2 := []]) == At(alone, 1, Listing({p}, map[p := "one"]));
    WriteAndRelease(reach, alone, 1, p);
    s := alone.(index := map[p := "one"], lock := None, chains := alone.chains[1 := [1][1..]]);
  }

  /** A rebuild that gives up while the holder has already listed the path leaves a stale index for good. */
  lemma GivingUpLosesUpdate(p: Path) returns (s: State)
    ensures Runs(Everyone)(s) && StaleIndex(s, p)
  {
    RunsClosed(Everyone);
    RunsBegin(Everyone, Fresh(p));
    s := GivingUp(Runs(Everyone), p);
  }
}
