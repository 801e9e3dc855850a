/** Saving, deleting and re-indexing memories from any number of processes, as a step relation.
    A directory is created and a file renamed or unlinked in one step each; everything else is interleaved.
    A reader that finds a file corrupt renames whatever is at its path by the time it gets there. */
module MemoryProtocol {
  import opened Sequences

  type Path = string
  /** What the index says about one memory: its parsed file. */
  type Entry = string
  type Pid = nat
  type OpId = nat

  const LOCK_STALE_MS := 30_000
  const LOCK_RETRY_MAX := 50

  /** What a save or delete does to one file: a save may write one that does not parse. */
  datatype Change = Sound(entry: Entry) | Broken | Removed

  /** How far a save or delete has come. `todo` maps each path still to be written or unlinked. */
  datatype Phase =
    | Mutating(todo: map<Path, Change>)
    | Chained
    | Trying(attempt: nat)
    | Contended(attempt: nat)
    | Statted(attempt: nat, mtime: nat)
    | Breaking(attempt: nat)
    | Sleeping(attempt: nat)
    | Listing(seen: set<Path>, snapshot: map<Path, Entry>)
    | Releasing

  datatype Op = Op(pid: Pid, phase: Phase)

  /** The lock directory; `creator` is the operation whose mkdir succeeded. */
  datatype Lock = Lock(creator: OpId, mtime: nat)

  datatype State = State(
    paths: set<Path>,               // every path a memory may ever have
    store: map<Path, Entry>,        // the memory files that parse
    corrupt: set<Path>,             // the paths with a file that does not parse
    suspects: multiset<Path>,       // files found corrupt by readers that have still to rename them
    index: map<Path, Entry>,        // the entries of MEMORY.md
    lock: Option<Lock>,
    clock: nat,
    ops: map<OpId, Op>,             // the operations in progress
    chains: map<Pid, seq<OpId>>,    // each process's promise chain of rebuilds
    gaveUp: bool)                   // some rebuild has thrown after its last attempt

  datatype Action =
    | Start(pid: Pid, todo: map<Path, Change>)
    | Mutate(path: Path)
    | Enqueue
    | BeginRun
    | MakeDirectory
    | Stat
    | CheckAge
    | RemoveStale
    | Wake
    | GiveUp
    | TouchOwner
    | ReadFile(path: Path)
    | WriteIndex
    | Release
    | Tick
    | FindCorrupt(path: Path)
    | Quarantine(path: Path)

  // ----- Steps

  function Chain(s: State, pid: Pid): seq<OpId> {
    if pid in s.chains then s.chains[pid] else []
  }

  /** The entry that the changed file has. */
  function Parsed(change: Change): Option<Entry> {
    if change.Sound? then Some(change.entry) else None
  }

  function Apply(store: map<Path, Entry>, path: Path, change: Option<Entry>): map<Path, Entry> {
    match change
    case Some(entry) => store[path := entry]
    case None => store - {path}
  }

  function Lookup(m: map<Path, Entry>, path: Path): Option<Entry> {
    if path in m then Some(m[path]) else None
  }

  function SetPhase(s: State, id: OpId, phase: Phase): State
    requires id in s.ops
  {
    s.(ops := s.ops[id := s.ops[id].(phase := phase)])
  }

  /** The operation leaves its chain and is over. */
  function Finish(s: State, id: OpId): State
    requires id in s.ops
  {
    var chain := Chain(s, s.ops[id].pid);
    s.(ops := s.ops - {id}, chains := s.chains[s.ops[id].pid := if chain == [] then [] else chain[1..]])
  }

  predicate AtHead(s: State, id: OpId)
    requires id in s.ops
  {
    var chain := Chain(s, s.ops[id].pid);
    chain != [] && chain[0] == id
  }

  /** A step of the clock, or of a reader that holds no lock and belongs to no operation. */
  predicate Outside(a: Action) {
    a.Tick? || a.FindCorrupt? || a.Quarantine?
  }

  /** May operation `id` take action `a` now? */
  predicate Enabled(s: State, id: OpId, a: Action) {
    match a
    case Tick => true
    case FindCorrupt(path) => path in s.corrupt
    case Quarantine(path) => path in s.suspects
    case Start(_, todo) => id !in s.ops && todo != map[] && todo.Keys <= s.paths
    case Mutate(path) => id in s.ops && s.ops[id].phase.Mutating? && path in s.ops[id].phase.todo
    case Enqueue => id in s.ops && s.ops[id].phase == Mutating(map[])
    case BeginRun => id in s.ops && s.ops[id].phase == Chained && AtHead(s, id)
    case MakeDirectory => id in s.ops && s.ops[id].phase.Trying? && s.ops[id].phase.attempt < LOCK_RETRY_MAX
    case Stat => id in s.ops && s.ops[id].phase.Contended?
    case CheckAge => id in s.ops && s.ops[id].phase.Statted?
    case RemoveStale => id in s.ops && s.ops[id].phase.Breaking?
    case Wake => id in s.ops && s.ops[id].phase.Sleeping?
    case GiveUp => id in s.ops && s.ops[id].phase.Trying? && s.ops[id].phase.attempt >= LOCK_RETRY_MAX
    case TouchOwner => id in s.ops && s.ops[id].phase.Listing? && s.lock.Some?
    case ReadFile(path) => id in s.ops && s.ops[id].phase.Listing? && path in s.paths - s.ops[id].phase.seen
    case WriteIndex => id in s.ops && s.ops[id].phase.Listing? && s.ops[id].phase.seen == s.paths
    case Release => id in s.ops && s.ops[id].phase == Releasing
  }

  function Next(s: State, id: OpId, a: Action): State
    requires Enabled(s, id, a)
  {
    match a
    case Tick => s.(clock := s.clock + 1)
    case FindCorrupt(path) => s.(suspects := s.suspects + multiset{path})
    case Quarantine(path) =>
      s.(store := s.store - {path}, corrupt := s.corrupt - {path}, suspects := s.suspects - multiset{path})
    case Start(pid, todo) => s.(ops := s.ops[id := Op(pid, Mutating(todo))])
    case Mutate(path) =>
      var todo := s.ops[id].phase.todo;
      SetPhase(s, id, Mutating(todo - {path})).(store := Apply(s.store, path, Parsed(todo[path])),
                                             corrupt := if todo[path].Broken? then s.corrupt + {path} else s.corrupt - {path})
    case Enqueue =>
      var pid := s.ops[id].pid;
      SetPhase(s, id, Chained).(chains := s.chains[pid := Chain(s, pid) + [id]])
    case BeginRun => SetPhase(s, id, Trying(0))
    case MakeDirectory =>
      if s.lock.None? then SetPhase(s, id, Listing({}, map[])).(lock := Some(Lock(id, s.clock)))
      else SetPhase(s, id, Contended(s.ops[id].phase.attempt))
    case Stat =>
      var attempt := s.ops[id].phase.attempt;
      SetPhase(s, id, if s.lock.None? then Trying(attempt + 1) else Statted(attempt, s.lock.value.mtime))
    case CheckAge =>
      var Statted(attempt, mtime) := s.ops[id].phase;
      SetPhase(s, id, if s.clock - mtime > LOCK_STALE_MS then Breaking(attempt) else Sleeping(attempt))
    case RemoveStale => SetPhase(s, id, Trying(s.ops[id].phase.attempt + 1)).(lock := None)
    case Wake => SetPhase(s, id, Trying(s.ops[id].phase.attempt + 1))
    case GiveUp => Finish(s, id).(gaveUp := true)
    case TouchOwner => s.(lock := Some(s.lock.value.(mtime := s.clock)))
    case ReadFile(path) =>
      var Listing(seen, snapshot) := s.ops[id].phase;
      SetPhase(s, id, Listing(seen + {path}, Apply(snapshot, path, Lookup(s.store, path))))
    case WriteIndex => SetPhase(s, id, Releasing).(index := s.ops[id].phase.snapshot)
    case Release => Finish(s, id).(lock := None)
  }

  // ----- Runs

  ghost predicate Initial(s: State) {
    s.ops == map[] && s.chains == map[] && s.lock == None && !s.gaveUp &&
    s.index == s.store && s.store.Keys <= s.paths && s.corrupt <= s.paths && s.corrupt !! s.store.Keys && s.suspects == multiset{}
  }

  /** A finite run: a starting state and the actions taken since. */
  datatype Run = Begin(start: State) | Then(before: Run, id: OpId, action: Action)

  /** The state a run ends in. */
  ghost function Now(run: Run): State {
    match run
    case Begin(s) => s
    case Then(before, id, a) => if Enabled(Now(before), id, a) then Next(Now(before), id, a) else Now(before)
  }

  /** Every action of the run was enabled when it was taken. */
  ghost predicate IsRun(run: Run) {
    match run
    case Begin(s) => Initial(s)
    case Then(before, id, a) => IsRun(before) && Enabled(Now(before), id, a)
  }

  /** No holder keeps the lock for longer than LOCK_STALE_MS. */
  ghost predicate HolderTimely(s: State) {
    s.lock.Some? ==> s.clock <= s.lock.value.mtime + LOCK_STALE_MS
  }

  /** And no stat reply is acted upon after the age it reported has reached that bound. */
  ghost predicate Timely(s: State) {
    && HolderTimely(s)
    && (forall id :: id in s.ops && s.ops[id].phase.Statted? ==> s.clock <= s.ops[id].phase.mtime + LOCK_STALE_MS)
  }

  ghost predicate TimelyRun(run: Run) {
    IsRun(run) && Timely(Now(run)) && (run.Then? ==> TimelyRun(run.before))
  }
}
