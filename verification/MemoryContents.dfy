/** What a run of saves, deletes and quarantines leaves at each path, read off its actions. */
module MemoryContents {
  import opened Sequences
  import opened MemoryProtocol
  import opened MemoryConsistency

  /** What is at a path: a file that parses, one that does not, or none. */
  datatype Content = File(entry: Entry) | Garbage | Nothing

  function ContentAt(s: State, p: Path): Content {
    if p in s.store then File(s.store[p]) else if p in s.corrupt then Garbage else Nothing
  }

  /** What operation `id` set out to do when it started last. */
  ghost function Planned(run: Run, id: OpId): map<Path, Change> {
    match run
    case Begin(_) => map[]
    case Then(before, o, a) => if o == id && a.Start? then a.todo else Planned(before, id)
  }

  /** A sound save leaves its entry, a broken one a file that does not parse, a deletion nothing. */
  function Leaves(change: Change): Content {
    match change
    case Sound(entry) => File(entry)
    case Broken => Garbage
    case Removed => Nothing
  }

  /** What the last change of path `p` in the run left there. */
  ghost function LastContent(run: Run, p: Path): Content {
    match run
    case Begin(s) => ContentAt(s, p)
    case Then(before, id, a) =>
      if a == Quarantine(p) then Nothing
      else if a == Mutate(p) && p in Planned(before, id) then Leaves(Planned(before, id)[p])
      else LastContent(before, p)
  }

  /** What the operations have still to do is part of `plans`. */
  ghost predicate OnPlan(s: State, plans: OpId -> map<Path, Change>) {
    forall id :: id in s.ops ==> PhaseOnPlan(s.ops[id].phase, plans(id))
  }

  ghost predicate PhaseOnPlan(phase: Phase, plan: map<Path, Change>) {
    phase.Mutating? ==> forall p :: p in phase.todo ==> p in plan && plan[p] == phase.todo[p]
  }

  ghost function Plans(run: Run): OpId -> map<Path, Change> {
    (id: OpId) => Planned(run, id)
  }

  lemma StepOnPlan(s: State, id: OpId, a: Action, o: OpId, plan: map<Path, Change>)
    requires Enabled(s, id, a) && o in Next(s, id, a).ops
    requires o in s.ops ==> PhaseOnPlan(s.ops[o].phase, plan)
    requires a.Start? && o == id ==> plan == a.todo
    ensures PhaseOnPlan(Next(s, id, a).ops[o].phase, plan)
  {
  }

  lemma {:induction false} RunOnPlan(run: Run)
    requires IsRun(run)
    ensures OnPlan(Now(run), Plans(run))
  {
    if run.Then? {
      var s := Now(run.before);
      RunOnPlan(run.before);
      forall o | o in Now(run).ops ensures PhaseOnPlan(Now(run).ops[o].phase, Planned(run, o)) {
        assert o in s.ops ==> PhaseOnPlan(s.ops[o].phase, Plans(run.before)(o));
        StepOnPlan(s, run.id, run.action, o, Planned(run, o));
      }
    }
  }

  /** A file either parses or does not. */
  predicate Disjoint(s: State) {
    s.corrupt !! s.store.Keys
  }

  lemma StepDisjoint(s: State, id: OpId, a: Action)
    requires Enabled(s, id, a) && Disjoint(s)
    ensures Disjoint(Next(s, id, a))
  {
  }

  lemma {:induction false} RunDisjoint(run: Run)
    requires IsRun(run)
    ensures Disjoint(Now(run))
  {
    if run.Then? {
      RunDisjoint(run.before);
      StepDisjoint(Now(run.before), run.id, run.action);
    }
  }

  lemma MutateContent(s: State, id: OpId, q: Path, p: Path)
    requires Enabled(s, id, Mutate(q)) && Disjoint(s)
    ensures ContentAt(Next(s, id, Mutate(q)), p) == if p == q then Leaves(s.ops[id].phase.todo[p]) else ContentAt(s, p)
  {
  }

  lemma OtherContent(s: State, id: OpId, a: Action, p: Path)
    requires Enabled(s, id, a) && !a.Mutate?
    ensures ContentAt(Next(s, id, a), p) == if a == Quarantine(p) then Nothing else ContentAt(s, p)
  {
  }

  lemma StepContent(s: State, id: OpId, a: Action, p: Path)
    requires Enabled(s, id, a) && Disjoint(s)
    ensures ContentAt(Next(s, id, a), p) ==
      if a == Quarantine(p) then Nothing
      else if a == Mutate(p) then Leaves(s.ops[id].phase.todo[p])
      else ContentAt(s, p)
  {
    if a.Mutate? { MutateContent(s, id, a.path, p); } else { OtherContent(s, id, a, p); }
  }

  /** At every path is what its last change in the run left there. */
  lemma {:induction false} StoreIsLastContent(run: Run, p: Path)
    requires IsRun(run)
    ensures ContentAt(Now(run), p) == LastContent(run, p)
  {
    if run.Then? {
      StoreIsLastContent(run.before, p);
      RunOnPlan(run.before);
      RunDisjoint(run.before);
      assert run.id in Now(run.before).ops ==>
        PhaseOnPlan(Now(run.before).ops[run.id].phase, Plans(run.before)(run.id));
      StepContent(Now(run.before), run.id, run.action, p);
    }
  }

  /** Once nothing is in progress in a safe run, the index lists exactly the paths whose last change was a
      sound save, each with the entry saved last. */
  lemma IndexListsLastSaves(run: Run, p: Path)
    requires SafeRun(run) && Now(run).ops == map[]
    ensures Lookup(Now(run).index, p) ==
      match LastContent(run, p) {
        case File(entry) => Some(entry)
        case Garbage => None
        case Nothing => None
      }
  {
    StoreIsLastContent(run, p);
    QuiescentIndexIsStore(run);
  }

  // ----- The lock over a run

  /** When the lock was last created or touched. */
  ghost function LastTouch(run: Run): nat {
    match run
    case Begin(_) => 0
    case Then(before, id, a) =>
      if a.TouchOwner? || (a.MakeDirectory? && Now(before).lock.None?) then Now(before).clock else LastTouch(before)
  }

  lemma LockStepTouch(s: State, id: OpId, a: Action, touch: nat)
    requires Enabled(s, id, a) && (s.lock.Some? ==> s.lock.value.mtime == touch)
    ensures var touched := a.TouchOwner? || (a.MakeDirectory? && s.lock.None?);
      Next(s, id, a).lock.Some? ==> Next(s, id, a).lock.value.mtime == if touched then s.clock else touch
  {
  }

  /** In every run, the age of a lock counts from its creation or its last touch. */
  lemma {:induction false} LockAgesFromTouch(run: Run)
    requires IsRun(run) && Now(run).lock.Some?
    ensures Now(run).lock.value.mtime == LastTouch(run)
  {
    if run.Then? {
      if Now(run.before).lock.Some? { LockAgesFromTouch(run.before); }
      LockStepTouch(Now(run.before), run.id, run.action, LastTouch(run.before));
    }
  }

  /** What a contended attempt comes to: a lock that is gone by then is tried for at once, one untouched for more
      than 30 seconds is removed and tried for at once, any other is slept on; each way the next attempt is the
      next of at most 50. */
  lemma ContendedAttempt(s: State, id: OpId)
    requires id in s.ops
    ensures s.ops[id].phase.Contended? ==>
      Next(s, id, Stat).ops[id].phase ==
        if s.lock.None? then Trying(s.ops[id].phase.attempt + 1) else Statted(s.ops[id].phase.attempt, s.lock.value.mtime)
    ensures s.ops[id].phase.Statted? ==>
      Next(s, id, CheckAge).ops[id].phase ==
        if s.clock - s.ops[id].phase.mtime > 30_000 then Breaking(s.ops[id].phase.attempt) else Sleeping(s.ops[id].phase.attempt)
    ensures s.ops[id].phase.Sleeping? ==> Next(s, id, Wake).ops[id].phase == Trying(s.ops[id].phase.attempt + 1)
    ensures s.ops[id].phase.Breaking? ==>
      Next(s, id, RemoveStale).ops[id].phase == Trying(s.ops[id].phase.attempt + 1) && Next(s, id, RemoveStale).lock.None?
    ensures s.ops[id].phase.Trying? ==>
      (Enabled(s, id, MakeDirectory) <==> s.ops[id].phase.attempt < 50) && (Enabled(s, id, GiveUp) <==> s.ops[id].phase.attempt >= 50)
  {
  }
}
