/** The terminal manager's id maps over runs of commands, new terminals and disposal. */
module TerminalIds {
  import opened Sequences

  /** A placeholder until the client has assigned an id. */
  datatype TerminalId = Placeholder(numericId: nat) | Handle(id: string)

  datatype Info = Info(numericId: nat, cwd: string, busy: bool)

  /** `current` is the id field of every managed terminal ever made, also of those no longer tracked. */
  datatype State = State(
    terminals: map<TerminalId, nat>,
    stringIds: map<nat, TerminalId>,
    next: nat,
    infos: seq<Info>,
    current: map<nat, TerminalId>)

  datatype Event =
    | Got(cwd: string, reuse: bool)
    | Busied(numericId: nat, busy: bool)            // runCommand, and its completion or error
    | Ran(numericId: nat, handle: string)           // the client's answer inside runCommandInternal
    | Created(handle: string)                       // the client's answer inside createTerminal
    | Disposed

  function Start(): State {
    State(map[], map[], 1, [], map[])
  }

  /** The position of the first idle terminal, with this working directory if one is asked for. */
  function FirstIdle(infos: seq<Info>, cwd: Option<string>): (i: Option<nat>)
    ensures i.Some? ==> i.value < |infos| && Suits(infos[i.value], cwd)
    ensures forall k :: 0 <= k < (if i.Some? then i.value else |infos|) ==> !Suits(infos[k], cwd)
  {
    if infos == [] then None
    else if Suits(infos[0], cwd) then Some(0)
    else match FirstIdle(infos[1..], cwd) case None => None case Some(i) => Some(i + 1)
  }

  predicate Suits(info: Info, cwd: Option<string>) {
    !info.busy && (cwd.Some? ==> info.cwd == cwd.value)
  }

  /** A new managed terminal tracked under an id of its own. */
  function Add(s: State, id: TerminalId): State {
    s.(terminals := s.terminals[id := s.next], stringIds := s.stringIds[s.next := id],
       next := s.next + 1, current := s.current[s.next := id])
  }

  /** An idle terminal of this directory, else any idle one moved to it, else a new one. */
  function GetOrCreate(s: State, cwd: string, reuse: bool): (State, Info) {
    var same := FirstIdle(s.infos, Some(cwd));
    if same.Some? then (s, s.infos[same.value])
    else
      var idle := FirstIdle(s.infos, None);
      if reuse && idle.Some? then
        var moved := s.infos[idle.value].(cwd := cwd);
        (s.(infos := s.infos[idle.value := moved]), moved)
      else
        var info := Info(s.next, cwd, false);
        (Add(s, Placeholder(s.next)).(infos := s.infos + [info]), info)
  }

  function SetBusy(infos: seq<Info>, numericId: nat, busy: bool): seq<Info> {
    if infos == [] then []
    else [if infos[0].numericId == numericId then infos[0].(busy := busy) else infos[0]] + SetBusy(infos[1..], numericId, busy)
  }

  /** The terminal leaves its old id and is tracked under the client's new one. */
  function Rename(s: State, numericId: nat, handle: string): State
    requires numericId in s.current
  {
    var id := Handle(handle);
    s.(terminals := (s.terminals - {s.current[numericId]})[id := numericId],
       stringIds := s.stringIds[numericId := id],
       current := s.current[numericId := id])
  }

  /** Managed terminals held by others keep their ids. */
  function Dispose(s: State): State {
    State(map[], map[], s.next, [], s.current)
  }

  function Step(s: State, e: Event): State {
    match e
    case Got(cwd, reuse) => GetOrCreate(s, cwd, reuse).0
    case Busied(n, busy) => s.(infos := SetBusy(s.infos, n, busy))
    case Ran(n, handle) => if n in s.current then Rename(s, n, handle) else s
    case Created(handle) => Add(s, Handle(handle))
    case Disposed => Dispose(s)
  }

  /** The client assigns an id that no managed terminal bears. */
  predicate Unused(s: State, e: Event) {
    (e.Ran? || e.Created?) ==> Handle(e.handle) !in s.current.Values
  }

  function Run(events: seq<Event>): State
    decreases |events|
  {
    if events == [] then Start() else Step(Run(events[..|events| - 1]), events[|events| - 1])
  }

  predicate UnusedIds(events: seq<Event>)
    decreases |events|
  {
    events == [] || (UnusedIds(events[..|events| - 1]) && Unused(Run(events[..|events| - 1]), events[|events| - 1]))
  }

  // ----- The two maps are inverse

  ghost predicate Inverse(s: State) {
    && (forall id :: id in s.terminals ==> s.terminals[id] in s.stringIds && s.stringIds[s.terminals[id]] == id)
    && (forall n :: n in s.stringIds ==> s.stringIds[n] in s.terminals && s.terminals[s.stringIds[n]] == n)
  }

  ghost predicate Valid(s: State) {
    && Inverse(s)
    && (forall n :: n in s.stringIds ==> n in s.current && s.current[n] == s.stringIds[n])
    && (forall n :: n in s.current ==> n < s.next && (s.current[n].Placeholder? ==> s.current[n].numericId == n))
    && (forall m, n :: m in s.current && n in s.current && s.current[m] == s.current[n] ==> m == n)
    && (forall i :: 0 <= i < |s.infos| ==> s.infos[i].numericId in s.stringIds)
  }

  lemma {:induction false} SetBusyKeepsIds(infos: seq<Info>, numericId: nat, busy: bool)
    ensures var infos' := SetBusy(infos, numericId, busy);
      |infos'| == |infos| &&
      forall i :: 0 <= i < |infos| ==>
        infos'[i] == if infos[i].numericId == numericId then infos[i].(busy := busy) else infos[i]
  {
    if infos != [] { SetBusyKeepsIds(infos[1..], numericId, busy); }
  }

  lemma AddValid(s: State, id: TerminalId)
    requires Valid(s) && id !in s.current.Values && (id.Placeholder? ==> id.numericId == s.next)
    ensures Valid(Add(s, id))
  {
    assert s.next !in s.stringIds;
    assert forall n :: n in s.stringIds ==> s.current[n] == s.stringIds[n] && s.stringIds[n] != id;
  }

  lemma GotValid(s: State, cwd: string, reuse: bool)
    requires Valid(s)
    ensures Valid(GetOrCreate(s, cwd, reuse).0)
  {
    if FirstIdle(s.infos, Some(cwd)).None? && !(reuse && FirstIdle(s.infos, None).Some?) {
      AddValid(s, Placeholder(s.next));
    }
  }

  lemma StepValid(s: State, e: Event)
    requires Valid(s) && Unused(s, e)
    ensures Valid(Step(s, e))
  {
    match e
    case Got(cwd, reuse) => GotValid(s, cwd, reuse);
    case Busied(n, busy) => SetBusyKeepsIds(s.infos, n, busy);
    case Ran(n, handle) => if n in s.current { RenameValid(s, n, handle); }
    case Created(handle) => AddValid(s, Handle(handle));
    case Disposed =>
  }

  lemma RenameValid(s: State, n: nat, handle: string)
    requires Valid(s) && n in s.current && Handle(handle) !in s.current.Values
    ensures Valid(Rename(s, n, handle))
  {
    var s' := Rename(s, n, handle);
    forall id | id in s'.terminals && id != Handle(handle)
      ensures s'.terminals[id] in s'.stringIds && s'.stringIds[s'.terminals[id]] == id
    {
      assert s.stringIds[s.terminals[id]] == id && s.current[s.terminals[id]] == id;
    }
    forall m | m in s'.stringIds && m != n
      ensures s'.stringIds[m] in s'.terminals && s'.terminals[s'.stringIds[m]] == m
    {
      assert s.current[m] == s.stringIds[m];
    }
  }

  lemma {:induction false} RunValid(events: seq<Event>)
    requires UnusedIds(events)
    ensures Valid(Run(events))
    decreases |events|
  {
    if events != [] {
      RunValid(events[..|events| - 1]);
      StepValid(Run(events[..|events| - 1]), events[|events| - 1]);
    }
  }

  /** In every clean run: a terminal is found under its string id exactly
      when that is the id its numeric id leads to, so no entry is left over from an earlier command. */
  lemma IdMapsAreInverse(events: seq<Event>, n: nat, id: TerminalId)
    requires CleanRun(events)
    ensures var s := Run(events);
      (n in s.stringIds && s.stringIds[n] == id) <==> (id in s.terminals && s.terminals[id] == n)
  {
    InverseIffClean(events);
    AlwaysInverseNow(events);
  }

  // ----- When the maps stay inverse

  /** In every run whatever: tracked terminals bear the id they are tracked under, placeholders name their
      own terminal, none of them yet to come, and every terminal to hand out is tracked. */
  ghost predicate Ordered(s: State) {
    && (forall i :: 0 <= i < |s.infos| ==> s.infos[i].numericId in s.stringIds)
    && (forall n :: n in s.stringIds ==> n in s.current && s.current[n] == s.stringIds[n])
    && (forall n :: n in s.current ==> n < s.next && (s.current[n].Placeholder? ==> s.current[n].numericId == n))
  }

  /** The client's id is tracked for no other terminal, and the id given up is not tracked for another. */
  ghost predicate CleanStep(s: State, e: Event) {
    match e
    case Ran(n, handle) =>
      n in s.current ==>
        (forall m :: m in s.stringIds && m != n ==> s.stringIds[m] != Handle(handle)) &&
        (s.current[n] in s.terminals ==> s.terminals[s.current[n]] == n)
    case Created(handle) => forall m :: m in s.stringIds ==> s.stringIds[m] != Handle(handle)
    case _ => true
  }

  ghost predicate CleanRun(events: seq<Event>)
    decreases |events|
  {
    events == [] || (CleanRun(events[..|events| - 1]) && CleanStep(Run(events[..|events| - 1]), events[|events| - 1]))
  }

  lemma StepOrdered(s: State, e: Event)
    requires Ordered(s)
    ensures Ordered(Step(s, e))
  {
    if e.Busied? { SetBusyKeepsIds(s.infos, e.numericId, e.busy); }
  }

  lemma {:induction false} RunOrdered(events: seq<Event>)
    ensures Ordered(Run(events))
    decreases |events|
  {
    if events != [] {
      RunOrdered(events[..|events| - 1]);
      StepOrdered(Run(events[..|events| - 1]), events[|events| - 1]);
    }
  }

  lemma AddInverse(s: State, id: TerminalId)
    requires Ordered(s) && Inverse(s)
    ensures Inverse(Add(s, id)) <==> forall m :: m in s.stringIds ==> s.stringIds[m] != id
  {
    var s' := Add(s, id);
    assert s.next !in s.stringIds;
    if m :| m in s.stringIds && s.stringIds[m] == id {
      assert s'.stringIds[m] == id && s'.terminals[id] == s.next;
    } else {
      assert id !in s.terminals;
    }
  }

  lemma RenameInverse(s: State, n: nat, handle: string)
    requires Ordered(s) && Inverse(s) && n in s.current
    ensures Inverse(Rename(s, n, handle)) <==> CleanStep(s, Ran(n, handle))
  {
    var s' := Rename(s, n, handle);
    var id, was := Handle(handle), s.current[n];
    if m :| m in s.stringIds && m != n && s.stringIds[m] == id {
      assert s'.stringIds[m] == id && s'.terminals[id] == n;
    } else if was in s.terminals && s.terminals[was] != n {
      var m := s.terminals[was];
      assert s.stringIds[m] == was && s'.stringIds[m] == was && was != id && was !in s'.terminals;
    } else {
      RenameKeepsInverse(s, n, handle);
    }
  }

  lemma RenameKeepsInverse(s: State, n: nat, handle: string)
    requires Ordered(s) && Inverse(s) && n in s.current && CleanStep(s, Ran(n, handle))
    ensures Inverse(Rename(s, n, handle))
  {
    var s' := Rename(s, n, handle);
    var id := Handle(handle);
    forall x | x in s'.terminals ensures s'.terminals[x] in s'.stringIds && s'.stringIds[s'.terminals[x]] == x {
      if x != id {
        var m := s.terminals[x];
        assert s.stringIds[m] == x && s.current[m] == x;
      }
    }
    forall m | m in s'.stringIds ensures s'.stringIds[m] in s'.terminals && s'.terminals[s'.stringIds[m]] == m {
      if m != n { assert s.stringIds[m] in s.terminals && s.terminals[s.stringIds[m]] == m; }
    }
  }

  /** From inverse maps, a step leads to inverse maps exactly if it is clean. */
  lemma StepInverse(s: State, e: Event)
    requires Ordered(s) && Inverse(s)
    ensures Inverse(Step(s, e)) <==> CleanStep(s, e)
  {
    match e
    case Got(cwd, reuse) =>
      assert forall m :: m in s.stringIds ==> s.stringIds[m] != Placeholder(s.next);
      AddInverse(s, Placeholder(s.next));
    case Busied(n, busy) =>
    case Ran(n, handle) => if n in s.current { RenameInverse(s, n, handle); }
    case Created(handle) => AddInverse(s, Handle(handle));
    case Disposed =>
  }

  ghost predicate AlwaysInverse(events: seq<Event>) {
    forall k :: 0 <= k <= |events| ==> Inverse(Run(events[..k]))
  }

  lemma AlwaysInversePush(rest: seq<Event>, e: Event)
    ensures AlwaysInverse(rest + [e]) <==> AlwaysInverse(rest) && Inverse(Run(rest + [e]))
  {
    var events := rest + [e];
    assert events[..|events|] == events;
    assert forall k :: 0 <= k <= |rest| ==> events[..k] == rest[..k];
    if AlwaysInverse(events) {
      forall k | 0 <= k <= |rest| ensures Inverse(Run(rest[..k])) { assert Inverse(Run(events[..k])); }
    }
  }

  lemma AlwaysInverseNow(events: seq<Event>)
    requires AlwaysInverse(events)
    ensures Inverse(Run(events))
  {
    assert events[..|events|] == events;
  }

  /** Throughout a run the two maps are inverse exactly if every id the client assigns is tracked for no
      other terminal, and no terminal gives up an id that is by then tracked for another. */
  lemma {:induction false} InverseIffClean(events: seq<Event>)
    ensures AlwaysInverse(events) <==> CleanRun(events)
    decreases |events|
  {
    if events != [] {
      var rest, e := events[..|events| - 1], events[|events| - 1];
      assert events == rest + [e];
      InverseIffClean(rest);
      AlwaysInversePush(rest, e);
      RunOrdered(rest);
      if AlwaysInverse(rest) {
        AlwaysInverseNow(rest);
        StepInverse(Run(rest), e);
      }
    }
  }

  lemma {:induction false} UnusedIsClean(events: seq<Event>)
    requires UnusedIds(events)
    ensures CleanRun(events)
    decreases |events|
  {
    if events != [] {
      var rest, e := events[..|events| - 1], events[|events| - 1];
      UnusedIsClean(rest);
      RunOrdered(rest);
      InverseIffClean(rest);
      AlwaysInverseNow(rest);
      RunValid(rest);
      assert (e.Ran? || e.Created?) ==> Handle(e.handle) !in Run(rest).current.Values;
    }
  }

  /** A terminal kept over disposeAll takes away the entry of another that was given its old id meanwhile. */
  lemma KeptTerminalTakesEntry(oldId: string, newId: string)
    requires oldId != newId
    ensures var events := [Created(oldId), Disposed, Created(oldId), Ran(1, newId)];
      !CleanRun(events) && CleanRun(events[..3]) && !AlwaysInverse(events)
  {
    var a, b := [Created(oldId)], [Created(oldId), Disposed];
    var c, d := [Created(oldId), Disposed, Created(oldId)], [Created(oldId), Disposed, Created(oldId), Ran(1, newId)];
    assert a[..0] == [] && b[..1] == a && c[..2] == b && d[..3] == c;
    var s1 := Add(Start(), Handle(oldId));
    assert Run(a) == s1;
    assert Run(b) == Dispose(s1);
    assert Run(c) == Add(Dispose(s1), Handle(oldId));
    assert CleanRun([]) && CleanRun(a) && CleanRun(b) && CleanRun(c);
    assert Run(c).current[1] == Handle(oldId) && Run(c).terminals[Handle(oldId)] == 2;
    InverseIffClean(d);
  }

  /** An id that another tracked terminal still bears leaves that terminal under the wrong entry. */
  lemma ReusedIdBreaksInverse(s: State, n: nat, m: nat, handle: string)
    requires Ordered(s) && Inverse(s) && n in s.current && m in s.stringIds && m != n && s.stringIds[m] == Handle(handle)
    ensures !Inverse(Rename(s, n, handle))
  {
    RenameInverse(s, n, handle);
  }

  /** What getOrCreateTerminal hands out: tracked, idle and in the directory asked for. */
  lemma GotIsIdle(events: seq<Event>, cwd: string, reuse: bool)
    ensures var s := Run(events);
      var (s', info) := GetOrCreate(s, cwd, reuse);
      && !info.busy && info.cwd == cwd && info in s'.infos && info.numericId in s'.stringIds
      && ((exists k :: 0 <= k < |s.infos| && !s.infos[k].busy && s.infos[k].cwd == cwd) ==> s' == s && info in s.infos)
      && (info.numericId !in s.stringIds ==> info.numericId == s.next && forall k :: 0 <= k < |s.infos| ==> reuse ==> s.infos[k].busy)
  {
    var s := Run(events);
    RunOrdered(events);
    var same, idle := FirstIdle(s.infos, Some(cwd)), FirstIdle(s.infos, None);
    var (s', info) := GetOrCreate(s, cwd, reuse);
    forall k | 0 <= k < |s.infos| && !s.infos[k].busy && s.infos[k].cwd == cwd ensures same.Some? {
      assert Suits(s.infos[k], Some(cwd));
    }
    if same.Some? {
      assert s.infos[same.value].numericId in s.stringIds;
    } else if reuse && idle.Some? {
      assert s'.infos[idle.value] == info && s.infos[idle.value].numericId in s.stringIds;
    } else {
      assert s'.infos[|s.infos|] == info;
      if reuse {
        forall k | 0 <= k < |s.infos| ensures s.infos[k].busy { assert !Suits(s.infos[k], None); }
      }
    }
  }

  // ----- The manager

  class Manager {
    var terminals: map<TerminalId, nat>
    var numericIdToStringId: map<nat, TerminalId>
    var nextNumericId: nat
    var terminalInfos: seq<Info>
    var managedId: map<nat, TerminalId>

    constructor ()
      ensures Value() == Start()
    {
      terminals, numericIdToStringId, nextNumericId, terminalInfos, managedId := map[], map[], 1, [], map[];
    }

    function Value(): State
      reads this
    {
      State(terminals, numericIdToStringId, nextNumericId, terminalInfos, managedId)
    }

    method Find(cwd: Option<string>) returns (i: Option<nat>)
      ensures i == FirstIdle(terminalInfos, cwd)
    {
      for k := 0 to |terminalInfos|
        invariant forall j :: 0 <= j < k ==> !Suits(terminalInfos[j], cwd)
      {
        if Suits(terminalInfos[k], cwd) { return Some(k); }
      }
      return None;
    }

    method GetOrCreateTerminal(cwd: string, reuse: bool) returns (info: Info)
      modifies this
      ensures (Value(), info) == GetOrCreate(old(Value()), cwd, reuse)
    {
      var same := Find(Some(cwd));
      if same.Some? { return terminalInfos[same.value]; }
      if reuse {
        var idle := Find(None);
        if idle.Some? {
          info := terminalInfos[idle.value].(cwd := cwd);
          terminalInfos := terminalInfos[idle.value := info];
          return;
        }
      }
      var numericId := nextNumericId;
      nextNumericId := nextNumericId + 1;
      info := Info(numericId, cwd, false);
      managedId := managedId[numericId := Placeholder(numericId)];
      terminals := terminals[managedId[numericId] := numericId];
      numericIdToStringId := numericIdToStringId[numericId := managedId[numericId]];
      terminalInfos := terminalInfos + [info];
    }

    method SetTerminalBusy(numericId: nat, busy: bool)
      modifies this`terminalInfos
      ensures Value() == Step(old(Value()), Busied(numericId, busy))
    {
      ghost var before := terminalInfos;
      SetBusyKeepsIds(before, numericId, busy);
      for i := 0 to |terminalInfos|
        invariant |terminalInfos| == |before|
        invariant forall k :: 0 <= k < i ==> terminalInfos[k] == SetBusy(before, numericId, busy)[k]
        invariant forall k :: i <= k < |before| ==> terminalInfos[k] == before[k]
      {
        if terminalInfos[i].numericId == numericId {
          terminalInfos := terminalInfos[i := terminalInfos[i].(busy := busy)];
        }
      }
      assert terminalInfos == SetBusy(before, numericId, busy);
    }

    method CommandStarted(numericId: nat, handle: string)
      requires numericId in managedId
      modifies this
      ensures Value() == Rename(old(Value()), numericId, handle)
    {
      if managedId[numericId] in terminals {
        terminals := terminals - {managedId[numericId]};
      }
      managedId := managedId[numericId := Handle(handle)];
      terminals := terminals[Handle(handle) := numericId];
      numericIdToStringId := numericIdToStringId[numericId := Handle(handle)];
    }

    method TerminalCreated(handle: string) returns (numericId: nat)
      modifies this
      ensures numericId == old(nextNumericId) && Value() == Add(old(Value()), Handle(handle))
    {
      numericId := nextNumericId;
      nextNumericId := nextNumericId + 1;
      managedId := managedId[numericId := Handle(handle)];
      terminals := terminals[Handle(handle) := numericId];
      numericIdToStringId := numericIdToStringId[numericId := Handle(handle)];
    }

    method DisposeAll()
      modifies this
      ensures Value() == Dispose(old(Value()))
    {
      terminals, numericIdToStringId, terminalInfos := map[], map[], [];
    }
  }
}
