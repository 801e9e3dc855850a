/** With one timestamp per message, running the pipeline on its own output changes nothing. */
module HookIdempotence {
  import opened Sequences
  import opened HookMessages
  import opened HookMerging
  import opened HookReordering

  predicate IsStop(pre: HookTest, m: Message) {
    IsTool(m) || pre(m)
  }

  // ----- Where a hook's target is

  lemma {:induction false} AfterNone(ms: seq<Message>, ts: int)
    requires ts !in Timestamps(ms)
    ensures After(ms, ts) == None
  {
    if ms != [] {
      assert ms == [ms[0]] + ms[1..];
      TimestampsCons(ms[0], ms[1..]);
      AfterNone(ms[1..], ts);
    }
  }

  lemma {:induction false} AfterIs(ms: seq<Message>, k: nat)
    requires DistinctTimestamps(ms) && k < |ms|
    ensures After(ms, ms[k].ts) == Some(ms[k + 1..])
  {
    assert ms == [ms[0]] + ms[1..];
    TimestampsCons(ms[0], ms[1..]);
    if k == 0 {
      AfterNone(ms[1..], ms[0].ts);
    } else {
      AfterIs(ms[1..], k - 1);
      assert ms[1..][k..] == ms[k + 1..];
    }
  }

  lemma {:induction false} NextToolAt(pre: HookTest, ms: seq<Message>) returns (j: nat)
    requires NextTool(pre, ms).Some?
    ensures j < |ms| && IsTool(ms[j]) && ms[j].ts == NextTool(pre, ms).value
    ensures forall i :: 0 <= i < j ==> !IsStop(pre, ms[i])
  {
    if IsTool(ms[0]) {
      j := 0;
    } else {
      j := NextToolAt(pre, ms[1..]);
      j := j + 1;
      assert forall i :: 1 <= i < j ==> ms[i] == ms[1..][i - 1];
    }
  }

  /** A moved hook is older in the list and younger in time than its tool, no stop between them. */
  lemma TargetAt(pre: HookTest, ms: seq<Message>, i: nat) returns (j: nat)
    requires DistinctTimestamps(ms) && i < |ms| && TargetIn(pre, ms)(ms[i]).Some?
    ensures i < j < |ms| && IsTool(ms[j]) && TargetIn(pre, ms)(ms[i]) == Some(ms[j].ts)
    ensures forall x :: i < x < j ==> !IsStop(pre, ms[x])
  {
    AfterIs(ms, i);
    var tail := ms[i + 1..];
    j := NextToolAt(pre, tail);
    assert forall x :: i < x < i + 1 + j ==> ms[x] == tail[x - i - 1];
    j := i + 1 + j;
  }

  // ----- The reordering as a single walk that carries one hook at a time

  function Carry(pre: HookTest, rest: seq<Message>, held: seq<Message>): seq<Message>
    decreases rest
  {
    if rest == [] then held
    else
      var m, r := rest[0], rest[1..];
      var next := NextTool(pre, r);
      if IsTool(m) then held + [m] + Carry(pre, r, [])
      else if pre(m) then
        if next.Some? && m.ts > next.value then held + Carry(pre, r, [m])
        else held + [m] + Carry(pre, r, [])
      else [m] + Carry(pre, r, held)
  }

  lemma {:induction false} MovedToAppend(target: Targets, a: seq<Message>, b: seq<Message>, tools: set<int>)
    ensures MovedTo(target, a + b, tools) == MovedTo(target, a, tools) + MovedTo(target, b, tools)
  {
    if a == [] {
      assert a + b == b;
    } else {
      assert (a + b)[1..] == a[1..] + b;
      MovedToAppend(target, a[1..], b, tools);
    }
  }

  lemma {:induction false} MovedToNone(target: Targets, ms: seq<Message>, t: int)
    requires forall i :: 0 <= i < |ms| ==> target(ms[i]) != Some(t)
    ensures MovedTo(target, ms, {t}) == []
  {
    if ms != [] { MovedToNone(target, ms[1..], t); }
  }

  /** The hooks before position k that wait for the next tool. */
  function Held(pre: HookTest, ms: seq<Message>, k: nat): seq<Message>
    requires k <= |ms|
  {
    match NextTool(pre, ms[k..])
    case None => []
    case Some(t) => MovedTo(TargetIn(pre, ms), ms[..k], {t})
  }

  /** No hook is carried past a stop. */
  lemma HeldAfterStop(pre: HookTest, ms: seq<Message>, k: nat, t: int)
    requires DistinctTimestamps(ms) && k < |ms| && IsStop(pre, ms[k])
    requires NextTool(pre, ms[k + 1..]) == Some(t)
    ensures MovedTo(TargetIn(pre, ms), ms[..k], {t}) == []
  {
    var target := TargetIn(pre, ms);
    var at := NextToolAt(pre, ms[k + 1..]);
    assert ms[k + 1 + at] == ms[k + 1..][at];
    forall i | 0 <= i < k ensures target(ms[..k][i]) != Some(t) {
      if target(ms[i]) == Some(t) {
        var j := TargetAt(pre, ms, i);
      }
    }
    MovedToNone(target, ms[..k], t);
  }

  /** Every hook moved to a tool stands before it. */
  lemma HeldAtTool(pre: HookTest, ms: seq<Message>, k: nat)
    requires DistinctTimestamps(ms) && k < |ms| && IsTool(ms[k])
    ensures MovedTo(TargetIn(pre, ms), ms, {ms[k].ts}) == MovedTo(TargetIn(pre, ms), ms[..k], {ms[k].ts})
  {
    var target, t := TargetIn(pre, ms), ms[k].ts;
    forall i | 0 <= i < |ms| - k ensures target(ms[k..][i]) != Some(t) {
      if target(ms[k + i]) == Some(t) { var j := TargetAt(pre, ms, k + i); }
    }
    MovedToNone(target, ms[k..], t);
    MovedToAppend(target, ms[..k], ms[k..], {t});
    assert ms[..k] + ms[k..] == ms;
    assert MovedTo(target, ms[..k], {t}) + [] == MovedTo(target, ms[..k], {t});
  }

  lemma HeldStep(pre: HookTest, ms: seq<Message>, k: nat)
    requires HooksOnly(pre) && DistinctTimestamps(ms) && k < |ms|
    ensures IsTool(ms[k]) ==> Held(pre, ms, k + 1) == []
    ensures pre(ms[k]) ==> Held(pre, ms, k) == []
    ensures pre(ms[k]) ==> Held(pre, ms, k + 1) == if TargetIn(pre, ms)(ms[k]).Some? then [ms[k]] else []
    ensures !IsStop(pre, ms[k]) ==> Held(pre, ms, k + 1) == Held(pre, ms, k)
  {
    var target, m := TargetIn(pre, ms), ms[k];
    assert ms[k..][1..] == ms[k + 1..];
    assert ms[..k + 1] == ms[..k] + [m];
    AfterIs(ms, k);
    var next := NextTool(pre, ms[k + 1..]);
    if next.Some? {
      MovedToAppend(target, ms[..k], [m], {next.value});
      assert [m][1..] == [];
      assert MovedTo(target, [m], {next.value}) == if target(m) == Some(next.value) then [m] else [];
      if IsStop(pre, m) { HeldAfterStop(pre, ms, k, next.value); }
    }
  }

  lemma {:induction false} PlaceIsCarry(pre: HookTest, ms: seq<Message>, k: nat)
    requires HooksOnly(pre) && DistinctTimestamps(ms) && k <= |ms|
    ensures Place(TargetIn(pre, ms), ms, ms[k..]) == Carry(pre, ms[k..], Held(pre, ms, k))
    decreases |ms| - k
  {
    if k < |ms| {
      var m := ms[k];
      assert ms[k..][1..] == ms[k + 1..];
      PlaceIsCarry(pre, ms, k + 1);
      HeldStep(pre, ms, k);
      if IsTool(m) {
        HeldAtTool(pre, ms, k);
      } else {
        AfterIs(ms, k);
        assert [] + Carry(pre, ms[k + 1..], [m]) == Carry(pre, ms[k + 1..], [m]);
        assert [] + [m] == [m];
      }
    }
  }

  // ----- Walking twice is walking once

  /** The carried hook is waiting for the next tool, which is older than the hook. */
  ghost predicate Waiting(pre: HookTest, rest: seq<Message>, held: seq<Message>) {
    held == [] ||
    (|held| == 1 && pre(held[0]) && NextTool(pre, rest).Some? && held[0].ts > NextTool(pre, rest).value)
  }

  /** One step of the walk over a list given as head and tail. */
  lemma CarryCons(pre: HookTest, m: Message, later: seq<Message>, held: seq<Message>)
    ensures Carry(pre, [m] + later, held) ==
      (if IsTool(m) then held + [m] + Carry(pre, later, [])
       else if pre(m) then
         if NextTool(pre, later).Some? && m.ts > NextTool(pre, later).value then held + Carry(pre, later, [m])
         else held + [m] + Carry(pre, later, [])
       else [m] + Carry(pre, later, held))
    ensures NextTool(pre, [m] + later) == if IsTool(m) then Some(m.ts) else if pre(m) then None else NextTool(pre, later)
  {
    assert ([m] + later)[1..] == later;
  }

  /** Walking the list again changes nothing, and this tool comes next in it. */
  ghost predicate Settled(pre: HookTest, ms: seq<Message>, next: Option<int>) {
    Carry(pre, ms, []) == ms && NextTool(pre, ms) == next
  }

  lemma ToolSettles(pre: HookTest, m: Message, later: seq<Message>, next: Option<int>)
    requires IsTool(m) && Settled(pre, later, next)
    ensures Settled(pre, [] + [m] + later, Some(m.ts))
  {
    CarryCons(pre, m, later, []);
    assert [] + [m] + later == [m] + later;
  }

  /** A tool, after the hook in hand. */
  lemma HookAndToolSettle(pre: HookTest, h: Message, m: Message, later: seq<Message>, next: Option<int>)
    requires HooksOnly(pre) && IsTool(m) && pre(h) && h.ts > m.ts && Settled(pre, later, next)
    ensures Settled(pre, [h] + [m] + later, None)
  {
    var tail := [m] + later;
    assert [h] + [m] + later == [h] + tail;
    CarryCons(pre, m, later, [h]);
    assert Carry(pre, tail, [h]) == [h] + [m] + later;
    CarryCons(pre, h, tail, []);
    assert [] + Carry(pre, tail, [h]) == Carry(pre, tail, [h]);
  }

  lemma HookSettles(pre: HookTest, m: Message, later: seq<Message>, next: Option<int>)
    requires HooksOnly(pre) && pre(m) && Settled(pre, later, next) && (next.Some? ==> m.ts <= next.value)
    ensures Settled(pre, [] + [m] + later, None)
  {
    CarryCons(pre, m, later, []);
    assert [] + [m] + later == [m] + later;
  }

  lemma OtherSettles(pre: HookTest, m: Message, later: seq<Message>, next: Option<int>)
    requires !IsTool(m) && !pre(m) && Settled(pre, later, next)
    ensures Settled(pre, [m] + later, next)
  {
    CarryCons(pre, m, later, []);
  }

  lemma {:induction false} CarryTwice(pre: HookTest, rest: seq<Message>, held: seq<Message>)
    requires HooksOnly(pre) && Waiting(pre, rest, held)
    ensures Settled(pre, Carry(pre, rest, held), if held == [] then NextTool(pre, rest) else None)
    decreases rest
  {
    if rest != [] {
      var m, r := rest[0], rest[1..];
      var next := NextTool(pre, r);
      if IsTool(m) {
        CarryTwice(pre, r, []);
        if held == [] {
          ToolSettles(pre, m, Carry(pre, r, []), next);
        } else {
          assert held == [held[0]];
          HookAndToolSettle(pre, held[0], m, Carry(pre, r, []), next);
        }
      } else if !pre(m) {
        CarryTwice(pre, r, held);
        OtherSettles(pre, m, Carry(pre, r, held), if held == [] then next else None);
      } else if next.Some? && m.ts > next.value {
        CarryTwice(pre, r, [m]);
        assert [] + Carry(pre, r, [m]) == Carry(pre, r, [m]);
      } else {
        CarryTwice(pre, r, []);
        HookSettles(pre, m, Carry(pre, r, []), next);
      }
    }
  }

  lemma {:induction false} CarryKeepsMessages(pre: HookTest, rest: seq<Message>, held: seq<Message>)
    ensures multiset(Carry(pre, rest, held)) == multiset(held) + multiset(rest)
    decreases rest
  {
    if rest != [] {
      var m, r := rest[0], rest[1..];
      assert rest == [m] + r;
      CarryKeepsMessages(pre, r, []);
      CarryKeepsMessages(pre, r, [m]);
      CarryKeepsMessages(pre, r, held);
    }
  }

  lemma {:induction false} PermutationDistinct(a: seq<Message>, b: seq<Message>)
    requires multiset(a) == multiset(b) && DistinctTimestamps(a)
    ensures DistinctTimestamps(b)
  {
    forall i, j | 0 <= i < j < |b| ensures b[i].ts != b[j].ts {
      if b[i].ts == b[j].ts {
        assert b[i] in multiset(b) && b[j] in multiset(b);
        SameMessage(a, b[i], b[j]);
        assert b == b[..i] + [b[i]] + b[i + 1..j] + [b[j]] + b[j + 1..];
        assert multiset(a)[b[i]] >= 2;
        CountedOnce(a, b[i]);
      }
    }
  }

  lemma {:induction false} CountedOnce(a: seq<Message>, m: Message)
    requires DistinctTimestamps(a)
    ensures multiset(a)[m] <= 1
  {
    if a != [] {
      assert a == [a[0]] + a[1..];
      CountedOnce(a[1..], m);
      assert a[0] !in a[1..];
    }
  }

  // ----- The merged messages are merged already

  lemma {:induction false} NothingToAppend(acc: string, tail: seq<Message>)
    requires forall m :: m in tail ==> !IsHookOutput(m)
    ensures AppendOutputs(acc, false, tail) == acc
    decreases tail
  {
    if tail != [] { NothingToAppend(acc, tail[1..]); }
  }

  lemma {:induction false} NothingToMerge(ms: seq<Message>)
    requires forall m :: m in ms ==> !IsHookOutput(m) && (IsHookStatus(m) ==> m.text.Some?)
    ensures MapCombine(ms) == ms
  {
    if ms != [] {
      NothingToMerge(ms[1..]);
      NothingToAppend(TextOf(ms[0]), ms[1..]);
    }
  }

  lemma {:induction false} NextToolMerged(pre: HookTest, ms: seq<Message>)
    requires HooksOnly(pre) && OutputBlind(pre)
    ensures NextTool(pre, MapCombine(ms)) == NextTool(pre, ms)
  {
    if ms != [] {
      NextToolMerged(pre, ms[1..]);
      var first := if IsHookStatus(ms[0]) then Combined(ms[0], ms[1..]) else ms[0];
      assert ([first] + MapCombine(ms[1..]))[1..] == MapCombine(ms[1..]);
    }
  }

  /** Targets are the same in the original list and in the merged one. */
  lemma {:induction false} TargetMerged(pre: HookTest, ms: seq<Message>, m: Message)
    requires HooksOnly(pre) && OutputBlind(pre) && DistinctTimestamps(ms) && m in MapCombine(ms)
    ensures TargetIn(pre, ms)(m) == TargetIn(pre, MapCombine(ms))(m)
    ensures After(ms, m.ts).Some? && After(MapCombine(ms), m.ts).Some?
  {
    var x, r := ms[0], ms[1..];
    assert ms == [x] + r;
    TimestampsCons(x, r);
    MapCombineKeeps(r);
    if m in MapCombine(r) {
      TargetMerged(pre, r, m);
    } else {
      AfterNone(r, x.ts);
      AfterNone(MapCombine(r), x.ts);
      NextToolMerged(pre, r);
    }
    assert !IsHookOutput(x) ==> MapCombine(ms)[1..] == MapCombine(r);
  }

  lemma {:induction false} PlaceSame(t1: Targets, t2: Targets, all: seq<Message>, rest: seq<Message>)
    requires forall m :: m in all || m in rest ==> t1(m) == t2(m)
    ensures Place(t1, all, rest) == Place(t2, all, rest)
    decreases rest
  {
    if rest != [] {
      PlaceSame(t1, t2, all, rest[1..]);
      MovedToSame(t1, t2, all, {rest[0].ts});
    }
  }

  lemma {:induction false} MovedToSame(t1: Targets, t2: Targets, ms: seq<Message>, tools: set<int>)
    requires forall m :: m in ms ==> t1(m) == t2(m)
    ensures MovedTo(t1, ms, tools) == MovedTo(t2, ms, tools)
  {
    if ms != [] { MovedToSame(t1, t2, ms[1..], tools); }
  }

  /** With distinct timestamps the whole pipeline is merging followed by one walk. */
  lemma PipelineIsCarry(pre: HookTest, ms: seq<Message>)
    requires HooksOnly(pre) && OutputBlind(pre) && DistinctTimestamps(ms)
    ensures CombineHookSequences(pre, ms) == Carry(pre, MapCombine(ms), [])
    ensures Merged(ms) == MapCombine(ms) && DistinctTimestamps(MapCombine(ms))
  {
    PipelineIsPlace(pre, ms);
    MergedIsMap(ms);
    DedupeNothing(ms);
    var c := MapCombine(ms);
    forall m | m in c ensures TargetIn(pre, ms)(m) == TargetIn(pre, c)(m) { TargetMerged(pre, ms, m); }
    PlaceSame(TargetIn(pre, ms), TargetIn(pre, c), c, c);
    PlaceIsCarry(pre, c, 0);
    assert c[0..] == c && c[..0] == [];
  }

  // ----- Theorems

  lemma PipelineIdempotent(pre: HookTest, ms: seq<Message>)
    requires HooksOnly(pre) && OutputBlind(pre) && DistinctTimestamps(ms)
    ensures CombineHookSequences(pre, CombineHookSequences(pre, ms)) == CombineHookSequences(pre, ms)
  {
    var c := MapCombine(ms);
    var out := Carry(pre, c, []);
    PipelineIsCarry(pre, ms);
    CarryKeepsMessages(pre, c, []);
    assert multiset(out) == multiset(c);
    PermutationDistinct(c, out);
    MapCombineKeeps(ms);
    forall m | m in out ensures m in c { assert m in multiset(out); }
    NothingToMerge(out);
    PipelineIsCarry(pre, out);
    CarryTwice(pre, c, []);
  }

  /** The tools and PreToolUse hooks of a list, in order. */
  function Stops(pre: HookTest, ms: seq<Message>): seq<Message> {
    if ms == [] then []
    else if IsStop(pre, ms[0]) then [ms[0]] + Stops(pre, ms[1..])
    else Stops(pre, ms[1..])
  }

  lemma {:induction false} NextToolStops(pre: HookTest, ms: seq<Message>)
    ensures NextTool(pre, Stops(pre, ms)) == NextTool(pre, ms)
  {
    if ms != [] {
      NextToolStops(pre, ms[1..]);
      assert ([ms[0]] + Stops(pre, ms[1..]))[1..] == Stops(pre, ms[1..]);
    }
  }

  lemma {:induction false} StopsTimestamps(pre: HookTest, ms: seq<Message>)
    ensures Timestamps(Stops(pre, ms)) <= Timestamps(ms)
  {
    if ms != [] {
      StopsTimestamps(pre, ms[1..]);
      assert ms == [ms[0]] + ms[1..];
      TimestampsCons(ms[0], ms[1..]);
      TimestampsCons(ms[0], Stops(pre, ms[1..]));
    }
  }

  /** A hook's target depends on the tools and PreToolUse hooks alone. */
  lemma {:induction false} TargetStops(pre: HookTest, ms: seq<Message>, h: Message)
    requires DistinctTimestamps(ms) && h in ms && pre(h)
    ensures After(ms, h.ts).Some? && After(Stops(pre, ms), h.ts).Some?
    ensures TargetIn(pre, Stops(pre, ms))(h) == TargetIn(pre, ms)(h)
  {
    var x, r := ms[0], ms[1..];
    assert ms == [x] + r;
    TimestampsCons(x, r);
    StopsTimestamps(pre, r);
    if h in r {
      TargetStops(pre, r, h);
    } else {
      AfterNone(r, x.ts);
      AfterNone(Stops(pre, r), x.ts);
      NextToolStops(pre, r);
    }
    assert IsStop(pre, x) ==> Stops(pre, ms)[1..] == Stops(pre, r);
  }

  lemma {:induction false} StopsAppend(pre: HookTest, a: seq<Message>, b: seq<Message>)
    ensures Stops(pre, a + b) == Stops(pre, a) + Stops(pre, b)
  {
    if a == [] {
      assert a + b == b;
    } else {
      assert (a + b)[1..] == a[1..] + b;
      StopsAppend(pre, a[1..], b);
    }
  }

  lemma StopsOne(pre: HookTest, m: Message)
    ensures Stops(pre, [m]) == if IsStop(pre, m) then [m] else []
  {
    assert [m][1..] == [];
  }

  /** What is in hand and the stop it is put before. */
  lemma StopsPut(pre: HookTest, held: seq<Message>, m: Message, later: seq<Message>)
    requires Stops(pre, held) == held && IsStop(pre, m)
    ensures Stops(pre, held + [m] + later) == held + ([m] + Stops(pre, later))
  {
    StopsAppend(pre, held + [m], later);
    StopsAppend(pre, held, [m]);
    StopsOne(pre, m);
  }

  lemma StopsSkip(pre: HookTest, m: Message, later: seq<Message>)
    requires !IsStop(pre, m)
    ensures Stops(pre, [m] + later) == Stops(pre, later)
  {
    assert ([m] + later)[1..] == later;
  }

  lemma {:induction false} CarryKeepsStops(pre: HookTest, rest: seq<Message>, held: seq<Message>)
    requires HooksOnly(pre) && Waiting(pre, rest, held)
    ensures Stops(pre, Carry(pre, rest, held)) == held + Stops(pre, rest)
    decreases rest
  {
    if held != [] {
      assert held == [held[0]];
      StopsOne(pre, held[0]);
    }
    assert Stops(pre, held) == held;
    if rest != [] {
      var m, r := rest[0], rest[1..];
      var next := NextTool(pre, r);
      if IsTool(m) || (pre(m) && !(next.Some? && m.ts > next.value)) {
        CarryKeepsStops(pre, r, []);
        assert [] + Stops(pre, r) == Stops(pre, r);
        StopsPut(pre, held, m, Carry(pre, r, []));
      } else if pre(m) {
        CarryKeepsStops(pre, r, [m]);
        assert [] + Carry(pre, r, [m]) == Carry(pre, r, [m]);
        assert [] + ([m] + Stops(pre, r)) == [m] + Stops(pre, r);
      } else {
        CarryKeepsStops(pre, r, held);
        StopsSkip(pre, m, Carry(pre, r, held));
      }
    }
  }

  /** The second run moves exactly the hooks that the first run moved, to the same tools. */
  lemma PipelineMovesSameHooks(pre: HookTest, ms: seq<Message>, h: Message)
    requires HooksOnly(pre) && OutputBlind(pre) && DistinctTimestamps(ms)
    requires h in CombineHookSequences(pre, ms)
    ensures TargetIn(pre, CombineHookSequences(pre, ms))(h) == TargetIn(pre, ms)(h)
  {
    var c := MapCombine(ms);
    var out := Carry(pre, c, []);
    PipelineIsCarry(pre, ms);
    CarryKeepsMessages(pre, c, []);
    assert h in multiset(out);
    PermutationDistinct(c, out);
    if pre(h) {
      CarryKeepsStops(pre, c, []);
      assert [] + Stops(pre, c) == Stops(pre, c);
      TargetStops(pre, out, h);
      TargetStops(pre, c, h);
    }
    TargetMerged(pre, ms, h);
  }
}
