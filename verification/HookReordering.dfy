/** The hook pipeline permutes its messages and puts every moved hook in front of its tool. */
module HookReordering {
  import opened Sequences
  import opened HookMessages
  import opened HookMerging

  // ----- Pass 4 as a map over messages

  /** Every tool preceded by the hooks moved to it; every other unmoved message in its place. */
  function Place(target: Targets, all: seq<Message>, rest: seq<Message>): seq<Message>
    decreases rest
  {
    if rest == [] then []
    else
      var m := rest[0];
      var later := Place(target, all, rest[1..]);
      if IsTool(m) then MovedTo(target, all, {m.ts}) + [m] + later
      else if target(m).Some? then later
      else [m] + later
  }

  /** Tools are never moved. */
  ghost predicate ToolsStay(target: Targets) {
    forall m :: IsTool(m) ==> target(m).None?
  }

  lemma {:induction false} MovedToMember(target: Targets, ms: seq<Message>, tools: set<int>, h: Message)
    ensures h in MovedTo(target, ms, tools) <==>
      h in ms && target(h).Some? && target(h).value in tools
  {
    if ms != [] { MovedToMember(target, ms[1..], tools, h); }
  }

  lemma {:induction false} NotInNothing(ms: seq<Message>, seen: set<int>)
    requires forall m :: m in ms ==> m.ts !in seen
    ensures NotIn(ms, seen) == ms
  {
    if ms != [] { NotInNothing(ms[1..], seen); }
  }

  /** Every hook with a target has that target in the list. */
  ghost predicate TargetsPresent(target: Targets, all: seq<Message>) {
    forall m :: m in all && target(m).Some? ==> HasTool(all, target(m).value)
  }

  /** `ts` belongs to a hook moved to one of `tools`. */
  ghost predicate HookMovedTo(target: Targets, all: seq<Message>, tools: set<int>, ts: int) {
    exists h :: h in MovedTo(target, all, tools) && h.ts == ts
  }

  lemma NoHookAddedTwice(target: Targets, all: seq<Message>, tools: set<int>, t: int, h: Message)
    requires DistinctTimestamps(all) && t !in tools
    requires h in MovedTo(target, all, {t})
    ensures !HookMovedTo(target, all, tools, h.ts)
  {
    MovedToMember(target, all, {t}, h);
    if HookMovedTo(target, all, tools, h.ts) {
      var g := HookMoved(target, all, tools, h.ts);
      SameMessage(all, g, h);
    }
  }

  lemma HookMoved(target: Targets, all: seq<Message>, tools: set<int>, ts: int) returns (g: Message)
    requires HookMovedTo(target, all, tools, ts)
    ensures g in all && g.ts == ts && target(g).Some? && target(g).value in tools
  {
    g :| g in MovedTo(target, all, tools) && g.ts == ts;
    MovedToMember(target, all, tools, g);
  }

  lemma SameMessage(all: seq<Message>, g: Message, h: Message)
    requires DistinctTimestamps(all) && g in all && h in all && g.ts == h.ts
    ensures g == h
  {
  }

  lemma HooksAdded(target: Targets, all: seq<Message>, tools: set<int>, t: int, ts: int)
    requires HookMovedTo(target, all, tools, ts) || ts in Timestamps(MovedTo(target, all, {t}))
    ensures HookMovedTo(target, all, tools + {t}, ts)
  {
    var hooks := MovedTo(target, all, {t});
    var h: Message;
    if ts in Timestamps(hooks) {
      var i :| 0 <= i < |hooks| && hooks[i].ts == ts;
      h := hooks[i];
      assert h in hooks;
      MovedToMember(target, all, {t}, h);
    } else {
      h :| h in MovedTo(target, all, tools) && h.ts == ts;
      MovedToMember(target, all, tools, h);
    }
    MovedToMember(target, all, tools + {t}, h);
  }

  lemma {:induction false} ReorderIsPlace(target: Targets, all: seq<Message>, k: nat,
                                          addedHooks: set<int>, addedTools: set<int>)
    requires DistinctTimestamps(all) && k <= |all| && TargetsPresent(target, all) && ToolsStay(target)
    requires forall i :: k <= i < |all| ==> all[i].ts !in addedTools
    requires forall t :: t in addedHooks ==> HookMovedTo(target, all, addedTools, t)
    ensures Reorder(target, all, all[k..], addedHooks, addedTools) == Place(target, all, all[k..])
    decreases |all| - k
  {
    if k < |all| {
      var m := all[k];
      assert all[k..][1..] == all[k + 1..];
      var hooks := MovedTo(target, all, {m.ts});
      if IsTool(m) && hooks != [] {
        forall h | h in hooks ensures h.ts !in addedHooks {
          NoHookAddedTwice(target, all, addedTools, m.ts, h);
        }
        NotInNothing(hooks, addedHooks);
        forall t | t in addedHooks + Timestamps(hooks) ensures HookMovedTo(target, all, addedTools + {m.ts}, t) {
          HooksAdded(target, all, addedTools, m.ts, t);
        }
        ReorderIsPlace(target, all, k + 1, addedHooks + Timestamps(hooks), addedTools + {m.ts});
      } else {
        ReorderIsPlace(target, all, k + 1, addedHooks, addedTools);
        assert m in all;
        var later := Place(target, all, all[k + 1..]);
        assert [] + [m] + later == [m] + later;
      }
    }
  }

  // ----- The pipeline is a map over the merged messages

  lemma {:induction false} NextToolPresent(pre: HookTest, tail: seq<Message>)
    ensures NextTool(pre, tail).Some? ==> HasTool(tail, NextTool(pre, tail).value)
  {
    if tail != [] {
      NextToolPresent(pre, tail[1..]);
      assert tail == [tail[0]] + tail[1..];
      if NextTool(pre, tail).Some? { HasToolCons(tail[0], tail[1..], NextTool(pre, tail).value); }
    }
  }

  lemma {:induction false} AfterIsSuffix(ms: seq<Message>, ts: int, t: int)
    requires After(ms, ts).Some? && HasTool(After(ms, ts).value, t)
    ensures HasTool(ms, t)
  {
    if After(ms[1..], ts).Some? { AfterIsSuffix(ms[1..], ts, t); }
    assert ms == [ms[0]] + ms[1..];
    HasToolCons(ms[0], ms[1..], t);
  }

  lemma TargetIsTool(pre: HookTest, o: seq<Message>, m: Message, tool: int)
    requires Target(pre, o, m) == Some(tool)
    ensures HasTool(o, tool) && pre(m)
  {
    var tail := After(o, m.ts).value;
    assert NextTool(pre, tail) == Some(tool);
    NextToolPresent(pre, tail);
    AfterIsSuffix(o, m.ts, tool);
  }

  lemma TargetsArePresent(pre: HookTest, ms: seq<Message>, m: Message)
    requires HooksOnly(pre) && OnlyToolsShareTimestamps(ms) && TargetIn(pre, ms)(m).Some?
    ensures HasTool(Merged(ms), TargetIn(pre, ms)(m).value) && !IsTool(m)
  {
    var t := TargetIn(pre, ms)(m).value;
    assert HasTool(ms, t) && !IsTool(m) by { TargetIsTool(pre, ms, m, t); }
    MergedKeepsTool(ms, t);
  }

  lemma MergedKeepsTool(ms: seq<Message>, t: int)
    requires OnlyToolsShareTimestamps(ms)
    ensures HasTool(Merged(ms), t) <==> HasTool(ms, t)
  {
    MergedIsMap(ms);
  }

  lemma PipelineIsPlace(pre: HookTest, ms: seq<Message>)
    requires HooksOnly(pre) && OnlyToolsShareTimestamps(ms)
    ensures CombineHookSequences(pre, ms) == Place(TargetIn(pre, ms), Merged(ms), Merged(ms))
    ensures TargetsPresent(TargetIn(pre, ms), Merged(ms)) && ToolsStay(TargetIn(pre, ms))
  {
    var all, target := Merged(ms), TargetIn(pre, ms);
    MergedIsMap(ms);
    assert TargetsPresent(target, all) && ToolsStay(target) by {
      forall m: Message ensures target(m).Some? ==> HasTool(all, target(m).value) && !IsTool(m) {
        if target(m).Some? { TargetsArePresent(pre, ms, m); }
      }
    }
    PlaceAll(target, all);
  }

  lemma PlaceAll(target: Targets, all: seq<Message>)
    requires DistinctTimestamps(all) && TargetsPresent(target, all) && ToolsStay(target)
    ensures Reorder(target, all, all, {}, {}) == Place(target, all, all)
  {
    assert all[0..] == all;
    ReorderIsPlace(target, all, 0, {}, {});
  }

  // ----- Theorems

  /** The messages that are not moved, in order. */
  function Stay(target: Targets, ms: seq<Message>): seq<Message> {
    if ms == [] then []
    else if target(ms[0]).Some? then Stay(target, ms[1..])
    else [ms[0]] + Stay(target, ms[1..])
  }

  function ToolTimestamps(ms: seq<Message>): set<int> {
    if ms == [] then {}
    else (if IsTool(ms[0]) then {ms[0].ts} else {}) + ToolTimestamps(ms[1..])
  }

  lemma {:induction false} ToolTimestampsAre(ms: seq<Message>, t: int)
    ensures t in ToolTimestamps(ms) <==> HasTool(ms, t)
  {
    if ms != [] {
      ToolTimestampsAre(ms[1..], t);
      assert ms == [ms[0]] + ms[1..];
      HasToolCons(ms[0], ms[1..], t);
    }
  }

  lemma {:induction false} MovedToUnion(target: Targets, ms: seq<Message>, t: int, tools: set<int>)
    requires t !in tools
    ensures multiset(MovedTo(target, ms, {t})) + multiset(MovedTo(target, ms, tools))
         == multiset(MovedTo(target, ms, {t} + tools))
  {
    if ms != [] { MovedToUnion(target, ms[1..], t, tools); }
  }

  lemma {:induction false} MovedOrStay(target: Targets, ms: seq<Message>, tools: set<int>)
    requires forall m :: m in ms && target(m).Some? ==> target(m).value in tools
    ensures multiset(Stay(target, ms)) + multiset(MovedTo(target, ms, tools)) == multiset(ms)
  {
    if ms != [] {
      assert ms == [ms[0]] + ms[1..];
      MovedOrStay(target, ms[1..], tools);
    }
  }

  lemma {:induction false} PlaceCounts(target: Targets, all: seq<Message>, rest: seq<Message>)
    requires DistinctTimestamps(rest)
    requires ToolsStay(target)
    ensures multiset(Place(target, all, rest))
         == multiset(Stay(target, rest)) + multiset(MovedTo(target, all, ToolTimestamps(rest)))
    decreases rest
  {
    if rest == [] {
      NoneMoved(target, all);
    } else {
      var m, r := rest[0], rest[1..];
      assert rest == [m] + r;
      TimestampsCons(m, r);
      PlaceCounts(target, all, r);
      if IsTool(m) {
        ToolTimestampsAre(r, m.ts);
        assert m.ts !in ToolTimestamps(r);
        MovedToUnion(target, all, m.ts, ToolTimestamps(r));
        PlaceTool(target, all, m, Place(target, all, r));
        assert Stay(target, rest) == [m] + Stay(target, r);
      } else {
        assert ToolTimestamps(rest) == ToolTimestamps(r);
      }
    }
  }

  lemma PlaceTool(target: Targets, all: seq<Message>, m: Message, later: seq<Message>)
    ensures multiset(MovedTo(target, all, {m.ts}) + [m] + later)
         == multiset(MovedTo(target, all, {m.ts})) + multiset{m} + multiset(later)
  {
  }

  lemma {:induction false} NoneMoved(target: Targets, ms: seq<Message>)
    ensures MovedTo(target, ms, {}) == []
  {
    if ms != [] { NoneMoved(target, ms[1..]); }
  }

  /** The output is a permutation of the merged messages. */
  lemma PipelinePermutes(pre: HookTest, ms: seq<Message>)
    requires HooksOnly(pre) && OnlyToolsShareTimestamps(ms)
    ensures multiset(CombineHookSequences(pre, ms)) == multiset(MapCombine(Dedupe(ms)))
  {
    var all := Merged(ms);
    PipelineIsPlace(pre, ms);
    MergedIsMap(ms);
    var target := TargetIn(pre, ms);
    PlaceCounts(target, all, all);
    forall m | m in all && target(m).Some? ensures target(m).value in ToolTimestamps(all) {
      ToolTimestampsAre(all, target(m).value);
    }
    MovedOrStay(target, all, ToolTimestamps(all));
  }

  lemma {:induction false} StayAppend(target: Targets, a: seq<Message>, b: seq<Message>)
    ensures Stay(target, a + b) == Stay(target, a) + Stay(target, b)
  {
    if a == [] {
      assert a + b == b;
    } else {
      assert (a + b)[1..] == a[1..] + b;
      StayAppend(target, a[1..], b);
    }
  }

  lemma {:induction false} MovedDoNotStay(target: Targets, ms: seq<Message>, tools: set<int>)
    ensures Stay(target, MovedTo(target, ms, tools)) == []
  {
    if ms != [] { MovedDoNotStay(target, ms[1..], tools); }
  }

  lemma {:induction false} PlaceKeepsOrder(target: Targets, all: seq<Message>, rest: seq<Message>)
    requires ToolsStay(target)
    ensures Stay(target, Place(target, all, rest)) == Stay(target, rest)
    decreases rest
  {
    if rest != [] {
      var m := rest[0];
      var later := Place(target, all, rest[1..]);
      PlaceKeepsOrder(target, all, rest[1..]);
      if IsTool(m) {
        var hooks := MovedTo(target, all, {m.ts});
        StayAppend(target, hooks + [m], later);
        StayAppend(target, hooks, [m]);
        MovedDoNotStay(target, all, {m.ts});
      }
    }
  }

  /** All messages that are not moved keep their relative order. */
  lemma PipelineKeepsOrder(pre: HookTest, ms: seq<Message>)
    requires HooksOnly(pre) && OnlyToolsShareTimestamps(ms)
    ensures Stay(TargetIn(pre, ms), CombineHookSequences(pre, ms)) == Stay(TargetIn(pre, ms), MapCombine(Dedupe(ms)))
  {
    PipelineIsPlace(pre, ms);
    MergedIsMap(ms);
    PlaceKeepsOrder(TargetIn(pre, ms), Merged(ms), Merged(ms));
  }

  /** Positions k up to j hold only hooks moved to the tool at j. */
  ghost predicate Leads(target: Targets, out: seq<Message>, k: nat, j: nat) {
    k < j < |out| && IsTool(out[j]) &&
    forall i :: k <= i < j ==> target(out[i]) == Some(out[j].ts)
  }

  lemma LeadsShifts(target: Targets, a: seq<Message>, b: seq<Message>, k: nat, j: nat)
    requires Leads(target, b, k, j)
    ensures Leads(target, a + b, |a| + k, |a| + j)
  {
    var out := a + b;
    assert out[|a| + j] == b[j];
    forall i | |a| + k <= i < |a| + j ensures target(out[i]) == Some(b[j].ts) {
      assert out[i] == b[i - |a|];
    }
  }

  lemma HooksLead(target: Targets, all: seq<Message>, m: Message, later: seq<Message>, k: nat)
    requires IsTool(m) && k < |MovedTo(target, all, {m.ts})|
    ensures Leads(target, MovedTo(target, all, {m.ts}) + [m] + later, k, |MovedTo(target, all, {m.ts})|)
  {
    var hooks := MovedTo(target, all, {m.ts});
    var out := hooks + [m] + later;
    assert out[|hooks|] == m;
    forall i | k <= i < |hooks| ensures target(out[i]) == Some(m.ts) {
      assert out[i] == hooks[i];
      MovedToMember(target, all, {m.ts}, hooks[i]);
    }
  }

  lemma {:induction false} PlacePutsHooksInFront(target: Targets, all: seq<Message>,
                                                 rest: seq<Message>, k: nat) returns (j: nat)
    requires ToolsStay(target)
    requires k < |Place(target, all, rest)|
    requires target(Place(target, all, rest)[k]).Some?
    ensures Leads(target, Place(target, all, rest), k, j)
    decreases rest, 0
  {
    var m := rest[0];
    var later := Place(target, all, rest[1..]);
    if IsTool(m) {
      var hooks := MovedTo(target, all, {m.ts});
      if k < |hooks| {
        HooksLead(target, all, m, later, k);
        j := |hooks|;
      } else {
        j := LeadsAfter(target, all, hooks + [m], rest[1..], k);
      }
    } else if target(m).Some? {
      j := PlacePutsHooksInFront(target, all, rest[1..], k);
    } else {
      j := LeadsAfter(target, all, [m], rest[1..], k);
    }
  }

  lemma {:induction false} LeadsAfter(target: Targets, all: seq<Message>,
                                      before: seq<Message>, rest: seq<Message>, k: nat) returns (j: nat)
    requires ToolsStay(target)
    requires |before| > 0 && target(before[|before| - 1]).None?
    requires |before| - 1 <= k < |before + Place(target, all, rest)|
    requires target((before + Place(target, all, rest))[k]).Some?
    ensures Leads(target, before + Place(target, all, rest), k, j)
    decreases rest, 1
  {
    var later := Place(target, all, rest);
    assert (before + later)[|before| - 1] == before[|before| - 1];
    assert (before + later)[k] == later[k - |before|];
    j := PlacePutsHooksInFront(target, all, rest, k - |before|);
    LeadsShifts(target, before, later, k - |before|, j);
    j := j + |before|;
  }

  /** Every moved hook ends directly before its tool, only hooks moved to the same tool between. */
  lemma PipelinePlacesHooks(pre: HookTest, ms: seq<Message>, k: nat) returns (j: nat)
    requires HooksOnly(pre) && OnlyToolsShareTimestamps(ms)
    requires k < |CombineHookSequences(pre, ms)|
    requires TargetIn(pre, ms)(CombineHookSequences(pre, ms)[k]).Some?
    ensures Leads(TargetIn(pre, ms), CombineHookSequences(pre, ms), k, j)
  {
    PipelineIsPlace(pre, ms);
    j := PlacePutsHooksInFront(TargetIn(pre, ms), Merged(ms), Merged(ms), k);
  }
}
