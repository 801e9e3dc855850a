/** Exactly when a second run of the hook pipeline changes something, and exactly which messages a run drops. */
module HookStability {
  import opened Sequences
  import opened HookMessages
  import opened HookMerging
  import opened HookReordering
  import opened HookIdempotence
  import opened HookPipeline

  // ----- A walk that changes nothing

  /** Every hook that a walk would carry stands directly before its tool already. */
  predicate InPlace(pre: HookTest, ms: seq<Message>) {
    ms == [] || (StandsWell(pre, ms[0], ms[1..]) && InPlace(pre, ms[1..]))
  }

  predicate StandsWell(pre: HookTest, m: Message, tail: seq<Message>) {
    pre(m) && NextTool(pre, tail).Some? && m.ts > NextTool(pre, tail).value ==> tail != [] && IsTool(tail[0])
  }

  lemma InPlaceCons(pre: HookTest, m: Message, tail: seq<Message>)
    ensures InPlace(pre, [m] + tail) <==> StandsWell(pre, m, tail) && InPlace(pre, tail)
  {
    assert ([m] + tail)[1..] == tail;
  }

  lemma {:induction false} CarryUnchanged(pre: HookTest, ms: seq<Message>)
    requires HooksOnly(pre) && DistinctTimestamps(ms)
    ensures Carry(pre, ms, []) == ms <==> InPlace(pre, ms)
  {
    if ms != [] {
      var m, r := ms[0], ms[1..];
      assert ms == [m] + r;
      TimestampsCons(m, r);
      CarryUnchanged(pre, r);
      if pre(m) && NextTool(pre, r).Some? && m.ts > NextTool(pre, r).value {
        CarriedUnchanged(pre, m, r);
      } else {
        assert Carry(pre, ms, []) == [m] + Carry(pre, r, []);
        assert Carry(pre, ms, [])[1..] == Carry(pre, r, []);
      }
    }
  }

  /** A hook taken in hand comes back to its place only if the tool is next. */
  lemma CarriedUnchanged(pre: HookTest, m: Message, r: seq<Message>)
    requires HooksOnly(pre) && pre(m) && r != [] && m.ts != r[0].ts
    requires NextTool(pre, r).Some? && m.ts > NextTool(pre, r).value
    ensures Carry(pre, [m] + r, []) == [m] + r <==> IsTool(r[0]) && Carry(pre, r, []) == r
  {
    var x, tail := r[0], r[1..];
    assert r == [x] + tail;
    CarryCons(pre, m, r, []);
    CarryCons(pre, x, tail, [m]);
    CarryCons(pre, x, tail, []);
    assert [] + Carry(pre, r, [m]) == Carry(pre, r, [m]);
    if IsTool(x) {
      var later := Carry(pre, tail, []);
      assert Carry(pre, r, [m]) == [m] + [x] + later && Carry(pre, r, []) == [x] + later;
      assert [m] + [x] + later == [m] + ([x] + later);
      assert ([m] + ([x] + later))[1..] == [x] + later && ([m] + r)[1..] == r;
    } else {
      assert Carry(pre, r, [m])[0] == x && ([m] + r)[0] == m;
    }
  }

  // ----- The list after one run, read off the list before it

  /** Tells the timestamps of tools to which no hook is moved. */
  type Free = int -> bool

  function FreeIn(target: Targets, ms: seq<Message>): Free {
    t => MovedTo(target, ms, {t}) == []
  }

  /** The tool that comes next once moved hooks are gone and stand before their tools. */
  function NextStay(pre: HookTest, target: Targets, free: Free, ms: seq<Message>): Option<int> {
    if ms == [] then None
    else if IsTool(ms[0]) then if free(ms[0].ts) then Some(ms[0].ts) else None
    else if pre(ms[0]) && target(ms[0]).None? then None
    else NextStay(pre, target, free, ms[1..])
  }

  /** That tool comes first of all. */
  predicate AtOnce(target: Targets, free: Free, ms: seq<Message>) {
    ms != [] &&
    (if IsTool(ms[0]) then free(ms[0].ts)
     else (IsHookOutput(ms[0]) || target(ms[0]).Some?) && AtOnce(target, free, ms[1..]))
  }

  /** Some hook that is not moved will stand before an older tool with something between. */
  predicate Unsettled(pre: HookTest, target: Targets, free: Free, ms: seq<Message>) {
    ms != [] && (LeftBehind(pre, target, free, ms[0], ms[1..]) || Unsettled(pre, target, free, ms[1..]))
  }

  predicate LeftBehind(pre: HookTest, target: Targets, free: Free, m: Message, tail: seq<Message>) {
    pre(m) && target(m).None? && NextStay(pre, target, free, tail).Some? &&
    m.ts > NextStay(pre, target, free, tail).value && !AtOnce(target, free, tail)
  }

  ghost predicate MovesHooks(pre: HookTest, target: Targets) {
    forall m :: target(m).Some? ==> pre(m)
  }

  /** Where the placed list begins, and with which tool next. */
  lemma PlacedNext(pre: HookTest, target: Targets, all: seq<Message>, free: Free, r: seq<Message>)
    requires HooksOnly(pre) && MovesHooks(pre, target) && forall t :: free(t) <==> MovedTo(target, all, {t}) == []
    requires forall i :: 0 <= i < |r| ==> !IsHookOutput(r[i])
    ensures NextTool(pre, Place(target, all, r)) == NextStay(pre, target, free, r)
    ensures Place(target, all, r) != [] && IsTool(Place(target, all, r)[0]) <==> AtOnce(target, free, r)
    decreases r
  {
    if r != [] {
      var m, tail := r[0], r[1..];
      var later := Place(target, all, tail);
      PlacedNext(pre, target, all, free, tail);
      if IsTool(m) {
        var hooks := MovedTo(target, all, {m.ts});
        if hooks != [] {
          MovedToMember(target, all, {m.ts}, hooks[0]);
          assert (hooks + [m] + later)[0] == hooks[0];
        } else {
          assert [] + [m] + later == [m] + later;
        }
      } else {
        assert ([m] + later)[1..] == later;
      }
    }
  }

  lemma {:induction false} HooksInPlace(pre: HookTest, hooks: seq<Message>, m: Message, later: seq<Message>)
    requires HooksOnly(pre) && IsTool(m) && forall i :: 0 <= i < |hooks| ==> pre(hooks[i])
    ensures InPlace(pre, hooks + [m] + later) <==> InPlace(pre, later)
    ensures (hooks + [m] + later)[0] == if hooks == [] then m else hooks[0]
  {
    if hooks == [] {
      assert [] + [m] + later == [m] + later;
      InPlaceCons(pre, m, later);
    } else {
      var h, rest := hooks[0], hooks[1..];
      var tail := rest + [m] + later;
      HooksInPlace(pre, rest, m, later);
      assert hooks + [m] + later == [h] + tail;
      InPlaceCons(pre, h, tail);
    }
  }

  lemma {:induction false} PlacedInPlace(pre: HookTest, target: Targets, all: seq<Message>, free: Free, r: seq<Message>)
    requires HooksOnly(pre) && MovesHooks(pre, target) && forall t :: free(t) <==> MovedTo(target, all, {t}) == []
    requires forall i :: 0 <= i < |r| ==> !IsHookOutput(r[i])
    ensures InPlace(pre, Place(target, all, r)) <==> !Unsettled(pre, target, free, r)
    decreases r
  {
    if r != [] {
      var m, tail := r[0], r[1..];
      var later := Place(target, all, tail);
      PlacedInPlace(pre, target, all, free, tail);
      if IsTool(m) {
        var hooks := MovedTo(target, all, {m.ts});
        forall i | 0 <= i < |hooks| ensures pre(hooks[i]) { MovedToMember(target, all, {m.ts}, hooks[i]); }
        HooksInPlace(pre, hooks, m, later);
      } else if target(m).None? {
        InPlaceCons(pre, m, later);
        PlacedNext(pre, target, all, free, tail);
      }
    }
  }

  // ----- Merging changes none of this

  lemma {:induction false} MergedUnsettled(pre: HookTest, target: Targets, free: Free, ms: seq<Message>)
    requires HooksOnly(pre) && OutputBlind(pre) && MovesHooks(pre, target)
    requires forall hook, tail :: target(Combined(hook, tail)) == target(hook)
    ensures NextStay(pre, target, free, MapCombine(ms)) == NextStay(pre, target, free, ms)
    ensures AtOnce(target, free, MapCombine(ms)) <==> AtOnce(target, free, ms)
    ensures Unsettled(pre, target, free, MapCombine(ms)) <==> Unsettled(pre, target, free, ms)
  {
    if ms != [] {
      MergedUnsettled(pre, target, free, ms[1..]);
      var later := MapCombine(ms[1..]);
      var first := if IsHookStatus(ms[0]) then Combined(ms[0], ms[1..]) else ms[0];
      assert ([first] + later)[1..] == later;
    }
  }

  lemma {:induction false} MergedMoves(pre: HookTest, target: Targets, ms: seq<Message>, t: int)
    requires HooksOnly(pre) && MovesHooks(pre, target)
    requires forall hook, tail :: target(Combined(hook, tail)) == target(hook)
    ensures MovedTo(target, MapCombine(ms), {t}) == [] <==> MovedTo(target, ms, {t}) == []
  {
    if ms != [] {
      MergedMoves(pre, target, ms[1..], t);
      var later := MapCombine(ms[1..]);
      var first := if IsHookStatus(ms[0]) then Combined(ms[0], ms[1..]) else ms[0];
      assert ([first] + later)[1..] == later;
    }
  }

  // ----- The condition by positions

  /** Neither a tool nor a hook that stays. */
  predicate PassesBy(pre: HookTest, target: Targets, m: Message) {
    !IsTool(m) && (pre(m) ==> target(m).Some?)
  }

  /** Hook i stays, the next that stays to stop it is the older tool j, to which no hook is moved, and
      message k stays between them. */
  ghost predicate PassedOver(pre: HookTest, target: Targets, free: Free, ms: seq<Message>, i: nat, k: nat, j: nat) {
    && i < k < j < |ms|
    && pre(ms[i]) && target(ms[i]).None? && ms[i].ts > ms[j].ts
    && ReachedPast(pre, target, free, ms[i + 1..], k - i - 1, j - i - 1)
  }

  ghost predicate Reached(pre: HookTest, target: Targets, free: Free, tail: seq<Message>, j: nat) {
    && j < |tail| && IsTool(tail[j]) && free(tail[j].ts)
    && forall x :: 0 <= x < j ==> PassesBy(pre, target, tail[x])
  }

  ghost predicate ReachedPast(pre: HookTest, target: Targets, free: Free, tail: seq<Message>, k: nat, j: nat) {
    Reached(pre, target, free, tail, j) && k < j && !pre(tail[k]) && !IsHookOutput(tail[k])
  }

  lemma {:induction false} ReachedIs(pre: HookTest, target: Targets, free: Free, tail: seq<Message>, j: nat)
    requires Reached(pre, target, free, tail, j)
    ensures NextStay(pre, target, free, tail) == Some(tail[j].ts)
  {
    if j > 0 {
      assert PassesBy(pre, target, tail[0]);
      ReachedIs(pre, target, free, tail[1..], j - 1);
    }
  }

  lemma {:induction false} StayReached(pre: HookTest, target: Targets, free: Free, tail: seq<Message>) returns (j: nat)
    requires NextStay(pre, target, free, tail).Some?
    ensures Reached(pre, target, free, tail, j) && NextStay(pre, target, free, tail) == Some(tail[j].ts)
  {
    if IsTool(tail[0]) {
      j := 0;
    } else {
      var i := StayReached(pre, target, free, tail[1..]);
      j := i + 1;
      forall x | 0 <= x < j ensures PassesBy(pre, target, tail[x]) {
        if x > 0 { assert tail[x] == tail[1..][x - 1]; }
      }
    }
  }

  lemma {:induction false} PastIsNotAtOnce(pre: HookTest, target: Targets, free: Free, tail: seq<Message>, k: nat, j: nat)
    requires MovesHooks(pre, target) && ReachedPast(pre, target, free, tail, k, j)
    ensures !AtOnce(target, free, tail)
  {
    assert PassesBy(pre, target, tail[0]);
    if k > 0 {
      PastIsNotAtOnce(pre, target, free, tail[1..], k - 1, j - 1);
    }
  }

  lemma {:induction false} NotAtOncePast(pre: HookTest, target: Targets, free: Free, tail: seq<Message>) returns (k: nat, j: nat)
    requires NextStay(pre, target, free, tail).Some? && !AtOnce(target, free, tail)
    ensures ReachedPast(pre, target, free, tail, k, j) && NextStay(pre, target, free, tail) == Some(tail[j].ts)
  {
    j := StayReached(pre, target, free, tail);
    var m := tail[0];
    assert !IsTool(m);
    if IsHookOutput(m) || target(m).Some? {
      var k', j' := NotAtOncePast(pre, target, free, tail[1..]);
      k, j := k' + 1, j' + 1;
      forall x | 0 <= x < j ensures PassesBy(pre, target, tail[x]) {
        if x > 0 { assert tail[x] == tail[1..][x - 1]; }
      }
    } else {
      k := 0;
    }
  }

  lemma LeftBehindIs(pre: HookTest, target: Targets, free: Free, ms: seq<Message>, i: nat)
    requires MovesHooks(pre, target) && i < |ms|
    ensures LeftBehind(pre, target, free, ms[i], ms[i + 1..]) <==> exists k: nat, j: nat :: PassedOver(pre, target, free, ms, i, k, j)
  {
    var tail := ms[i + 1..];
    if LeftBehind(pre, target, free, ms[i], tail) {
      var k, j := NotAtOncePast(pre, target, free, tail);
      assert ms[j + i + 1] == tail[j];
      assert PassedOver(pre, target, free, ms, i, k + i + 1, j + i + 1);
    }
    if k: nat, j: nat :| PassedOver(pre, target, free, ms, i, k, j) {
      assert ms[j] == tail[j - i - 1];
      ReachedIs(pre, target, free, tail, j - i - 1);
      PastIsNotAtOnce(pre, target, free, tail, k - i - 1, j - i - 1);
    }
  }

  lemma {:induction false} UnsettledAt(pre: HookTest, target: Targets, free: Free, ms: seq<Message>, n: nat)
    requires n <= |ms|
    ensures Unsettled(pre, target, free, ms[n..])
       <==> exists i :: n <= i < |ms| && LeftBehind(pre, target, free, ms[i], ms[i + 1..])
    decreases |ms| - n
  {
    if n < |ms| {
      UnsettledAt(pre, target, free, ms, n + 1);
      assert ms[n..][1..] == ms[n + 1..];
    }
  }

  lemma UnsettledIs(pre: HookTest, target: Targets, free: Free, ms: seq<Message>)
    requires MovesHooks(pre, target)
    ensures Unsettled(pre, target, free, ms) <==> exists i: nat, k: nat, j: nat :: PassedOver(pre, target, free, ms, i, k, j)
  {
    UnsettledAt(pre, target, free, ms, 0);
    assert ms[0..] == ms;
    if i :| 0 <= i < |ms| && LeftBehind(pre, target, free, ms[i], ms[i + 1..]) { LeftBehindIs(pre, target, free, ms, i); }
    if i: nat, k: nat, j: nat :| PassedOver(pre, target, free, ms, i, k, j) { LeftBehindIs(pre, target, free, ms, i); }
  }

  // ----- Idempotence, exactly

  lemma SecondRun(pre: HookTest, ms: seq<Message>)
    requires HooksOnly(pre) && OutputBlind(pre) && OnlyToolsShareTimestamps(ms)
    ensures var out := CombineHookSequences(pre, ms);
      DistinctTimestamps(out) && CombineHookSequences(pre, out) == Carry(pre, out, [])
  {
    var out, merged := CombineHookSequences(pre, ms), MapCombine(Dedupe(ms));
    PipelinePermutes(pre, ms);
    MergedIsMap(ms);
    MapCombineKeeps(Dedupe(ms));
    PermutationDistinct(merged, out);
    forall m | m in out ensures m in merged { assert m in multiset(out); }
    NothingToMerge(out);
    PipelineIsCarry(pre, out);
  }

  lemma TargetsMoveHooks(pre: HookTest, ms: seq<Message>)
    requires OutputBlind(pre)
    ensures MovesHooks(pre, TargetIn(pre, ms))
    ensures forall hook, tail :: TargetIn(pre, ms)(Combined(hook, tail)) == TargetIn(pre, ms)(hook)
  {
    forall hook, tail ensures TargetIn(pre, ms)(Combined(hook, tail)) == TargetIn(pre, ms)(hook) {
      assert pre(Combined(hook, tail)) <==> pre(hook);
    }
  }

  /** If only tool variants share timestamps, a second run changes nothing exactly if no hook of the
      deduplicated list is passed over: read off the input before any run. */
  lemma IdempotentIff(pre: HookTest, ms: seq<Message>)
    requires HooksOnly(pre) && OutputBlind(pre) && OnlyToolsShareTimestamps(ms)
    ensures CombineHookSequences(pre, CombineHookSequences(pre, ms)) == CombineHookSequences(pre, ms)
       <==> !exists i: nat, k: nat, j: nat ::
              PassedOver(pre, TargetIn(pre, ms), FreeIn(TargetIn(pre, ms), Dedupe(ms)), Dedupe(ms), i, k, j)
  {
    var free := FreeIn(TargetIn(pre, ms), Dedupe(ms));
    var target, d, merged := TargetIn(pre, ms), Dedupe(ms), MapCombine(Dedupe(ms));
    TargetsMoveHooks(pre, ms);
    SecondRun(pre, ms);
    CarryUnchanged(pre, CombineHookSequences(pre, ms));
    PipelineIsPlace(pre, ms);
    MergedIsMap(ms);
    MapCombineKeeps(d);
    forall t ensures free(t) <==> MovedTo(target, merged, {t}) == [] { MergedMoves(pre, target, d, t); }
    forall i | 0 <= i < |merged| ensures !IsHookOutput(merged[i]) { assert merged[i] in merged; }
    PlacedInPlace(pre, target, merged, free, merged);
    MergedUnsettled(pre, target, free, d);
    UnsettledIs(pre, target, free, d);
  }

  /** In particular, if dropping superseded variants changes no hook's target. */
  lemma AgreeingTargetsIdempotent(pre: HookTest, ms: seq<Message>)
    requires HooksOnly(pre) && OutputBlind(pre) && OnlyToolsShareTimestamps(ms)
    requires forall h :: h in Dedupe(ms) && pre(h) ==> TargetIn(pre, ms)(h) == TargetIn(pre, Dedupe(ms))(h)
    ensures CombineHookSequences(pre, CombineHookSequences(pre, ms)) == CombineHookSequences(pre, ms)
  {
    var d, merged := Dedupe(ms), MapCombine(Dedupe(ms));
    MergedIsMap(ms);
    DedupeDistinct(ms);
    DedupeNothing(d);
    MergedIsMap(d);
    PipelineIsPlace(pre, ms);
    PipelineIsPlace(pre, d);
    forall m | m in merged ensures TargetIn(pre, ms)(m) == TargetIn(pre, d)(m) { TargetOfMerged(pre, ms, d, d, m); }
    PlaceSame(TargetIn(pre, ms), TargetIn(pre, d), merged, merged);
    PipelineIdempotent(pre, d);
  }

  lemma {:induction false} TargetOfMerged(pre: HookTest, a: seq<Message>, b: seq<Message>, ms: seq<Message>, m: Message)
    requires OutputBlind(pre) && m in MapCombine(ms)
    requires forall h :: h in ms && pre(h) ==> TargetIn(pre, a)(h) == TargetIn(pre, b)(h)
    ensures TargetIn(pre, a)(m) == TargetIn(pre, b)(m)
  {
    var first := if IsHookStatus(ms[0]) then Combined(ms[0], ms[1..]) else ms[0];
    if !IsHookOutput(ms[0]) && m == first {
      assert ms[0] in ms && (pre(first) <==> pre(ms[0]));
    } else {
      assert m in MapCombine(ms[1..]);
      TargetOfMerged(pre, a, b, ms[1..], m);
    }
  }

  // ----- Loss, exactly

  /** A tool before position `i` has this timestamp, and hooks are moved to it. */
  ghost predicate ServedBefore(target: Targets, all: seq<Message>, i: nat, t: int) {
    MovedTo(target, all, {t}) != [] && exists j :: 0 <= j < i && j < |all| && IsTool(all[j]) && all[j].ts == t
  }

  lemma ServedNext(target: Targets, all: seq<Message>, i: nat, t: int)
    requires i < |all|
    ensures ServedBefore(target, all, i + 1, t) <==>
      ServedBefore(target, all, i, t) || (IsTool(all[i]) && all[i].ts == t && MovedTo(target, all, {t}) != [])
  {
    if IsTool(all[i]) && all[i].ts == t && MovedTo(target, all, {t}) != [] { assert ServedBefore(target, all, i + 1, t); }
  }

  lemma {:induction false} NotInMember(ms: seq<Message>, seen: set<int>, m: Message)
    requires m in NotIn(ms, seen)
    ensures m in ms
  {
    if m !in NotIn(ms[1..], seen) { assert ms[0] == m; } else { NotInMember(ms[1..], seen, m); }
  }

  lemma {:induction false} ReorderDrops(target: Targets, all: seq<Message>, i: nat, addedHooks: set<int>, addedTools: set<int>, m: Message)
    requires i <= |all| && target(m).None?
    requires forall t :: t in addedTools <==> ServedBefore(target, all, i, t)
    ensures m in Reorder(target, all, all[i..], addedHooks, addedTools)
       <==> exists p :: i <= p < |all| && all[p] == m && (IsTool(m) || !ServedBefore(target, all, p, m.ts))
    decreases |all| - i
  {
    if i < |all| {
      var x := all[i];
      var hooks := MovedTo(target, all, {x.ts});
      ReorderNext(target, all, i, addedHooks, addedTools);
      forall t ensures ServedBefore(target, all, i + 1, t) <==>
        ServedBefore(target, all, i, t) || (IsTool(x) && x.ts == t && MovedTo(target, all, {t}) != [])
      { ServedNext(target, all, i, t); }
      if IsTool(x) && hooks != [] {
        var newHooks := NotIn(hooks, addedHooks);
        var hooks', tools' := addedHooks + Timestamps(newHooks), addedTools + {x.ts};
        ReorderDrops(target, all, i + 1, hooks', tools', m);
        if m in newHooks {
          NotInMember(hooks, addedHooks, m);
          MovedToMember(target, all, {x.ts}, m);
        }
      } else {
        ReorderDrops(target, all, i + 1, addedHooks, addedTools, m);
      }
    }
  }

  /** On any list whatever: a message that is not moved comes out exactly if it is a tool or some occurrence
      of it has no tool of its timestamp before it to which hooks are moved. */
  lemma UnmovedMessageComesOut(pre: HookTest, ms: seq<Message>, m: Message)
    requires TargetIn(pre, ms)(m).None?
    ensures m in CombineHookSequences(pre, ms)
       <==> exists p :: 0 <= p < |Merged(ms)| && Merged(ms)[p] == m &&
              (IsTool(m) || !ServedBefore(TargetIn(pre, ms), Merged(ms), p, m.ts))
  {
    var all, target := Merged(ms), TargetIn(pre, ms);
    assert all[0..] == all;
    assert forall t :: !ServedBefore(target, all, 0, t);
    ReorderDrops(target, all, 0, {}, {}, m);
  }

  // ----- Where hooks are moved

  /** Message i is the last with its timestamp. */
  predicate IsLast(ms: seq<Message>, i: nat) {
    i < |ms| && forall x :: i < x < |ms| ==> ms[x].ts != ms[i].ts
  }

  /** The first tool after position i, with no PreToolUse hook before it. */
  ghost predicate NextToolIs(pre: HookTest, ms: seq<Message>, i: nat, j: nat) {
    i < j < |ms| && IsTool(ms[j]) && forall x :: i < x < j ==> !IsTool(ms[x]) && !pre(ms[x])
  }

  lemma {:induction false} AfterLast(ms: seq<Message>, i: nat)
    requires IsLast(ms, i)
    ensures After(ms, ms[i].ts) == Some(ms[i + 1..])
  {
    if i == 0 {
      AfterNone(ms[1..], ms[0].ts);
    } else {
      assert IsLast(ms[1..], i - 1);
      AfterLast(ms[1..], i - 1);
      assert ms[1..][i..] == ms[i + 1..];
    }
  }

  lemma {:induction false} NextToolFound(pre: HookTest, tail: seq<Message>, j: nat)
    requires j < |tail| && IsTool(tail[j]) && forall x :: 0 <= x < j ==> !IsTool(tail[x]) && !pre(tail[x])
    ensures NextTool(pre, tail) == Some(tail[j].ts)
  {
    if j > 0 { NextToolFound(pre, tail[1..], j - 1); }
  }

  /** A message is moved exactly if it is a PreToolUse hook and, after the last message of its timestamp, an
      older tool comes before any other such hook; and it is moved to that tool. */
  lemma MovedIff(pre: HookTest, ms: seq<Message>, m: Message, i: nat, t: int)
    requires IsLast(ms, i) && ms[i].ts == m.ts
    ensures TargetIn(pre, ms)(m) == Some(t)
       <==> pre(m) && m.ts > t && exists j: nat :: NextToolIs(pre, ms, i, j) && ms[j].ts == t
  {
    var tail := ms[i + 1..];
    AfterLast(ms, i);
    if j: nat :| NextToolIs(pre, ms, i, j) && ms[j].ts == t {
      NextToolFound(pre, tail, j - i - 1);
    }
    if NextTool(pre, tail).Some? {
      var k := NextToolAt(pre, tail);
      assert NextToolIs(pre, ms, i, i + 1 + k) by {
        assert forall x :: i < x < i + 1 + k ==> ms[x] == tail[x - i - 1];
      }
    }
  }
}
