/** The four passes as the program runs them, each proved to compute its specification. */
module HookPipeline {
  import opened Sequences
  import opened InsertionMap
  import opened HookMessages
  import opened HookMerging
  import opened HookReordering
  import opened HookIdempotence

  method DedupeToolOrCommandMessagesByTimestamp(messages: seq<Message>) returns (result: seq<Message>)
    ensures result == Dedupe(messages)
  {
    var lastIndex: map<int, nat> := map[];
    for i := 0 to |messages|
      invariant forall t :: t in lastIndex ==>
        lastIndex[t] < i && IsTool(messages[lastIndex[t]]) && messages[lastIndex[t]].ts == t
      invariant forall j :: 0 <= j < i && IsTool(messages[j]) ==>
        messages[j].ts in lastIndex && j <= lastIndex[messages[j].ts]
    {
      if IsTool(messages[i]) { lastIndex := lastIndex[messages[i].ts := i]; }
    }
    result := [];
    assert messages[0..] == messages;
    for i := 0 to |messages|
      invariant result + Dedupe(messages[i..]) == Dedupe(messages)
    {
      var msg := messages[i];
      assert messages[i..][0] == msg && messages[i..][1..] == messages[i + 1..];
      if IsTool(msg) {
        var last := lastIndex[msg.ts];
        if last > i {
          assert messages[i + 1..][last - i - 1] == messages[last];
        }
        assert HasTool(messages[i + 1..], msg.ts) <==> last != i;
      }
      if !IsTool(msg) || lastIndex[msg.ts] == i {
        assert result + ([msg] + Dedupe(messages[i + 1..])) == (result + [msg]) + Dedupe(messages[i + 1..]);
        result := result + [msg];
      }
    }
    assert result + [] == result;
  }

  method CombineHookWithOutputs(hookMessage: Message, startIndex: nat, messages: seq<Message>)
    returns (combined: Message, nextIndex: nat)
    requires startIndex < |messages|
    ensures combined == Combined(hookMessage, messages[startIndex + 1..])
    ensures startIndex < nextIndex <= |messages|
    ensures forall j :: startIndex < j < nextIndex ==> !IsHookStatus(messages[j])
    ensures nextIndex < |messages| ==> IsHookStatus(messages[nextIndex])
  {
    var combinedText := TextOf(hookMessage);
    var hasOutput := false;
    var i := startIndex + 1;
    while i < |messages| && !IsHookStatus(messages[i])
      invariant startIndex < i <= |messages|
      invariant forall j :: startIndex < j < i ==> !IsHookStatus(messages[j])
      invariant AppendOutputs(combinedText, hasOutput, messages[i..])
             == AppendOutputs(TextOf(hookMessage), false, messages[startIndex + 1..])
    {
      assert messages[i..][0] == messages[i] && messages[i..][1..] == messages[i + 1..];
      if IsHookOutput(messages[i]) {
        if !hasOutput {
          combinedText := combinedText + ("\n" + HOOK_OUTPUT_STRING);
          hasOutput := true;
        }
        var output := TextOf(messages[i]);
        if |output| > 0 { combinedText := combinedText + ("\n" + output); }
      }
      i := i + 1;
    }
    combined := hookMessage.(text := Some(combinedText));
    nextIndex := i;
  }

  lemma {:induction false} LastCombinedSkips(ms: seq<Message>, i: nat, j: nat, ts: int)
    requires i <= j <= |ms|
    requires forall k :: i <= k < j ==> !IsHookStatus(ms[k])
    ensures LastCombined(ms[i..], ts) == LastCombined(ms[j..], ts)
    decreases j - i
  {
    if i < j {
      assert ms[i..][0] == ms[i] && ms[i..][1..] == ms[i + 1..];
      LastCombinedSkips(ms, i + 1, j, ts);
    }
  }

  /** What is known from the rest of the list or else from the entries collected so far. */
  ghost function OrElse<T>(later: Option<T>, collected: map<int, T>, ts: int): Option<T> {
    if later.Some? then later else if ts in collected then Some(collected[ts]) else None
  }

  method CombineAllHooks(messages: seq<Message>) returns (result: seq<Message>)
    ensures result == CombineAll(messages)
  {
    var combinedHooksByTs: map<int, Message> := map[];
    var i := 0;
    assert messages[0..] == messages;
    while i < |messages|
      invariant 0 <= i <= |messages|
      invariant forall ts :: LastCombined(messages, ts) == OrElse(LastCombined(messages[i..], ts), combinedHooksByTs, ts)
    {
      assert messages[i..][0] == messages[i] && messages[i..][1..] == messages[i + 1..];
      if IsHookStatus(messages[i]) {
        var combined, nextIndex := CombineHookWithOutputs(messages[i], i, messages);
        forall ts ensures LastCombined(messages[i + 1..], ts) == LastCombined(messages[nextIndex..], ts) {
          LastCombinedSkips(messages, i + 1, nextIndex, ts);
        }
        combinedHooksByTs := combinedHooksByTs[combined.ts := combined];
        i := nextIndex - 1;
      }
      i := i + 1;
    }
    result := [];
    for k := 0 to |messages|
      invariant result + CombineFrom(messages, messages[k..]) == CombineAll(messages)
    {
      var msg := messages[k];
      assert messages[k..][0] == msg && messages[k..][1..] == messages[k + 1..];
      var later := CombineFrom(messages, messages[k + 1..]);
      if IsHookOutput(msg) {
      } else if IsHookStatus(msg) {
        var pushed := if msg.ts in combinedHooksByTs then combinedHooksByTs[msg.ts] else msg;
        assert pushed == LastCombined(messages, msg.ts).GetOr(msg, c => c);
        assert result + ([pushed] + later) == (result + [pushed]) + later;
        result := result + [pushed];
      } else {
        assert result + ([msg] + later) == (result + [msg]) + later;
        result := result + [msg];
      }
    }
    assert result + [] == result;
  }

  method FindImmediateNextToolTimestamp(pre: HookTest, hookIndex: nat, messages: seq<Message>) returns (ts: Option<int>)
    requires hookIndex < |messages|
    ensures ts == NextTool(pre, messages[hookIndex + 1..])
  {
    for i := hookIndex + 1 to |messages|
      invariant NextTool(pre, messages[i..]) == NextTool(pre, messages[hookIndex + 1..])
    {
      var msg := messages[i];
      assert messages[i..][0] == msg && messages[i..][1..] == messages[i + 1..];
      if IsTool(msg) { return Some(msg.ts); }
      if pre(msg) { return None; }
    }
    return None;
  }

  /** The map holds, for every tool, the hooks moved to it. */
  ghost predicate MapsHooks(m: Entries<int, seq<Message>>, target: Targets, processed: seq<Message>) {
    forall t :: Get(m, t) == HooksOf(target, processed, t)
  }

  ghost function HooksOf(target: Targets, processed: seq<Message>, t: int): Option<seq<Message>> {
    var hooks := MovedTo(target, processed, {t});
    if hooks == [] then None else Some(hooks)
  }

  lemma MovedToOneMore(target: Targets, ms: seq<Message>, i: nat, t: int)
    requires i < |ms|
    ensures MovedTo(target, ms[..i + 1], {t})
         == if target(ms[i]) == Some(t) then MovedTo(target, ms[..i], {t}) + [ms[i]] else MovedTo(target, ms[..i], {t})
  {
    assert ms[..i + 1] == ms[..i] + [ms[i]];
    MovedToAppend(target, ms[..i], [ms[i]], {t});
    assert [ms[i]][1..] == [];
  }

  lemma MapsOneMore(target: Targets, ms: seq<Message>, i: nat, m: Entries<int, seq<Message>>, hooks: seq<Message>)
    requires i < |ms| && UniqueKeys(m) && MapsHooks(m, target, ms[..i]) && target(ms[i]).Some?
    requires hooks == (match Get(m, target(ms[i]).value) case None => [] case Some(hooks) => hooks)
    ensures UniqueKeys(Set(m, target(ms[i]).value, hooks + [ms[i]]))
    ensures MapsHooks(Set(m, target(ms[i]).value, hooks + [ms[i]]), target, ms[..i + 1])
  {
    var tool := target(ms[i]).value;
    var m' := Set(m, tool, hooks + [ms[i]]);
    SetKeys(m, tool, hooks + [ms[i]]);
    assert Get(m, tool) == HooksOf(target, ms[..i], tool);
    forall t ensures Get(m', t) == HooksOf(target, ms[..i + 1], t) {
      GetSet(m, tool, hooks + [ms[i]], t);
      assert Get(m, t) == HooksOf(target, ms[..i], t);
      MovedToOneMore(target, ms, i, t);
    }
  }

  lemma MapsNoMore(target: Targets, ms: seq<Message>, i: nat, m: Entries<int, seq<Message>>)
    requires i < |ms| && MapsHooks(m, target, ms[..i]) && target(ms[i]).None?
    ensures MapsHooks(m, target, ms[..i + 1])
  {
    forall t ensures Get(m, t) == HooksOf(target, ms[..i + 1], t) {
      assert Get(m, t) == HooksOf(target, ms[..i], t);
      MovedToOneMore(target, ms, i, t);
    }
  }

  /** The index of the last message with each timestamp. */
  method IndexTimestamps(messages: seq<Message>) returns (timestampToIndex: map<int, nat>)
    ensures forall ts :: ts in timestampToIndex ==> timestampToIndex[ts] < |messages|
    ensures forall ts ::
      After(messages, ts) == (if ts in timestampToIndex then Some(messages[timestampToIndex[ts] + 1..]) else None)
  {
    timestampToIndex := map[];
    ghost var tails: map<int, seq<Message>> := map[];
    assert messages[0..] == messages;
    for i := 0 to |messages|
      invariant forall ts :: ts in timestampToIndex ==> timestampToIndex[ts] < i
      invariant forall ts :: After(messages, ts) == OrElse(After(messages[i..], ts), tails, ts)
      invariant tails.Keys == timestampToIndex.Keys
      invariant forall ts :: ts in tails ==> tails[ts] == messages[timestampToIndex[ts] + 1..]
    {
      assert messages[i..][0] == messages[i] && messages[i..][1..] == messages[i + 1..];
      timestampToIndex := timestampToIndex[messages[i].ts := i];
      tails := tails[messages[i].ts := messages[i + 1..]];
    }
  }

  method BuildPreToolUseMap(pre: HookTest, processedMessages: seq<Message>, originalMessages: seq<Message>)
    returns (m: Entries<int, seq<Message>>)
    ensures UniqueKeys(m) && MapsHooks(m, TargetIn(pre, originalMessages), processedMessages)
  {
    ghost var target := TargetIn(pre, originalMessages);
    var timestampToIndex := IndexTimestamps(originalMessages);
    m := [];
    for i := 0 to |processedMessages|
      invariant UniqueKeys(m) && MapsHooks(m, target, processedMessages[..i])
    {
      var msg := processedMessages[i];
      if !pre(msg) || msg.ts !in timestampToIndex {
        MapsNoMore(target, processedMessages, i, m);
        continue;
      }
      var toolTimestamp := FindImmediateNextToolTimestamp(pre, timestampToIndex[msg.ts], originalMessages);
      if toolTimestamp.Some? && msg.ts > toolTimestamp.value {
        var hooks := match Get(m, toolTimestamp.value) case None => [] case Some(hooks) => hooks;
        MapsOneMore(target, processedMessages, i, m, hooks);
        m := Set(m, toolTimestamp.value, hooks + [msg]);
      } else {
        MapsNoMore(target, processedMessages, i, m);
      }
    }
    assert processedMessages[..|processedMessages|] == processedMessages;
  }

  predicate HasTimestamp(hooks: seq<Message>, ts: int) {
    exists i :: 0 <= i < |hooks| && hooks[i].ts == ts
  }

  /** A hook is found under the tool it is moved to: targets depend on its timestamp alone. */
  lemma MappedIsTarget(pre: HookTest, o: seq<Message>, all: seq<Message>, m: Entries<int, seq<Message>>, k: nat, msg: Message)
    requires UniqueKeys(m) && MapsHooks(m, TargetIn(pre, o), all)
    requires k < |m| && HasTimestamp(m[k].1, msg.ts) && pre(msg)
    ensures TargetIn(pre, o)(msg) == Some(m[k].0)
  {
    var t, hooks := m[k].0, m[k].1;
    GetAt(m, k);
    assert Get(m, t) == HooksOf(TargetIn(pre, o), all, t);
    var i :| 0 <= i < |hooks| && hooks[i].ts == msg.ts;
    MovedToMember(TargetIn(pre, o), all, {t}, hooks[i]);
  }

  lemma TargetIsMapped(target: Targets, all: seq<Message>, m: Entries<int, seq<Message>>, msg: Message)
    requires MapsHooks(m, target, all) && msg in all && target(msg).Some?
    ensures exists k :: 0 <= k < |m| && m[k].0 == target(msg).value && HasTimestamp(m[k].1, msg.ts)
  {
    var t := target(msg).value;
    MovedToMember(target, all, {t}, msg);
    assert Get(m, t) == HooksOf(target, all, t);
    var hooks := Get(m, t).value;
    var i :| 0 <= i < |hooks| && hooks[i] == msg;
    assert HasTimestamp(hooks, msg.ts);
    var k :| 0 <= k < |m| && m[k] == (t, hooks);
  }

  method ToolTimestamps(messages: seq<Message>) returns (tools: set<int>)
    ensures forall t :: t in tools <==> HasTool(messages, t)
  {
    tools := {};
    for i := 0 to |messages|
      invariant forall t :: t in tools <==> exists j :: 0 <= j < i && IsTool(messages[j]) && messages[j].ts == t
    {
      if IsTool(messages[i]) { tools := tools + {messages[i].ts}; }
    }
  }

  method ReorderWithPreToolUseHooks(pre: HookTest, messages: seq<Message>, preToolUseMap: Entries<int, seq<Message>>,
                                    ghost original: seq<Message>) returns (result: seq<Message>)
    requires UniqueKeys(preToolUseMap) && MapsHooks(preToolUseMap, TargetIn(pre, original), messages)
    ensures result == Reorder(TargetIn(pre, original), messages, messages, {}, {})
  {
    ghost var target := TargetIn(pre, original);
    result := [];
    var addedHooks: set<int> := {};
    var addedTools: set<int> := {};
    var availableTools := ToolTimestamps(messages);
    ghost var whole := Reorder(target, messages, messages, {}, {});
    assert messages[0..] == messages;
    for i := 0 to |messages|
      invariant result + Reorder(target, messages, messages[i..], addedHooks, addedTools) == whole
    {
      var msg := messages[i];
      ReorderNext(target, messages, i, addedHooks, addedTools);
      var hooksForTool := Get(preToolUseMap, msg.ts);
      assert hooksForTool == HooksOf(target, messages, msg.ts);
      if IsTool(msg) && hooksForTool.Some? {
        var newHooks := NotIn(hooksForTool.value, addedHooks);
        var pushed := newHooks + [msg];
        addedHooks := addedHooks + Timestamps(newHooks);
        addedTools := addedTools + {msg.ts};
        Pushed(result, pushed, Reorder(target, messages, messages[i + 1..], addedHooks, addedTools));
        result := result + pushed;
        continue;
      }
      if msg.ts in addedTools { continue; }
      if pre(msg) {
        var mappedToolTs := FindMappedTool(pre, original, messages, preToolUseMap, msg);
        if mappedToolTs.Some? && mappedToolTs.value in availableTools { continue; }
      }
      Pushed(result, [msg], Reorder(target, messages, messages[i + 1..], addedHooks, addedTools));
      result := result + [msg];
    }
    assert result + [] == result;
  }

  /** One message of the reordering. */
  lemma ReorderNext(target: Targets, all: seq<Message>, i: nat, addedHooks: set<int>, addedTools: set<int>)
    requires i < |all|
    ensures Reorder(target, all, all[i..], addedHooks, addedTools) ==
      (var m := all[i];
       var hooks := MovedTo(target, all, {m.ts});
       var newHooks := NotIn(hooks, addedHooks);
       if IsTool(m) && hooks != [] then
         newHooks + [m] + Reorder(target, all, all[i + 1..], addedHooks + Timestamps(newHooks), addedTools + {m.ts})
       else if m.ts in addedTools || (target(m).Some? && HasTool(all, target(m).value)) then
         Reorder(target, all, all[i + 1..], addedHooks, addedTools)
       else
         [m] + Reorder(target, all, all[i + 1..], addedHooks, addedTools))
  {
    assert all[i..][0] == all[i] && all[i..][1..] == all[i + 1..];
  }

  lemma Pushed(result: seq<Message>, pushed: seq<Message>, later: seq<Message>)
    ensures result + (pushed + later) == result + pushed + later
  {
  }

  /** The search through the map for the tool a hook is listed under. */
  method FindMappedTool(pre: HookTest, ghost original: seq<Message>, ghost all: seq<Message>,
                        preToolUseMap: Entries<int, seq<Message>>, msg: Message) returns (mapped: Option<int>)
    requires UniqueKeys(preToolUseMap) && MapsHooks(preToolUseMap, TargetIn(pre, original), all)
    requires msg in all && pre(msg)
    ensures mapped == TargetIn(pre, original)(msg)
  {
    for k := 0 to |preToolUseMap|
      invariant forall j :: 0 <= j < k ==> !HasTimestamp(preToolUseMap[j].1, msg.ts)
    {
      if HasTimestamp(preToolUseMap[k].1, msg.ts) {
        MappedIsTarget(pre, original, all, preToolUseMap, k, msg);
        return Some(preToolUseMap[k].0);
      }
    }
    if TargetIn(pre, original)(msg).Some? {
      TargetIsMapped(TargetIn(pre, original), all, preToolUseMap, msg);
    }
    return None;
  }

  /** The whole pipeline. */
  method Combine(pre: HookTest, messages: seq<Message>) returns (reordered: seq<Message>)
    ensures reordered == CombineHookSequences(pre, messages)
  {
    var filtered := DedupeToolOrCommandMessagesByTimestamp(messages);
    var combined := CombineAllHooks(filtered);
    var preToolUseMap := BuildPreToolUseMap(pre, combined, messages);
    reordered := ReorderWithPreToolUseHooks(pre, combined, preToolUseMap, messages);
  }
}
