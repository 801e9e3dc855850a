/** What the first two passes keep: tools once each, every hook with its outputs, the metadata unread. */
module HookMerging {
  import opened Sequences
  import opened Characters
  import opened HookMessages

  /** Only variants of a tool or command share a timestamp. */
  ghost predicate OnlyToolsShareTimestamps(ms: seq<Message>) {
    forall i, j :: 0 <= i < j < |ms| && ms[i].ts == ms[j].ts ==> IsTool(ms[i]) && IsTool(ms[j])
  }

  ghost predicate DistinctTimestamps(ms: seq<Message>) {
    forall i, j :: 0 <= i < j < |ms| ==> ms[i].ts != ms[j].ts
  }

  /** The kinds of messages that the pipeline tells apart. */
  lemma MessageKinds(m: Message)
    ensures IsTool(m) <==> m.body == Ask(AskTool) || m.body == Ask(AskCommand) || m.body == Say(SayTool) || m.body == Say(SayCommand)
    ensures IsHookStatus(m) <==> m.body == Say(SayHook) || m.body == Say(SayHookStatus)
    ensures IsHookOutput(m) <==> m.body == Say(SayHookOutput) || m.body == Say(SayHookOutputStream)
    ensures !(IsTool(m) && IsHookStatus(m)) && !(IsTool(m) && IsHookOutput(m)) && !(IsHookStatus(m) && IsHookOutput(m))
  {
  }

  // ----- Appended output does not change what the metadata parser reads

  lemma {:induction false} AppendShape(acc: string, hasOutput: bool, tail: seq<Message>) returns (added: string)
    ensures AppendOutputs(acc, hasOutput, tail) == acc + added
    ensures !hasOutput && added != "" ==> ("\n" + HOOK_OUTPUT_STRING) <= added
    decreases tail
  {
    if tail == [] || IsHookStatus(tail[0]) {
      added := "";
      assert acc + added == acc;
    } else if IsHookOutput(tail[0]) {
      var marker := if hasOutput then "" else "\n" + HOOK_OUTPUT_STRING;
      var output := if |TextOf(tail[0])| > 0 then "\n" + TextOf(tail[0]) else "";
      assert (if hasOutput then acc else acc + ("\n" + HOOK_OUTPUT_STRING)) == acc + marker;
      assert acc + marker + "" == acc + marker;
      var rest := AppendShape(acc + marker + output, true, tail[1..]);
      added := marker + output + rest;
      assert acc + marker + output + rest == acc + added;
    } else {
      added := AppendShape(acc, hasOutput, tail[1..]);
    }
  }

  lemma AppendedOutputKeepsMetadata(text: string, tail: seq<Message>)
    ensures MetadataText(AppendOutputs(text, false, tail)) == MetadataText(text)
  {
    var added := AppendShape(text, false, tail);
    var whole := text + added;
    if added == "" {
      assert whole == text;
    } else {
      var i := IndexOf(text, HOOK_OUTPUT_STRING, 0);
      if i != -1 {
        MarkerInText(text, added, i);
      } else {
        MarkerAfterText(text, added);
        assert whole[..|text| + 1] == [] + text + ['\n'];
        TrimAbsorbs(IsSpace, [], text, ['\n']);
      }
    }
  }

  lemma MarkerInText(text: string, added: string, i: nat)
    requires IndexOf(text, HOOK_OUTPUT_STRING, 0) == i
    ensures IndexOf(text + added, HOOK_OUTPUT_STRING, 0) == i
    ensures (text + added)[..i] == text[..i]
  {
    var whole, n := text + added, |HOOK_OUTPUT_STRING|;
    assert whole[i..i + n] == text[i..i + n];
    forall j: nat | j < i ensures !OccursAt(whole, HOOK_OUTPUT_STRING, j) {
      assert whole[j..j + n] == text[j..j + n];
      assert !OccursAt(text, HOOK_OUTPUT_STRING, j);
    }
    IndexOfIs(whole, HOOK_OUTPUT_STRING, 0, i);
  }

  lemma MarkerAfterText(text: string, added: string)
    requires IndexOf(text, HOOK_OUTPUT_STRING, 0) == -1
    requires ("\n" + HOOK_OUTPUT_STRING) <= added
    ensures IndexOf(text + added, HOOK_OUTPUT_STRING, 0) == |text| + 1
  {
    var whole, n := text + added, |HOOK_OUTPUT_STRING|;
    assert whole[|text|] == '\n';
    assert whole[|text| + 1..|text| + 1 + n] == added[1..1 + n] == HOOK_OUTPUT_STRING;
    forall j: nat | j < |text| + 1 ensures !OccursAt(whole, HOOK_OUTPUT_STRING, j) {
      if j + n <= |text| {
        assert whole[j..j + n] == text[j..j + n];
        assert !OccursAt(text, HOOK_OUTPUT_STRING, j);
      } else if j + n <= |whole| {
        var q := |text| - j;
        assert whole[j..j + n][q] == '\n';
        assert HOOK_OUTPUT_STRING[q] != '\n';
      }
    }
    IndexOfIs(whole, HOOK_OUTPUT_STRING, 0, |text| + 1);
  }

  /** A combined hook is a PreToolUse hook exactly if the bare hook is: JSON.parse("") throws. */
  lemma CombinedKeepsPre(reader: MetadataReader, hook: Message, tail: seq<Message>)
    requires !reader("")
    ensures IsPre(reader, Combined(hook, tail)) <==> IsPre(reader, hook)
  {
    AppendedOutputKeepsMetadata(TextOf(hook), tail);
    var added := AppendShape(TextOf(hook), false, tail);
    if TextOf(hook) == "" {
      assert IndexOf("", HOOK_OUTPUT_STRING, 0) == -1;
      assert MetadataText("") == "";
    }
  }

  /** The metadata parser is a test the pipeline can rely on. */
  lemma ReaderFits(reader: MetadataReader)
    requires !reader("")
    ensures HooksOnly(PreToolUse(reader)) && OutputBlind(PreToolUse(reader))
  {
    forall hook, tail ensures PreToolUse(reader)(Combined(hook, tail)) <==> PreToolUse(reader)(hook) {
      CombinedKeepsPre(reader, hook, tail);
    }
  }

  // ----- Pass 1

  lemma {:induction false} DedupeTools(ms: seq<Message>)
    ensures forall m :: m in Dedupe(ms) ==> m in ms
    ensures forall t :: HasTool(Dedupe(ms), t) <==> HasTool(ms, t)
  {
    if ms != [] {
      var rest := ms[1..];
      DedupeTools(rest);
      forall t ensures HasTool(Dedupe(ms), t) <==> HasTool(ms, t) {
        HasToolCons(ms[0], rest, t);
        HasToolCons(ms[0], Dedupe(rest), t);
        assert ms == [ms[0]] + rest;
      }
    }
  }

  lemma HasToolCons(m: Message, rest: seq<Message>, t: int)
    ensures HasTool([m] + rest, t) <==> (IsTool(m) && m.ts == t) || HasTool(rest, t)
  {
    var ms := [m] + rest;
    if HasTool(rest, t) {
      var i :| 0 <= i < |rest| && IsTool(rest[i]) && rest[i].ts == t;
      assert ms[i + 1] == rest[i];
    }
    assert ms[0] == m;
  }

  lemma {:induction false} DedupeDistinct(ms: seq<Message>)
    requires OnlyToolsShareTimestamps(ms)
    ensures DistinctTimestamps(Dedupe(ms))
  {
    if ms != [] {
      var m, rest := ms[0], ms[1..];
      DedupeDistinct(rest);
      DedupeTools(rest);
      var r := Dedupe(rest);
      if !(IsTool(m) && HasTool(rest, m.ts)) {
        forall j | 0 <= j < |r| ensures m.ts != r[j].ts {
          assert r[j] in r;
          var k :| 0 <= k < |rest| && rest[k] == r[j];
          assert ms[k + 1] == r[j];
        }
      }
    }
  }

  lemma {:induction false} DedupeNothing(ms: seq<Message>)
    requires DistinctTimestamps(ms)
    ensures Dedupe(ms) == ms
  {
    if ms != [] {
      DedupeNothing(ms[1..]);
      assert forall i :: 0 <= i < |ms| - 1 ==> ms[1..][i] == ms[i + 1];
    }
  }

  /** A later variant of the tool at position i is in the list. */
  predicate Superseded(ms: seq<Message>, i: nat)
    requires i < |ms|
  {
    IsTool(ms[i]) && HasTool(ms[i + 1..], ms[i].ts)
  }

  /** On any list: exactly the messages that no later variant supersedes survive, each timestamp keeping one
      tool at most. */
  lemma {:induction false} DedupeKeepsNewest(ms: seq<Message>)
    ensures forall m :: m in Dedupe(ms) <==> exists i :: 0 <= i < |ms| && ms[i] == m && !Superseded(ms, i)
    ensures forall i, j :: 0 <= i < j < |Dedupe(ms)| && IsTool(Dedupe(ms)[i]) && IsTool(Dedupe(ms)[j]) ==>
      Dedupe(ms)[i].ts != Dedupe(ms)[j].ts
  {
    if ms != [] {
      var rest := ms[1..];
      DedupeKeepsNewest(rest);
      DedupeTools(rest);
      assert forall i :: 0 < i < |ms| ==> ms[i] == rest[i - 1] && ms[i + 1..] == rest[i - 1 + 1..];
      forall m ensures m in Dedupe(ms) <==> exists i :: 0 <= i < |ms| && ms[i] == m && !Superseded(ms, i) {
        if k :| 0 <= k < |rest| && rest[k] == m && !Superseded(rest, k) { assert !Superseded(ms, k + 1); }
        if i :| 0 <= i < |ms| && ms[i] == m && !Superseded(ms, i) {
          if i > 0 { assert !Superseded(rest, i - 1); }
        }
      }
      if !Superseded(ms, 0) && IsTool(ms[0]) {
        forall j | 0 <= j < |Dedupe(rest)| && IsTool(Dedupe(rest)[j]) ensures Dedupe(rest)[j].ts != ms[0].ts {
          assert HasTool(Dedupe(rest), Dedupe(rest)[j].ts);
        }
      }
    }
  }

  // ----- Pass 2

  /** `CombineAll` where no two hooks share a timestamp. */
  function MapCombine(ms: seq<Message>): seq<Message> {
    if ms == [] then []
    else if IsHookOutput(ms[0]) then MapCombine(ms[1..])
    else if IsHookStatus(ms[0]) then [Combined(ms[0], ms[1..])] + MapCombine(ms[1..])
    else [ms[0]] + MapCombine(ms[1..])
  }

  lemma {:induction false} LastCombinedIs(ms: seq<Message>, k: nat)
    requires DistinctTimestamps(ms) && k < |ms| && IsHookStatus(ms[k])
    ensures LastCombined(ms, ms[k].ts) == Some(Combined(ms[k], ms[k + 1..]))
  {
    assert ms[1..][0..] == ms[1..];
    if k == 0 {
      LastCombinedNone(ms[1..], ms[0].ts);
    } else {
      LastCombinedIs(ms[1..], k - 1);
      assert ms[1..][k..] == ms[k + 1..];
    }
  }

  lemma {:induction false} LastCombinedNone(ms: seq<Message>, ts: int)
    requires forall i :: 0 <= i < |ms| ==> ms[i].ts != ts
    ensures LastCombined(ms, ts) == None
  {
    if ms != [] { LastCombinedNone(ms[1..], ts); }
  }

  lemma {:induction false} CombineIsMap(ms: seq<Message>, k: nat)
    requires DistinctTimestamps(ms) && k <= |ms|
    ensures CombineFrom(ms, ms[k..]) == MapCombine(ms[k..])
    decreases |ms| - k
  {
    if k < |ms| {
      assert ms[k..][1..] == ms[k + 1..];
      CombineIsMap(ms, k + 1);
      if IsHookStatus(ms[k]) { LastCombinedIs(ms, k); }
    }
  }

  lemma {:induction false} MapCombineKeeps(ms: seq<Message>)
    ensures Timestamps(MapCombine(ms)) <= Timestamps(ms)
    ensures forall t :: HasTool(MapCombine(ms), t) <==> HasTool(ms, t)
    ensures DistinctTimestamps(ms) ==> DistinctTimestamps(MapCombine(ms))
    ensures forall m :: m in MapCombine(ms) ==> !IsHookOutput(m) && (IsHookStatus(m) ==> m.text.Some?)
  {
    if ms != [] {
      var m, rest := ms[0], ms[1..];
      MapCombineKeeps(rest);
      var r := MapCombine(rest);
      var first := if IsHookStatus(m) then Combined(m, rest) else m;
      assert ms == [m] + rest;
      TimestampsCons(m, rest);
      TimestampsCons(first, r);
      forall t ensures HasTool(MapCombine(ms), t) <==> HasTool(ms, t) {
        HasToolCons(m, rest, t);
        HasToolCons(first, r, t);
      }
    }
  }

  lemma TimestampsCons(m: Message, rest: seq<Message>)
    ensures Timestamps([m] + rest) == {m.ts} + Timestamps(rest)
    ensures DistinctTimestamps([m] + rest) <==> DistinctTimestamps(rest) && m.ts !in Timestamps(rest)
  {
    var ms := [m] + rest;
    assert ms[0] == m;
    assert forall i :: 0 <= i < |rest| ==> ms[i + 1] == rest[i];
    forall t | t in Timestamps(rest) ensures t in Timestamps(ms) {
      var i :| 0 <= i < |rest| && rest[i].ts == t;
      assert ms[i + 1].ts == t;
    }
    assert forall i :: 0 <= i < |ms| && i > 0 ==> ms[i] == rest[i - 1];
  }

  lemma MergedIsMap(ms: seq<Message>)
    requires OnlyToolsShareTimestamps(ms)
    ensures Merged(ms) == MapCombine(Dedupe(ms))
    ensures DistinctTimestamps(Merged(ms))
    ensures forall t :: HasTool(Merged(ms), t) <==> HasTool(ms, t)
  {
    var d := Dedupe(ms);
    DedupeDistinct(ms);
    DedupeTools(ms);
    CombineIsMap(d, 0);
    assert d[0..] == d;
    MapCombineKeeps(d);
  }

  /** The messages that survive the first two passes, apart from the texts of hooks. */
  function Kept(ms: seq<Message>): seq<Message> {
    if ms == [] then []
    else if IsHookOutput(ms[0]) then Kept(ms[1..])
    else [ms[0]] + Kept(ms[1..])
  }

  /** Position k holds the last hook with this timestamp. */
  predicate IsLastHook(ms: seq<Message>, ts: int, k: nat) {
    k < |ms| && IsHookStatus(ms[k]) && ms[k].ts == ts &&
    forall x :: k < x < |ms| ==> !(IsHookStatus(ms[x]) && ms[x].ts == ts)
  }

  lemma {:induction false} LastCombinedAt(ms: seq<Message>, ts: int, k: nat)
    requires IsLastHook(ms, ts, k)
    ensures LastCombined(ms, ts) == Some(Combined(ms[k], ms[k + 1..]))
  {
    if k == 0 {
      NoHookNoneCombined(ms[1..], ts);
    } else {
      assert IsLastHook(ms[1..], ts, k - 1) by { assert forall x :: 0 < x < |ms| ==> ms[1..][x - 1] == ms[x]; }
      LastCombinedAt(ms[1..], ts, k - 1);
      assert ms[1..][k..] == ms[k + 1..];
    }
  }

  lemma {:induction false} NoHookNoneCombined(ms: seq<Message>, ts: int)
    requires forall x :: 0 <= x < |ms| ==> !(IsHookStatus(ms[x]) && ms[x].ts == ts)
    ensures LastCombined(ms, ts) == None
  {
    if ms != [] { NoHookNoneCombined(ms[1..], ts); }
  }

  lemma LastHookFrom(ms: seq<Message>, ts: int, i: nat) returns (k: nat)
    requires i < |ms| && IsHookStatus(ms[i]) && ms[i].ts == ts
    ensures IsLastHook(ms, ts, k)
    decreases |ms| - i
  {
    k := i;
    if x :| i < x < |ms| && IsHookStatus(ms[x]) && ms[x].ts == ts { k := LastHookFrom(ms, ts, x); }
  }

  /** What the second pass makes of a message: a hook becomes the last hook of its timestamp with the outputs
      after that one, anything else stays. */
  ghost predicate CombinedFrom(ms: seq<Message>, m: Message, out: Message) {
    if IsHookStatus(m) then exists k: nat :: IsLastHook(ms, m.ts, k) && out == Combined(ms[k], ms[k + 1..])
    else out == m
  }

  /** On any list, merging drops the hook outputs and touches hooks only. */
  lemma {:induction false} MergingKeepsMessages(ms: seq<Message>, n: nat)
    requires n <= |ms|
    ensures |CombineFrom(ms, ms[n..])| == |Kept(ms[n..])|
    ensures forall i :: 0 <= i < |Kept(ms[n..])| ==> CombinedFrom(ms, Kept(ms[n..])[i], CombineFrom(ms, ms[n..])[i])
    decreases |ms| - n
  {
    if n < |ms| {
      assert ms[n..][1..] == ms[n + 1..] && ms[n..][0] == ms[n];
      MergingKeepsMessages(ms, n + 1);
      var kept, out := Kept(ms[n + 1..]), CombineFrom(ms, ms[n + 1..]);
      assert forall i :: 0 < i <= |kept| ==> ([ms[n]] + kept)[i] == kept[i - 1];
      if IsHookStatus(ms[n]) {
        var k := LastHookFrom(ms, ms[n].ts, n);
        LastCombinedAt(ms, ms[n].ts, k);
        assert CombinedFrom(ms, ms[n], Combined(ms[k], ms[k + 1..]));
      }
    }
  }

  /** The first two passes on any list, message by message. */
  lemma MergedKeepsMessages(ms: seq<Message>)
    ensures |Merged(ms)| == |Kept(Dedupe(ms))|
    ensures forall i :: 0 <= i < |Merged(ms)| ==> CombinedFrom(Dedupe(ms), Kept(Dedupe(ms))[i], Merged(ms)[i])
  {
    MergingKeepsMessages(Dedupe(ms), 0);
    assert Dedupe(ms)[0..] == Dedupe(ms);
  }

  /** Where no hooks share a timestamp only the texts of hooks change, and only by appending. */
  lemma {:induction false} MappedKeepsMessages(ms: seq<Message>)
    ensures |MapCombine(ms)| == |Kept(ms)|
    ensures forall i :: 0 <= i < |Kept(ms)| ==>
      && MapCombine(ms)[i].(text := Kept(ms)[i].text) == Kept(ms)[i]
      && (!IsHookStatus(Kept(ms)[i]) ==> MapCombine(ms)[i] == Kept(ms)[i])
      && TextOf(Kept(ms)[i]) <= TextOf(MapCombine(ms)[i])
  {
    if ms != [] {
      MappedKeepsMessages(ms[1..]);
      if IsHookStatus(ms[0]) { var added := AppendShape(TextOf(ms[0]), false, ms[1..]); }
    }
  }
}
