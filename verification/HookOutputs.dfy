/** The text that hook outputs add, in closed form, and that none of it is lost. */
module HookOutputs {
  import opened Sequences
  import opened HookMessages
  import opened HookMerging
  import opened HookReordering
  import opened HookIdempotence

  /** The output messages up to the first hook. */
  function Outputs(tail: seq<Message>): seq<Message> {
    if tail == [] || IsHookStatus(tail[0]) then []
    else if IsHookOutput(tail[0]) then [tail[0]] + Outputs(tail[1..])
    else Outputs(tail[1..])
  }

  /** Each non-empty text on a line of its own. */
  function OutputLines(outputs: seq<Message>): string {
    if outputs == [] then ""
    else (if TextOf(outputs[0]) == "" then "" else "\n" + TextOf(outputs[0])) + OutputLines(outputs[1..])
  }

  /** Nothing without outputs, else the marker once and then the lines. */
  function Added(outputs: seq<Message>): string {
    if outputs == [] then "" else "\n" + "__HOOK_OUTPUT__" + OutputLines(outputs)
  }

  lemma Regroup3(a: string, b: string, c: string)
    ensures a + (b + c) == a + b + c
  {
  }

  /** Once the marker is there only lines are added. */
  lemma {:induction false} MarkedLines(acc: string, tail: seq<Message>)
    ensures AppendOutputs(acc, true, tail) == acc + OutputLines(Outputs(tail))
    decreases tail
  {
    if tail == [] || IsHookStatus(tail[0]) {
      assert acc + "" == acc;
    } else if IsHookOutput(tail[0]) {
      var rest, text := Outputs(tail[1..]), TextOf(tail[0]);
      var line := if text == "" then "" else "\n" + text;
      assert Outputs(tail)[1..] == rest && Outputs(tail)[0] == tail[0];
      assert acc + "" == acc;
      MarkedLines(acc + line, tail[1..]);
      Regroup3(acc, line, OutputLines(rest));
    } else {
      MarkedLines(acc, tail[1..]);
    }
  }

  /** What merging appends to a hook, whatever follows it. */
  lemma {:induction false} AppendedText(text: string, tail: seq<Message>)
    ensures AppendOutputs(text, false, tail) == text + Added(Outputs(tail))
    decreases tail
  {
    if tail == [] || IsHookStatus(tail[0]) {
      assert text + "" == text;
    } else if IsHookOutput(tail[0]) {
      var rest, output := Outputs(tail[1..]), TextOf(tail[0]);
      var line := if output == "" then "" else "\n" + output;
      var marker := "\n" + "__HOOK_OUTPUT__";
      assert Outputs(tail)[1..] == rest && Outputs(tail)[0] == tail[0];
      var marked := text + marker;
      assert marked + "" == marked;
      MarkedLines(marked + line, tail[1..]);
      AddedText(text, marker, line, OutputLines(rest));
    } else {
      AppendedText(text, tail[1..]);
    }
  }

  lemma AddedText(text: string, marker: string, line: string, rest: string)
    ensures text + marker + line + rest == text + (marker + (line + rest))
  {
    Regroup3(marker, line, rest);
    Regroup3(text, marker + line, rest);
    Regroup3(text, marker, line);
  }

  // ----- Through the pipeline

  /** Dropping tools leaves the outputs as they are. */
  lemma {:induction false} DedupeKeepsOutputs(tail: seq<Message>)
    ensures Outputs(Dedupe(tail)) == Outputs(tail)
  {
    if tail != [] {
      DedupeKeepsOutputs(tail[1..]);
      var d := Dedupe(tail[1..]);
      assert ([tail[0]] + d)[1..] == d;
    }
  }

  /** A hook with its outputs is among the merged messages. */
  lemma {:induction false} HookIsMerged(ms: seq<Message>, i: nat)
    requires i < |ms| && IsHookStatus(ms[i])
    ensures Combined(ms[i], Dedupe(ms[i + 1..])) in MapCombine(Dedupe(ms))
  {
    var d := Dedupe(ms[1..]);
    assert ([ms[0]] + d)[1..] == d;
    if i > 0 {
      HookIsMerged(ms[1..], i - 1);
      assert ms[1..][i..] == ms[i + 1..];
    }
  }

  /** Each hook comes out with its text followed by the outputs up to the next hook. */
  lemma HookComesOutWithOutputs(pre: HookTest, ms: seq<Message>, i: nat)
    requires HooksOnly(pre) && OnlyToolsShareTimestamps(ms)
    requires i < |ms| && IsHookStatus(ms[i])
    ensures ms[i].(text := Some(TextOf(ms[i]) + Added(Outputs(ms[i + 1..])))) in CombineHookSequences(pre, ms)
  {
    HookIsMerged(ms, i);
    AppendedText(TextOf(ms[i]), Dedupe(ms[i + 1..]));
    DedupeKeepsOutputs(ms[i + 1..]);
    PipelinePermutes(pre, ms);
    var out := Combined(ms[i], Dedupe(ms[i + 1..]));
    assert out in multiset(MapCombine(Dedupe(ms)));
    assert out in multiset(CombineHookSequences(pre, ms));
  }

  /** Where the line of output k begins among the lines. */
  lemma {:induction false} LineOf(outputs: seq<Message>, k: nat) returns (p: nat)
    requires k < |outputs| && TextOf(outputs[k]) != ""
    ensures OccursAt(OutputLines(outputs), "\n" + TextOf(outputs[k]), p)
  {
    var first := if TextOf(outputs[0]) == "" then "" else "\n" + TextOf(outputs[0]);
    var rest := OutputLines(outputs[1..]);
    if k == 0 {
      p := 0;
      assert (first + rest)[..|first|] == first;
    } else {
      var q := LineOf(outputs[1..], k - 1);
      p := |first| + q;
      var line := "\n" + TextOf(outputs[k]);
      assert (first + rest)[p..p + |line|] == rest[q..q + |line|];
    }
  }

  /** Output j belongs to hook i: no other hook stands between. */
  predicate Follows(ms: seq<Message>, i: nat, j: nat) {
    i < j < |ms| && IsHookStatus(ms[i]) && IsHookOutput(ms[j]) &&
    forall x :: i < x < j ==> !IsHookStatus(ms[x])
  }

  lemma {:induction false} FollowingOutput(tail: seq<Message>, j: nat) returns (k: nat)
    requires j < |tail| && IsHookOutput(tail[j]) && forall x :: 0 <= x < j ==> !IsHookStatus(tail[x])
    ensures k < |Outputs(tail)| && Outputs(tail)[k] == tail[j]
  {
    if j == 0 {
      k := 0;
    } else {
      assert forall x :: 0 <= x < j - 1 ==> tail[1..][x] == tail[x + 1];
      k := FollowingOutput(tail[1..], j - 1);
      if IsHookOutput(tail[0]) { k := k + 1; }
    }
  }

  /** No output is lost: one that follows a hook comes out as a line of that hook's text. */
  lemma OutputComesOut(pre: HookTest, ms: seq<Message>, i: nat, j: nat) returns (out: Message, p: nat)
    requires HooksOnly(pre) && OnlyToolsShareTimestamps(ms) && Follows(ms, i, j) && TextOf(ms[j]) != ""
    ensures out in CombineHookSequences(pre, ms) && out.ts == ms[i].ts && IsHookStatus(out)
    ensures OccursAt(TextOf(out), "\n" + TextOf(ms[j]), p)
  {
    var tail := ms[i + 1..];
    assert tail[j - i - 1] == ms[j];
    HookComesOutWithOutputs(pre, ms, i);
    var k := FollowingOutput(tail, j - i - 1);
    var outputs := Outputs(tail);
    out := ms[i].(text := Some(TextOf(ms[i]) + Added(outputs)));
    var q := LineOf(outputs, k);
    p := Shifted(TextOf(ms[i]), OutputLines(outputs), "\n" + TextOf(ms[j]), q);
  }

  lemma Shifted(text: string, lines: string, line: string, q: nat) returns (p: nat)
    requires OccursAt(lines, line, q)
    ensures OccursAt(text + ("\n" + "__HOOK_OUTPUT__" + lines), line, p)
  {
    var marker := "\n" + "__HOOK_OUTPUT__";
    p := |text + marker| + q;
    Regroup3(text, marker, lines);
    SliceShifts(text + marker, lines, q, |line|);
  }

  lemma SliceShifts(a: string, b: string, q: nat, n: nat)
    requires q + n <= |b|
    ensures (a + b)[|a| + q..|a| + q + n] == b[q..q + n]
  {
  }
}
