/** What the hook pipeline does not promise once timestamps are shared. */
module HookLimits {
  import opened Sequences
  import opened Characters
  import opened HookMessages
  import opened HookMerging
  import opened HookReordering
  import opened HookIdempotence

  /** The metadata of a PreToolUse hook, as JSON. */
  const HOOK_TEXT := "{\"hookName\":\"PreToolUse\"}"

  function Hook(ts: int): Message { Message(ts, Say(SayHookStatus), Some(HOOK_TEXT), "") }
  function Tool(ts: int, payload: string): Message { Message(ts, Ask(AskTool), Some(""), payload) }
  function Note(ts: int): Message { Message(ts, Say(SayOther("text")), Some(""), "") }

  /** The test takes the hooks of the examples for PreToolUse hooks. */
  ghost predicate Accepts(pre: HookTest) {
    HooksOnly(pre) && pre(Hook(5)) && pre(Hook(6))
  }

  /** The marker of hook outputs begins with an underscore. */
  lemma NoMarker(text: string)
    requires '_' !in text
    ensures IndexOf(text, HOOK_OUTPUT_STRING, 0) == -1
  {
    forall j: nat | j + |HOOK_OUTPUT_STRING| <= |text| ensures !OccursAt(text, HOOK_OUTPUT_STRING, j) {
      assert text[j..j + |HOOK_OUTPUT_STRING|][0] == text[j];
      assert text[j] in text && HOOK_OUTPUT_STRING[0] == '_';
    }
  }

  lemma BareMetadata(text: string)
    requires '_' !in text && Trimmed(IsSpace, text)
    ensures MetadataText(text) == text
  {
    NoMarker(text);
    TrimPadded(IsSpace, [], text, []);
    assert [] + text + [] == text;
  }

  lemma HookTextIsBare()
    ensures '_' !in HOOK_TEXT && Trimmed(IsSpace, HOOK_TEXT) && HOOK_TEXT != ""
  {
    assert HOOK_TEXT[0] == '{' && HOOK_TEXT[|HOOK_TEXT| - 1] == '}';
  }

  /** So does every metadata parser that reads their text as a PreToolUse hook's. */
  lemma ReaderAccepts(reader: MetadataReader)
    requires reader(HOOK_TEXT)
    ensures Accepts(PreToolUse(reader))
  {
    HookTextIsBare();
    BareMetadata(HOOK_TEXT);
    assert TextOf(Hook(5)) == HOOK_TEXT && TextOf(Hook(6)) == HOOK_TEXT;
  }

  lemma MessageLost(pre: HookTest)
    requires Accepts(pre)
    ensures var ms := [Hook(5), Tool(3, ""), Note(3)];
      Note(3) in ms && Note(3) !in CombineHookSequences(pre, ms)
  {
    var h, t, x := Hook(5), Tool(3, ""), Note(3);
    var ms := [h, t, x];
    assert ms[1..] == [t, x] && [t, x][1..] == [x] && [x][1..] == [];
    assert !HasTool([x], 3);
    assert Dedupe([x]) == [x];
    assert Dedupe([t, x]) == [t] + Dedupe([x]);
    assert Dedupe(ms) == ms;
    assert AppendOutputs(HOOK_TEXT, false, [x]) == HOOK_TEXT;
    assert AppendOutputs(HOOK_TEXT, false, [t, x]) == HOOK_TEXT;
    assert LastCombined([t, x], 5) == LastCombined([x], 5) == None;
    assert LastCombined(ms, 5) == Some(h);
    assert CombineFrom(ms, [x]) == [x];
    assert CombineFrom(ms, [t, x]) == [t] + CombineFrom(ms, [x]);
    assert CombineFrom(ms, ms) == [h] + CombineFrom(ms, [t, x]);
    assert After([t, x], 5) == After([x], 5) == None;
    assert After(ms, 5) == Some([t, x]);
    assert NextTool(pre, [t, x]) == Some(3);
    var target := TargetIn(pre, ms);
    assert target(h) == Some(3) && target(t) == None && target(x) == None;
    assert MovedTo(target, [x], {3}) == [];
    assert MovedTo(target, [t, x], {3}) == MovedTo(target, [x], {3});
    assert MovedTo(target, ms, {3}) == [h];
    assert HasTool(ms, 3) by { assert ms[1] == t; }
    var out := Reorder(target, ms, ms, {}, {});
    assert out == Reorder(target, ms, [t, x], {}, {});
    assert NotIn([h], {}) == [h];
    assert [t, x][0] == t && MovedTo(target, ms, {t.ts}) == [h];
    var hooks, tools := {} + Timestamps([h]), {} + {3};
    var later := Reorder(target, ms, [x], hooks, tools);
    assert Reorder(target, ms, [t, x], {}, {}) == NotIn([h], {}) + [t] + later;
    assert out == [h] + [t] + later;
    assert !IsTool(x) && x.ts in tools;
    assert later == Reorder(target, ms, [x][1..], hooks, tools);
    assert x !in [h] + [t];
  }

  /** A message that shares its timestamp with a tool that got hooks is lost. */
  lemma SharedTimestampLosesMessage(reader: MetadataReader)
    requires reader(HOOK_TEXT)
    ensures var ms := [Hook(5), Tool(3, ""), Note(3)];
      Note(3) in ms && Note(3) !in CombineHookSequences(PreToolUse(reader), ms)
  {
    ReaderAccepts(reader);
    MessageLost(PreToolUse(reader));
  }

  // ----- A list on which a second run moves one more hook

  const K := Hook(5)
  const X := Note(9)
  const G := Hook(6)
  const T := Tool(3, "partial")
  const U := Tool(1, "")
  const T' := Tool(3, "final")

  /** Two variants of one tool around another tool. */
  function Twice(): seq<Message> { [K, X, G, T, U, T'] }

  function Deduped(): seq<Message> { [K, X, G, U, T'] }

  function Once(): seq<Message> { [K, X, U, G, T'] }

  lemma TwiceDedupes()
    ensures Dedupe(Twice()) == Deduped() && OnlyToolsShareTimestamps(Twice())
  {
    var ms := Twice();
    assert ms[1..] == [X, G, T, U, T'] && [X, G, T, U, T'][1..] == [G, T, U, T'];
    assert [G, T, U, T'][1..] == [T, U, T'] && [T, U, T'][1..] == [U, T'] && [U, T'][1..] == [T'] && [T'][1..] == [];
    assert HasTool([U, T'], 3) by { assert [U, T'][1] == T'; }
    assert Dedupe([T']) == [T'];
    assert Dedupe([U, T']) == [U] + Dedupe([T']);
    assert Dedupe([T, U, T']) == Dedupe([U, T']);
    assert Dedupe([G, T, U, T']) == [G] + Dedupe([T, U, T']);
    assert Dedupe([X, G, T, U, T']) == [X] + Dedupe([G, T, U, T']);
  }

  lemma TwiceTargets(pre: HookTest)
    requires Accepts(pre)
    ensures TargetIn(pre, Twice())(K) == None && TargetIn(pre, Twice())(G) == Some(3)
  {
    var ms := Twice();
    var s2, s3, s4 := [G, T, U, T'], [T, U, T'], [U, T'];
    var s1 := [X] + s2;
    assert ms[1..] == s1 && s1[1..] == s2 && s2[1..] == s3 && s3[1..] == s4 && s4[1..] == [T'] && [T'][1..] == [];
    assert After([T'], 6) == None && After([T'], 5) == None;
    assert After(s4, 6) == None && After(s4, 5) == None;
    assert After(s3, 6) == None && After(s3, 5) == None;
    assert After(s2, 6) == Some(s3) && After(s2, 5) == None;
    assert After(s1, 6) == Some(s3) && After(s1, 5) == None;
    assert After(ms, 6) == Some(s3) && After(ms, 5) == Some(s1);
    assert NextTool(pre, s2) == None;
    assert NextTool(pre, s3) == Some(3);
  }

  lemma {:induction false} TwiceMoved(target: Targets)
    requires target(K) == None && target(G) == Some(3) && forall m :: !IsHookStatus(m) ==> target(m) == None
    ensures MovedTo(target, Deduped(), {3}) == [G] && MovedTo(target, Deduped(), {1}) == []
  {
    var d, s1, s2, s3 := Deduped(), [X, G, U, T'], [G, U, T'], [U, T'];
    assert d[1..] == s1 && s1[1..] == s2 && s2[1..] == s3 && s3[1..] == [T'] && [T'][1..] == [];
    assert target(T') == None && target(U) == None && target(X) == None;
    assert MovedTo(target, [T'], {3}) == [];
    assert MovedTo(target, [T'], {1}) == [];
    assert MovedTo(target, s3, {3}) == [] && MovedTo(target, s3, {1}) == [];
    assert MovedTo(target, s2, {3}) == [G] && MovedTo(target, s2, {1}) == [];
    assert MovedTo(target, s1, {3}) == [G] && MovedTo(target, s1, {1}) == [];
  }

  lemma {:induction false} TwicePlaced(target: Targets)
    requires target(K) == None && target(G) == Some(3) && forall m :: !IsHookStatus(m) ==> target(m) == None
    ensures Place(target, Deduped(), Deduped()) == Once()
  {
    var d, s1, s2, s3 := Deduped(), [X, G, U, T'], [G, U, T'], [U, T'];
    TwiceMoved(target);
    assert d[1..] == s1 && s1[1..] == s2 && s2[1..] == s3 && s3[1..] == [T'] && [T'][1..] == [];
    assert Place(target, d, [T']) == [G] + [T'] + Place(target, d, []);
    assert Place(target, d, s3) == [] + [U] + Place(target, d, [T']);
    assert Place(target, d, s2) == Place(target, d, s3);
    assert Place(target, d, s1) == [X] + Place(target, d, s2);
    assert Place(target, d, d) == [K] + Place(target, d, s1);
  }

  lemma TwiceMerged()
    ensures Merged(Twice()) == Deduped()
  {
    TwiceDedupes();
    NothingToMerge(Deduped());
    MergedIsMap(Twice());
  }

  lemma TwiceOnce(pre: HookTest)
    requires Accepts(pre)
    ensures CombineHookSequences(pre, Twice()) == Once()
  {
    var target := TargetIn(pre, Twice());
    TwiceDedupes();
    PipelineIsPlace(pre, Twice());
    TwiceMerged();
    TwiceTargets(pre);
    TwicePlaced(target);
  }

  lemma {:induction false} OnceCarried(pre: HookTest)
    requires pre(K) && pre(G) && forall m :: !IsHookStatus(m) ==> !pre(m)
    ensures Carry(pre, Once(), []) != Once()
  {
    var once, s1, s2 := Once(), [X, U, G, T'], [U, G, T'];
    assert once[1..] == s1 && s1[1..] == s2;
    assert NextTool(pre, s2) == Some(1);
    assert NextTool(pre, s1) == Some(1);
    assert Carry(pre, once, []) == [] + Carry(pre, s1, [K]);
    assert Carry(pre, s1, [K])[0] == X;
  }

  lemma OnceAgain(pre: HookTest)
    requires Accepts(pre) && OutputBlind(pre)
    ensures CombineHookSequences(pre, Once()) == Carry(pre, Once(), [])
  {
    NothingToMerge(Once());
    PipelineIsCarry(pre, Once());
  }

  /** Idempotence can fail when variants of a tool share a timestamp. */
  lemma SharedTimestampBreaksIdempotence(reader: MetadataReader)
    requires reader(HOOK_TEXT) && !reader("")
    ensures OnlyToolsShareTimestamps(Twice())
    ensures CombineHookSequences(PreToolUse(reader), Twice()) == Once()
    ensures CombineHookSequences(PreToolUse(reader), Once()) != Once()
  {
    var pre := PreToolUse(reader);
    ReaderAccepts(reader);
    ReaderFits(reader);
    TwiceDedupes();
    TwiceOnce(pre);
    OnceAgain(pre);
    OnceCarried(pre);
  }
}
