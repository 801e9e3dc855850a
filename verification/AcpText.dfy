/** The text deltas of one streamed message, concatenated, against its content. */
module AcpText {
  import opened Sequences
  import opened AcpTranslation
  import opened AcpSession
  import opened AcpStreams

  predicate EndsWith(text: string, suffix: string) {
    |suffix| <= |text| && text[|text| - |suffix|..] == suffix
  }

  function ChunkText(e: Entry): string {
    match e
    case Sent(_, AgentChunk(text)) => text
    case Sent(_, ThoughtChunk(text)) => text
    case _ => ""
  }

  function Texts(entries: seq<Entry>): string {
    if entries == [] then "" else Texts(entries[..|entries| - 1]) + ChunkText(entries[|entries| - 1])
  }

  /** All the text sent for the messages of one timestamp. */
  function SentText(ts: int, s: State): string {
    Texts(Own(ts, s.log))
  }

  /** The contents of the messages that have text, in order. */
  function Contents(r: Readers, ms: seq<Message>): seq<string> {
    if ms == [] then []
    else
      var before, last := Contents(r, ms[..|ms| - 1]), ms[|ms| - 1];
      if last.text == "" then before else before + [Content(r, last)]
  }

  function Last(contents: seq<string>): string {
    if contents == [] then "" else contents[|contents| - 1]
  }

  function LatestNonEmpty(contents: seq<string>): string {
    if contents == [] then ""
    else if contents[|contents| - 1] != "" then contents[|contents| - 1]
    else LatestNonEmpty(contents[..|contents| - 1])
  }

  /** A text-streamed message that is no web-search marker. */
  predicate IsStreamed(r: Readers, m: Message) {
    IsTextStreaming(m) && (m.text != "" ==> !IsMarker(r, m))
  }

  /** The text of reasoning that comes without text, in its own field. */
  function Field(m: Message): string {
    if m.text == "" && m.body == Say(SayReasoning) then m.reasoning else ""
  }

  function Fields(ms: seq<Message>): string {
    if ms == [] then "" else Fields(ms[..|ms| - 1]) + Field(ms[|ms| - 1])
  }

  predicate AllStreamed(r: Readers, ms: seq<Message>) {
    forall i :: 0 <= i < |ms| ==> IsStreamed(r, ms[i])
  }

  lemma ContentsPush(r: Readers, ms: seq<Message>, m: Message)
    ensures Contents(r, ms + [m]) == if m.text == "" then Contents(r, ms) else Contents(r, ms) + [Content(r, m)]
  {
    assert (ms + [m])[..|ms|] == ms;
  }

  lemma LatestPush(contents: seq<string>, content: string)
    ensures LatestNonEmpty(contents + [content]) == if content != "" then content else LatestNonEmpty(contents)
  {
    assert (contents + [content])[..|contents|] == contents;
  }

  lemma TextsPush(entries: seq<Entry>, e: Entry)
    ensures Texts(entries + [e]) == Texts(entries) + ChunkText(e)
  {
    assert (entries + [e])[..|entries|] == entries;
  }

  // ----- One message

  lemma FieldsPush(ms: seq<Message>, m: Message)
    ensures Fields(ms + [m]) == Fields(ms) + Field(m)
  {
    assert (ms + [m])[..|ms|] == ms;
  }

  lemma EmptyTranslates(r: Readers, s: Session, m: Message, existing: Option<ToolId>, terminal: bool) returns (t: Translated)
    requires IsStreamed(r, m) && m.text == ""
    ensures Translate(r, s, m, existing, terminal) == Some(t) && t.session == s && t.toolCallId.None? && t.request.None?
    ensures t.updates == if Field(m) == "" then [] else [ThoughtChunk(Field(m))]
  {
    t := Translate(r, s, m, existing, terminal).value;
  }

  /** A streamed message without text sends its field, if it has one, and nothing is remembered of it. */
  lemma EmptyStep(r: Readers, terminal: bool, s: State, m: Message)
    requires IsStreamed(r, m) && m.text == ""
    ensures var s' := Process(r, terminal, s, m);
      && SentText(m.ts, s') == SentText(m.ts, s) + Field(m)
      && LastText(s', m.ts) == LastText(s, m.ts) && s'.waiting == s.waiting
  {
    var t := EmptyTranslates(r, s.session, m, Existing(s, m.ts), terminal);
    assert Process(r, terminal, s, m) == Deliver(s, m, t);
    if Field(m) == "" {
      assert s.log + SendAll(ByMessage(m.ts), []) == s.log;
      assert SentText(m.ts, s) + "" == SentText(m.ts, s);
    } else {
      var x := Sent(ByMessage(m.ts), ThoughtChunk(m.reasoning));
      assert SendAll(ByMessage(m.ts), [ThoughtChunk(m.reasoning)]) == [x];
      OwnPush(m.ts, s.log, x);
      TextsPush(Own(m.ts, s.log), x);
    }
  }

  function Newline(m: Message, lastText: string): string {
    if IsCompletion(m) && lastText == "" then "\n" else ""
  }

  lemma StreamStep(r: Readers, s: State, m: Message)
    ensures var delta, lastText := Delta(Content(r, m), LastText(s, m.ts)), LastText(s, m.ts);
      SentText(m.ts, Stream(r, s, m)) == SentText(m.ts, s) + if delta == "" then "" else Newline(m, lastText) + delta
    ensures LastText(Stream(r, s, m), m.ts) == Content(r, m) && Stream(r, s, m).waiting == s.waiting
  {
    var delta, lastText := Delta(Content(r, m), LastText(s, m.ts)), LastText(s, m.ts);
    var e := Sent(ByMessage(m.ts), Chunk(m, if IsCompletion(m) && lastText == "" then "\n" + delta else delta));
    assert "" + delta == delta;
    if delta == "" {
      assert SentText(m.ts, s) + "" == SentText(m.ts, s);
    } else {
      assert Stream(r, s, m).log == s.log + [e];
      OwnPush(m.ts, s.log, e);
      TextsPush(Own(m.ts, s.log), e);
    }
  }

  // ----- The text sent ends with the latest content

  lemma DeltaCompletes(sent: string, lastText: string, content: string, newline: string)
    requires EndsWith(sent, lastText) && (newline == "" || lastText == "")
    ensures var delta := Delta(content, lastText);
      EndsWith(sent + if delta == "" then "" else newline + delta, content)
  {
    var delta := Delta(content, lastText);
    if lastText <= content {
      assert content == lastText + delta;
      if newline == "" { assert newline + delta == delta; }
    }
  }

  lemma CompletingStep(r: Readers, terminal: bool, s: State, m: Message)
    requires IsStreamed(r, m) && m.text != "" && EndsWith(SentText(m.ts, s), LastText(s, m.ts))
    ensures var s' := Process(r, terminal, s, m);
      && EndsWith(SentText(m.ts, s'), Content(r, m)) && LastText(s', m.ts) == Content(r, m) && s'.waiting == s.waiting
      && (Content(r, m) == "" ==> SentText(m.ts, s') == SentText(m.ts, s))
  {
    StreamStep(r, s, m);
    DeltaCompletes(SentText(m.ts, s), LastText(s, m.ts), Content(r, m), Newline(m, LastText(s, m.ts)));
    if Content(r, m) == "" { assert SentText(m.ts, s) + "" == SentText(m.ts, s); }
  }

  function Latest(r: Readers, ms: seq<Message>): string {
    LatestNonEmpty(Contents(r, ms))
  }

  /** What has been sent ends with the latest content of `ms`. */
  predicate UpToDate(r: Readers, s: State, ts: int, ms: seq<Message>) {
    EndsWith(SentText(ts, s), Latest(r, ms))
  }

  /** What is remembered is the latest content or nothing, whatever has been sent. */
  predicate Remembers(r: Readers, s: State, ts: int, ms: seq<Message>) {
    NotWaiting(ts, s) && (LastText(s, ts) == "" || LastText(s, ts) == Latest(r, ms))
  }

  /** The latest content before message i, followed by its field, ends with that content again. */
  predicate FieldFits(r: Readers, ms: seq<Message>, i: nat)
    requires i < |ms|
  {
    EndsWith(Latest(r, ms[..i]) + Field(ms[i]), Latest(r, ms[..i]))
  }

  lemma EndsWithTail(sent: string, content: string, field: string)
    requires EndsWith(sent, content)
    ensures EndsWith(sent + field, content) <==> EndsWith(content + field, content)
  {
    var x := sent[..|sent| - |content|];
    assert sent == x + content;
    assert sent + field == x + (content + field);
    assert (x + (content + field))[|x| + |field|..] == (content + field)[|field|..];
  }

  lemma OwnMessage(r: Readers, terminal: bool, s: State, m: Message, ms: seq<Message>)
    requires IsStreamed(r, m) && Remembers(r, s, m.ts, ms)
    ensures Remembers(r, Process(r, terminal, s, m), m.ts, ms + [m])
    ensures UpToDate(r, s, m.ts, ms) ==>
      (UpToDate(r, Process(r, terminal, s, m), m.ts, ms + [m]) <==> FieldFits(r, ms + [m], |ms|))
  {
    assert (ms + [m])[..|ms|] == ms;
    ContentsPush(r, ms, m);
    if m.text == "" {
      EmptyStep(r, terminal, s, m);
      if UpToDate(r, s, m.ts, ms) { EndsWithTail(SentText(m.ts, s), Latest(r, ms), Field(m)); }
    } else {
      var latest := Latest(r, ms);
      LatestPush(Contents(r, ms), Content(r, m));
      StreamStep(r, s, m);
      assert latest + "" == latest;
      if UpToDate(r, s, m.ts, ms) { CompletingStep(r, terminal, s, m); }
    }
  }

  lemma OtherMessage(r: Readers, terminal: bool, s: State, e: Event, ts: int, ms: seq<Message>)
    requires Remembers(r, s, ts, ms) && (e.Changed? ==> e.message.ts != ts)
    ensures Remembers(r, Step(r, terminal, s, e), ts, ms)
    ensures UpToDate(r, Step(r, terminal, s, e), ts, ms) <==> UpToDate(r, s, ts, ms)
  {
    if !e.Prompted? { OtherStep(r, terminal, s, e, ts); }
  }

  lemma AllStreamedPush(r: Readers, ms: seq<Message>, m: Message)
    requires AllStreamed(r, ms + [m])
    ensures AllStreamed(r, ms) && IsStreamed(r, m)
  {
    assert (ms + [m])[|ms|] == m;
    assert forall i :: 0 <= i < |ms| ==> (ms + [m])[i] == ms[i];
  }

  type Fact = seq<Event> -> bool

  predicate AtEachMoment(fact: Fact, events: seq<Event>) {
    forall k :: 0 <= k <= |events| ==> fact(events[..k])
  }

  lemma EachMomentPush(fact: Fact, rest: seq<Event>, e: Event)
    ensures AtEachMoment(fact, rest + [e]) <==> AtEachMoment(fact, rest) && fact(rest + [e])
  {
    var events := rest + [e];
    assert events[..|events|] == events;
    assert forall k :: 0 <= k <= |rest| ==> events[..k] == rest[..k];
    if AtEachMoment(fact, events) {
      forall k | 0 <= k <= |rest| ensures fact(rest[..k]) { assert fact(events[..k]); }
    }
  }

  lemma NowInParticular(fact: Fact, events: seq<Event>)
    requires AtEachMoment(fact, events)
    ensures fact(events)
  {
    assert fact(events[..|events|]) && events[..|events|] == events;
  }

  /** After a run, what has been sent ends with the latest content. */
  function UpToDateAfter(r: Readers, terminal: bool, ts: int): Fact {
    events => UpToDate(r, Run(r, terminal, Start(), events), ts, Messages(ts, events))
  }

  /** At every moment of the run, what has been sent ends with the latest content. */
  predicate AlwaysUpToDate(r: Readers, terminal: bool, events: seq<Event>, ts: int) {
    AtEachMoment(UpToDateAfter(r, terminal, ts), events)
  }

  predicate AllFit(r: Readers, ms: seq<Message>) {
    forall i :: 0 <= i < |ms| ==> FieldFits(r, ms, i)
  }

  lemma AllFitPush(r: Readers, ms: seq<Message>, m: Message)
    ensures AllFit(r, ms + [m]) <==> AllFit(r, ms) && FieldFits(r, ms + [m], |ms|)
  {
    forall i | 0 <= i < |ms| ensures FieldFits(r, ms + [m], i) <==> FieldFits(r, ms, i) {
      assert (ms + [m])[..i] == ms[..i];
    }
  }

  lemma {:induction false} RunRemembers(r: Readers, terminal: bool, events: seq<Event>, ts: int)
    requires AllStreamed(r, Messages(ts, events))
    ensures Remembers(r, Run(r, terminal, Start(), events), ts, Messages(ts, events))
    decreases |events|
  {
    if events != [] {
      var rest, e := events[..|events| - 1], events[|events| - 1];
      var s, ms := Run(r, terminal, Start(), rest), Messages(ts, rest);
      if e.Changed? && e.message.ts == ts {
        AllStreamedPush(r, ms, e.message);
        RunRemembers(r, terminal, rest, ts);
        OwnMessage(r, terminal, s, e.message, ms);
      } else {
        RunRemembers(r, terminal, rest, ts);
        OtherMessage(r, terminal, s, e, ts, ms);
      }
    }
  }

  /** In every run, with any prompts and any other messages in between: the chunks sent for a text-streamed
      message end with its latest non-empty content at every moment exactly if each field sent without text
      happens to repeat the content that it follows; always, then, if no reasoning comes without text. */
  lemma {:induction false} SentTextEndsWithLatestContent(r: Readers, terminal: bool, events: seq<Event>, ts: int)
    requires AllStreamed(r, Messages(ts, events))
    ensures AlwaysUpToDate(r, terminal, events, ts) <==> AllFit(r, Messages(ts, events))
    decreases |events|
  {
    if events == [] {
      assert SentText(ts, Start()) == "";
    } else {
      var rest, e := events[..|events| - 1], events[|events| - 1];
      var s, ms := Run(r, terminal, Start(), rest), Messages(ts, rest);
      assert events == rest + [e];
      var fact := UpToDateAfter(r, terminal, ts);
      EachMomentPush(fact, rest, e);
      if AlwaysUpToDate(r, terminal, rest, ts) { NowInParticular(fact, rest); }
      if e.Changed? && e.message.ts == ts {
        AllStreamedPush(r, ms, e.message);
        SentTextEndsWithLatestContent(r, terminal, rest, ts);
        RunRemembers(r, terminal, rest, ts);
        OwnMessage(r, terminal, s, e.message, ms);
        AllFitPush(r, ms, e.message);
      } else {
        SentTextEndsWithLatestContent(r, terminal, rest, ts);
        RunRemembers(r, terminal, rest, ts);
        OtherMessage(r, terminal, s, e, ts, ms);
      }
    }
  }

  // ----- Contents that only grow are sent exactly once

  predicate Growing(contents: seq<string>) {
    forall i :: 0 < i < |contents| ==> contents[i - 1] <= contents[i]
  }

  predicate SameCompletion(ms: seq<Message>, completion: bool) {
    forall i :: 0 <= i < |ms| ==> IsCompletion(ms[i]) == completion
  }

  function Displayed(content: string, completion: bool): string {
    if completion && content != "" then "\n" + content else content
  }

  /** What StreamStep adds for a content that extends the last one. */
  function Addition(content: string, lastText: string, completion: bool): string
    requires lastText <= content
  {
    if content == lastText then ""
    else (if completion && lastText == "" then "\n" else "") + content[|lastText|..]
  }

  lemma DisplayedGrows(lastText: string, content: string, completion: bool)
    requires lastText <= content
    ensures Displayed(content, completion) == Displayed(lastText, completion) + Addition(content, lastText, completion)
  {
    assert content == lastText + content[|lastText|..];
  }

  lemma StreamGrows(r: Readers, s: State, m: Message, sent: string, completion: bool)
    requires LastText(s, m.ts) <= Content(r, m) && IsCompletion(m) == completion
    requires SentText(m.ts, s) == sent + Displayed(LastText(s, m.ts), completion)
    ensures SentText(m.ts, Stream(r, s, m)) == sent + Displayed(Content(r, m), completion)
  {
    var content, lastText := Content(r, m), LastText(s, m.ts);
    StreamStep(r, s, m);
    DisplayedGrows(lastText, content, completion);
    Appended(sent, Displayed(lastText, completion), Addition(content, lastText, completion));
  }

  lemma Appended(a: string, b: string, c: string)
    ensures a + b + c == a + (b + c)
  {
  }

  /** The text sent since `sent` is the last content and the fields, in whatever order, and without fields the
      last content itself. */
  predicate Grown(r: Readers, s: State, ts: int, sent: string, ms: seq<Message>, completion: bool) {
    var shown := Displayed(Last(Contents(r, ms)), completion);
    && NotWaiting(ts, s) && LastText(s, ts) == Last(Contents(r, ms))
    && |SentText(ts, s)| == |sent| + |shown| + |Fields(ms)|
    && (Fields(ms) == "" ==> SentText(ts, s) == sent + shown)
  }

  lemma GrownByText(r: Readers, terminal: bool, s: State, m: Message, sent: string, ms: seq<Message>, completion: bool)
    requires IsStreamed(r, m) && m.text != "" && IsCompletion(m) == completion
    requires Grown(r, s, m.ts, sent, ms, completion) && LastText(s, m.ts) <= Content(r, m)
    ensures Grown(r, Process(r, terminal, s, m), m.ts, sent, ms + [m], completion)
  {
    var content, lastText := Content(r, m), LastText(s, m.ts);
    ContentsPush(r, ms, m);
    FieldsPush(ms, m);
    assert Fields(ms) + "" == Fields(ms);
    StreamStep(r, s, m);
    assert |SentText(m.ts, Stream(r, s, m))| == |SentText(m.ts, s)| + |Addition(content, lastText, completion)|;
    DisplayedGrows(lastText, content, completion);
    if Fields(ms) == "" { StreamGrows(r, s, m, sent, completion); }
  }

  lemma GrownByField(r: Readers, terminal: bool, s: State, m: Message, sent: string, ms: seq<Message>, completion: bool)
    requires IsStreamed(r, m) && m.text == "" && Grown(r, s, m.ts, sent, ms, completion)
    ensures Grown(r, Process(r, terminal, s, m), m.ts, sent, ms + [m], completion)
  {
    ContentsPush(r, ms, m);
    FieldsPush(ms, m);
    EmptyStep(r, terminal, s, m);
    if Fields(ms + [m]) == "" {
      assert Field(m) == "" && Fields(ms) == "" && SentText(m.ts, s) + "" == SentText(m.ts, s);
    }
  }

  lemma GrowingPush(r: Readers, ms: seq<Message>, m: Message, completion: bool)
    requires Growing(Contents(r, ms + [m])) && SameCompletion(ms + [m], completion)
    ensures Growing(Contents(r, ms)) && SameCompletion(ms, completion) && IsCompletion(m) == completion
    ensures m.text != "" ==> Last(Contents(r, ms)) <= Content(r, m)
  {
    var before, after := Contents(r, ms), Contents(r, ms + [m]);
    ContentsPush(r, ms, m);
    assert (ms + [m])[|ms|] == m;
    assert forall i :: 0 <= i < |ms| ==> (ms + [m])[i] == ms[i];
    assert forall i :: 0 <= i < |before| ==> after[i] == before[i];
    if m.text != "" && before != [] { assert after[|before| - 1] <= after[|before|]; }
  }

  lemma {:induction false} GrowingRun(r: Readers, terminal: bool, s: State, events: seq<Event>, ts: int, completion: bool)
    requires NoPrompt(events) && NotWaiting(ts, s) && LastText(s, ts) == ""
    requires AllStreamed(r, Messages(ts, events)) && SameCompletion(Messages(ts, events), completion)
    requires Growing(Contents(r, Messages(ts, events)))
    ensures Grown(r, Run(r, terminal, s, events), ts, SentText(ts, s), Messages(ts, events), completion)
    decreases |events|
  {
    if events == [] {
      assert SentText(ts, s) + "" == SentText(ts, s);
    } else {
      var rest, e := events[..|events| - 1], events[|events| - 1];
      var s1, ms := Run(r, terminal, s, rest), Messages(ts, rest);
      if e.Changed? && e.message.ts == ts {
        AllStreamedPush(r, ms, e.message);
        GrowingPush(r, ms, e.message, completion);
        GrowingRun(r, terminal, s, rest, ts, completion);
        if e.message.text == "" {
          GrownByField(r, terminal, s1, e.message, SentText(ts, s), ms, completion);
        } else {
          GrownByText(r, terminal, s1, e.message, SentText(ts, s), ms, completion);
        }
      } else {
        GrowingRun(r, terminal, s, rest, ts, completion);
        OtherStep(r, terminal, s1, e, ts);
      }
    }
  }

  /** Within a prompt, when each content extends the one before: the chunks sent are the last content, after
      one newline if it is a completion result, exactly if no reasoning came without text. */
  lemma GrowingTextSentOnce(r: Readers, terminal: bool, s: State, events: seq<Event>, ts: int, completion: bool)
    requires NoPrompt(events) && NotWaiting(ts, s) && LastText(s, ts) == ""
    requires AllStreamed(r, Messages(ts, events)) && SameCompletion(Messages(ts, events), completion)
    requires Growing(Contents(r, Messages(ts, events)))
    ensures SentText(ts, Run(r, terminal, s, events))
            == SentText(ts, s) + Displayed(Last(Contents(r, Messages(ts, events))), completion)
       <==> Fields(Messages(ts, events)) == ""
  {
    GrowingRun(r, terminal, s, events, ts, completion);
  }

  // ----- A run in which a field breaks the text

  function Reasoning(text: string, reasoning: string): Event {
    Changed(Message(1, Say(SayReasoning), text, reasoning, true, false))
  }

  lemma RunPush(r: Readers, terminal: bool, s: State, events: seq<Event>, e: Event)
    ensures Run(r, terminal, s, events + [e]) == Step(r, terminal, Run(r, terminal, s, events), e)
  {
    assert (events + [e])[..|events|] == events;
  }

  lemma RunThree(r: Readers, terminal: bool, e0: Event, e1: Event, e2: Event)
    ensures Run(r, terminal, Start(), [e0, e1, e2])
         == Step(r, terminal, Step(r, terminal, Step(r, terminal, Start(), e0), e1), e2)
  {
    RunPush(r, terminal, Start(), [], e0);
    RunPush(r, terminal, Start(), [e0], e1);
    RunPush(r, terminal, Start(), [e0, e1], e2);
    assert [e0] + [e1] == [e0, e1] && [e0, e1] + [e2] == [e0, e1, e2];
  }

  lemma MessagesThree(e0: Event, e1: Event, e2: Event, ts: int)
    requires e0.Changed? && e1.Changed? && e2.Changed? && e0.message.ts == e1.message.ts == e2.message.ts == ts
    ensures Messages(ts, [e0, e1, e2]) == [e0.message, e1.message, e2.message]
  {
    MessagesPush(ts, [], e0);
    MessagesPush(ts, [e0], e1);
    MessagesPush(ts, [e0, e1], e2);
    assert [] + [e0] == [e0] && [e0] + [e1] == [e0, e1] && [e0, e1] + [e2] == [e0, e1, e2];
  }

  lemma ContentsThree(r: Readers, e0: Event, e1: Event, e2: Event, ts: int)
    requires e0.Changed? && e1.Changed? && e2.Changed? && e0.message.ts == e1.message.ts == e2.message.ts == ts
    requires e0.message.text != "" && e1.message.text == "" && e2.message.text != ""
    ensures Contents(r, Messages(ts, [e0, e1, e2])) == [Content(r, e0.message), Content(r, e2.message)]
  {
    MessagesThree(e0, e1, e2, ts);
    ContentsPush(r, [], e0.message);
    ContentsPush(r, [e0.message], e1.message);
    ContentsPush(r, [e0.message, e1.message], e2.message);
    assert [] + [e0.message] == [e0.message];
    assert [e0.message] + [e1.message] == [e0.message, e1.message];
    assert [e0.message, e1.message] + [e2.message] == [e0.message, e1.message, e2.message];
    assert [] + [Content(r, e0.message)] == [Content(r, e0.message)];
  }

  lemma ReasoningStream(r: Readers, s: State, m: Message)
    requires m.body == Say(SayReasoning)
    ensures SentText(m.ts, Stream(r, s, m)) == SentText(m.ts, s) + Delta(m.text, LastText(s, m.ts))
    ensures LastText(Stream(r, s, m), m.ts) == m.text
  {
    var delta := Delta(m.text, LastText(s, m.ts));
    StreamStep(r, s, m);
    if delta == "" {
      assert SentText(m.ts, s) + "" == SentText(m.ts, s);
    } else {
      assert Newline(m, LastText(s, m.ts)) == "" && "" + delta == delta;
    }
  }

  lemma ReasoningStep(r: Readers, terminal: bool, s: State, m: Message)
    requires m.body == Say(SayReasoning) && m.text != "" && LastText(s, m.ts) < m.text
    ensures var s' := Process(r, terminal, s, m);
      SentText(m.ts, s') == SentText(m.ts, s) + m.text[|LastText(s, m.ts)|..] && LastText(s', m.ts) == m.text
  {
    var delta, lastText := m.text[|LastText(s, m.ts)|..], LastText(s, m.ts);
    ReasoningStream(r, s, m);
    assert Process(r, terminal, s, m) == Stream(r, s, m);
    assert Delta(m.text, lastText) == delta;
  }

  lemma ReasoningStart(r: Readers, terminal: bool, first: string)
    requires first != ""
    ensures var s := Process(r, terminal, Start(), Reasoning(first, "").message);
      SentText(1, s) == first && LastText(s, 1) == first
  {
    ReasoningStep(r, terminal, Start(), Reasoning(first, "").message);
    assert first[0..] == first && "" + first == first;
  }

  lemma EndsWithSame(a: string, b: string, c: string)
    ensures EndsWith(a + c, b + c) <==> EndsWith(a, b)
  {
    if |b| <= |a| {
      assert (a + c)[|a| - |b|..] == a[|a| - |b|..] + c;
      assert (a[|a| - |b|..] + c)[..|b|] == a[|a| - |b|..] && (b + c)[..|b|] == b;
    }
  }

  /** Reasoning streamed as `first`, then carried as `field`, then streamed as `last`: what is sent ends with
      `last` exactly if `first` followed by `field` happens to end with `first`. */
  lemma ReasoningRun(r: Readers, terminal: bool, first: string, field: string, last: string)
    requires first != "" && field != "" && first < last
    ensures SentText(1, Run(r, terminal, Start(), [Reasoning(first, ""), Reasoning("", field), Reasoning(last, "")]))
         == first + field + last[|first|..]
    ensures EndsWith(first + field + last[|first|..], last) <==> EndsWith(first + field, first)
  {
    EndsWithSame(first + field, first, last[|first|..]);
    assert first + last[|first|..] == last;
    var e0, e1, e2 := Reasoning(first, ""), Reasoning("", field), Reasoning(last, "");
    RunThree(r, terminal, e0, e1, e2);
    ReasoningStart(r, terminal, first);
    ReasoningTwo(r, terminal, Process(r, terminal, Start(), e0.message), field, last);
  }

  lemma ReasoningTwo(r: Readers, terminal: bool, s: State, field: string, last: string)
    requires field != "" && LastText(s, 1) < last
    ensures SentText(1, Process(r, terminal, Process(r, terminal, s, Reasoning("", field).message), Reasoning(last, "").message))
         == SentText(1, s) + field + last[|LastText(s, 1)|..]
  {
    EmptyStep(r, terminal, s, Reasoning("", field).message);
    ReasoningStep(r, terminal, Process(r, terminal, s, Reasoning("", field).message), Reasoning(last, "").message);
  }

  /** Reasoning that arrives in its own field, without text, is sent whole and not remembered: text
      streamed around it no longer ends with the content. */
  lemma ReasoningFieldBreaksTheText(r: Readers, terminal: bool)
    ensures var events := [Reasoning("ab", ""), Reasoning("", "x"), Reasoning("abc", "")];
      && SentText(1, Run(r, terminal, Start(), events)) == "abxc"
      && LatestNonEmpty(Contents(r, Messages(1, events))) == "abc"
  {
    assert "ab" < "abc" && "abc"[2..] == "c" && "ab" + "x" + "c" == "abxc";
    ReasoningRun(r, terminal, "ab", "x", "abc");
    ContentsThree(r, Reasoning("ab", ""), Reasoning("", "x"), Reasoning("abc", ""), 1);
    LatestPush(["ab"], "abc");
    assert ["ab"] + ["abc"] == ["ab", "abc"];
  }
}
