/** Which chunks are thoughts, what a new prompt resends, and the account of permission requests. */
module AcpVoices {
  import opened Sequences
  import opened AcpTranslation
  import opened AcpSession
  import opened AcpStreams
  import opened AcpText

  // ----- Thoughts and messages

  predicate IsReasoning(m: Message) {
    m.body == Say(SayReasoning)
  }

  /** Reasoning is sent as thought chunks and everything else as message chunks. */
  predicate VoicedBy(m: Message, u: Update) {
    (u.ThoughtChunk? ==> IsReasoning(m)) && (u.AgentChunk? ==> !IsReasoning(m))
  }

  predicate AllVoiced(m: Message, updates: seq<Update>) {
    forall i :: 0 <= i < |updates| ==> VoicedBy(m, updates[i])
  }

  lemma CallsVoiced(r: Readers, s: Session, m: Message, terminal: bool)
    requires !IsReasoning(m)
    ensures AllVoiced(m, WebSearch(s, m).updates) && AllVoiced(m, Tool(r, s, m).updates)
    ensures AllVoiced(m, CommandOutput(s, m, terminal).updates) && AllVoiced(m, BrowserAction(r, s, m).updates)
  {
  }

  lemma SayVoiced(r: Readers, s: Session, m: Message, say: SayTag, terminal: bool)
    requires m.body == Say(say)
    ensures var t := TranslateSay(r, s, m, say, terminal); t.Some? ==> AllVoiced(m, t.value.updates)
  {
    if say != SayReasoning { CallsVoiced(r, s, m, terminal); }
  }

  lemma AskVoiced(r: Readers, s: Session, m: Message, ask: AskTag, existing: Option<ToolId>)
    requires m.body == Ask(ask)
    ensures AllVoiced(m, TranslateAsk(r, s, m, ask, existing).updates)
  {
  }

  lemma TranslationVoiced(r: Readers, s: Session, m: Message, existing: Option<ToolId>, terminal: bool)
    ensures var t := Translate(r, s, m, existing, terminal); t.Some? ==> AllVoiced(m, t.value.updates)
  {
    match m.body
    case Say(say) => SayVoiced(r, s, m, say, terminal);
    case Ask(ask) => AskVoiced(r, s, m, ask, existing);
  }

  /** What an entry says of the message that it was sent for. */
  predicate EntryVoiced(e: Entry, m: Message) {
    e.Sent? && e.source == ByMessage(m.ts) && VoicedBy(m, e.update)
  }

  lemma ProcessVoiced(r: Readers, terminal: bool, s: State, m: Message, i: nat)
    requires |s.log| <= i < |Process(r, terminal, s, m).log| && Process(r, terminal, s, m).log[i].Sent?
    ensures EntryVoiced(Process(r, terminal, s, m).log[i], m)
  {
    if !(IsTextStreaming(m) && m.text != "" && !IsMarker(r, m)) {
      TranslationVoiced(r, s.session, m, Existing(s, m.ts), terminal);
    }
  }

  lemma ProcessAppends(r: Readers, terminal: bool, s: State, m: Message)
    ensures s.log <= Process(r, terminal, s, m).log
  {
  }

  predicate IsChunk(e: Entry) {
    e.Sent? && e.source.ByMessage? && (e.update.ThoughtChunk? || e.update.AgentChunk?)
  }

  /** In every run, a chunk belongs to a message of the run: a thought to reasoning, any other to a message
      that is no reasoning. */
  lemma {:induction false} ChunksVoiced(r: Readers, terminal: bool, events: seq<Event>, i: nat) returns (k: nat)
    requires i < |Run(r, terminal, Start(), events).log| && IsChunk(Run(r, terminal, Start(), events).log[i])
    ensures k < |events| && events[k].Changed?
    ensures var e := Run(r, terminal, Start(), events).log[i];
      e.source == ByMessage(events[k].message.ts) && (e.update.ThoughtChunk? <==> IsReasoning(events[k].message))
    decreases |events|
  {
    var n := |events| - 1;
    var s, e := Run(r, terminal, Start(), events[..n]), events[n];
    if i < |s.log| {
      if e.Changed? { ProcessAppends(r, terminal, s, e.message); }
      k := ChunksVoiced(r, terminal, events[..n], i);
    } else {
      k := n;
      if e.Changed? { ProcessVoiced(r, terminal, s, e.message, i); }
    }
  }

  // ----- A new prompt

  /** After a new prompt a streamed message is sent whole again, and nothing else has changed. */
  lemma PromptResends(r: Readers, terminal: bool, s: State, m: Message)
    requires IsStreamed(r, m) && m.text != ""
    ensures SentText(m.ts, Process(r, terminal, Prompt(s), m)) == SentText(m.ts, s) + Displayed(Content(r, m), IsCompletion(m))
    ensures Prompt(s).session == s.session && Prompt(s).waiting == s.waiting && Prompt(s).log == s.log
    ensures forall ts :: Existing(Prompt(s), ts) == None
  {
    var s' := Prompt(s);
    var content := Content(r, m);
    StreamStep(r, s', m);
    assert LastText(s', m.ts) == "" && Delta(content, "") == content;
    if content == "" {
      assert SentText(m.ts, s) + "" == SentText(m.ts, s);
    } else if !IsCompletion(m) {
      assert "" + content == content;
    }
  }

  /** A message that is not streamed is remembered by its text once it is settled. */
  lemma SettledTextIsRemembered(r: Readers, terminal: bool, s: State, m: Message)
    requires !(IsTextStreaming(m) && m.text != "" && !IsMarker(r, m))
    requires var t := Translate(r, s.session, m, Existing(s, m.ts), terminal); t.Some? && (t.value.request.None? || m.partial)
    ensures LastText(Process(r, terminal, s, m), m.ts) == if m.text == "" then LastText(s, m.ts) else m.text
  {
  }

  // ----- Requests and replies

  function AskedCount(log: seq<Entry>): nat {
    if log == [] then 0 else AskedCount(log[..|log| - 1]) + if log[|log| - 1].Asked? then 1 else 0
  }

  lemma AskedCountPush(log: seq<Entry>, e: Entry)
    ensures AskedCount(log + [e]) == AskedCount(log) + if e.Asked? then 1 else 0
  {
    assert (log + [e])[..|log|] == log;
  }

  lemma {:induction false} AskedCountSend(log: seq<Entry>, source: Source, updates: seq<Update>)
    ensures AskedCount(log + SendAll(source, updates)) == AskedCount(log)
    decreases updates
  {
    if updates == [] {
      assert log + SendAll(source, updates) == log;
    } else {
      AskedCountPush(log, Sent(source, updates[0]));
      AskedCountSend(log + [Sent(source, updates[0])], source, updates[1..]);
      assert log + SendAll(source, updates) == log + [Sent(source, updates[0])] + SendAll(source, updates[1..]);
    }
  }

  /** The replies of the run that answered an open request. */
  function Answered(r: Readers, terminal: bool, events: seq<Event>): nat
    decreases |events|
  {
    if events == [] then 0
    else
      var e := events[|events| - 1];
      Answered(r, terminal, events[..|events| - 1]) +
      if e.Replied? && e.request < |Run(r, terminal, Start(), events[..|events| - 1]).waiting| then 1 else 0
  }

  lemma DeliverCounts(s: State, m: Message, t: Translated)
    ensures AskedCount(Deliver(s, m, t).log) + |s.waiting| == AskedCount(s.log) + |Deliver(s, m, t).waiting|
  {
    AskedCountSend(s.log, ByMessage(m.ts), t.updates);
    if t.request.Some? && !m.partial { AskedCountPush(SendUpdates(s, m, t).log, Asked(m.ts, t.request.value)); }
  }

  lemma ProcessCounts(r: Readers, terminal: bool, s: State, m: Message)
    ensures AskedCount(Process(r, terminal, s, m).log) + |s.waiting| == AskedCount(s.log) + |Process(r, terminal, s, m).waiting|
  {
    if IsTextStreaming(m) && m.text != "" && !IsMarker(r, m) {
      var s' := Stream(r, s, m);
      if s'.log != s.log {
        AskedCountPush(s.log, s'.log[|s.log|]);
        assert s'.log == s.log + [s'.log[|s.log|]];
      }
    } else {
      var t := Translate(r, s.session, m, Existing(s, m.ts), terminal);
      if t.Some? { DeliverCounts(s, m, t.value); }
    }
  }

  /** In every run, each request made is open or has been answered, and none is answered twice. */
  lemma {:induction false} RequestsAccounted(r: Readers, terminal: bool, events: seq<Event>)
    ensures var s := Run(r, terminal, Start(), events); AskedCount(s.log) == |s.waiting| + Answered(r, terminal, events)
    decreases |events|
  {
    if events != [] {
      var s, e := Run(r, terminal, Start(), events[..|events| - 1]), events[|events| - 1];
      RequestsAccounted(r, terminal, events[..|events| - 1]);
      match e
      case Changed(m) => ProcessCounts(r, terminal, s, m);
      case Replied(request, outcome, answer) =>
        if request < |s.waiting| && s.session.current.Some? {
          var updates := StatusUpdates(s.session.current.value, Statuses(outcome, answer));
          AskedCountSend(s.log, ByReply(s.waiting[request].message.ts), updates);
        }
      case Prompted =>
    }
  }

  /** A reply closes its request, and unless the task throws in the end the tool ask is forgotten, so that a
      further message of its timestamp opens a new call. */
  lemma ReplyClosesRequest(s: State, request: nat, outcome: Outcome, answer: Answer)
    requires request < |s.waiting|
    ensures var s', w := Reply(s, request, outcome, answer), s.waiting[request];
      && s'.waiting == s.waiting[..request] + s.waiting[request + 1..] && s'.session == s.session
      && (answer == Taken && !w.message.partial && w.toolCallId.Some? ==> Existing(s', w.message.ts) == None)
      && (answer == FailsTwice ==> s'.toolIds == s.toolIds && s'.lastContent == s.lastContent)
  {
  }

  /** The call goes on exactly if the request was allowed; the last word is `failed` unless it was allowed and
      the task took the outcome. */
  lemma ReplyTells(id: ToolId, outcome: Outcome, answer: Answer)
    ensures var updates := StatusUpdates(id, Statuses(outcome, answer));
      && |updates| > 0
      && (updates[0] == ToolCallUpdate(id, Some(InProgress)) <==> outcome == Allowed)
      && (updates[|updates| - 1] == ToolCallUpdate(id, Some(Failed)) <==> outcome != Allowed || answer != Taken)
      && (|updates| == 2 <==> outcome != Errored && answer != Taken)
  {
  }
}
