/** What the messages of one timestamp produce, whatever else happens between them. */
module AcpStreams {
  import opened Sequences
  import opened AcpTranslation
  import opened AcpSession

  // ----- The entries and messages of one timestamp

  predicate IsOwn(ts: int, e: Entry) {
    match e
    case Sent(source, _) => source == ByMessage(ts)
    case Asked(t, _) => t == ts
  }

  /** What was sent or asked while messages with this timestamp were handled. */
  function Own(ts: int, log: seq<Entry>): seq<Entry> {
    if log == [] then []
    else
      var before := Own(ts, log[..|log| - 1]);
      if IsOwn(ts, log[|log| - 1]) then before + [log[|log| - 1]] else before
  }

  /** The messages with this timestamp, in order. */
  function Messages(ts: int, events: seq<Event>): seq<Message> {
    if events == [] then []
    else
      var before := Messages(ts, events[..|events| - 1]);
      var last := events[|events| - 1];
      if last.Changed? && last.message.ts == ts then before + [last.message] else before
  }

  predicate NoPrompt(events: seq<Event>) {
    forall i :: 0 <= i < |events| ==> !events[i].Prompted?
  }

  predicate NotWaiting(ts: int, s: State) {
    forall i :: 0 <= i < |s.waiting| ==> s.waiting[i].message.ts != ts
  }

  lemma OwnPush(ts: int, log: seq<Entry>, e: Entry)
    ensures Own(ts, log + [e]) == if IsOwn(ts, e) then Own(ts, log) + [e] else Own(ts, log)
  {
    assert (log + [e])[..|log|] == log;
  }

  lemma {:induction false} OwnSend(ts: int, log: seq<Entry>, source: Source, updates: seq<Update>)
    ensures Own(ts, log + SendAll(source, updates))
         == if source == ByMessage(ts) then Own(ts, log) + SendAll(source, updates) else Own(ts, log)
    decreases updates
  {
    if updates == [] {
      assert log + SendAll(source, updates) == log;
      assert Own(ts, log) + SendAll(source, updates) == Own(ts, log);
    } else {
      var e := Sent(source, updates[0]);
      OwnPush(ts, log, e);
      OwnSend(ts, log + [e], source, updates[1..]);
      assert log + SendAll(source, updates) == log + [e] + SendAll(source, updates[1..]);
      assert Own(ts, log) + SendAll(source, updates) == Own(ts, log) + [e] + SendAll(source, updates[1..]);
    }
  }

  lemma MessagesPush(ts: int, events: seq<Event>, e: Event)
    ensures Messages(ts, events + [e])
         == if e.Changed? && e.message.ts == ts then Messages(ts, events) + [e.message] else Messages(ts, events)
  {
    assert (events + [e])[..|events|] == events;
  }

  // ----- Other timestamps do not interfere

  /** What matters to the messages of one timestamp. */
  ghost predicate SameView(ts: int, s: State, s': State) {
    && Own(ts, s'.log) == Own(ts, s.log)
    && Existing(s', ts) == Existing(s, ts)
    && LastText(s', ts) == LastText(s, ts)
    && s.session.pending.Keys <= s'.session.pending.Keys
    && (NotWaiting(ts, s) ==> NotWaiting(ts, s'))
  }

  /** Translation forgets no pending call and issues ids upwards. */
  ghost predicate Grows(s: Session, s': Session) {
    s.pending.Keys <= s'.pending.Keys && s.nextId <= s'.nextId
  }

  lemma SayGrows(r: Readers, s: Session, m: Message, say: SayTag, terminal: bool)
    ensures var t := TranslateSay(r, s, m, say, terminal); t.Some? ==> Grows(s, t.value.session)
  {
    if say == SayText {
      assert Grows(s, WebSearch(s, m).session);
    } else if say == SayTool {
      assert Grows(s, Tool(r, s, m).session);
    } else if say == SayCommandOutput {
      assert Grows(s, CommandOutput(s, m, terminal).session);
    }
  }

  lemma AskGrows(r: Readers, s: Session, m: Message, ask: AskTag, existing: Option<ToolId>)
    ensures Grows(s, TranslateAsk(r, s, m, ask, existing).session)
  {
    if ask == AskTool { assert Grows(s, AskForTool(r, s, m, existing).session); }
  }

  lemma TranslationGrows(r: Readers, s: Session, m: Message, existing: Option<ToolId>, terminal: bool)
    ensures var t := Translate(r, s, m, existing, terminal); t.Some? ==> Grows(s, t.value.session)
  {
    match m.body
    case Say(say) => SayGrows(r, s, m, say, terminal);
    case Ask(ask) => AskGrows(r, s, m, ask, existing);
  }

  lemma OtherStream(r: Readers, s: State, m: Message, ts: int)
    requires m.ts != ts
    ensures SameView(ts, s, Stream(r, s, m))
  {
    var s' := Stream(r, s, m);
    if s'.log != s.log {
      OwnPush(ts, s.log, s'.log[|s.log|]);
      assert s'.log == s.log + [s'.log[|s.log|]];
    }
  }

  lemma OtherDeliverOwn(s: State, m: Message, t: Translated, ts: int)
    requires m.ts != ts
    ensures Own(ts, Deliver(s, m, t).log) == Own(ts, s.log)
  {
    var sent := SendUpdates(s, m, t);
    OwnSend(ts, s.log, ByMessage(m.ts), t.updates);
    assert Own(ts, sent.log) == Own(ts, s.log);
    if t.request.Some? && !m.partial { OwnPush(ts, sent.log, Asked(m.ts, t.request.value)); }
  }

  lemma OtherDeliverRest(s: State, m: Message, t: Translated, ts: int)
    requires m.ts != ts
    ensures var s' := Deliver(s, m, t);
      && Existing(s', ts) == Existing(s, ts) && LastText(s', ts) == LastText(s, ts)
      && s'.session == t.session && (NotWaiting(ts, s) ==> NotWaiting(ts, s'))
  {
  }

  lemma OtherDeliver(s: State, m: Message, t: Translated, ts: int)
    requires m.ts != ts && s.session.pending.Keys <= t.session.pending.Keys
    ensures SameView(ts, s, Deliver(s, m, t))
  {
    OtherDeliverOwn(s, m, t, ts);
    OtherDeliverRest(s, m, t, ts);
  }

  lemma OtherProcess(r: Readers, terminal: bool, s: State, m: Message, ts: int)
    requires m.ts != ts
    ensures SameView(ts, s, Process(r, terminal, s, m))
  {
    if IsTextStreaming(m) && m.text != "" && !IsMarker(r, m) {
      OtherStream(r, s, m, ts);
    } else {
      var existing := Existing(s, m.ts);
      TranslationGrows(r, s.session, m, existing, terminal);
      var translated := Translate(r, s.session, m, existing, terminal);
      if translated.Some? { OtherDeliver(s, m, translated.value, ts); }
    }
  }

  lemma ReplyKeepsOwn(s: State, request: nat, outcome: Outcome, answer: Answer, ts: int)
    requires request < |s.waiting|
    ensures Own(ts, Reply(s, request, outcome, answer).log) == Own(ts, s.log)
  {
    if s.session.current.Some? {
      var updates := StatusUpdates(s.session.current.value, Statuses(outcome, answer));
      OwnSend(ts, s.log, ByReply(s.waiting[request].message.ts), updates);
    }
  }

  lemma OtherReplyRest(s: State, request: nat, outcome: Outcome, answer: Answer, ts: int)
    requires request < |s.waiting| && s.waiting[request].message.ts != ts
    ensures var s' := Reply(s, request, outcome, answer);
      && Existing(s', ts) == Existing(s, ts) && LastText(s', ts) == LastText(s, ts)
      && s'.session == s.session && (NotWaiting(ts, s) ==> NotWaiting(ts, s'))
  {
  }

  lemma OtherReply(s: State, request: nat, outcome: Outcome, answer: Answer, ts: int)
    requires request < |s.waiting| && s.waiting[request].message.ts != ts
    ensures SameView(ts, s, Reply(s, request, outcome, answer))
  {
    ReplyKeepsOwn(s, request, outcome, answer, ts);
    OtherReplyRest(s, request, outcome, answer, ts);
  }

  /** An event that is neither a message of this timestamp nor a reply to one nor a new prompt. */
  ghost predicate IsOther(ts: int, s: State, e: Event) {
    match e
    case Changed(m) => m.ts != ts
    case Replied(request, _, _) => request < |s.waiting| ==> s.waiting[request].message.ts != ts
    case Prompted => false
  }

  lemma OtherStep(r: Readers, terminal: bool, s: State, e: Event, ts: int)
    requires IsOther(ts, s, e)
    ensures SameView(ts, s, Step(r, terminal, s, e))
  {
    match e
    case Changed(m) => OtherProcess(r, terminal, s, m, ts);
    case Replied(request, outcome, answer) => if request < |s.waiting| { OtherReply(s, request, outcome, answer, ts); }
  }

  /** The entries of a message with one update. */
  lemma DeliverOne(s: State, m: Message, t: Translated, u: Update)
    requires t.updates == [u]
    ensures Own(m.ts, Deliver(s, m, t).log) == Own(m.ts, s.log) + [Sent(ByMessage(m.ts), u)]
      + (if t.request.Some? && !m.partial then [Asked(m.ts, t.request.value)] else [])
  {
    var e := Sent(ByMessage(m.ts), u);
    assert SendAll(ByMessage(m.ts), [u]) == [e];
    OwnPush(m.ts, s.log, e);
    if t.request.Some? && !m.partial {
      OwnPush(m.ts, s.log + [e], Asked(m.ts, t.request.value));
    } else {
      var own := Own(m.ts, s.log) + [e];
      assert own + [] == own;
    }
  }

  // ----- A streamed tool ask

  predicate IsToolAsk(m: Message) {
    m.body == Ask(AskTool)
  }

  /** The entries of a streamed tool ask so far: one call, then an update for each further message. */
  ghost predicate OneCall(entries: seq<Entry>, id: ToolId, ts: int, n: nat) {
    && |entries| == n && n > 0
    && entries[0].Sent? && entries[0].source == ByMessage(ts) && entries[0].update.ToolCall? && entries[0].update.id == id
    && entries[0].update.status == Pending
    && forall i :: 1 <= i < n ==> entries[i] == Sent(ByMessage(ts), ToolCallUpdate(id, Some(Pending)))
  }

  /** The stream has begun: its call is pending, remembered under its timestamp, and announced once. */
  ghost predicate Streaming(ts: int, s: State, before: seq<Entry>, n: nat) {
    && ts in s.toolIds && s.toolIds[ts] in s.session.pending && NotWaiting(ts, s)
    && |Own(ts, s.log)| >= |before| && Own(ts, s.log)[..|before|] == before
    && OneCall(Own(ts, s.log)[|before|..], s.toolIds[ts], ts, n)
  }

  /** The updates of a tool ask, first or later, partial or complete. */
  lemma ToolAskUpdates(r: Readers, s: Session, m: Message, existing: Option<ToolId>, terminal: bool) returns (t: Translated, u: Update)
    requires IsToolAsk(m) && (existing.Some? ==> existing.value in s.pending)
    ensures Translate(r, s, m, existing, terminal) == Some(t) && t.updates == [u] && t.toolCallId.Some?
    ensures existing.Some? ==> t.toolCallId == existing && u == ToolCallUpdate(existing.value, Some(Pending))
    ensures existing.None? ==> u.ToolCall? && u.id == t.toolCallId.value && u.status == Pending
    ensures t.toolCallId.value in t.session.pending
    ensures t.request == if m.partial then None else t.toolCallId
  {
    t := Translate(r, s, m, existing, terminal).value;
    u := t.updates[0];
  }

  /** One message of the stream: an entry for it, and for the complete one the request. */
  lemma ToolAskStep(r: Readers, terminal: bool, s: State, m: Message) returns (id: ToolId, u: Update)
    requires IsToolAsk(m) && (m.ts in s.toolIds ==> s.toolIds[m.ts] in s.session.pending)
    ensures var s' := Process(r, terminal, s, m);
      && Own(m.ts, s'.log) == Own(m.ts, s.log) + [Sent(ByMessage(m.ts), u)] + (if m.partial then [] else [Asked(m.ts, id)])
      && m.ts in s'.toolIds && s'.toolIds[m.ts] == id && id in s'.session.pending
      && (m.partial ==> s'.waiting == s.waiting)
    ensures m.ts in s.toolIds ==> id == s.toolIds[m.ts] && u == ToolCallUpdate(id, Some(Pending))
    ensures m.ts !in s.toolIds ==> u.ToolCall? && u.id == id && u.status == Pending
  {
    var existing := Existing(s, m.ts);
    var t;
    t, u := ToolAskUpdates(r, s.session, m, existing, terminal);
    id := t.toolCallId.value;
    DeliverOne(s, m, t, u);
  }

  /** All messages with this timestamp so far are partial tool asks. */
  predicate PartialAsks(ts: int, events: seq<Event>) {
    forall i :: 0 <= i < |Messages(ts, events)| ==> IsToolAsk(Messages(ts, events)[i]) && Messages(ts, events)[i].partial
  }

  lemma OneCallGrows(before: seq<Entry>, own: seq<Entry>, id: ToolId, ts: int, n: nat)
    requires |own| >= |before| && own[..|before|] == before && OneCall(own[|before|..], id, ts, n)
    ensures var own' := own + [Sent(ByMessage(ts), ToolCallUpdate(id, Some(Pending)))];
      own'[..|before|] == before && OneCall(own'[|before|..], id, ts, n + 1)
  {
    var e := Sent(ByMessage(ts), ToolCallUpdate(id, Some(Pending)));
    assert (own + [e])[|before|..] == own[|before|..] + [e];
  }

  /** Before its first message nothing is remembered; from then on the stream has one announced call. */
  lemma {:induction false} PartialStream(r: Readers, terminal: bool, s: State, events: seq<Event>, ts: int)
    requires NoPrompt(events) && PartialAsks(ts, events)
    requires ts !in s.toolIds && NotWaiting(ts, s)
    ensures var s' := Run(r, terminal, s, events);
      var n := |Messages(ts, events)|;
      if n == 0 then ts !in s'.toolIds && NotWaiting(ts, s') && Own(ts, s'.log) == Own(ts, s.log)
      else Streaming(ts, s', Own(ts, s.log), n)
    decreases |events|
  {
    if events != [] {
      var rest, e := events[..|events| - 1], events[|events| - 1];
      var s1 := Run(r, terminal, s, rest);
      assert events == rest + [e];
      MessagesPush(ts, rest, e);
      var all, n := Messages(ts, events), |Messages(ts, rest)|;
      assert forall i :: 0 <= i < n ==> Messages(ts, rest)[i] == all[i];
      PartialStream(r, terminal, s, rest, ts);
      if e.Changed? && e.message.ts == ts {
        assert all[n] == e.message;
        var id, u := ToolAskStep(r, terminal, s1, e.message);
        var before, own := Own(ts, s.log), Own(ts, s1.log);
        assert own + [Sent(ByMessage(ts), u)] + [] == own + [Sent(ByMessage(ts), u)];
        if n == 0 {
          assert (before + [Sent(ByMessage(ts), u)])[|before|..] == [Sent(ByMessage(ts), u)];
          assert (before + [Sent(ByMessage(ts), u)])[..|before|] == before;
        } else {
          OneCallGrows(before, own, id, ts, n);
        }
      } else {
        OtherStep(r, terminal, s1, e, ts);
      }
    }
  }

  /** With no further message of its own a timestamp gets no further entry, whatever is replied. */
  lemma {:induction false} QuietAfterwards(r: Readers, terminal: bool, s: State, events: seq<Event>, ts: int)
    requires Messages(ts, events) == []
    ensures Own(ts, Run(r, terminal, s, events).log) == Own(ts, s.log)
    decreases |events|
  {
    if events != [] {
      var rest, e := events[..|events| - 1], events[|events| - 1];
      assert events == rest + [e];
      MessagesPush(ts, rest, e);
      QuietAfterwards(r, terminal, s, rest, ts);
      var s1 := Run(r, terminal, s, rest);
      match e
      case Changed(m) => OtherProcess(r, terminal, s1, m, ts);
      case Replied(request, outcome, answer) =>
        if request < |s1.waiting| { ReplyKeepsOwn(s1, request, outcome, answer, ts); }
      case Prompted =>
    }
  }

  lemma {:induction false} RunAppend(r: Readers, terminal: bool, s: State, a: seq<Event>, b: seq<Event>)
    ensures Run(r, terminal, s, a + b) == Run(r, terminal, Run(r, terminal, s, a), b)
    decreases |b|
  {
    if b == [] {
      assert a + b == a;
    } else {
      var b', e := b[..|b| - 1], b[|b| - 1];
      assert (a + b)[..|a + b| - 1] == a + b';
      RunAppend(r, terminal, s, a, b');
    }
  }

  lemma RunThrough(r: Readers, terminal: bool, s: State, a: seq<Event>, e: Event, b: seq<Event>)
    ensures Run(r, terminal, s, a + [e] + b) == Run(r, terminal, Step(r, terminal, Run(r, terminal, s, a), e), b)
  {
    RunAppend(r, terminal, s, a + [e], b);
    assert (a + [e])[..|a|] == a;
  }

  /** The last message of the stream is its first or one more. */
  lemma LastCall(before: seq<Entry>, own: seq<Entry>, u: Update, id: ToolId, ts: int, n: nat)
    requires n == 0 ==> own == before && u.ToolCall? && u.id == id && u.status == Pending
    requires n > 0 ==> u == ToolCallUpdate(id, Some(Pending))
    requires n > 0 ==> |own| >= |before| && own[..|before|] == before && OneCall(own[|before|..], id, ts, n)
    ensures var own' := own + [Sent(ByMessage(ts), u)];
      own'[..|before|] == before && OneCall(own'[|before|..], id, ts, n + 1)
  {
    if n == 0 {
      var e := Sent(ByMessage(ts), u);
      assert (before + [e])[|before|..] == [e];
    } else {
      OneCallGrows(before, own, id, ts, n);
    }
  }

  /** The entries of a whole streamed tool ask: one call, an update per further message, one request. */
  ghost predicate OneCallOneRequest(entries: seq<Entry>, id: ToolId, ts: int, n: nat) {
    |entries| == n + 1 && OneCall(entries[..n], id, ts, n) && entries[n] == Asked(ts, id)
  }

  lemma Request(before: seq<Entry>, own: seq<Entry>, id: ToolId, ts: int, n: nat)
    requires |own| >= |before| && own[..|before|] == before && OneCall(own[|before|..], id, ts, n)
    ensures var own' := own + [Asked(ts, id)];
      own'[..|before|] == before && OneCallOneRequest(own'[|before|..], id, ts, n)
  {
    var own', tail := own + [Asked(ts, id)], own[|before|..];
    assert own'[|before|..] == tail + [Asked(ts, id)];
    assert (tail + [Asked(ts, id)])[..n] == tail;
  }

  /** Any number of partial updates and then one complete one, with anything else of other timestamps in
      between and afterwards: exactly one tool_call, all later updates on its id, exactly one request. */
  lemma StreamedToolAsk(r: Readers, terminal: bool, s: State, partials: seq<Event>, m: Message, afterwards: seq<Event>)
    returns (id: ToolId)
    requires m.ts !in s.toolIds && NotWaiting(m.ts, s)
    requires NoPrompt(partials) && PartialAsks(m.ts, partials)
    requires IsToolAsk(m) && !m.partial && Messages(m.ts, afterwards) == []
    ensures var s' := Run(r, terminal, s, partials + [Changed(m)] + afterwards);
      var before := Own(m.ts, s.log);
      |Own(m.ts, s'.log)| >= |before| && Own(m.ts, s'.log)[..|before|] == before &&
      OneCallOneRequest(Own(m.ts, s'.log)[|before|..], id, m.ts, |Messages(m.ts, partials)| + 1)
  {
    var ts, n := m.ts, |Messages(m.ts, partials)|;
    var s1 := Run(r, terminal, s, partials);
    var s2 := Process(r, terminal, s1, m);
    PartialStream(r, terminal, s, partials, ts);
    var u;
    id, u := ToolAskStep(r, terminal, s1, m);
    RunThrough(r, terminal, s, partials, Changed(m), afterwards);
    QuietAfterwards(r, terminal, s2, afterwards, ts);
    LastCall(Own(ts, s.log), Own(ts, s1.log), u, id, ts, n);
    Request(Own(ts, s.log), Own(ts, s1.log) + [Sent(ByMessage(ts), u)], id, ts, n + 1);
  }
}
