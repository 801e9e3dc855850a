/** A streamed command ask, unlike a streamed tool ask, announces a new call for every message. */
module AcpCommands {
  import opened Sequences
  import opened AcpTranslation
  import opened AcpSession
  import opened AcpStreams

  predicate IsCommandAsk(m: Message) {
    m.body in {Ask(AskCommand), Ask(AskBrowserLaunch)}
  }

  predicate PartialCommands(ts: int, events: seq<Event>) {
    forall i :: 0 <= i < |Messages(ts, events)| ==> IsCommandAsk(Messages(ts, events)[i]) && Messages(ts, events)[i].partial
  }

  predicate IsCall(e: Entry, ts: int) {
    e.Sent? && e.source == ByMessage(ts) && e.update.ToolCall? && e.update.status == Pending
  }

  /** Nothing but calls, each with a later id than the one before and all below `next`. */
  ghost predicate ManyCalls(entries: seq<Entry>, ts: int, next: ToolId) {
    && (forall i :: 0 <= i < |entries| ==> IsCall(entries[i], ts) && entries[i].update.id < next)
    && (forall i, j :: 0 <= i < j < |entries| ==> entries[i].update.id < entries[j].update.id)
  }

  lemma StepNextId(r: Readers, terminal: bool, s: State, e: Event)
    ensures s.session.nextId <= Step(r, terminal, s, e).session.nextId
  {
    if e.Changed? {
      TranslationGrows(r, s.session, e.message, Existing(s, e.message.ts), terminal);
    }
  }

  lemma CommandTranslates(r: Readers, s: Session, m: Message, existing: Option<ToolId>, terminal: bool)
    requires IsCommandAsk(m)
    ensures Translate(r, s, m, existing, terminal) == Some(AskNew(s, Execute, false, true))
  {
  }

  lemma CommandStep(r: Readers, terminal: bool, s: State, m: Message)
    requires IsCommandAsk(m)
    ensures var s' := Process(r, terminal, s, m);
      var id := s.session.nextId;
      && Own(m.ts, s'.log) == Own(m.ts, s.log) + [Sent(ByMessage(m.ts), ToolCall(id, Execute, Pending))]
                            + (if m.partial then [] else [Asked(m.ts, id)])
      && s'.session.nextId == id + 1
  {
    var u := ToolCall(s.session.nextId, Execute, Pending);
    var t := AskNew(s.session, Execute, false, true);
    CommandTranslates(r, s.session, m, Existing(s, m.ts), terminal);
    assert Process(r, terminal, s, m) == Deliver(s, m, t);
    DeliverOne(s, m, t, u);
  }

  lemma StepOwn(r: Readers, terminal: bool, s: State, e: Event, ts: int)
    requires e.Changed? ==> e.message.ts != ts
    ensures Own(ts, Step(r, terminal, s, e).log) == Own(ts, s.log)
  {
    match e
    case Changed(m) => OtherProcess(r, terminal, s, m, ts);
    case Replied(request, outcome, answer) => if request < |s.waiting| { ReplyKeepsOwn(s, request, outcome, answer, ts); }
    case Prompted =>
  }

  lemma ManyCallsPush(entries: seq<Entry>, ts: int, next: ToolId)
    requires ManyCalls(entries, ts, next)
    ensures ManyCalls(entries + [Sent(ByMessage(ts), ToolCall(next, Execute, Pending))], ts, next + 1)
  {
  }

  lemma {:induction false} PartialCalls(r: Readers, terminal: bool, s: State, events: seq<Event>, ts: int) returns (entries: seq<Entry>)
    requires PartialCommands(ts, events)
    ensures var s' := Run(r, terminal, s, events);
      && Own(ts, s'.log) == Own(ts, s.log) + entries && |entries| == |Messages(ts, events)|
      && ManyCalls(entries, ts, s'.session.nextId)
    decreases |events|
  {
    if events == [] {
      entries := [];
      assert Own(ts, s.log) + [] == Own(ts, s.log);
    } else {
      var rest, e := events[..|events| - 1], events[|events| - 1];
      var s1 := Run(r, terminal, s, rest);
      var ms := Messages(ts, rest);
      assert events == rest + [e];
      MessagesPush(ts, rest, e);
      assert forall i :: 0 <= i < |ms| ==> ms[i] == Messages(ts, events)[i];
      entries := PartialCalls(r, terminal, s, rest, ts);
      if e.Changed? && e.message.ts == ts {
        assert Messages(ts, events)[|ms|] == e.message;
        CommandStep(r, terminal, s1, e.message);
        var call := Sent(ByMessage(ts), ToolCall(s1.session.nextId, Execute, Pending));
        assert Own(ts, s.log) + entries + [call] + [] == Own(ts, s.log) + (entries + [call]);
        ManyCallsPush(entries, ts, s1.session.nextId);
        entries := entries + [call];
      } else {
        StepOwn(r, terminal, s1, e, ts);
        StepNextId(r, terminal, s1, e);
      }
    }
  }

  /** Partial command asks and then the complete one: one tool_call per message, all of different ids,
      and one permission request, for the last of them only. */
  lemma StreamedCommandAsk(r: Readers, terminal: bool, s: State, partials: seq<Event>, m: Message, afterwards: seq<Event>)
    returns (calls: seq<Entry>)
    requires PartialCommands(m.ts, partials) && IsCommandAsk(m) && !m.partial && Messages(m.ts, afterwards) == []
    ensures var s' := Run(r, terminal, s, partials + [Changed(m)] + afterwards);
      var n := |Messages(m.ts, partials)|;
      && |calls| == n + 1 && (exists next :: ManyCalls(calls, m.ts, next))
      && Own(m.ts, s'.log) == Own(m.ts, s.log) + calls + [Asked(m.ts, calls[n].update.id)]
  {
    var ts := m.ts;
    var s1 := Run(r, terminal, s, partials);
    var s2 := Process(r, terminal, s1, m);
    calls := PartialCalls(r, terminal, s, partials, ts);
    CommandStep(r, terminal, s1, m);
    var call := Sent(ByMessage(ts), ToolCall(s1.session.nextId, Execute, Pending));
    assert Own(ts, s.log) + calls + [call] == Own(ts, s.log) + (calls + [call]);
    ManyCallsPush(calls, ts, s1.session.nextId);
    calls := calls + [call];
    assert ManyCalls(calls, ts, s2.session.nextId);
    RunThrough(r, terminal, s, partials, Changed(m), afterwards);
    QuietAfterwards(r, terminal, s2, afterwards, ts);
  }
}
