/** How tool calls end: which messages send which statuses, and how often a call can end. */
module AcpLifecycle {
  import opened Sequences
  import opened AcpTranslation
  import opened AcpSession
  import opened AcpStreams
  import opened AcpCommands
  import opened AcpReplies

  // ----- One message

  /** The update ends call `id`. */
  predicate Ends(u: Update, id: ToolId) {
    u.ToolCallUpdate? && u.id == id && u.newStatus in {Some(Completed), Some(Failed)}
  }

  predicate SendsEnd(updates: seq<Update>, id: ToolId) {
    exists i :: 0 <= i < |updates| && Ends(updates[i], id)
  }

  predicate Announces(updates: seq<Update>, id: ToolId) {
    exists i :: 0 <= i < |updates| && updates[i].ToolCall? && updates[i].id == id
  }

  predicate SendsFailure(updates: seq<Update>) {
    exists i :: 0 <= i < |updates| && updates[i].ToolCallUpdate? && updates[i].newStatus == Some(Failed)
  }

  /** A message ends a call exactly if the call was current or is announced by it and none is current
      afterwards; and with `failed` exactly if it is an error. */
  ghost predicate EndsRightly(s: Session, m: Message, t: Translated) {
    && (forall id: ToolId :: SendsEnd(t.updates, id)
          <==> t.session.current.None? && (s.current == Some(id) || Announces(t.updates, id)))
    && (SendsFailure(t.updates) <==> m.body == Say(SayError) && s.current.Some?)
  }

  /** Statuses on the way: pending from tool asks, in progress for the call that stays current, and updates
      without a status for the current call. */
  predicate OnTheWay(s: Session, m: Message, t: Translated, u: Update) {
    match u
    case ToolCall(_, _, status) => status == if m.body.Ask? then Pending else InProgress
    case ToolCallUpdate(id, status) =>
      && (status == Some(Pending) ==> m.body == Ask(AskTool) && t.session.current == Some(id))
      && (status == Some(InProgress) ==> s.current == Some(id) && t.session.current == Some(id))
      && (status == None ==> s.current == Some(id))
    case _ => true
  }

  /** At most two updates, of which only the last may end a call. */
  ghost predicate EndsLast(t: Translated) {
    |t.updates| <= 2 && (|t.updates| == 2 ==> forall id: ToolId :: !Ends(t.updates[0], id))
  }

  ghost predicate Lawful(s: Session, m: Message, t: Translated) {
    && EndsRightly(s, m, t) && EndsLast(t)
    && (forall i :: 0 <= i < |t.updates| ==> OnTheWay(s, m, t, t.updates[i]))
    && (forall id: ToolId :: Announces(t.updates, id) ==> s.current == Some(id) || id == s.nextId < t.session.nextId)
  }

  lemma NoUpdates(s: Session, m: Message, t: Translated)
    requires t.updates == [] && t.session.current == s.current && (m.body != Say(SayError) || s.current.None?)
    ensures Lawful(s, m, t)
  {
  }

  lemma OneUpdate(s: Session, m: Message, t: Translated, u: Update)
    requires t.updates == [u] && OnTheWay(s, m, t, u)
    requires u.ToolCall? ==> t.session.current.Some? && (u.id == s.nextId < t.session.nextId || s.current == Some(u.id))
    requires u.ToolCallUpdate? ==>
      (u.newStatus in {Some(Completed), Some(Failed)} <==> s.current == Some(u.id) && t.session.current.None?)
    requires t.session.current.None? ==> s.current.None? || (u.ToolCallUpdate? && s.current == Some(u.id))
    requires (u.ToolCallUpdate? && u.newStatus == Some(Failed)) <==> m.body == Say(SayError) && s.current.Some?
    ensures Lawful(s, m, t)
  {
    assert t.updates[0] == u;
    forall id: ToolId ensures SendsEnd(t.updates, id) <==> Ends(u, id) { }
    forall id: ToolId ensures Announces(t.updates, id) <==> u.ToolCall? && u.id == id { }
  }

  /** Two updates for one call, the second ending it. */
  lemma EndedAtOnce(s: Session, m: Message, t: Translated, u: Update, v: Update)
    requires t.updates == [u, v] && OnTheWay(s, m, t, u) && v.ToolCallUpdate? && t.session.current.None?
    requires Ends(v, v.id) && (v.newStatus == Some(Failed) <==> m.body == Say(SayError))
    requires forall id: ToolId :: !Ends(u, id)
    requires s.current == Some(v.id) || (s.current.None? && u.ToolCall?)
    requires u.ToolCall? ==> u.id == v.id && v.id == s.nextId < t.session.nextId && s.current.None?
    requires m.body == Say(SayError) ==> s.current.Some?
    ensures Lawful(s, m, t)
  {
    assert t.updates[0] == u && t.updates[1] == v;
    assert u.ToolCallUpdate? ==> !Ends(u, u.id);
    forall id: ToolId ensures SendsEnd(t.updates, id) <==> Ends(v, id) { }
    forall id: ToolId ensures Announces(t.updates, id) <==> u.ToolCall? && u.id == id { }
  }

  lemma WebSearchLawful(s: Session, m: Message)
    requires m.body == Say(SayText)
    ensures Lawful(s, m, WebSearch(s, m))
  {
    var t := WebSearch(s, m);
    var id := if s.current.Some? then s.current.value else s.nextId;
    var done := ToolCallUpdate(id, Some(Completed));
    var call := ToolCall(id, OtherKind("search"), InProgress);
    if m.partial {
      OneUpdate(s, m, t, if s.current.None? then call else ToolCallUpdate(id, Some(InProgress)));
    } else if s.current.None? {
      assert t.updates == [call, done];
      EndedAtOnce(s, m, t, call, done);
    } else {
      assert t.updates == [done];
      OneUpdate(s, m, t, done);
    }
  }

  lemma ToolLawful(r: Readers, s: Session, m: Message)
    requires m.body == Say(SayTool)
    ensures Lawful(s, m, Tool(r, s, m))
  {
    var t := Tool(r, s, m);
    if m.text == "" {
      NoUpdates(s, m, t);
    } else if r.sayTool(m.text).Some? && s.current.None? && !m.partial {
      var call := ToolCall(s.nextId, r.sayTool(m.text).value, InProgress);
      var done := ToolCallUpdate(s.nextId, Some(Completed));
      assert t.updates == [call, done];
      EndedAtOnce(s, m, t, call, done);
    } else {
      assert |t.updates| == 1;
      OneUpdate(s, m, t, t.updates[0]);
    }
  }

  lemma CommandOutputLawful(s: Session, m: Message, terminal: bool)
    requires m.body == Say(SayCommandOutput)
    ensures Lawful(s, m, CommandOutput(s, m, terminal))
  {
    var t := CommandOutput(s, m, terminal);
    if s.current.None? {
      if m.text == "" { NoUpdates(s, m, t); } else { OneUpdate(s, m, t, AgentChunk("Output:\n" + m.text)); }
    } else {
      var id := s.current.value;
      var output, done := ToolCallUpdate(id, None), ToolCallUpdate(id, Some(Completed));
      if terminal && m.text != "" && m.commandCompleted {
        assert t.updates == [output, done];
        EndedAtOnce(s, m, t, output, done);
      } else if terminal && m.text == "" && !m.commandCompleted {
        NoUpdates(s, m, t);
      } else {
        var u := if terminal && !m.commandCompleted then output else if m.commandCompleted then done else ToolCallUpdate(id, Some(InProgress));
        assert t.updates == [u];
        OneUpdate(s, m, t, u);
      }
    }
  }

  lemma BrowserActionLawful(r: Readers, s: Session, m: Message)
    requires m.body == Say(SayBrowserAction)
    ensures Lawful(s, m, BrowserAction(r, s, m))
  {
    var t := BrowserAction(r, s, m);
    OneUpdate(s, m, t, t.updates[0]);
  }

  lemma ErrorLawful(s: Session, m: Message)
    requires m.body == Say(SayError)
    ensures Lawful(s, m, Only(EndCurrent(s, Failed).session,
                              ChunkIf(m.text, "Error: " + m.text) + EndCurrent(s, Failed).updates))
  {
    var ended := EndCurrent(s, Failed);
    var t := Only(ended.session, ChunkIf(m.text, "Error: " + m.text) + ended.updates);
    var chunk := AgentChunk("Error: " + m.text);
    if s.current.None? {
      if m.text == "" { NoUpdates(s, m, t); } else { OneUpdate(s, m, t, chunk); }
    } else {
      var failed := ToolCallUpdate(s.current.value, Some(Failed));
      if m.text == "" {
        assert t.updates == [failed];
        OneUpdate(s, m, t, failed);
      } else {
        assert t.updates == [chunk, failed];
        EndedAtOnce(s, m, t, chunk, failed);
      }
    }
  }

  /** A translation that shows at most some text. */
  lemma TextLawful(s: Session, m: Message, t: Translated)
    requires t.session == s && m.body != Say(SayError)
    requires t.updates == [] || (|t.updates| == 1 && (t.updates[0].AgentChunk? || t.updates[0].ThoughtChunk?))
    ensures Lawful(s, m, t)
  {
    if t.updates == [] { NoUpdates(s, m, t); } else { OneUpdate(s, m, t, t.updates[0]); }
  }

  lemma SayLawful(r: Readers, s: Session, m: Message, say: SayTag, terminal: bool)
    requires m.body == Say(say)
    ensures var t := TranslateSay(r, s, m, say, terminal); t.Some? ==> Lawful(s, m, t.value)
  {
    var t := TranslateSay(r, s, m, say, terminal);
    match say
    case SayText => if m.text != "" && r.marker(m.text).Some? { WebSearchLawful(s, m); } else { TextLawful(s, m, t.value); }
    case SayTool => ToolLawful(r, s, m);
    case SayCommand => OneUpdate(s, m, t.value, ToolCall(s.nextId, Execute, InProgress));
    case SayCommandOutput => CommandOutputLawful(s, m, terminal);
    case SayError => ErrorLawful(s, m);
    case SayBrowserAction => BrowserActionLawful(r, s, m);
    case SayBrowserActionResult =>
      if t.Some? {
        if s.current.None? { NoUpdates(s, m, t.value); } else { OneUpdate(s, m, t.value, t.value.updates[0]); }
      }
    case _ => TextLawful(s, m, t.value);
  }

  lemma AskLawful(r: Readers, s: Session, m: Message, ask: AskTag, existing: Option<ToolId>)
    requires m.body == Ask(ask)
    ensures Lawful(s, m, TranslateAsk(r, s, m, ask, existing))
  {
    var t := TranslateAsk(r, s, m, ask, existing);
    if ask in {AskCommand, AskTool, AskBrowserLaunch} {
      OneUpdate(s, m, t, t.updates[0]);
    } else {
      TextLawful(s, m, t);
    }
  }

  /** The life-cycle law of the translation: every message in every session. */
  lemma TranslationLawful(r: Readers, s: Session, m: Message, existing: Option<ToolId>, terminal: bool)
    ensures var t := Translate(r, s, m, existing, terminal); t.Some? ==> Lawful(s, m, t.value)
  {
    match m.body
    case Say(say) => SayLawful(r, s, m, say, terminal);
    case Ask(ask) => AskLawful(r, s, m, ask, existing);
  }

  /** Messages that may come again for the same call are told which call it is: markers and tool asks. */
  lemma NamesItsCall(r: Readers, s: Session, m: Message, existing: Option<ToolId>, terminal: bool)
    ensures var t := Translate(r, s, m, existing, terminal);
      t.Some? ==>
        && (t.value.toolCallId.Some? <==> m.body == Ask(AskTool) || (m.text != "" && IsMarker(r, m)))
        && (t.value.toolCallId.Some? && m.body == Say(SayText) ==>
              t.value.toolCallId.value == if s.current.Some? then s.current.value else s.nextId)
        && (m.body == Ask(AskTool) && existing.Some? ==> t.value.toolCallId == existing)
  {
  }

  /** A tool message that does not parse goes on with the current call if that is a pending execution and the
      text is not blank, and is shown as text otherwise. */
  lemma UnparsedTool(r: Readers, s: Session, m: Message, existing: Option<ToolId>, terminal: bool)
    requires m.body == Say(SayTool) && m.text != "" && r.sayTool(m.text).None?
    ensures var t := Translate(r, s, m, existing, terminal).value;
      if s.current.Some? && s.current.value in s.pending && s.pending[s.current.value].kind == Execute && Command(m) != ""
      then t.updates == [ToolCallUpdate(s.current.value, Some(InProgress))] && t.session.current == s.current
      else t.updates == [AgentChunk(m.text)] && t.session == s
  {
  }

  // ----- Runs

  predicate IsEnd(e: Entry, id: ToolId) {
    e.Sent? && e.source.ByMessage? && Ends(e.update, id)
  }

  /** How often messages have ended call `id`. */
  function EndCount(log: seq<Entry>, id: ToolId): nat {
    if log == [] then 0 else EndCount(log[..|log| - 1], id) + if IsEnd(log[|log| - 1], id) then 1 else 0
  }

  lemma EndCountPush(log: seq<Entry>, e: Entry, id: ToolId)
    ensures EndCount(log + [e], id) == EndCount(log, id) + if IsEnd(e, id) then 1 else 0
  {
    assert (log + [e])[..|log|] == log;
  }

  lemma {:induction false} EndCountSend(log: seq<Entry>, source: Source, updates: seq<Update>, id: ToolId)
    requires source.ByReply? || forall i :: 0 <= i < |updates| ==> !Ends(updates[i], id)
    ensures EndCount(log + SendAll(source, updates), id) == EndCount(log, id)
    decreases updates
  {
    if updates == [] {
      assert log + SendAll(source, updates) == log;
    } else {
      EndCountPush(log, Sent(source, updates[0]), id);
      EndCountSend(log + [Sent(source, updates[0])], source, updates[1..], id);
      assert log + SendAll(source, updates) == log + [Sent(source, updates[0])] + SendAll(source, updates[1..]);
    }
  }

  lemma EndCountUpdates(log: seq<Entry>, ts: int, t: Translated, id: ToolId)
    requires EndsLast(t)
    ensures EndCount(log + SendAll(ByMessage(ts), t.updates), id) == EndCount(log, id) + if SendsEnd(t.updates, id) then 1 else 0
  {
    var source, updates := ByMessage(ts), t.updates;
    if !SendsEnd(updates, id) {
      EndCountSend(log, source, updates, id);
    } else if |updates| == 1 {
      assert log + SendAll(source, updates) == log + [Sent(source, updates[0])];
      EndCountPush(log, Sent(source, updates[0]), id);
    } else {
      var e0, e1 := Sent(source, updates[0]), Sent(source, updates[1]);
      assert log + SendAll(source, updates) == log + [e0] + [e1];
      EndCountPush(log, e0, id);
      EndCountPush(log + [e0], e1, id);
    }
  }

  lemma DeliverCount(s: State, m: Message, t: Translated, id: ToolId)
    requires EndsLast(t)
    ensures EndCount(Deliver(s, m, t).log, id) == EndCount(s.log, id) + if SendsEnd(t.updates, id) then 1 else 0
  {
    EndCountUpdates(s.log, m.ts, t, id);
    if t.request.Some? && !m.partial { EndCountPush(SendUpdates(s, m, t).log, Asked(m.ts, t.request.value), id); }
  }

  lemma StreamCount(r: Readers, s: State, m: Message, id: ToolId)
    ensures EndCount(Stream(r, s, m).log, id) == EndCount(s.log, id)
  {
    var s' := Stream(r, s, m);
    if s'.log != s.log {
      EndCountPush(s.log, s'.log[|s.log|], id);
      assert s'.log == s.log + [s'.log[|s.log|]];
    }
  }

  /** The call has been ended once at most, and then it is not current; the calls to come have not been ended. */
  ghost predicate EndedOnce(s: State, id: ToolId) {
    && EndCount(s.log, id) <= 1
    && (EndCount(s.log, id) == 1 ==> id < s.session.nextId && !IsCurrent(s, id))
    && (IsCurrent(s, id) ==> id < s.session.nextId)
  }

  /** A tool ask of the past makes call `id` current again. */
  predicate Revives(s: State, e: Event, id: ToolId) {
    Recalls(s, e, id) && !IsCurrent(s, id)
  }

  lemma ProcessEndedOnce(r: Readers, terminal: bool, s: State, m: Message, id: ToolId)
    requires EndedOnce(s, id) && !Revives(s, Changed(m), id)
    ensures EndedOnce(Process(r, terminal, s, m), id)
  {
    if IsTextStreaming(m) && m.text != "" && !IsMarker(r, m) {
      StreamCount(r, s, m, id);
    } else {
      var existing := Existing(s, m.ts);
      var translated := Translate(r, s.session, m, existing, terminal);
      if translated.Some? {
        TranslationLawful(r, s.session, m, existing, terminal);
        TranslationMoves(r, s.session, m, existing, terminal);
        TranslationGrows(r, s.session, m, existing, terminal);
        FreshIsCounted(r, s.session, m, existing, terminal);
        DeliverEndedOnce(s, m, translated.value, id);
      }
    }
  }

  lemma DeliverEndedOnce(s: State, m: Message, t: Translated, id: ToolId)
    requires EndedOnce(s, id) && !Revives(s, Changed(m), id)
    requires Lawful(s.session, m, t) && Grows(s.session, t.session)
    requires t.session.current in {s.session.current, None, Some(s.session.nextId)} ||
             (m.body == Ask(AskTool) && t.session.current == Existing(s, m.ts))
    requires t.session.current == Some(s.session.nextId) && s.session.current != Some(s.session.nextId) ==>
      s.session.nextId < t.session.nextId || (m.body == Ask(AskTool) && Existing(s, m.ts) == Some(s.session.nextId))
    ensures EndedOnce(Deliver(s, m, t), id)
  {
    DeliverCount(s, m, t, id);
    assert Deliver(s, m, t).session == t.session;
    assert SendsEnd(t.updates, id) <==> t.session.current.None? && (s.session.current == Some(id) || Announces(t.updates, id));
  }

  /** A message that makes a new call current counts it. */
  lemma FreshIsCounted(r: Readers, s: Session, m: Message, existing: Option<ToolId>, terminal: bool)
    ensures var t := Translate(r, s, m, existing, terminal);
      t.Some? && t.value.session.current == Some(s.nextId) && s.current != Some(s.nextId) &&
        !(m.body == Ask(AskTool) && existing == Some(s.nextId)) ==>
        s.nextId < t.value.session.nextId
  {
  }

  lemma ReplyEndedOnce(s: State, request: nat, outcome: Outcome, answer: Answer, id: ToolId)
    requires request < |s.waiting| && EndedOnce(s, id)
    ensures EndedOnce(Reply(s, request, outcome, answer), id)
  {
    if s.session.current.Some? {
      var updates := StatusUpdates(s.session.current.value, Statuses(outcome, answer));
      EndCountSend(s.log, ByReply(s.waiting[request].message.ts), updates, id);
    }
  }

  /** No tool ask of the past makes the call current again in the run. */
  predicate NotRevived(r: Readers, terminal: bool, s: State, events: seq<Event>, id: ToolId)
    decreases |events|
  {
    events == [] ||
    (NotRevived(r, terminal, s, events[..|events| - 1], id) &&
     !Revives(Run(r, terminal, s, events[..|events| - 1]), events[|events| - 1], id))
  }

  /** In every run, messages end a call once at most, unless a further message of its own tool ask comes
      when it is no longer current. */
  lemma {:induction false} EndedAtMostOnce(r: Readers, terminal: bool, events: seq<Event>, id: ToolId)
    requires NotRevived(r, terminal, Start(), events, id)
    ensures EndedOnce(Run(r, terminal, Start(), events), id)
    ensures EndCount(Run(r, terminal, Start(), events).log, id) <= 1
    decreases |events|
  {
    if events != [] {
      var s, e := Run(r, terminal, Start(), events[..|events| - 1]), events[|events| - 1];
      EndedAtMostOnce(r, terminal, events[..|events| - 1], id);
      match e
      case Changed(m) => ProcessEndedOnce(r, terminal, s, m, id);
      case Replied(request, outcome, answer) =>
        if request < |s.waiting| { ReplyEndedOnce(s, request, outcome, answer, id); }
      case Prompted =>
    }
  }
}
