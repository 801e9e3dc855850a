/** In every run, updates and permission requests name tool calls that were announced before. */
module AcpSafety {
  import opened Sequences
  import opened AcpTranslation
  import opened AcpSession

  function AnnouncedBy(e: Entry): set<ToolId> {
    if e.Sent? && e.update.ToolCall? then {e.update.id} else {}
  }

  /** The ids that `log` has announced by a tool_call. */
  function Announced(log: seq<Entry>): set<ToolId> {
    if log == [] then {} else Announced(log[..|log| - 1]) + AnnouncedBy(log[|log| - 1])
  }

  /** The entry speaks only of ids in `known`. */
  predicate Speaks(known: set<ToolId>, e: Entry) {
    match e
    case Sent(_, ToolCallUpdate(id, _)) => id in known
    case Asked(_, id) => id in known
    case _ => true
  }

  /** Every update and every permission request names an id announced earlier. */
  predicate LogOk(log: seq<Entry>) {
    log == [] || (LogOk(log[..|log| - 1]) && Speaks(Announced(log[..|log| - 1]), log[|log| - 1]))
  }

  lemma {:induction false} LogOkAt(log: seq<Entry>, i: nat)
    requires LogOk(log) && i < |log|
    ensures Speaks(Announced(log[..i]), log[i])
  {
    var before := log[..|log| - 1];
    if i < |log| - 1 {
      LogOkAt(before, i);
      assert before[..i] == log[..i];
    }
  }

  lemma {:induction false} AnnouncedAt(log: seq<Entry>, id: ToolId) returns (j: nat)
    requires id in Announced(log)
    ensures j < |log| && log[j].Sent? && log[j].update.ToolCall? && log[j].update.id == id
  {
    if id in AnnouncedBy(log[|log| - 1]) {
      j := |log| - 1;
    } else {
      j := AnnouncedAt(log[..|log| - 1], id);
    }
  }

  // ----- The invariant

  /** The session and the message map hold announced ids only, all below the next one. */
  ghost predicate SessionOk(s: Session, known: set<ToolId>) {
    && (s.current.Some? ==> s.current.value in known)
    && (forall id :: id in s.pending ==> id in known)
    && (forall id :: id in known ==> id < s.nextId)
  }

  ghost predicate Inv(s: State) {
    && LogOk(s.log) && SessionOk(s.session, Announced(s.log))
    && (forall ts :: ts in s.toolIds ==> s.toolIds[ts] in Announced(s.log))
  }

  // ----- What a translation says

  /** The ids announced by a list of updates. */
  function Calls(updates: seq<Update>): set<ToolId> {
    if updates == [] then {}
    else (if updates[0].ToolCall? then {updates[0].id} else {}) + Calls(updates[1..])
  }

  /** Each update names an id known before the list or announced earlier in it. */
  predicate UpdatesOk(known: set<ToolId>, updates: seq<Update>)
    decreases updates
  {
    updates == [] ||
    (match updates[0]
     case ToolCall(id, _, _) => UpdatesOk(known + {id}, updates[1..])
     case ToolCallUpdate(id, _) => id in known && UpdatesOk(known, updates[1..])
     case _ => UpdatesOk(known, updates[1..]))
  }

  ghost predicate TranslatedOk(known: set<ToolId>, t: Translated) {
    var known' := known + Calls(t.updates);
    && UpdatesOk(known, t.updates) && SessionOk(t.session, known')
    && (t.toolCallId.Some? ==> t.toolCallId.value in known')
    && (t.request.Some? ==> t.session.current == t.request && t.request.value in t.session.pending)
  }

  lemma One(known: set<ToolId>, u: Update)
    ensures Calls([u]) == if u.ToolCall? then {u.id} else {}
    ensures UpdatesOk(known, [u]) <==> (u.ToolCallUpdate? ==> u.id in known)
  {
    assert [u][1..] == [];
  }

  lemma Two(known: set<ToolId>, u: Update, v: Update)
    ensures Calls([u, v]) == Calls([u]) + Calls([v])
    ensures UpdatesOk(known, [u, v]) <==> UpdatesOk(known, [u]) && UpdatesOk(known + Calls([u]), [v])
    ensures [u] + [v] == [u, v]
  {
    One(known, u);
    assert [u, v][1..] == [v];
    assert known + {} == known;
  }

  lemma WebSearchOk(s: Session, m: Message, known: set<ToolId>)
    requires SessionOk(s, known)
    ensures TranslatedOk(known, WebSearch(s, m))
  {
    var id := if s.current.Some? then s.current.value else s.nextId;
    var first := if s.current.None? then ToolCall(id, OtherKind("search"), InProgress) else ToolCallUpdate(id, Some(InProgress));
    var last := ToolCallUpdate(id, Some(Completed));
    One(known, first);
    One(known, last);
    One(known + Calls([first]), last);
    Two(known, first, last);
    assert [] + [last] == [last];
    assert known + {} == known;
  }

  lemma ToolOk(r: Readers, s: Session, m: Message, known: set<ToolId>)
    requires SessionOk(s, known)
    ensures TranslatedOk(known, Tool(r, s, m))
  {
    assert known + {} == known;
    if m.text != "" && r.sayTool(m.text).Some? {
      var kind, id := r.sayTool(m.text).value, s.nextId;
      var call, done := ToolCall(id, kind, InProgress), ToolCallUpdate(id, Some(Completed));
      One(known, call);
      One(known + Calls([call]), done);
      Two(known, call, done);
      assert [call] + [] == [call];
      if s.current.Some? { One(known, ToolCallUpdate(s.current.value, Some(if m.partial then InProgress else Completed))); }
    } else if m.text != "" {
      One(known, AgentChunk(m.text));
      if PlainCommand(s, m).Some? { One(known, ToolCallUpdate(s.current.value, Some(InProgress))); }
    }
  }

  lemma CommandOutputOk(s: Session, m: Message, terminal: bool, known: set<ToolId>)
    requires SessionOk(s, known)
    ensures TranslatedOk(known, CommandOutput(s, m, terminal))
  {
    assert known + {} == known;
    match s.current
    case None => One(known, AgentChunk("Output:\n" + m.text));
    case Some(id) =>
      var output, done, running := ToolCallUpdate(id, None), ToolCallUpdate(id, Some(Completed)), ToolCallUpdate(id, Some(InProgress));
      One(known, output);
      One(known, done);
      One(known, running);
      One(known + Calls([output]), done);
      Two(known, output, done);
      assert [output] + [] == [output] && [] + [done] == [done];
  }

  lemma BrowserActionOk(r: Readers, s: Session, m: Message, known: set<ToolId>)
    requires SessionOk(s, known)
    ensures TranslatedOk(known, BrowserAction(r, s, m))
  {
    assert known + {} == known;
    One(known, AgentChunk(m.text));
    if m.text == "" || r.browser(m.text).Some? {
      var kind := if m.text == "" then Execute else r.browser(m.text).value;
      One(known, ToolCall(if s.current.Some? then s.current.value else s.nextId, kind, InProgress));
    }
  }

  lemma ChunksOk(s: Session, chunk: Update, known: set<ToolId>)
    requires SessionOk(s, known) && (chunk.AgentChunk? || chunk.ThoughtChunk?)
    ensures TranslatedOk(known, Only(s, [])) && TranslatedOk(known, Only(s, [chunk]))
  {
    assert known + {} == known;
    One(known, chunk);
  }

  lemma EndCurrentOk(s: Session, status: Status, known: set<ToolId>)
    requires SessionOk(s, known)
    ensures TranslatedOk(known, EndCurrent(s, status))
  {
    assert known + {} == known;
    if s.current.Some? { One(known, ToolCallUpdate(s.current.value, Some(status))); }
  }

  lemma ErrorOk(s: Session, text: string, known: set<ToolId>)
    requires SessionOk(s, known)
    ensures TranslatedOk(known, Only(EndCurrent(s, Failed).session, ChunkIf(text, "Error: " + text) + EndCurrent(s, Failed).updates))
  {
    var chunk := AgentChunk("Error: " + text);
    assert known + {} == known;
    EndCurrentOk(s, Failed, known);
    One(known, chunk);
    if s.current.Some? {
      var failed := ToolCallUpdate(s.current.value, Some(Failed));
      One(known, failed);
      Two(known, chunk, failed);
      assert [] + [failed] == [failed];
    } else {
      assert [chunk] + [] == [chunk];
    }
  }

  lemma SayOk(r: Readers, s: Session, m: Message, say: SayTag, terminal: bool, known: set<ToolId>)
    requires SessionOk(s, known)
    ensures TranslateSay(r, s, m, say, terminal).Some? ==> TranslatedOk(known, TranslateSay(r, s, m, say, terminal).value)
  {
    match say
    case SayText => WebSearchOk(s, m, known); ChunksOk(s, AgentChunk(m.text), known);
    case SayReasoning => ChunksOk(s, ThoughtChunk(if m.reasoning != "" then m.reasoning else m.text), known);
    case SayTool => ToolOk(r, s, m, known);
    case SayCommand => One(known, ToolCall(s.nextId, Execute, InProgress));
    case SayCommandOutput => CommandOutputOk(s, m, terminal, known);
    case SayCompletionResult => ChunksOk(s, AgentChunk("\n" + m.text), known);
    case SayError => ErrorOk(s, m.text, known);
    case SayBrowserAction => BrowserActionOk(r, s, m, known);
    case SayBrowserActionResult => EndCurrentOk(s, Completed, known);
    case SayHookStatus =>
      ChunksOk(s, AgentChunk(match r.hookStatus(m.text) case None => "" case Some(t) => t), known);
    case SayInfo => ChunksOk(s, AgentChunk(m.text), known);
    case SaySilent => ChunksOk(s, AgentChunk(""), known);
  }

  lemma AskNewOk(s: Session, kind: Kind, toolCallId: bool, request: bool, known: set<ToolId>)
    requires SessionOk(s, known)
    ensures TranslatedOk(known, AskNew(s, kind, toolCallId, request))
  {
    One(known, ToolCall(s.nextId, kind, Pending));
  }

  lemma AskForToolOk(r: Readers, s: Session, m: Message, existing: Option<ToolId>, known: set<ToolId>)
    requires SessionOk(s, known) && (existing.Some? ==> existing.value in known)
    ensures TranslatedOk(known, AskForTool(r, s, m, existing))
  {
    match existing
    case None =>
      var kind := if m.text == "" then OtherKind("other") else
        match r.askTool(m.text) case None => OtherKind("other") case Some(k) => k;
      AskNewOk(s, kind, true, !m.partial, known);
    case Some(id) =>
      One(known, ToolCallUpdate(id, Some(Pending)));
      assert known + {} == known;
  }

  lemma AskOk(r: Readers, s: Session, m: Message, ask: AskTag, existing: Option<ToolId>, known: set<ToolId>)
    requires SessionOk(s, known) && (existing.Some? ==> existing.value in known)
    ensures TranslatedOk(known, TranslateAsk(r, s, m, ask, existing))
  {
    match ask
    case AskFollowup => ChunksOk(s, AgentChunk(r.question(ask, m.text)), known);
    case AskPlanModeRespond => ChunksOk(s, AgentChunk(r.question(ask, m.text)), known);
    case AskCommand => AskNewOk(s, Execute, false, true, known);
    case AskTool => AskForToolOk(r, s, m, existing, known);
    case AskBrowserLaunch => AskNewOk(s, Execute, false, true, known);
    case AskCompletionResult => ChunksOk(s, AgentChunk("\n" + m.text), known);
    case AskNotice => ChunksOk(s, AgentChunk(m.text), known);
    case AskSilent => ChunksOk(s, AgentChunk(""), known);
  }

  lemma TranslateOk(r: Readers, s: Session, m: Message, existing: Option<ToolId>, terminal: bool, known: set<ToolId>)
    requires SessionOk(s, known) && (existing.Some? ==> existing.value in known)
    ensures Translate(r, s, m, existing, terminal).Some? ==> TranslatedOk(known, Translate(r, s, m, existing, terminal).value)
  {
    match m.body
    case Say(say) => SayOk(r, s, m, say, terminal, known);
    case Ask(ask) => AskOk(r, s, m, ask, existing, known);
  }

  // ----- Appending to the log

  lemma LogPush(log: seq<Entry>, e: Entry)
    requires LogOk(log) && Speaks(Announced(log), e)
    ensures LogOk(log + [e]) && Announced(log + [e]) == Announced(log) + AnnouncedBy(e)
  {
    assert (log + [e])[..|log|] == log;
  }

  lemma {:induction false} LogSend(log: seq<Entry>, source: Source, updates: seq<Update>)
    requires LogOk(log) && UpdatesOk(Announced(log), updates)
    ensures LogOk(log + SendAll(source, updates))
    ensures Announced(log + SendAll(source, updates)) == Announced(log) + Calls(updates)
    decreases updates
  {
    if updates == [] {
      assert log + SendAll(source, updates) == log;
    } else {
      var e := Sent(source, updates[0]);
      LogPush(log, e);
      assert Announced(log) + {} == Announced(log);
      LogSend(log + [e], source, updates[1..]);
      assert log + SendAll(source, updates) == log + [e] + SendAll(source, updates[1..]);
    }
  }

  // ----- Steps and runs

  lemma StreamInv(r: Readers, s: State, m: Message)
    requires Inv(s)
    ensures Inv(Stream(r, s, m))
  {
    var s' := Stream(r, s, m);
    if s'.log != s.log {
      LogPush(s.log, s'.log[|s.log|]);
      assert s'.log == s.log + [s'.log[|s.log|]];
      assert Announced(s.log) + {} == Announced(s.log);
    }
  }

  lemma SettleInv(s: State, m: Message, toolCallId: Option<ToolId>)
    requires Inv(s)
    ensures Inv(Settle(s, m, toolCallId))
  {
  }

  /** The state after the updates of a translation are sent. */
  lemma SentInv(s: State, m: Message, t: Translated)
    requires Inv(s) && TranslatedOk(Announced(s.log), t)
    ensures Inv(SendUpdates(s, m, t))
  {
    LogSend(s.log, ByMessage(m.ts), t.updates);
  }

  lemma ProcessInv(r: Readers, terminal: bool, s: State, m: Message)
    requires Inv(s)
    ensures Inv(Process(r, terminal, s, m))
  {
    if IsTextStreaming(m) && m.text != "" && !IsMarker(r, m) {
      StreamInv(r, s, m);
    } else {
      var existing := Existing(s, m.ts);
      TranslateOk(r, s.session, m, existing, terminal, Announced(s.log));
      var translated := Translate(r, s.session, m, existing, terminal);
      if translated.Some? {
        var t := translated.value;
        var sent := SendUpdates(s, m, t);
        SentInv(s, m, t);
        if t.request.Some? && !m.partial {
          LogPush(sent.log, Asked(m.ts, t.request.value));
          assert Announced(sent.log) + {} == Announced(sent.log);
        } else {
          SettleInv(sent, m, t.toolCallId);
        }
      }
    }
  }

  lemma {:induction false} StatusesOk(known: set<ToolId>, id: ToolId, statuses: seq<Status>)
    requires id in known
    ensures UpdatesOk(known, StatusUpdates(id, statuses)) && Calls(StatusUpdates(id, statuses)) == {}
  {
    if statuses != [] {
      StatusesOk(known, id, statuses[1..]);
      assert StatusUpdates(id, statuses)[1..] == StatusUpdates(id, statuses[1..]);
    }
  }

  lemma ReplyInv(s: State, request: nat, outcome: Outcome, answer: Answer)
    requires Inv(s) && request < |s.waiting|
    ensures Inv(Reply(s, request, outcome, answer))
  {
    if s.session.current.Some? {
      var id, statuses := s.session.current.value, Statuses(outcome, answer);
      StatusesOk(Announced(s.log), id, statuses);
      LogSend(s.log, ByReply(s.waiting[request].message.ts), StatusUpdates(id, statuses));
      assert Announced(s.log) + {} == Announced(s.log);
    }
  }

  lemma StepInv(r: Readers, terminal: bool, s: State, e: Event)
    requires Inv(s)
    ensures Inv(Step(r, terminal, s, e))
  {
    match e
    case Changed(m) => ProcessInv(r, terminal, s, m);
    case Replied(request, outcome, answer) => if request < |s.waiting| { ReplyInv(s, request, outcome, answer); }
    case Prompted =>
  }

  lemma {:induction false} RunInv(r: Readers, terminal: bool, events: seq<Event>)
    ensures Inv(Run(r, terminal, Start(), events))
    decreases |events|
  {
    if events != [] {
      RunInv(r, terminal, events[..|events| - 1]);
      StepInv(r, terminal, Run(r, terminal, Start(), events[..|events| - 1]), events[|events| - 1]);
    }
  }

  // ----- Theorems

  /** Every update and every permission request names a tool call announced earlier in the run. */
  lemma UpdatesFollowAnnouncements(r: Readers, terminal: bool, events: seq<Event>, i: nat) returns (j: nat)
    requires i < |Run(r, terminal, Start(), events).log|
    requires var e := Run(r, terminal, Start(), events).log[i]; e.Asked? || e.update.ToolCallUpdate?
    ensures j < i && var log := Run(r, terminal, Start(), events).log;
      log[j].Sent? && log[j].update.ToolCall? &&
      log[j].update.id == if log[i].Asked? then log[i].id else log[i].update.id
  {
    var log := Run(r, terminal, Start(), events).log;
    RunInv(r, terminal, events);
    LogOkAt(log, i);
    j := AnnouncedAt(log[..i], if log[i].Asked? then log[i].id else log[i].update.id);
  }

  /** The current call and all pending calls are announced. */
  lemma CurrentAndPendingAnnounced(r: Readers, terminal: bool, events: seq<Event>, id: ToolId)
    requires var s := Run(r, terminal, Start(), events); s.session.current == Some(id) || id in s.session.pending
    ensures id in Announced(Run(r, terminal, Start(), events).log)
  {
    RunInv(r, terminal, events);
  }

  /** A permission request always concerns the call that is current and pending when it is made. */
  lemma RequestConcernsCurrentPending(r: Readers, terminal: bool, events: seq<Event>, m: Message)
    ensures var s := Run(r, terminal, Start(), events);
      var s' := Process(r, terminal, s, m);
      |s'.waiting| > |s.waiting| ==>
        s'.log != [] && s'.log[|s'.log| - 1].Asked? &&
        s'.session.current == Some(s'.log[|s'.log| - 1].id) && s'.log[|s'.log| - 1].id in s'.session.pending
  {
    var s := Run(r, terminal, Start(), events);
    RunInv(r, terminal, events);
    var existing := Existing(s, m.ts);
    TranslateOk(r, s.session, m, existing, terminal, Announced(s.log));
  }
}
