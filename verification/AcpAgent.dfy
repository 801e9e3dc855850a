/** The translator and the agent in the program's own form: session state and maps updated in place,
    updates pushed one at a time. Each method is proved to compute the functions of AcpTranslation
    and AcpSession, on which the properties of all runs are proved. */
module AcpAgent {
  import opened Sequences
  import opened Characters
  import opened AcpTranslation
  import opened AcpSession
  import opened AcpSafety

  class SessionState {
    var current: Option<ToolId>
    var pending: map<ToolId, PendingCall>
    var nextId: ToolId

    constructor ()
      ensures Value() == Session(None, map[], 0)
    {
      current, pending, nextId := None, map[], 0;
    }

    function Value(): Session
      reads this
    {
      Session(current, pending, nextId)
    }

    method GenerateToolCallId() returns (id: ToolId)
      modifies this`nextId
      ensures id == old(nextId) && nextId == id + 1
    {
      id := nextId;
      nextId := nextId + 1;
    }

    // ----- Say messages that change a tool call

    method WebSearchMarkerMessage(m: Message) returns (updates: seq<Update>, toolCallId: ToolId)
      modifies this
      ensures Translated(Value(), updates, Some(toolCallId), None) == WebSearch(old(Value()), m)
    {
      updates := [];
      var isExistingToolCall := current.Some?;
      if isExistingToolCall { toolCallId := current.value; } else { toolCallId := GenerateToolCallId(); }
      if !isExistingToolCall {
        current := Some(toolCallId);
        updates := updates + [ToolCall(toolCallId, OtherKind("search"), InProgress)];
      } else if m.partial {
        updates := updates + [ToolCallUpdate(toolCallId, Some(InProgress))];
      }
      if !m.partial {
        updates := updates + [ToolCallUpdate(toolCallId, Some(Completed))];
        current := None;
      }
    }

    method PlainCommandToolMessage(m: Message) returns (update: Option<Update>)
      modifies this`pending
      ensures update.Some? <==>
        (exists k :: 0 <= k < |m.text| && !IsSpace(m.text[k])) &&
        old(current.Some? && current.value in pending && pending[current.value].kind == Execute)
      ensures match PlainCommand(old(Value()), m)
        case None => update == None && Value() == old(Value())
        case Some(id) =>
          && update == Some(ToolCallUpdate(id, Some(InProgress)))
          && Value() == old(Value()).(pending := old(pending)[id := PendingCall(Execute, InProgress)])
    {
      if Command(m) == "" || current.None? { return None; }
      var id := current.value;
      if id !in pending || pending[id].kind != Execute { return None; }
      pending := pending[id := pending[id].(status := InProgress)];
      return Some(ToolCallUpdate(id, Some(InProgress)));
    }

    method ToolMessage(r: Readers, m: Message) returns (updates: seq<Update>)
      modifies this
      ensures Only(Value(), updates) == Tool(r, old(Value()), m)
    {
      updates := [];
      if m.text == "" { return; }
      var parsed := r.sayTool(m.text);
      if parsed.Some? {
        var status := if m.partial then InProgress else Completed;
        if current.None? {
          var toolCallId := GenerateToolCallId();
          current := Some(toolCallId);
          updates := updates + [ToolCall(toolCallId, parsed.value, InProgress)];
          if status == Completed {
            updates := updates + [ToolCallUpdate(toolCallId, Some(status))];
          }
        } else {
          updates := updates + [ToolCallUpdate(current.value, Some(status))];
        }
        if status == Completed { current := None; }
      } else {
        var commandUpdate := PlainCommandToolMessage(m);
        updates := updates + [if commandUpdate.Some? then commandUpdate.value else AgentChunk(m.text)];
      }
    }

    method CommandMessage() returns (updates: seq<Update>)
      modifies this
      ensures Only(Value(), updates) == RunCommand(old(Value()))
    {
      var toolCallId := GenerateToolCallId();
      current := Some(toolCallId);
      updates := [ToolCall(toolCallId, Execute, InProgress)];
    }

    method CommandOutputMessage(m: Message, terminal: bool) returns (updates: seq<Update>)
      modifies this
      ensures Only(Value(), updates) == CommandOutput(old(Value()), m, terminal)
    {
      updates := [];
      if current.Some? {
        var toolCallId := current.value;
        var status := if m.commandCompleted then Completed else InProgress;
        if terminal {
          if m.text != "" { updates := updates + [ToolCallUpdate(toolCallId, None)]; }
          if m.commandCompleted {
            updates := updates + [ToolCallUpdate(toolCallId, Some(status))];
            current := None;
          }
          return;
        }
        updates := updates + [ToolCallUpdate(toolCallId, Some(status))];
        if m.commandCompleted { current := None; }
      } else if m.text != "" {
        updates := updates + [AgentChunk("Output:\n" + m.text)];
      }
    }

    method BrowserActionMessage(r: Readers, m: Message) returns (updates: seq<Update>)
      modifies this
      ensures Only(Value(), updates) == BrowserAction(r, old(Value()), m)
    {
      var action := if m.text == "" then Some(Execute) else r.browser(m.text);
      if action.None? { return [AgentChunk(m.text)]; }
      if current.None? {
        var toolCallId := GenerateToolCallId();
        current := Some(toolCallId);
      }
      updates := [ToolCall(current.value, action.value, InProgress)];
    }

    method FinishCurrent(status: Status) returns (updates: seq<Update>)
      modifies this`current
      ensures Only(Value(), updates) == EndCurrent(old(Value()), status)
    {
      updates := [];
      if current.Some? {
        updates := updates + [ToolCallUpdate(current.value, Some(status))];
        current := None;
      }
    }

    /** `ok` is false where the program throws. */
    method SayMessage(r: Readers, m: Message, say: SayTag, terminal: bool)
      returns (ok: bool, updates: seq<Update>, toolCallId: Option<ToolId>)
      modifies this
      ensures var t := TranslateSay(r, old(Value()), m, say, terminal);
        if ok then t == Some(Translated(Value(), updates, toolCallId, None)) else t == None && Value() == old(Value())
    {
      ok, updates, toolCallId := true, [], None;
      match say
      case SayText =>
        if m.text != "" && r.marker(m.text).Some? {
          var id;
          updates, id := WebSearchMarkerMessage(m);
          toolCallId := Some(id);
        } else if m.text != "" {
          updates := [AgentChunk(m.text)];
        }
      case SayReasoning =>
        if m.reasoning != "" || m.text != "" {
          updates := [ThoughtChunk(if m.reasoning != "" then m.reasoning else m.text)];
        }
      case SayTool => updates := ToolMessage(r, m);
      case SayCommand => updates := CommandMessage();
      case SayCommandOutput => updates := CommandOutputMessage(m, terminal);
      case SayCompletionResult => if m.text != "" { updates := [AgentChunk("\n" + m.text)]; }
      case SayError =>
        if m.text != "" { updates := [AgentChunk("Error: " + m.text)]; }
        var failed := FinishCurrent(Failed);
        updates := updates + failed;
      case SayBrowserAction => updates := BrowserActionMessage(r, m);
      case SayBrowserActionResult =>
        if current.Some? && m.text != "" && !r.isJson(m.text) {
          ok := false;
        } else {
          updates := FinishCurrent(Completed);
        }
      case SayHookStatus =>
        if m.text != "" {
          var statusText := r.hookStatus(m.text);
          if statusText.Some? { updates := [AgentChunk(statusText.value)]; }
        }
      case SayInfo => if m.text != "" { updates := [AgentChunk(m.text)]; }
      case SaySilent =>
    }

    // ----- Ask messages

    method NewPendingCall(kind: Kind) returns (update: Update, toolCallId: ToolId)
      modifies this
      ensures toolCallId == old(nextId) && update == ToolCall(toolCallId, kind, Pending)
      ensures Value() == Session(Some(toolCallId), old(pending)[toolCallId := PendingCall(kind, Pending)], toolCallId + 1)
    {
      toolCallId := GenerateToolCallId();
      current := Some(toolCallId);
      update := ToolCall(toolCallId, kind, Pending);
      pending := pending[toolCallId := PendingCall(kind, Pending)];
    }

    method ToolAskMessage(r: Readers, m: Message, existing: Option<ToolId>)
      returns (update: Update, toolCallId: ToolId, request: Option<ToolId>)
      modifies this
      ensures Translated(Value(), [update], Some(toolCallId), request) == AskForTool(r, old(Value()), m, existing)
    {
      request := None;
      if existing.Some? {
        toolCallId := existing.value;
        current := Some(toolCallId);
        update := ToolCallUpdate(toolCallId, Some(Pending));
        if !m.partial && toolCallId in pending { request := Some(toolCallId); }
      } else {
        var toolInfo := if m.text == "" then None else r.askTool(m.text);
        update, toolCallId := NewPendingCall(if toolInfo.Some? then toolInfo.value else OtherKind("other"));
        if !m.partial { request := Some(toolCallId); }
      }
    }

    method AskMessage(r: Readers, m: Message, ask: AskTag, existing: Option<ToolId>)
      returns (updates: seq<Update>, toolCallId: Option<ToolId>, request: Option<ToolId>)
      modifies this
      ensures Translated(Value(), updates, toolCallId, request) == TranslateAsk(r, old(Value()), m, ask, existing)
    {
      updates, toolCallId, request := [], None, None;
      if ask == AskFollowup || ask == AskPlanModeRespond {
        if m.text != "" {
          var textToSend := r.question(ask, m.text);
          if textToSend != "" { updates := [AgentChunk(textToSend)]; }
        }
      } else if ask == AskCommand || ask == AskBrowserLaunch {
        var update, id := NewPendingCall(Execute);
        updates, request := [update], Some(id);
      } else if ask == AskTool {
        var update, id;
        update, id, request := ToolAskMessage(r, m, existing);
        updates, toolCallId := [update], Some(id);
      } else if ask == AskCompletionResult {
        if m.text != "" { updates := [AgentChunk("\n" + m.text)]; }
      } else if ask == AskNotice {
        if m.text != "" { updates := [AgentChunk(m.text)]; }
      }
    }

    method TranslateMessage(r: Readers, m: Message, existing: Option<ToolId>, terminal: bool)
      returns (ok: bool, updates: seq<Update>, toolCallId: Option<ToolId>, request: Option<ToolId>)
      modifies this
      ensures var t := Translate(r, old(Value()), m, existing, terminal);
        if ok then t == Some(Translated(Value(), updates, toolCallId, request)) else t == None && Value() == old(Value())
      ensures ok ==> forall known: set<ToolId> :: SessionOk(old(Value()), known) && (existing.Some? ==> existing.value in known) ==>
        TranslatedOk(known, Translated(Value(), updates, toolCallId, request))
    {
      forall known: set<ToolId> | SessionOk(Value(), known) && (existing.Some? ==> existing.value in known)
        ensures var t := Translate(r, Value(), m, existing, terminal); t.Some? ==> TranslatedOk(known, t.value)
      {
        TranslateOk(r, Value(), m, existing, terminal, known);
      }
      match m.body
      case Say(say) =>
        ok, updates, toolCallId := SayMessage(r, m, say, terminal);
        request := None;
      case Ask(ask) =>
        updates, toolCallId, request := AskMessage(r, m, ask, existing);
        ok := true;
    }
  }

  class Agent {
    const readers: Readers
    const terminal: bool
    const session: SessionState
    var toolIds: map<int, ToolId>
    var lastContent: map<int, string>
    var waiting: seq<Waiting>
    var log: seq<Entry>

    constructor (readers: Readers, terminal: bool)
      ensures fresh(session) && this.readers == readers && this.terminal == terminal && Value() == Start() && Inv(Value())
    {
      this.readers, this.terminal := readers, terminal;
      session := new SessionState();
      toolIds, lastContent, waiting, log := map[], map[], [], [];
    }

    function Value(): State
      reads this, session
    {
      State(session.Value(), toolIds, lastContent, waiting, log)
    }

    method EmitAll(source: Source, updates: seq<Update>)
      modifies this`log
      ensures log == old(log) + SendAll(source, updates)
    {
      for i := 0 to |updates|
        invariant log == old(log) + SendAll(source, updates[..i])
      {
        log := log + [Sent(source, updates[i])];
        assert SendAll(source, updates[..i + 1]) == SendAll(source, updates[..i]) + [Sent(source, updates[i])];
      }
      assert updates[..|updates|] == updates;
    }

    method StreamText(m: Message)
      modifies this`log, this`lastContent
      ensures Value() == Stream(readers, old(Value()), m)
    {
      var lastText := if m.ts in lastContent then lastContent[m.ts] else "";
      var textContent := m.text;
      if m.body == Ask(AskPlanModeRespond) {
        textContent := readers.question(AskPlanModeRespond, m.text);
      } else if m.body == Ask(AskFollowup) {
        textContent := readers.question(AskFollowup, m.text);
      }
      var textDelta := textContent;
      if lastText <= textContent { textDelta := textContent[|lastText|..]; }
      if textDelta != "" {
        var needsNewline := IsCompletion(m) && lastText == "";
        var text := if needsNewline then "\n" + textDelta else textDelta;
        log := log + [Sent(ByMessage(m.ts), if m.body == Say(SayReasoning) then ThoughtChunk(text) else AgentChunk(text))];
      }
      lastContent := lastContent[m.ts := textContent];
    }

    method Finish(m: Message, toolCallId: Option<ToolId>)
      modifies this`lastContent, this`toolIds
      ensures Value() == Settle(old(Value()), m, toolCallId)
    {
      if m.text != "" { lastContent := lastContent[m.ts := m.text]; }
      if !m.partial && toolCallId.Some? { toolIds := toolIds - {m.ts}; }
    }

    method ProcessMessageWithDelta(m: Message)
      modifies this, session
      ensures Value() == Process(readers, terminal, old(Value()), m)
      ensures old(Inv(Value())) ==> Inv(Value())
    {
      if Inv(Value()) { ProcessInv(readers, terminal, Value(), m); }
      if IsTextStreaming(m) && m.text != "" && !IsMarker(readers, m) {
        StreamText(m);
      } else {
        var existing := if m.ts in toolIds then Some(toolIds[m.ts]) else None;
        var ok, updates, toolCallId, request := session.TranslateMessage(readers, m, existing, terminal);
        if !ok { return; }
        EmitAll(ByMessage(m.ts), updates);
        if toolCallId.Some? { toolIds := toolIds[m.ts := toolCallId.value]; }
        if request.Some? && !m.partial {
          log := log + [Asked(m.ts, request.value)];
          waiting := waiting + [Waiting(m, toolCallId, request.value)];
        } else {
          Finish(m, toolCallId);
        }
      }
    }

    /** The update of the current call, if there is one. */
    method TellCurrent(w: Waiting, status: Status)
      modifies this`log
      ensures log == match session.current
        case None => old(log)
        case Some(id) => old(log) + [Sent(ByReply(w.message.ts), ToolCallUpdate(id, Some(status)))]
    {
      if session.current.Some? {
        log := log + [Sent(ByReply(w.message.ts), ToolCallUpdate(session.current.value, Some(status)))];
      }
    }

    method PermissionReply(request: nat, outcome: Outcome, answer: Answer)
      requires request < |waiting|
      modifies this
      ensures Value() == Reply(old(Value()), request, outcome, answer)
      ensures old(Inv(Value())) ==> Inv(Value())
    {
      if Inv(Value()) { ReplyInv(Value(), request, outcome, answer); }
      var w := waiting[request];
      ghost var before := log;
      waiting := waiting[..request] + waiting[request + 1..];
      TellCurrent(w, ReplyStatus(outcome));
      var rejecting := outcome == Errored;
      if !rejecting && answer != Taken {
        TellCurrent(w, Failed);
        rejecting := true;
      }
      if session.current.Some? {
        var id := session.current.value;
        assert log == before + SendAll(ByReply(w.message.ts), StatusUpdates(id, Statuses(outcome, answer)));
      }
      if rejecting && (answer == FailsTwice || (outcome == Errored && answer == Fails)) { return; }
      Finish(w.message, w.toolCallId);
    }

    method PromptCleared()
      modifies this`toolIds, this`lastContent
      ensures Value() == Prompt(old(Value()))
      ensures old(Inv(Value())) ==> Inv(Value())
    {
      lastContent := map[];
      toolIds := map[];
    }
  }
}
