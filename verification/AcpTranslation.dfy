/** How one message becomes tool-call events and text, as a function of the session. */
module AcpTranslation {
  import opened Sequences
  import opened Characters

  type ToolId = nat
  datatype Kind = Execute | OtherKind(name: string)
  datatype Status = Pending | InProgress | Completed | Failed

  datatype Update =
    | ToolCall(id: ToolId, kind: Kind, status: Status)
    | ToolCallUpdate(id: ToolId, newStatus: Option<Status>)
    | AgentChunk(text: string)
    | ThoughtChunk(text: string)

  /** `SayError` stands for the four error says, `SayInfo` for the informational ones, `SaySilent` for
      those that produce nothing; `AskNotice` for the asks shown as plain text, `AskSilent` for the rest. */
  datatype SayTag =
    | SayText | SayReasoning | SayTool | SayCommand | SayCommandOutput | SayCompletionResult
    | SayError | SayBrowserAction | SayBrowserActionResult | SayHookStatus | SayInfo | SaySilent
  datatype AskTag =
    | AskFollowup | AskPlanModeRespond | AskCommand | AskTool | AskBrowserLaunch | AskCompletionResult
    | AskNotice | AskSilent
  datatype Body = Say(say: SayTag) | Ask(ask: AskTag)

  /** `text` and `reasoning` are empty where the message has none. */
  datatype Message = Message(ts: int, body: Body, text: string, reasoning: string, partial: bool, commandCompleted: bool)

  /** The parsers of message texts, as the program's JSON and regex engines answer. */
  datatype Readers = Readers(
    marker: string -> Option<string>,       // the query of a web-search marker
    sayTool: string -> Option<Kind>,        // None where the tool text does not parse
    askTool: string -> Option<Kind>,
    browser: string -> Option<Kind>,
    isJson: string -> bool,
    hookStatus: string -> Option<string>,   // the status sentence
    question: (AskTag, string) -> string)   // the response or question inside the text

  datatype PendingCall = PendingCall(kind: Kind, status: Status)

  /** `nextId` is above every id generated so far. */
  datatype Session = Session(current: Option<ToolId>, pending: map<ToolId, PendingCall>, nextId: ToolId)

  datatype Translated = Translated(session: Session, updates: seq<Update>, toolCallId: Option<ToolId>, request: Option<ToolId>)

  function Only(s: Session, updates: seq<Update>): Translated {
    Translated(s, updates, None, None)
  }

  function Command(m: Message): string {
    Trim(IsSpace, m.text)
  }

  function ChunkIf(text: string, chunk: string): seq<Update> {
    if text == "" then [] else [AgentChunk(chunk)]
  }

  // ----- The tool-call messages

  function WebSearch(s: Session, m: Message): Translated {
    var id := if s.current.Some? then s.current.value else s.nextId;
    var announced :=
      if s.current.None? then [ToolCall(id, OtherKind("search"), InProgress)]
      else if m.partial then [ToolCallUpdate(id, Some(InProgress))]
      else [];
    var s' := if s.current.None? then s.(current := Some(id), nextId := id + 1) else s;
    if m.partial then Translated(s', announced, Some(id), None)
    else Translated(s'.(current := None), announced + [ToolCallUpdate(id, Some(Completed))], Some(id), None)
  }

  function PlainCommand(s: Session, m: Message): Option<ToolId> {
    if Command(m) != "" && s.current.Some? && s.current.value in s.pending && s.pending[s.current.value].kind == Execute
    then s.current else None
  }

  function Tool(r: Readers, s: Session, m: Message): Translated {
    if m.text == "" then Only(s, [])
    else
      match r.sayTool(m.text)
      case Some(kind) =>
        var status := if m.partial then InProgress else Completed;
        if s.current.None? then
          var id := s.nextId;
          Only(s.(current := if m.partial then Some(id) else None, nextId := id + 1),
               [ToolCall(id, kind, InProgress)] + (if m.partial then [] else [ToolCallUpdate(id, Some(status))]))
        else
          Only(if m.partial then s else s.(current := None), [ToolCallUpdate(s.current.value, Some(status))])
      case None =>
        match PlainCommand(s, m)
        case Some(id) =>
          Only(s.(pending := s.pending[id := PendingCall(Execute, InProgress)]), [ToolCallUpdate(id, Some(InProgress))])
        case None => Only(s, [AgentChunk(m.text)])
  }

  function RunCommand(s: Session): Translated {
    Only(s.(current := Some(s.nextId), nextId := s.nextId + 1), [ToolCall(s.nextId, Execute, InProgress)])
  }

  function CommandOutput(s: Session, m: Message, terminal: bool): Translated {
    match s.current
    case None => Only(s, ChunkIf(m.text, "Output:\n" + m.text))
    case Some(id) =>
      var s' := if m.commandCompleted then s.(current := None) else s;
      if terminal then
        Only(s', (if m.text == "" then [] else [ToolCallUpdate(id, None)])
               + (if m.commandCompleted then [ToolCallUpdate(id, Some(Completed))] else []))
      else
        Only(s', [ToolCallUpdate(id, Some(if m.commandCompleted then Completed else InProgress))])
  }

  function BrowserAction(r: Readers, s: Session, m: Message): Translated {
    if m.text != "" && r.browser(m.text).None? then Only(s, [AgentChunk(m.text)])
    else
      var kind := if m.text == "" then Execute else r.browser(m.text).value;
      var id := if s.current.Some? then s.current.value else s.nextId;
      Only(if s.current.Some? then s else s.(current := Some(id), nextId := id + 1), [ToolCall(id, kind, InProgress)])
  }

  /** The current call ends with `status`, if there is one. */
  function EndCurrent(s: Session, status: Status): Translated {
    match s.current
    case None => Only(s, [])
    case Some(id) => Only(s.(current := None), [ToolCallUpdate(id, Some(status))])
  }

  // ----- Say and ask

  /** None where the program throws. */
  function TranslateSay(r: Readers, s: Session, m: Message, say: SayTag, terminal: bool): Option<Translated> {
    match say
    case SayText =>
      if m.text != "" && r.marker(m.text).Some? then Some(WebSearch(s, m)) else Some(Only(s, ChunkIf(m.text, m.text)))
    case SayReasoning =>
      var thought := if m.reasoning != "" then m.reasoning else m.text;
      Some(Only(s, if thought == "" then [] else [ThoughtChunk(thought)]))
    case SayTool => Some(Tool(r, s, m))
    case SayCommand => Some(RunCommand(s))
    case SayCommandOutput => Some(CommandOutput(s, m, terminal))
    case SayCompletionResult => Some(Only(s, ChunkIf(m.text, "\n" + m.text)))
    case SayError =>
      var ended := EndCurrent(s, Failed);
      Some(Only(ended.session, ChunkIf(m.text, "Error: " + m.text) + ended.updates))
    case SayBrowserAction => Some(BrowserAction(r, s, m))
    case SayBrowserActionResult =>
      if s.current.Some? && m.text != "" && !r.isJson(m.text) then None else Some(EndCurrent(s, Completed))
    case SayHookStatus =>
      Some(Only(s, if m.text == "" || r.hookStatus(m.text).None? then [] else [AgentChunk(r.hookStatus(m.text).value)]))
    case SayInfo => Some(Only(s, ChunkIf(m.text, m.text)))
    case SaySilent => Some(Only(s, []))
  }

  /** A new call that needs permission at once. */
  function AskNew(s: Session, kind: Kind, toolCallId: bool, request: bool): Translated {
    var id := s.nextId;
    Translated(Session(Some(id), s.pending[id := PendingCall(kind, Pending)], id + 1),
               [ToolCall(id, kind, Pending)],
               if toolCallId then Some(id) else None,
               if request then Some(id) else None)
  }

  function AskForTool(r: Readers, s: Session, m: Message, existing: Option<ToolId>): Translated {
    match existing
    case None =>
      var kind := if m.text == "" then OtherKind("other") else
        match r.askTool(m.text) case None => OtherKind("other") case Some(k) => k;
      AskNew(s, kind, true, !m.partial)
    case Some(id) =>
      Translated(s.(current := Some(id)), [ToolCallUpdate(id, Some(Pending))], Some(id),
                 if !m.partial && id in s.pending then Some(id) else None)
  }

  function TranslateAsk(r: Readers, s: Session, m: Message, ask: AskTag, existing: Option<ToolId>): Translated {
    match ask
    case AskFollowup =>
      Only(s, if m.text == "" then [] else ChunkIf(r.question(ask, m.text), r.question(ask, m.text)))
    case AskPlanModeRespond =>
      Only(s, if m.text == "" then [] else ChunkIf(r.question(ask, m.text), r.question(ask, m.text)))
    case AskCommand => AskNew(s, Execute, false, true)
    case AskTool => AskForTool(r, s, m, existing)
    case AskBrowserLaunch => AskNew(s, Execute, false, true)
    case AskCompletionResult => Only(s, ChunkIf(m.text, "\n" + m.text))
    case AskNotice => Only(s, ChunkIf(m.text, m.text))
    case AskSilent => Only(s, [])
  }

  function Translate(r: Readers, s: Session, m: Message, existing: Option<ToolId>, terminal: bool): Option<Translated> {
    match m.body
    case Say(say) => TranslateSay(r, s, m, say, terminal)
    case Ask(ask) => Some(TranslateAsk(r, s, m, ask, existing))
  }
}
