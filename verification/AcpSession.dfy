/** One session over time: messages, permission replies and new prompts, with everything sent so far. */
module AcpSession {
  import opened Sequences
  import opened AcpTranslation

  /** What was sent, and which message it was sent for. */
  datatype Source = ByMessage(ts: int) | ByReply(ts: int)
  datatype Entry = Sent(source: Source, update: Update) | Asked(ts: int, id: ToolId)

  /** A message whose permission request, for the call `asked`, is still open. */
  datatype Waiting = Waiting(message: Message, toolCallId: Option<ToolId>, asked: ToolId)

  datatype State = State(
    session: Session,
    toolIds: map<int, ToolId>,       // messageToToolCallId
    lastContent: map<int, string>,   // partialMessageLastContent
    waiting: seq<Waiting>,
    log: seq<Entry>)

  datatype Outcome = Cancelled | Rejected | Allowed | Errored

  /** Whether the task takes the outcome, or handing it over throws, or handing over the rejection that
      then takes its place throws as well. */
  datatype Answer = Taken | Fails | FailsTwice

  datatype Event =
    | Changed(message: Message)
    | Replied(request: nat, outcome: Outcome, answer: Answer)
    | Prompted

  function Start(): State {
    State(Session(None, map[], 0), map[], map[], [], [])
  }

  function LastText(s: State, ts: int): string {
    if ts in s.lastContent then s.lastContent[ts] else ""
  }

  function SendAll(source: Source, updates: seq<Update>): seq<Entry> {
    seq(|updates|, i requires 0 <= i < |updates| => Sent(source, updates[i]))
  }

  // ----- Text streaming

  predicate IsTextStreaming(m: Message) {
    m.body in {Say(SayText), Say(SayReasoning), Say(SayCompletionResult),
               Ask(AskFollowup), Ask(AskPlanModeRespond), Ask(AskCompletionResult)}
  }

  predicate IsMarker(r: Readers, m: Message) {
    m.body == Say(SayText) && r.marker(m.text).Some?
  }

  predicate IsCompletion(m: Message) {
    m.body in {Say(SayCompletionResult), Ask(AskCompletionResult)}
  }

  /** The text to show: the inner question or response of the two JSON-wrapped asks. */
  function Content(r: Readers, m: Message): string {
    match m.body
    case Ask(AskFollowup) => r.question(AskFollowup, m.text)
    case Ask(AskPlanModeRespond) => r.question(AskPlanModeRespond, m.text)
    case _ => m.text
  }

  function Delta(content: string, lastText: string): string {
    if lastText <= content then content[|lastText|..] else content
  }

  function Chunk(m: Message, text: string): Update {
    if m.body == Say(SayReasoning) then ThoughtChunk(text) else AgentChunk(text)
  }

  function Stream(r: Readers, s: State, m: Message): State {
    var lastText := LastText(s, m.ts);
    var content := Content(r, m);
    var delta := Delta(content, lastText);
    var text := if IsCompletion(m) && lastText == "" then "\n" + delta else delta;
    s.(lastContent := s.lastContent[m.ts := content],
       log := if delta == "" then s.log else s.log + [Sent(ByMessage(m.ts), Chunk(m, text))])
  }

  // ----- Everything else

  /** What follows once the updates are sent and the permission, if any, is settled. */
  function Settle(s: State, m: Message, toolCallId: Option<ToolId>): State {
    s.(lastContent := if m.text == "" then s.lastContent else s.lastContent[m.ts := m.text],
       toolIds := if !m.partial && toolCallId.Some? then s.toolIds - {m.ts} else s.toolIds)
  }

  function Existing(s: State, ts: int): Option<ToolId> {
    if ts in s.toolIds then Some(s.toolIds[ts]) else None
  }

  /** The updates go out and the message's tool call is remembered. */
  function SendUpdates(s: State, m: Message, t: Translated): State {
    s.(session := t.session, log := s.log + SendAll(ByMessage(m.ts), t.updates),
       toolIds := if t.toolCallId.Some? then s.toolIds[m.ts := t.toolCallId.value] else s.toolIds)
  }

  /** A complete message that needs permission waits for its reply; any other is settled at once. */
  function Deliver(s: State, m: Message, t: Translated): State {
    var sent := SendUpdates(s, m, t);
    if t.request.Some? && !m.partial then
      sent.(log := sent.log + [Asked(m.ts, t.request.value)], waiting := sent.waiting + [Waiting(m, t.toolCallId, t.request.value)])
    else
      Settle(sent, m, t.toolCallId)
  }

  function Process(r: Readers, terminal: bool, s: State, m: Message): State {
    if IsTextStreaming(m) && m.text != "" && !IsMarker(r, m) then Stream(r, s, m)
    else
      match Translate(r, s.session, m, Existing(s, m.ts), terminal)
      case None => s
      case Some(t) => Deliver(s, m, t)
  }

  function ReplyStatus(outcome: Outcome): Status {
    if outcome == Allowed then InProgress else Failed
  }

  /** The statuses sent for a reply: a failure to hand over the outcome is told after the outcome. */
  function Statuses(outcome: Outcome, answer: Answer): seq<Status> {
    if outcome != Errored && answer != Taken then [ReplyStatus(outcome), Failed] else [ReplyStatus(outcome)]
  }

  /** The handling of the message ends with an exception. */
  predicate Throws(outcome: Outcome, answer: Answer) {
    answer == FailsTwice || (outcome == Errored && answer == Fails)
  }

  function StatusUpdates(id: ToolId, statuses: seq<Status>): seq<Update> {
    seq(|statuses|, i requires 0 <= i < |statuses| => ToolCallUpdate(id, Some(statuses[i])))
  }

  function Reply(s: State, request: nat, outcome: Outcome, answer: Answer): State
    requires request < |s.waiting|
  {
    var w := s.waiting[request];
    var rest := s.(waiting := s.waiting[..request] + s.waiting[request + 1..]);
    var told := match rest.session.current
      case None => rest
      case Some(id) =>
        rest.(log := rest.log + SendAll(ByReply(w.message.ts), StatusUpdates(id, Statuses(outcome, answer))));
    if Throws(outcome, answer) then told else Settle(told, w.message, w.toolCallId)
  }

  function Prompt(s: State): State {
    s.(toolIds := map[], lastContent := map[])
  }

  function Step(r: Readers, terminal: bool, s: State, e: Event): State {
    match e
    case Changed(m) => Process(r, terminal, s, m)
    case Replied(request, outcome, answer) => if request < |s.waiting| then Reply(s, request, outcome, answer) else s
    case Prompted => Prompt(s)
  }

  function Run(r: Readers, terminal: bool, s: State, events: seq<Event>): State
    decreases |events|
  {
    if events == [] then s else Step(r, terminal, Run(r, terminal, s, events[..|events| - 1]), events[|events| - 1])
  }
}
