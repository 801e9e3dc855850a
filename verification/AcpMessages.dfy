/** Which messages announce calls, of which kind, what text they show, and which one throws. */
module AcpMessages {
  import opened Sequences
  import opened AcpTranslation
  import opened AcpSession
  import opened AcpLifecycle

  /** The kind of call a message may announce: commands and browser launches execute, markers search, tools and
      browser actions are of the kind their text says. */
  function KindOf(r: Readers, m: Message): Kind {
    match m.body
    case Say(SayText) => OtherKind("search")
    case Say(SayTool) => r.sayTool(m.text).GetOr(Execute, k => k)
    case Say(SayBrowserAction) => if m.text == "" then Execute else r.browser(m.text).GetOr(Execute, k => k)
    case Ask(AskTool) => if m.text == "" then OtherKind("other") else r.askTool(m.text).GetOr(OtherKind("other"), k => k)
    case _ => Execute
  }

  predicate HasCall(updates: seq<Update>) {
    exists i :: 0 <= i < |updates| && updates[i].ToolCall?
  }

  predicate CallsOfKind(updates: seq<Update>, kind: Kind) {
    forall i :: 0 <= i < |updates| && updates[i].ToolCall? ==> updates[i].kind == kind
  }

  lemma FirstOf(updates: seq<Update>, more: seq<Update>)
    requires |updates| == 1 && updates[0].ToolCall?
    ensures HasCall(updates) && HasCall(updates + more)
  {
    assert (updates + more)[0] == updates[0];
  }

  /** The say messages that announce a call. */
  predicate SayAnnounces(r: Readers, s: Session, m: Message, say: SayTag) {
    match say
    case SayText => m.text != "" && IsMarker(r, m) && s.current.None?
    case SayTool => m.text != "" && r.sayTool(m.text).Some? && s.current.None?
    case SayCommand => true
    case SayBrowserAction => m.text == "" || r.browser(m.text).Some?
    case _ => false
  }

  predicate MessageAnnounces(r: Readers, s: Session, m: Message, existing: Option<ToolId>) {
    match m.body
    case Say(say) => SayAnnounces(r, s, m, say)
    case Ask(ask) => ask in {AskCommand, AskBrowserLaunch} || (ask == AskTool && existing.None?)
  }

  lemma SayAnnouncement(r: Readers, s: Session, m: Message, say: SayTag, terminal: bool)
    requires m.body == Say(say)
    ensures var t := TranslateSay(r, s, m, say, terminal);
      t.Some? ==> (HasCall(t.value.updates) <==> SayAnnounces(r, s, m, say)) && CallsOfKind(t.value.updates, KindOf(r, m))
  {
    var t := TranslateSay(r, s, m, say, terminal);
    if t.Some? && SayAnnounces(r, s, m, say) { assert t.value.updates[0].ToolCall?; }
  }

  lemma AskAnnouncement(r: Readers, s: Session, m: Message, ask: AskTag, existing: Option<ToolId>)
    requires m.body == Ask(ask)
    ensures var t := TranslateAsk(r, s, m, ask, existing);
      (HasCall(t.updates) <==> MessageAnnounces(r, s, m, existing)) && CallsOfKind(t.updates, KindOf(r, m))
  {
    var t := TranslateAsk(r, s, m, ask, existing);
    if MessageAnnounces(r, s, m, existing) { assert t.updates[0].ToolCall?; }
  }

  /** Exactly these messages announce a call, and of this kind. */
  lemma AnnouncesIff(r: Readers, s: Session, m: Message, existing: Option<ToolId>, terminal: bool)
    ensures var t := Translate(r, s, m, existing, terminal);
      t.Some? ==>
        (HasCall(t.value.updates) <==> MessageAnnounces(r, s, m, existing)) && CallsOfKind(t.value.updates, KindOf(r, m))
  {
    match m.body
    case Say(say) => SayAnnouncement(r, s, m, say, terminal);
    case Ask(ask) => AskAnnouncement(r, s, m, ask, existing);
  }

  // ----- Pending calls

  /** Asks add the call they announce as pending, of its kind; a tool message that does not parse may set a pending
      execution in progress; nothing else changes. */
  predicate PendingRightly(r: Readers, s: Session, m: Message, existing: Option<ToolId>, t: Translated) {
    if m.body.Ask? && MessageAnnounces(r, s, m, existing) then
      t.session.pending == s.pending[s.nextId := PendingCall(KindOf(r, m), Pending)]
    else if m.body == Say(SayTool) && m.text != "" && r.sayTool(m.text).None? && Command(m) != "" &&
      s.current.Some? && s.current.value in s.pending && s.pending[s.current.value].kind == Execute then
      t.session.pending == s.pending[s.current.value := PendingCall(Execute, InProgress)]
    else
      t.session.pending == s.pending
  }

  lemma SayPending(r: Readers, s: Session, m: Message, say: SayTag, terminal: bool, existing: Option<ToolId>)
    requires m.body == Say(say)
    ensures var t := TranslateSay(r, s, m, say, terminal); t.Some? ==> PendingRightly(r, s, m, existing, t.value)
  {
    match say
    case SayTool => ToolPending(r, s, m, existing);
    case SayText => assert WebSearch(s, m).session.pending == s.pending;
    case SayCommandOutput => assert CommandOutput(s, m, terminal).session.pending == s.pending;
    case SayBrowserAction => assert BrowserAction(r, s, m).session.pending == s.pending;
    case _ =>
  }

  lemma ToolPending(r: Readers, s: Session, m: Message, existing: Option<ToolId>)
    requires m.body == Say(SayTool)
    ensures PendingRightly(r, s, m, existing, Tool(r, s, m))
  {
  }

  lemma AskPending(r: Readers, s: Session, m: Message, ask: AskTag, existing: Option<ToolId>)
    requires m.body == Ask(ask)
    ensures PendingRightly(r, s, m, existing, TranslateAsk(r, s, m, ask, existing))
  {
  }

  lemma PendingIsKept(r: Readers, s: Session, m: Message, existing: Option<ToolId>, terminal: bool)
    ensures var t := Translate(r, s, m, existing, terminal); t.Some? ==> PendingRightly(r, s, m, existing, t.value)
  {
    match m.body
    case Say(say) => SayPending(r, s, m, say, terminal, existing);
    case Ask(ask) => AskPending(r, s, m, ask, existing);
  }

  // ----- Throwing and showing

  /** The program throws exactly on a browser result for a current call whose text is no JSON. */
  lemma ThrowsIff(r: Readers, s: Session, m: Message, existing: Option<ToolId>, terminal: bool)
    ensures Translate(r, s, m, existing, terminal).None?
       <==> m.body == Say(SayBrowserActionResult) && s.current.Some? && m.text != "" && !r.isJson(m.text)
  {
  }

  /** The text a message shows, where it shows any. */
  function Shown(r: Readers, s: Session, m: Message): Option<string> {
    match m.body
    case Say(say) =>
      if say == SayReasoning then ShownIf(if m.reasoning == "" then m.text else m.reasoning)
      else if m.text == "" then None
      else SaidAloud(r, s, m, say)
    case Ask(ask) =>
      if m.text == "" then None
      else if ask in {AskFollowup, AskPlanModeRespond} then ShownIf(r.question(ask, m.text))
      else if ask == AskCompletionResult then Some("\n" + m.text)
      else if ask == AskNotice then Some(m.text)
      else None
  }

  function ShownIf(text: string): Option<string> {
    if text == "" then None else Some(text)
  }

  function SaidAloud(r: Readers, s: Session, m: Message, say: SayTag): Option<string> {
    match say
    case SayText => if r.marker(m.text).Some? then None else Some(m.text)
    case SayTool => if r.sayTool(m.text).Some? || PlainCommand(s, m).Some? then None else Some(m.text)
    case SayCommandOutput => if s.current.Some? then None else Some("Output:\n" + m.text)
    case SayCompletionResult => Some("\n" + m.text)
    case SayError => Some("Error: " + m.text)
    case SayBrowserAction => if r.browser(m.text).Some? then None else Some(m.text)
    case SayHookStatus => r.hookStatus(m.text)
    case SayInfo => Some(m.text)
    case _ => None
  }

  predicate ShowsOnly(updates: seq<Update>, text: string) {
    && (exists i :: 0 <= i < |updates| && updates[i] in {AgentChunk(text), ThoughtChunk(text)})
    && (forall i :: 0 <= i < |updates| && (updates[i].AgentChunk? || updates[i].ThoughtChunk?) ==> updates[i].text == text)
  }

  predicate ShowsNothing(updates: seq<Update>) {
    forall i :: 0 <= i < |updates| ==> updates[i].ToolCall? || updates[i].ToolCallUpdate?
  }

  ghost predicate ShowsRightly(shown: Option<string>, updates: seq<Update>) {
    match shown
    case None => ShowsNothing(updates)
    case Some(text) => ShowsOnly(updates, text)
  }

  lemma OneChunk(updates: seq<Update>, text: string)
    requires |updates| > 0 && updates[0] in {AgentChunk(text), ThoughtChunk(text)}
    requires forall i :: 0 < i < |updates| ==> updates[i].ToolCallUpdate?
    ensures ShowsOnly(updates, text)
  {
  }

  lemma SayShows(r: Readers, s: Session, m: Message, say: SayTag, terminal: bool)
    requires m.body == Say(say)
    ensures var t := TranslateSay(r, s, m, say, terminal); t.Some? ==> ShowsRightly(Shown(r, s, m), t.value.updates)
  {
    var t := TranslateSay(r, s, m, say, terminal);
    if t.Some? && Shown(r, s, m).Some? { OneChunk(t.value.updates, Shown(r, s, m).value); }
  }

  lemma AskShows(r: Readers, s: Session, m: Message, ask: AskTag, existing: Option<ToolId>)
    requires m.body == Ask(ask)
    ensures ShowsRightly(Shown(r, s, m), TranslateAsk(r, s, m, ask, existing).updates)
  {
    var t := TranslateAsk(r, s, m, ask, existing);
    if Shown(r, s, m).Some? { OneChunk(t.updates, Shown(r, s, m).value); }
  }

  /** Exactly these messages show text, and this text. */
  lemma ShowsIff(r: Readers, s: Session, m: Message, existing: Option<ToolId>, terminal: bool)
    ensures var t := Translate(r, s, m, existing, terminal); t.Some? ==> ShowsRightly(Shown(r, s, m), t.value.updates)
  {
    match m.body
    case Say(say) => SayShows(r, s, m, say, terminal);
    case Ask(ask) => AskShows(r, s, m, ask, existing);
  }
}
