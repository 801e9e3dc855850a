/** Which call the reply to a permission request updates. */
module AcpReplies {
  import opened Sequences
  import opened AcpTranslation
  import opened AcpSession
  import opened AcpSafety
  import opened AcpCommands

  /** A request is made for the call that is current then. */
  lemma AskedCallIsCurrent(r: Readers, terminal: bool, events: seq<Event>, m: Message)
    ensures var s := Run(r, terminal, Start(), events);
      var s' := Process(r, terminal, s, m);
      s'.waiting == s.waiting ||
      (s'.waiting[..|s'.waiting| - 1] == s.waiting && s'.session.current == Some(s'.waiting[|s'.waiting| - 1].asked))
  {
    var s := Run(r, terminal, Start(), events);
    RunInv(r, terminal, events);
    TranslateOk(r, s.session, m, Existing(s, m.ts), terminal, Announced(s.log));
  }

  /** The updates that tell the outcome. */
  function Told(w: Waiting, id: ToolId, outcome: Outcome, answer: Answer): seq<Entry> {
    SendAll(ByReply(w.message.ts), StatusUpdates(id, Statuses(outcome, answer)))
  }

  /** A reply updates the call it was asked for exactly if that call is current still or again; else it
      updates whatever call is current instead, or none. */
  lemma ReplyUpdatesAskedIff(s: State, request: nat, outcome: Outcome, answer: Answer)
    requires request < |s.waiting|
    ensures var w, log' := s.waiting[request], Reply(s, request, outcome, answer).log;
      && (log' == s.log + Told(w, w.asked, outcome, answer) <==> s.session.current == Some(w.asked))
      && (s.session.current.None? ==> log' == s.log)
      && (s.session.current.Some? ==> log' == s.log + Told(w, s.session.current.value, outcome, answer))
  {
    var w, log' := s.waiting[request], Reply(s, request, outcome, answer).log;
    if log' == s.log + Told(w, w.asked, outcome, answer) {
      assert |log'| > |s.log|;
      assert log'[|s.log|] == Told(w, w.asked, outcome, answer)[0];
    }
  }

  // ----- From the request to the reply

  /** The messages that may move the current call. */
  predicate MayMove(r: Readers, m: Message) {
    match m.body
    case Say(say) =>
      (match say
       case SayText => m.text != "" && IsMarker(r, m)
       case SayCommandOutput => m.commandCompleted
       case _ => say in {SayTool, SayCommand, SayError, SayBrowserAction, SayBrowserActionResult})
    case Ask(ask) => ask in {AskCommand, AskTool, AskBrowserLaunch}
  }

  /** A further message of the tool ask that opened call `id`. */
  predicate Recalls(s: State, e: Event, id: ToolId) {
    e.Changed? && e.message.body == Ask(AskTool) && Existing(s, e.message.ts) == Some(id)
  }

  lemma TranslationMoves(r: Readers, s: Session, m: Message, existing: Option<ToolId>, terminal: bool)
    ensures var t := Translate(r, s, m, existing, terminal);
      t.Some? ==>
        (t.value.session.current in {s.current, None, Some(s.nextId)} ||
         (m.body == Ask(AskTool) && t.value.session.current == existing))
  {
  }

  lemma TranslationStays(r: Readers, s: Session, m: Message, existing: Option<ToolId>, terminal: bool)
    requires !MayMove(r, m)
    ensures var t := Translate(r, s, m, existing, terminal); t.Some? ==> t.value.session.current == s.current
  {
  }

  /** No other event moves it: text, reasoning, questions, hook status and notices, replies and prompts. */
  lemma OtherEventsKeepCurrent(r: Readers, terminal: bool, s: State, e: Event)
    requires e.Changed? ==> !MayMove(r, e.message)
    ensures Step(r, terminal, s, e).session.current == s.session.current
  {
    if e.Changed? { TranslationStays(r, s.session, e.message, Existing(s, e.message.ts), terminal); }
  }

  /** A call that is not current becomes so only by a further message of the tool ask that opened it. */
  lemma LostCallStaysLost(r: Readers, terminal: bool, s: State, e: Event, id: ToolId)
    requires id < s.session.nextId && s.session.current != Some(id) && !Recalls(s, e, id)
    ensures Step(r, terminal, s, e).session.current != Some(id)
  {
    if e.Changed? { TranslationMoves(r, s.session, e.message, Existing(s, e.message.ts), terminal); }
  }

  predicate IsCurrent(s: State, id: ToolId) {
    s.session.current == Some(id)
  }

  /** The call is current throughout. */
  predicate StaysCurrent(r: Readers, terminal: bool, s: State, events: seq<Event>, id: ToolId)
    decreases |events|
  {
    IsCurrent(Run(r, terminal, s, events), id) &&
    (events == [] || StaysCurrent(r, terminal, s, events[..|events| - 1], id))
  }

  /** No message of the tool ask that opened the call comes. */
  predicate NotRecalled(r: Readers, terminal: bool, s: State, events: seq<Event>, id: ToolId)
    decreases |events|
  {
    events == [] ||
    (NotRecalled(r, terminal, s, events[..|events| - 1], id) &&
     !Recalls(Run(r, terminal, s, events[..|events| - 1]), events[|events| - 1], id))
  }

  lemma {:induction false} NextIdRises(r: Readers, terminal: bool, s: State, events: seq<Event>)
    ensures s.session.nextId <= Run(r, terminal, s, events).session.nextId
    decreases |events|
  {
    if events != [] {
      NextIdRises(r, terminal, s, events[..|events| - 1]);
      StepNextId(r, terminal, Run(r, terminal, s, events[..|events| - 1]), events[|events| - 1]);
    }
  }

  /** A call current now is current after further events exactly if it was so throughout, unless recalled. */
  lemma {:induction false} CurrentIffNeverMoved(r: Readers, terminal: bool, s: State, events: seq<Event>, id: ToolId)
    requires IsCurrent(s, id) && id < s.session.nextId && NotRecalled(r, terminal, s, events, id)
    ensures IsCurrent(Run(r, terminal, s, events), id) <==> StaysCurrent(r, terminal, s, events, id)
    decreases |events|
  {
    if events != [] {
      var rest, e := events[..|events| - 1], events[|events| - 1];
      var s1 := Run(r, terminal, s, rest);
      CurrentIffNeverMoved(r, terminal, s, rest, id);
      NextIdRises(r, terminal, s, rest);
      if !IsCurrent(s1, id) { LostCallStaysLost(r, terminal, s1, e, id); }
    }
  }

  /** From the request, or from the last message that recalled its call, on: the reply updates the call asked
      about exactly if no event has moved the current call in between. */
  lemma ReplyUpdatesAskedIffNeverMoved(r: Readers, terminal: bool, s: State, events: seq<Event>, request: nat,
                                       outcome: Outcome, answer: Answer)
    requires request < |Run(r, terminal, s, events).waiting|
    requires var id := Run(r, terminal, s, events).waiting[request].asked;
      IsCurrent(s, id) && id < s.session.nextId && NotRecalled(r, terminal, s, events, id)
    ensures var s' := Run(r, terminal, s, events);
      var w := s'.waiting[request];
      Reply(s', request, outcome, answer).log == s'.log + Told(w, w.asked, outcome, answer)
      <==> StaysCurrent(r, terminal, s, events, w.asked)
  {
    var s' := Run(r, terminal, s, events);
    CurrentIffNeverMoved(r, terminal, s, events, s'.waiting[request].asked);
    ReplyUpdatesAskedIff(s', request, outcome, answer);
  }

  /** A recalled call is current again. */
  lemma RecalledIsCurrent(r: Readers, terminal: bool, s: State, e: Event, id: ToolId)
    requires Recalls(s, e, id)
    ensures IsCurrent(Step(r, terminal, s, e), id)
  {
    var m := e.message;
    assert Translate(r, s.session, m, Some(id), terminal) == Some(AskForTool(r, s.session, m, Some(id)));
  }

  /** A command asked about, another command announced before the reply: the reply updates the other one. */
  lemma ReplyUpdatesAnotherCall(r: Readers, terminal: bool, asked: Message, other: Message, outcome: Outcome, answer: Answer)
    requires asked.body == Ask(AskCommand) && !asked.partial && other.body == Say(SayCommand)
    ensures var s := Process(r, terminal, Process(r, terminal, Start(), asked), other);
      && |s.waiting| == 1 && s.session.current.Some? && s.session.current.value != s.waiting[0].asked
      && Reply(s, 0, outcome, answer).log == s.log + Told(s.waiting[0], s.session.current.value, outcome, answer)
  {
    var s1 := Process(r, terminal, Start(), asked);
    assert Translate(r, Start().session, asked, None, terminal) == Some(AskNew(Start().session, Execute, false, true));
    assert s1.session.nextId == 1 && s1.waiting == [Waiting(asked, None, 0)];
    var existing := Existing(s1, other.ts);
    assert Translate(r, s1.session, other, existing, terminal) == Some(RunCommand(s1.session));
    ReplyUpdatesAskedIff(Process(r, terminal, s1, other), 0, outcome, answer);
  }
}
