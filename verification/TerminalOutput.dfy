/** A polled terminal: what has been retrieved and what waits, against the snapshots seen. */
module TerminalOutput {
  import opened Sequences

  datatype PollReply = Output(output: string, exited: bool) | Failed

  /** `retrieved` and `snapshots` are histories: what getUnretrievedOutput has handed out, and every
      output received. `inFlight` counts the polls that were sent and not answered. */
  datatype State = State(
    unretrieved: string, retrieved: string, lastOutput: string, lines: seq<string>, snapshots: seq<string>,
    completed: bool, continued: bool, polling: bool, exitWait: bool, inFlight: nat, completions: nat)

  datatype Event = Tick | Answered(reply: PollReply) | Retrieved | Continued | Terminated | Exited(success: bool) | ExitTimeout

  function Start(): State {
    State("", "", "", [], [], false, false, true, false, 0, 0)
  }

  function NonEmpty(parts: seq<string>): seq<string> {
    if parts == [] then [] else (if parts[0] == "" then [] else [parts[0]]) + NonEmpty(parts[1..])
  }

  /** Only a longer output is taken, and of it only what lies beyond the length of the last one. */
  function TakeOutput(s: State, output: string): State {
    var s' := s.(snapshots := s.snapshots + [output]);
    if |output| <= |s.lastOutput| then s'
    else
      var newOutput := output[|s.lastOutput|..];
      s'.(unretrieved := s.unretrieved + newOutput, lastOutput := output,
          lines := s.lines + NonEmpty(Split(newOutput, '\n')))
  }

  function Complete(s: State): State {
    s.(completed := true, polling := false, completions := s.completions + 1)
  }

  /** The answer to a poll is handled whatever has happened since the poll was sent. */
  function Answer(s: State, reply: PollReply): State
    requires s.inFlight > 0
  {
    var s' := s.(inFlight := s.inFlight - 1);
    match reply
    case Failed => s'.(polling := false)
    case Output(output, exited) => var t := TakeOutput(s', output); if exited then Complete(t) else t
  }

  function Retrieve(s: State): State {
    s.(retrieved := s.retrieved + s.unretrieved, unretrieved := "")
  }

  function Step(s: State, e: Event): State {
    match e
    case Tick =>
      if !s.polling then s
      else if s.continued || s.completed then s.(polling := false)
      else s.(inFlight := s.inFlight + 1)
    case Answered(reply) => if s.inFlight > 0 then Answer(s, reply) else s
    case Retrieved => Retrieve(s)
    case Continued => s.(continued := true, polling := false, exitWait := false)
    case Terminated => s.(polling := false, exitWait := false)
    case Exited(success) => if success && !s.continued && !s.completed then s.(exitWait := true) else s
    case ExitTimeout =>
      if !s.exitWait then s
      else if s.continued || s.completed then s.(exitWait := false)
      else Complete(s).(exitWait := false)
  }

  function Run(s: State, events: seq<Event>): State
    decreases |events|
  {
    if events == [] then s else Step(Run(s, events[..|events| - 1]), events[|events| - 1])
  }

  function Collected(s: State): string {
    s.retrieved + s.unretrieved
  }

  /** The first of the longest outputs. */
  function Longest(snapshots: seq<string>): string {
    if snapshots == [] then ""
    else
      var before, last := Longest(snapshots[..|snapshots| - 1]), snapshots[|snapshots| - 1];
      if |last| > |before| then last else before
  }

  lemma {:induction false} LongestIsLongest(snapshots: seq<string>)
    ensures Longest(snapshots) == "" || Longest(snapshots) in snapshots
    ensures forall o :: o in snapshots ==> |o| <= |Longest(snapshots)|
  {
    if snapshots != [] { LongestIsLongest(snapshots[..|snapshots| - 1]); }
  }

  /** Each output longer than all before it extends the longest of them. */
  predicate Extending(snapshots: seq<string>) {
    snapshots == [] ||
    (var before, last := snapshots[..|snapshots| - 1], snapshots[|snapshots| - 1];
     Extending(before) && (|last| > |Longest(before)| ==> Longest(before) <= last))
  }

  predicate PrefixesOf(stream: string, snapshots: seq<string>) {
    forall o :: o in snapshots ==> o <= stream
  }

  lemma LongestPush(snapshots: seq<string>, output: string)
    ensures Longest(snapshots + [output]) == if |output| > |Longest(snapshots)| then output else Longest(snapshots)
    ensures Extending(snapshots + [output])
       <==> Extending(snapshots) && (|output| > |Longest(snapshots)| ==> Longest(snapshots) <= output)
  {
    assert (snapshots + [output])[..|snapshots|] == snapshots;
  }

  lemma {:induction false} PrefixesExtend(stream: string, snapshots: seq<string>)
    requires PrefixesOf(stream, snapshots)
    ensures Extending(snapshots) && Longest(snapshots) <= stream
  {
    if snapshots != [] {
      var before := snapshots[..|snapshots| - 1];
      assert forall o :: o in before ==> o in snapshots;
      PrefixesExtend(stream, before);
      assert snapshots[|snapshots| - 1] in snapshots;
    }
  }

  // ----- One step

  ghost predicate Whole(s: State) {
    Collected(s) == s.lastOutput
  }

  lemma TakeOutputWhole(s: State, output: string)
    requires |Collected(s)| == |s.lastOutput| && s.lastOutput == Longest(s.snapshots)
    ensures var s' := TakeOutput(s, output);
      && |Collected(s')| == |s'.lastOutput| && s'.lastOutput == Longest(s'.snapshots)
      && (Whole(s) ==> (Whole(s') <==> (|output| > |s.lastOutput| ==> s.lastOutput <= output)))
  {
    LongestPush(s.snapshots, output);
    if |output| > |s.lastOutput| {
      var newOutput := output[|s.lastOutput|..];
      assert s.retrieved + (s.unretrieved + newOutput) == Collected(s) + newOutput;
      assert output[..|s.lastOutput|] + newOutput == output;
      assert (s.lastOutput + newOutput)[..|s.lastOutput|] == s.lastOutput;
    }
  }

  lemma RetrieveKeeps(s: State)
    ensures Collected(Retrieve(s)) == Collected(s)
  {
    assert Collected(s) + "" == Collected(s);
  }

  /** The output taken by an event, if it takes one. */
  function Taken(s: State, e: Event): Option<string> {
    if e.Answered? && e.reply.Output? && s.inFlight > 0 then Some(e.reply.output) else None
  }

  /** An event that takes no output leaves all texts as they are. */
  lemma QuietStep(s: State, e: Event)
    requires Taken(s, e).None?
    ensures var s' := Step(s, e);
      && Collected(s') == Collected(s) && s'.lastOutput == s.lastOutput && s'.snapshots == s.snapshots && s'.lines == s.lines
  {
    if e.Retrieved? { RetrieveKeeps(s); }
  }

  lemma StepWhole(s: State, e: Event)
    requires |Collected(s)| == |s.lastOutput| && s.lastOutput == Longest(s.snapshots)
    ensures var s' := Step(s, e);
      && |Collected(s')| == |s'.lastOutput| && s'.lastOutput == Longest(s'.snapshots)
      && s'.snapshots == match Taken(s, e) { case None => s.snapshots case Some(o) => s.snapshots + [o] }
      && (Whole(s) ==> (Whole(s') <==> match Taken(s, e) {
            case None => true
            case Some(o) => |o| > |s.lastOutput| ==> s.lastOutput <= o }))
  {
    if Taken(s, e).Some? {
      TakeOutputWhole(s.(inFlight := s.inFlight - 1), e.reply.output);
    } else {
      QuietStep(s, e);
    }
  }

  // ----- Runs

  lemma {:induction false} CollectedLength(events: seq<Event>)
    ensures var s := Run(Start(), events); |Collected(s)| == |s.lastOutput| && s.lastOutput == Longest(s.snapshots)
    decreases |events|
  {
    if events != [] {
      CollectedLength(events[..|events| - 1]);
      StepWhole(Run(Start(), events[..|events| - 1]), events[|events| - 1]);
    }
  }

  /** Nothing was lost or repeated so far. */
  ghost predicate AlwaysWhole(events: seq<Event>) {
    forall k :: 0 <= k <= |events| ==> Whole(Run(Start(), events[..k]))
  }

  lemma AlwaysWholePush(rest: seq<Event>, e: Event)
    ensures AlwaysWhole(rest + [e]) <==> AlwaysWhole(rest) && Whole(Run(Start(), rest + [e]))
  {
    var events := rest + [e];
    assert events[..|events|] == events;
    assert forall k :: 0 <= k <= |rest| ==> events[..k] == rest[..k];
    if AlwaysWhole(events) {
      forall k | 0 <= k <= |rest| ensures Whole(Run(Start(), rest[..k])) {
        assert Whole(Run(Start(), events[..k]));
      }
    }
  }

  /** Throughout a run, with polls answered in any order, what was retrieved and what waits make up the
      longest snapshot exactly when each longer snapshot extends the longest before it. */
  lemma {:induction false} WholeIffExtending(events: seq<Event>)
    ensures AlwaysWhole(events) <==> Extending(Run(Start(), events).snapshots)
    decreases |events|
  {
    if events == [] {
    } else {
      var rest, e := events[..|events| - 1], events[|events| - 1];
      var s := Run(Start(), rest);
      assert events == rest + [e];
      WholeIffExtending(rest);
      AlwaysWholePush(rest, e);
      CollectedLength(rest);
      StepWhole(s, e);
      if Taken(s, e).Some? { LongestPush(s.snapshots, Taken(s, e).value); }
      if AlwaysWhole(rest) { assert Whole(Run(Start(), rest[..|rest|])) && rest[..|rest|] == rest; }
    }
  }

  /** If every snapshot is a prefix of one stream, what was retrieved and what waits make up the longest
      snapshot seen, itself a prefix of the stream: no gap and no repetition. */
  lemma CollectedIsLongestPrefix(stream: string, events: seq<Event>)
    requires PrefixesOf(stream, Run(Start(), events).snapshots)
    ensures var s := Run(Start(), events);
      Collected(s) == Longest(s.snapshots) && Collected(s) <= stream
  {
    PrefixesExtend(stream, Run(Start(), events).snapshots);
    WholeIffExtending(events);
    CollectedLength(events);
    assert events[..|events|] == events;
    assert Whole(Run(Start(), events[..|events|]));
  }

  // ----- Stopping

  /** What stops the polling: continuing, terminating, an answer that failed or saw the exit. */
  lemma StopsPolling(s: State, e: Event)
    requires e.Continued? || e.Terminated? || (e.Answered? && s.inFlight > 0 && (e.reply.Failed? || e.reply.exited))
    ensures !Step(s, e).polling
  {
  }

  /** Once stopped, no further poll is sent. */
  lemma {:induction false} StoppedSendsNothing(s: State, events: seq<Event>)
    requires !s.polling
    ensures !Run(s, events).polling && Run(s, events).inFlight <= s.inFlight
    decreases |events|
  {
    if events != [] {
      StoppedSendsNothing(s, events[..|events| - 1]);
      StoppedStep(Run(s, events[..|events| - 1]), events[|events| - 1]);
    }
  }

  lemma StoppedStep(s: State, e: Event)
    requires !s.polling
    ensures !Step(s, e).polling && Step(s, e).inFlight <= s.inFlight
  {
  }

  /** A process that goes on is polled at each tick; one whose exit was seen completes when the wait is over,
      unless it has completed or was continued or terminated by then. */
  lemma GoesOn(s: State)
    requires s.polling && !s.continued && !s.completed
    ensures Step(s, Tick).inFlight == s.inFlight + 1
    ensures Step(Step(s, Exited(true)), ExitTimeout).completed
    ensures Step(Step(Step(s, Exited(true)), Terminated), ExitTimeout).completed == false
    ensures Step(Step(Step(s, Exited(true)), Continued), ExitTimeout).completed == false
  {
  }

  /** A process that was continued completes by no exit, only by a poll in flight. */
  lemma {:induction false} ContinuedCompletesByPollOnly(s: State, events: seq<Event>)
    requires !s.completed && forall i :: 0 <= i < |events| ==> !events[i].Answered?
    ensures !Run(Step(s, Continued), events).completed
    decreases |events|
  {
    ContinuedStays(Step(s, Continued), events);
  }

  lemma {:induction false} ContinuedStays(s: State, events: seq<Event>)
    requires s.continued && !s.completed && forall i :: 0 <= i < |events| ==> !events[i].Answered?
    ensures Run(s, events).continued && !Run(s, events).completed
    decreases |events|
  {
    if events != [] { ContinuedStays(s, events[..|events| - 1]); }
  }

  /** A process that was just run has sent, received and reported nothing and is polled at the next tick. */
  lemma FreshProcess()
    ensures var s := Start();
      && Collected(s) == "" && s.lines == [] && s.snapshots == [] && s.completions == 0 && s.inFlight == 0
      && Step(s, Tick).inFlight == 1 && Step(s, ExitTimeout) == s && Step(Step(s, Exited(true)), ExitTimeout).completions == 1
  {
  }

  // ----- Line events

  function Flatten(parts: seq<string>): string {
    if parts == [] then "" else parts[0] + Flatten(parts[1..])
  }

  function WithoutNewlines(text: string): string {
    if text == "" then "" else (if text[0] == '\n' then "" else [text[0]]) + WithoutNewlines(text[1..])
  }

  lemma {:induction false} FlattenAppend(a: seq<string>, b: seq<string>)
    ensures Flatten(a + b) == Flatten(a) + Flatten(b)
  {
    if a == [] {
      assert a + b == b;
    } else {
      FlattenAppend(a[1..], b);
      assert (a + b)[1..] == a[1..] + b;
    }
  }

  lemma Appended(a: string, b: string, c: string)
    ensures a + (b + c) == a + b + c
  {
  }

  lemma {:induction false} WithoutNewlinesAppend(a: string, b: string)
    ensures WithoutNewlines(a + b) == WithoutNewlines(a) + WithoutNewlines(b)
  {
    if a == "" {
      assert a + b == b;
    } else {
      var head := if a[0] == '\n' then "" else [a[0]];
      WithoutNewlinesAppend(a[1..], b);
      assert (a + b)[1..] == a[1..] + b && (a + b)[0] == a[0];
      assert WithoutNewlines(a + b) == head + (WithoutNewlines(a[1..]) + WithoutNewlines(b));
      Appended(head, WithoutNewlines(a[1..]), WithoutNewlines(b));
    }
  }

  lemma {:induction false} FlattenNonEmpty(parts: seq<string>)
    ensures Flatten(NonEmpty(parts)) == Flatten(parts)
  {
    if parts != [] {
      FlattenNonEmpty(parts[1..]);
      FlattenAppend(if parts[0] == "" then [] else [parts[0]], NonEmpty(parts[1..]));
    }
  }

  lemma {:induction false} FlattenSplit(text: string)
    ensures Flatten(Split(text, '\n')) == WithoutNewlines(text)
  {
    if text != "" {
      FlattenSplit(text[1..]);
      var rest := Split(text[1..], '\n');
      if text[0] == '\n' {
        assert ([""] + rest)[1..] == rest;
      } else {
        assert ([[text[0]] + rest[0]] + rest[1..])[1..] == rest[1..];
      }
    }
  }

  lemma TakeOutputLines(s: State, output: string)
    requires Flatten(s.lines) == WithoutNewlines(Collected(s))
    ensures var s' := TakeOutput(s, output); Flatten(s'.lines) == WithoutNewlines(Collected(s'))
  {
    if |output| > |s.lastOutput| {
      var newOutput := output[|s.lastOutput|..];
      FlattenAppend(s.lines, NonEmpty(Split(newOutput, '\n')));
      FlattenNonEmpty(Split(newOutput, '\n'));
      FlattenSplit(newOutput);
      WithoutNewlinesAppend(Collected(s), newOutput);
      assert s.retrieved + (s.unretrieved + newOutput) == Collected(s) + newOutput;
    }
  }

  lemma StepLines(s: State, e: Event)
    requires Flatten(s.lines) == WithoutNewlines(Collected(s))
    ensures var s' := Step(s, e); Flatten(s'.lines) == WithoutNewlines(Collected(s'))
  {
    if Taken(s, e).Some? {
      TakeOutputLines(s.(inFlight := s.inFlight - 1), e.reply.output);
    } else {
      QuietStep(s, e);
    }
  }

  /** The line events carry the collected text, newlines apart, whatever the snapshots are. */
  lemma {:induction false} LinesCarryCollected(events: seq<Event>)
    ensures var s := Run(Start(), events); Flatten(s.lines) == WithoutNewlines(Collected(s))
    decreases |events|
  {
    if events != [] {
      var s, e := Run(Start(), events[..|events| - 1]), events[|events| - 1];
      LinesCarryCollected(events[..|events| - 1]);
      StepLines(s, e);
    }
  }

  // ----- Completion

  lemma StepCompletions(s: State, e: Event)
    ensures var s' := Step(s, e);
      && s.completions <= s'.completions && (s.completed ==> s'.completed)
      && (s.completed ==> s'.completions + s'.inFlight <= s.completions + s.inFlight)
      && (!s'.completed ==> s'.completions == s.completions)
  {
  }

  lemma AnswerExit(s: State, output: string)
    requires s.inFlight > 0
    ensures var s' := Step(s, Answered(Output(output, true)));
      s'.completions == s.completions + 1 && s'.inFlight == s.inFlight - 1
  {
  }

  /** Once completed, each further completion uses up a poll that was in flight at that time. */
  lemma {:induction false} CompletionsBounded(s: State, events: seq<Event>)
    requires s.completed
    ensures var s' := Run(s, events); s'.completed && s'.completions + s'.inFlight <= s.completions + s.inFlight
    decreases |events|
  {
    if events != [] {
      CompletionsBounded(s, events[..|events| - 1]);
      StepCompletions(Run(s, events[..|events| - 1]), events[|events| - 1]);
    }
  }

  lemma {:induction false} NotCompletedYet(events: seq<Event>)
    ensures var s := Run(Start(), events); !s.completed ==> s.completions == 0
    decreases |events|
  {
    if events != [] {
      NotCompletedYet(events[..|events| - 1]);
      StepCompletions(Run(Start(), events[..|events| - 1]), events[|events| - 1]);
    }
  }

  /** A process emits "completed" at most once for the event that completes it and once more for each poll
      then in flight. */
  lemma CompletionsInAll(before: seq<Event>, e: Event, afterwards: seq<Event>)
    requires !Run(Start(), before).completed && Step(Run(Start(), before), e).completed
    ensures var s := Step(Run(Start(), before), e);
      1 <= Run(s, afterwards).completions <= 1 + s.inFlight
  {
    var s := Step(Run(Start(), before), e);
    NotCompletedYet(before);
    CompletionsBounded(s, afterwards);
    CompletionsGrow(s, afterwards);
  }

  lemma {:induction false} CompletionsGrow(s: State, events: seq<Event>)
    ensures s.completions <= Run(s, events).completions
    decreases |events|
  {
    if events != [] {
      CompletionsGrow(s, events[..|events| - 1]);
      StepCompletions(Run(s, events[..|events| - 1]), events[|events| - 1]);
    }
  }

  lemma RunPush(s: State, events: seq<Event>, e: Event)
    ensures Run(s, events + [e]) == Step(Run(s, events), e)
  {
    assert (events + [e])[..|events|] == events;
  }

  function Repeated(e: Event, n: nat): seq<Event> {
    seq(n, _ => e)
  }

  lemma RepeatedPush(e: Event, n: nat)
    ensures Repeated(e, n + 1) == Repeated(e, n) + [e]
  {
  }

  lemma {:induction false} ExitAnswers(s: State, output: string, n: nat)
    requires n <= s.inFlight
    ensures var s' := Run(s, Repeated(Answered(Output(output, true)), n));
      s'.completions == s.completions + n && s'.inFlight == s.inFlight - n
  {
    if n > 0 {
      var e := Answered(Output(output, true));
      ExitAnswers(s, output, n - 1);
      RepeatedPush(e, n - 1);
      RunPush(s, Repeated(e, n - 1), e);
      AnswerExit(Run(s, Repeated(e, n - 1)), output);
    }
  }

  /** Each number of completions within the bound occurs: a poll in flight may see the exit as well. */
  lemma EveryCountOccurs(before: seq<Event>, e: Event, output: string, k: nat)
    requires !Run(Start(), before).completed && Step(Run(Start(), before), e).completed
    requires k <= Step(Run(Start(), before), e).inFlight
    ensures Run(Step(Run(Start(), before), e), Repeated(Answered(Output(output, true)), k)).completions == 1 + k
  {
    NotCompletedYet(before);
    CompletedNow(Run(Start(), before), e);
    ExitAnswers(Step(Run(Start(), before), e), output, k);
  }

  lemma CompletedNow(s: State, e: Event)
    requires !s.completed && Step(s, e).completed
    ensures Step(s, e).completions == s.completions + 1
  {
  }

  /** Whatever follows, a process that completes emits "completed" exactly once if and only if no poll is in
      flight when it completes. */
  lemma CompletedOnceIff(before: seq<Event>, e: Event)
    requires !Run(Start(), before).completed && Step(Run(Start(), before), e).completed
    ensures (forall afterwards :: Run(Step(Run(Start(), before), e), afterwards).completions == 1)
       <==> Step(Run(Start(), before), e).inFlight == 0
  {
    var s := Step(Run(Start(), before), e);
    if s.inFlight == 0 {
      forall afterwards ensures Run(s, afterwards).completions == 1 { CompletionsInAll(before, e, afterwards); }
    } else {
      EveryCountOccurs(before, e, "", 1);
      assert Run(s, Repeated(Answered(Output("", true)), 1)).completions == 2;
    }
  }
}
