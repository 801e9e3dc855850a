/** What each pass of the hook pipeline computes, on every message list. */
module HookMessages {
  import opened Sequences
  import opened Characters

  datatype AskTag = AskTool | AskCommand | AskOther(name: string)
  datatype SayTag = SayTool | SayCommand | SayHook | SayHookStatus | SayHookOutput | SayHookOutputStream | SayOther(name: string)
  datatype Body = Ask(ask: AskTag) | Say(say: SayTag)

  /** `payload` stands for the fields the pipeline copies and never reads. */
  datatype Message = Message(ts: int, body: Body, text: Option<string>, payload: string)

  /** `JSON.parse(s).hookName === "PreToolUse"`, false where the parse throws. */
  type MetadataReader = string -> bool

  const HOOK_OUTPUT_STRING := "__HOOK_OUTPUT__"

  predicate IsTool(m: Message) {
    match m.body
    case Ask(a) => a.AskTool? || a.AskCommand?
    case Say(s) => s.SayTool? || s.SayCommand?
  }

  predicate IsHookStatus(m: Message) {
    m.body.Say? && (m.body.say.SayHook? || m.body.say.SayHookStatus?)
  }

  predicate IsHookOutput(m: Message) {
    m.body.Say? && (m.body.say.SayHookOutput? || m.body.say.SayHookOutputStream?)
  }

  function TextOf(m: Message): string {
    match m.text
    case None => ""
    case Some(t) => t
  }

  function MetadataText(text: string): string {
    var outputIndex := IndexOf(text, HOOK_OUTPUT_STRING, 0);
    Trim(IsSpace, if outputIndex != -1 then text[..outputIndex] else text)
  }

  /** `parseHookMetadata(m)?.hookName === "PreToolUse"`. */
  predicate IsPre(reader: MetadataReader, m: Message) {
    IsHookStatus(m) && TextOf(m) != "" && reader(MetadataText(TextOf(m)))
  }

  /** Tells PreToolUse hooks from all other messages. */
  type HookTest = Message -> bool

  function PreToolUse(reader: MetadataReader): HookTest {
    m => IsPre(reader, m)
  }

  /** What the pipeline relies on: the test accepts hooks only, and appended output never changes it. */
  ghost predicate HooksOnly(pre: HookTest) {
    forall m :: pre(m) ==> IsHookStatus(m)
  }

  ghost predicate OutputBlind(pre: HookTest) {
    forall hook, tail :: pre(Combined(hook, tail)) <==> pre(hook)
  }

  // ----- Pass 1: one message per tool timestamp, the newest

  function Dedupe(ms: seq<Message>): seq<Message> {
    if ms == [] then []
    else if IsTool(ms[0]) && HasTool(ms[1..], ms[0].ts) then Dedupe(ms[1..])
    else [ms[0]] + Dedupe(ms[1..])
  }

  predicate HasTool(ms: seq<Message>, ts: int) {
    exists i :: 0 <= i < |ms| && IsTool(ms[i]) && ms[i].ts == ts
  }

  // ----- Pass 2: every hook with the outputs that follow it

  function AppendOutputs(acc: string, hasOutput: bool, tail: seq<Message>): string
    decreases tail
  {
    if tail == [] || IsHookStatus(tail[0]) then acc
    else if IsHookOutput(tail[0]) then
      var marked := if hasOutput then acc else acc + ("\n" + HOOK_OUTPUT_STRING);
      var output := TextOf(tail[0]);
      AppendOutputs(if |output| > 0 then marked + ("\n" + output) else marked, true, tail[1..])
    else AppendOutputs(acc, hasOutput, tail[1..])
  }

  function Combined(hook: Message, tail: seq<Message>): Message {
    hook.(text := Some(AppendOutputs(TextOf(hook), false, tail)))
  }

  /** The combined form of the last hook with timestamp `ts`. */
  function LastCombined(ms: seq<Message>, ts: int): Option<Message> {
    if ms == [] then None
    else
      var later := LastCombined(ms[1..], ts);
      if later.Some? then later
      else if IsHookStatus(ms[0]) && ms[0].ts == ts then Some(Combined(ms[0], ms[1..]))
      else None
  }

  function CombineFrom(all: seq<Message>, rest: seq<Message>): seq<Message> {
    if rest == [] then []
    else
      var m := rest[0];
      var later := CombineFrom(all, rest[1..]);
      if IsHookOutput(m) then later
      else if IsHookStatus(m) then [LastCombined(all, m.ts).GetOr(m, c => c)] + later
      else [m] + later
  }

  function CombineAll(ms: seq<Message>): seq<Message> {
    CombineFrom(ms, ms)
  }

  // ----- Pass 3: which tool a PreToolUse hook is moved to

  /** The timestamp of the first tool in `tail`, unless a PreToolUse hook comes first. */
  function NextTool(pre: HookTest, tail: seq<Message>): Option<int> {
    if tail == [] then None
    else if IsTool(tail[0]) then Some(tail[0].ts)
    else if pre(tail[0]) then None
    else NextTool(pre, tail[1..])
  }

  /** What follows the last message with timestamp `ts`. */
  function After(ms: seq<Message>, ts: int): Option<seq<Message>> {
    if ms == [] then None
    else
      var later := After(ms[1..], ts);
      if later.Some? then later
      else if ms[0].ts == ts then Some(ms[1..])
      else None
  }

  /** The tool that hook `m` is moved to: the next one in `original`, if `m` is the younger. */
  function Target(pre: HookTest, original: seq<Message>, m: Message): Option<int> {
    if !pre(m) then None
    else
      match After(original, m.ts)
      case None => None
      case Some(tail) =>
        match NextTool(pre, tail)
        case None => None
        case Some(tool) => if m.ts > tool then Some(tool) else None
  }

  /** Where each message is moved to, if anywhere. */
  type Targets = Message -> Option<int>

  function TargetIn(pre: HookTest, original: seq<Message>): Targets {
    m => Target(pre, original, m)
  }

  /** The messages of `ms` that are moved to one of `tools`, in order. */
  function MovedTo(target: Targets, ms: seq<Message>, tools: set<int>): seq<Message> {
    if ms == [] then []
    else
      var later := MovedTo(target, ms[1..], tools);
      if target(ms[0]).Some? && target(ms[0]).value in tools then [ms[0]] + later else later
  }

  // ----- Pass 4: tools with their hooks in front of them

  /** The messages of `ms` whose timestamp is not in `seen`. */
  function NotIn(ms: seq<Message>, seen: set<int>): seq<Message> {
    if ms == [] then []
    else if ms[0].ts in seen then NotIn(ms[1..], seen)
    else [ms[0]] + NotIn(ms[1..], seen)
  }

  function Timestamps(ms: seq<Message>): set<int> {
    set i | 0 <= i < |ms| :: ms[i].ts
  }

  function Reorder(target: Targets, all: seq<Message>, rest: seq<Message>,
                   addedHooks: set<int>, addedTools: set<int>): seq<Message>
    decreases rest
  {
    if rest == [] then []
    else
      var m := rest[0];
      var hooks := MovedTo(target, all, {m.ts});
      if IsTool(m) && hooks != [] then
        var newHooks := NotIn(hooks, addedHooks);
        newHooks + [m] + Reorder(target, all, rest[1..], addedHooks + Timestamps(newHooks), addedTools + {m.ts})
      else if m.ts in addedTools then
        Reorder(target, all, rest[1..], addedHooks, addedTools)
      else
        if target(m).Some? && HasTool(all, target(m).value) then
          Reorder(target, all, rest[1..], addedHooks, addedTools)
        else
          [m] + Reorder(target, all, rest[1..], addedHooks, addedTools)
  }

  // ----- All four passes

  /** The messages that remain once tools are deduplicated and hooks combined. */
  function Merged(ms: seq<Message>): seq<Message> {
    CombineAll(Dedupe(ms))
  }

  function CombineHookSequences(pre: HookTest, ms: seq<Message>): seq<Message> {
    Reorder(TargetIn(pre, ms), Merged(ms), Merged(ms), {}, {})
  }
}
