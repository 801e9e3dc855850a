/** AcpTerminalProcess with its fields updated in place; each method computes a step of TerminalOutput. */
module TerminalProcess {
  import opened Sequences
  import opened TerminalOutput

  class AcpTerminalProcess {
    var unretrievedOutput: string
    var lastOutput: string
    var lines: seq<string>        // the "line" events emitted
    var completions: nat          // the "completed" events emitted
    var completed: bool
    var continued: bool
    var polling: bool
    var exitWait: bool
    var inFlight: nat
    ghost var retrieved: string
    ghost var snapshots: seq<string>

    ghost function Value(): State
      reads this
    {
      State(unretrievedOutput, retrieved, lastOutput, lines, snapshots, completed, continued, polling, exitWait, inFlight, completions)
    }

    /** A process that has just been run. */
    constructor ()
      ensures Value() == Start()
    {
      unretrievedOutput, lastOutput, lines, completions := "", "", [], 0;
      completed, continued, polling, exitWait, inFlight := false, false, true, false, 0;
      retrieved, snapshots := "", [];
    }

    method EmitLines(newOutput: string)
      modifies this`lines
      ensures lines == old(lines) + NonEmpty(Split(newOutput, '\n'))
    {
      var parts := Split(newOutput, '\n');
      var i := 0;
      while i < |parts|
        invariant 0 <= i <= |parts|
        invariant lines + NonEmpty(parts[i..]) == old(lines) + NonEmpty(parts)
      {
        assert parts[i..][1..] == parts[i + 1..];
        if parts[i] != "" {
          assert lines + ([parts[i]] + NonEmpty(parts[i + 1..])) == lines + [parts[i]] + NonEmpty(parts[i + 1..]);
          lines := lines + [parts[i]];
        }
        i := i + 1;
      }
    }

    method PollTick()
      modifies this
      ensures Value() == Step(old(Value()), Tick)
    {
      if !polling { return; }
      if continued || completed {
        polling := false;
        return;
      }
      inFlight := inFlight + 1;
    }

    method OutputReceived(output: string)
      modifies this
      ensures Value() == TakeOutput(old(Value()), output)
    {
      snapshots := snapshots + [output];
      if |output| > |lastOutput| {
        var newOutput := output[|lastOutput|..];
        unretrievedOutput := unretrievedOutput + newOutput;
        lastOutput := output;
        EmitLines(newOutput);
      }
    }

    method PollAnswered(reply: PollReply)
      requires inFlight > 0
      modifies this
      ensures Value() == Step(old(Value()), Answered(reply))
    {
      inFlight := inFlight - 1;
      if reply.Failed? {
        polling := false;
        return;
      }
      OutputReceived(reply.output);
      if reply.exited {
        completed := true;
        polling := false;
        completions := completions + 1;
      }
    }

    method GetUnretrievedOutput() returns (output: string)
      modifies this`unretrievedOutput, this`retrieved
      ensures output == old(unretrievedOutput) && Value() == Step(old(Value()), Retrieved)
      ensures Collected(Value()) == old(Collected(Value()))
    {
      output := unretrievedOutput;
      RetrieveKeeps(Value());
      retrieved := retrieved + unretrievedOutput;
      unretrievedOutput := "";
    }

    method Continue()
      modifies this
      ensures Value() == Step(old(Value()), Continued)
    {
      continued := true;
      polling, exitWait := false, false;
    }

    method Terminate()
      modifies this
      ensures Value() == Step(old(Value()), Terminated)
    {
      polling, exitWait := false, false;
    }

    method ExitSeen(success: bool)
      modifies this
      ensures Value() == Step(old(Value()), Exited(success))
    {
      if success && !continued && !completed { exitWait := true; }
    }

    method ExitWaitOver()
      modifies this
      ensures Value() == Step(old(Value()), ExitTimeout)
    {
      if !exitWait { return; }
      exitWait := false;
      if !continued && !completed {
        completed := true;
        polling := false;
        completions := completions + 1;
      }
    }
  }
}
