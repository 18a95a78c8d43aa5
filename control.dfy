/** Program control on the controller (`WallabyControl`, Wallaby/Wallaby.py:152-203): a slot
    holding the currently running user program, the string and mapping commands that act on
    it, and `run_program`'s relay of the program's output. Processes are abstract: a program
    is the sequence of lines it prints and the exit code it ends with. */
module Control {
  import opened Lists
  import Compile

  /** An abstract child process: its output lines in order and its exit code. */
  datatype Process = Process(lines: seq<string>, exitCode: int)

  /** The occupied slot: which process runs, how many of its lines were relayed, and whether
      `stop` killed it. */
  datatype Running = Running(command: seq<string>, proc: Process, relayed: nat, killed: bool)

  /** One `std_stream` message: an output line, or the final `{"return_code": c}`. */
  datatype Output = Line(text: string) | ReturnCode(code: int)

  /** What a killed child reports as its return code (minus the signal number of SIGKILL). */
  const KILLED_CODE: int := -9

  /** The side effects outside the slot: closing the socket and the operating-system calls. */
  datatype Effect = CloseSocket | SystemReboot | Exit | SystemShutdown

  /** The names of `actions_without_params`. */
  datatype Action = Disconnect | Reboot | Shutdown | Stop

  /** The `actions_without_params` table (Wallaby/Wallaby.py:156-157). */
  function ActionFor(s: string): (a: Option<Action>)
    ensures a.None? <==> s !in {"disconnect", "reboot", "shutdown", "stop"}
  {
    if s == "disconnect" then Some(Disconnect)
    else if s == "reboot" then Some(Reboot)
    else if s == "shutdown" then Some(Shutdown)
    else if s == "stop" then Some(Stop)
    else None
  }

  /** Each known name selects its own action, so distinct names never share one. */
  lemma ActionForInjective(s: string, t: string)
    requires ActionFor(s).Some? && ActionFor(s) == ActionFor(t)
    ensures s == t
  {
  }

  /** A command for the `wallaby_control` route: a string, a mapping (only its "run" entry
      matters), or anything else. */
  datatype Command = Str(s: string) | Dict(run: Option<string>) | Other

  /** `run_program`'s argument list (Wallaby/Wallaby.py:171-172). */
  function ProgramCommand(unbuffer: string, folder: string, program: string): seq<string> {
    [unbuffer, "-i0", "-o0", "-e0", folder + program + Compile.BINARY_FILE]
  }

  /** Each program of the binary folder is started by its own command: the binary's path
      determines the program. */
  lemma ProgramCommandDistinct(unbuffer: string, folder: string, p: string, q: string)
    requires ProgramCommand(unbuffer, folder, p) == ProgramCommand(unbuffer, folder, q)
    ensures p == q
  {
    var a := folder + p + Compile.BINARY_FILE;
    var b := folder + q + Compile.BINARY_FILE;
    assert a == ProgramCommand(unbuffer, folder, p)[4];
    assert |p| == |q|;
    assert a[|folder|..|folder| + |p|] == p;
    assert b[|folder|..|folder| + |q|] == q;
  }

  /** Everything `run_program` relays for a process that runs to its end: each line, in
      order, then exactly one return code. */
  function Transcript(p: Process): (out: seq<Output>)
    ensures |out| == |p.lines| + 1
    ensures forall i :: 0 <= i < |p.lines| ==> out[i] == Line(p.lines[i])
    ensures out[|p.lines|] == ReturnCode(p.exitCode)
  {
    seq(|p.lines|, i requires 0 <= i < |p.lines| => Line(p.lines[i])) + [ReturnCode(p.exitCode)]
  }

  /** A transcript carries exactly one return code, and it comes last. */
  lemma TranscriptEndsOnce(p: Process)
    ensures forall i :: 0 <= i < |Transcript(p)| ==> (Transcript(p)[i].ReturnCode? <==> i == |p.lines|)
  {
  }

  /** What is still to be relayed from a running process: the unread lines and the return
      code, or only the kill code once it was stopped. */
  function Remaining(r: Running): (out: seq<Output>)
    requires r.relayed <= |r.proc.lines|
    ensures |out| >= 1 && out[|out| - 1].ReturnCode?
  {
    if r.killed then [ReturnCode(KILLED_CODE)]
    else Transcript(r.proc)[r.relayed..]
  }

  /** Only the last output still to relay is a return code. */
  lemma RemainingEndsWithCode(r: Running)
    requires r.relayed <= |r.proc.lines|
    ensures Remaining(r)[0].ReturnCode? ==> Remaining(r) == [Remaining(r)[0]]
  {
    if !r.killed {
      TranscriptEndsOnce(r.proc);
      assert Remaining(r)[0] == Transcript(r.proc)[r.relayed];
    }
  }

  lemma Advance(out: seq<Output>, before: seq<Output>, o: Output, t: seq<Output>)
    requires out + before == t && |before| >= 1 && before[0] == o
    ensures (out + [o]) + before[1..] == t
    ensures |before| == 1 ==> out + [o] == t
  {
    assert before == [o] + before[1..];
  }

  /** A freshly started process has its whole transcript still to relay. */
  lemma RemainingAtStart(command: seq<string>, p: Process)
    ensures Remaining(Running(command, p, 0, false)) == Transcript(p)
  {
  }

  /** `Popen.kill` on the slot, or nothing when it is empty. */
  function Killed(slot: Option<Running>): (r: Option<Running>)
    ensures r.None? <==> slot.None?
    ensures slot.Some? ==> r.value.killed && r.value.(killed := slot.value.killed) == slot.value
  {
    if slot.Some? then Some(slot.value.(killed := true)) else None
  }

  /** Stopping twice is stopping once. */
  lemma KilledIdempotent(slot: Option<Running>)
    ensures Killed(Killed(slot)) == Killed(slot)
  {
  }

  class WallabyControl {
    /** `output_unbuffer`, the configured `stdbuf` command. */
    const unbuffer: string
    /** `currently_running_program`. */
    var current: Option<Running>
    /** Whether the handler's socket is still open. */
    var connected: bool

    ghost predicate Valid()
      reads this
    {
      current.Some? ==> current.value.relayed <= |current.value.proc.lines|
    }

    constructor (unbuffer: string)
      ensures Valid() && this.unbuffer == unbuffer && current == None && connected
    {
      this.unbuffer := unbuffer;
      current := None;
      connected := true;
    }

    /** `stop` (Wallaby/Wallaby.py:184-189): kill a running program; with none, nothing changes. */
    method Stop()
      requires Valid()
      modifies this
      ensures Valid()
      ensures current == Killed(old(current)) && connected == old(connected)
    {
      if current.Some? {
        current := Some(current.value.(killed := true));
      }
    }

    /** `disconnect` (Wallaby/Wallaby.py:201-203): stop, then close the socket. */
    method Disconnect() returns (effects: seq<Effect>)
      requires Valid()
      modifies this
      ensures Valid()
      ensures current == Killed(old(current)) && !connected
      ensures effects == [CloseSocket]
    {
      Stop();
      connected := false;
      effects := [CloseSocket];
    }

    /** `Popen` in `run_program`: the slot now holds the new process, replacing any earlier
        handle (the code has no guard against a second program). */
    method Spawn(folder: string, program: string, proc: Process)
      requires Valid()
      modifies this
      ensures Valid()
      ensures current == Some(Running(ProgramCommand(unbuffer, folder, program), proc, 0, false))
      ensures connected == old(connected)
    {
      current := Some(Running(ProgramCommand(unbuffer, folder, program), proc, 0, false));
    }

    /** One turn of `run_program`'s relay loop: send the next line, or -- once the output is
        exhausted or the process was killed -- the return code, and clear the slot. */
    method Relay() returns (out: Output)
      requires Valid() && current.Some?
      modifies this
      ensures Valid()
      ensures out == Remaining(old(current).value)[0]
      ensures out.ReturnCode? ==> current == None
      ensures out.Line? ==> current.Some? && Remaining(current.value) == Remaining(old(current).value)[1..]
      ensures out.Line? ==> current.value.(relayed := old(current).value.relayed) == old(current).value
      ensures connected == old(connected)
    {
      var r := current.value;
      if r.killed {
        out := ReturnCode(KILLED_CODE);
        current := None;
      } else if r.relayed < |r.proc.lines| {
        out := Line(r.proc.lines[r.relayed]);
        current := Some(r.(relayed := r.relayed + 1));
        assert Transcript(r.proc)[r.relayed + 1..] == Transcript(r.proc)[r.relayed..][1..];
      } else {
        out := ReturnCode(r.proc.exitCode);
        current := None;
      }
    }

    /** `run_program` (Wallaby/Wallaby.py:170-181) run to completion: every output line in
        order, then one return code, and the slot is empty again. */
    method RunProgram(folder: string, program: string, proc: Process) returns (out: seq<Output>)
      requires Valid()
      modifies this
      ensures Valid()
      ensures out == Transcript(proc)
      ensures current == None && connected == old(connected)
    {
      Spawn(folder, program, proc);
      RemainingAtStart(current.value.command, proc);
      out := [];
      while current.Some?
        invariant Valid() && connected == old(connected)
        invariant current.Some? ==> !current.value.killed && current.value.proc == proc
        invariant current.Some? ==> out + Remaining(current.value) == Transcript(proc)
        invariant current.None? ==> out == Transcript(proc)
        decreases if current.Some? then |Remaining(current.value)| else 0
      {
        ghost var before := Remaining(current.value);
        RemainingEndsWithCode(current.value);
        var o := Relay();
        Advance(out, before, o, Transcript(proc));
        out := out + [o];
      }
    }

    /** `WallabyControl.run` (Wallaby/Wallaby.py:160-167), with the thread of a "run" entry
        taken as a sequential call. As written that call names `_thread`, which the module
        never imports (only `start_new_thread`, Wallaby/Wallaby.py:13), so it raises NameError;
        the model runs the program as evidently intended. `programs` says what each compiled
        program prints. */
    method Run(cmd: Command, folder: string, programs: string -> Process) returns (out: seq<Output>, effects: seq<Effect>)
      requires Valid()
      modifies this
      ensures Valid()
      ensures cmd.Other? || (cmd.Str? && ActionFor(cmd.s).None?) || (cmd.Dict? && cmd.run.None?) ==>
        current == old(current) && connected == old(connected) && out == [] && effects == []
      ensures cmd.Str? && ActionFor(cmd.s) == Some(Action.Stop) ==>
        current == Killed(old(current)) && connected == old(connected) && out == [] && effects == []
      ensures cmd.Str? && ActionFor(cmd.s) == Some(Action.Disconnect) ==>
        current == Killed(old(current)) && !connected && out == [] && effects == [CloseSocket]
      ensures cmd.Str? && ActionFor(cmd.s) == Some(Action.Reboot) ==>
        current == Killed(old(current)) && !connected && out == [] && effects == [CloseSocket, SystemReboot, Exit]
      ensures cmd.Str? && ActionFor(cmd.s) == Some(Action.Shutdown) ==>
        current == Killed(old(current)) && !connected && out == [] && effects == [CloseSocket, SystemShutdown]
      ensures cmd.Dict? && cmd.run.Some? ==>
        out == Transcript(programs(cmd.run.value)) && current == None && connected == old(connected) && effects == []
    {
      out := [];
      effects := [];
      match cmd {
        case Str(s) =>
          var action := ActionFor(s);
          if action == Some(Action.Stop) {
            Stop();
          } else if action == Some(Action.Disconnect) {
            effects := Disconnect();
          } else if action == Some(Action.Reboot) {
            effects := Disconnect();
            effects := effects + [SystemReboot, Exit];
          } else if action == Some(Action.Shutdown) {
            effects := Disconnect();
            effects := effects + [SystemShutdown];
          }
        case Dict(run) =>
          if run.Some? {
            out := RunProgram(folder, run.value, programs(run.value));
          }
        case Other =>
      }
    }
  }
}
