/** The interactive loop of small_shell.c (main, small_shell.c:70-90) as a
    state machine over the two globals `latest_status` and
    `foreground_only` (small_shell.c:45-46), together with the value of
    `HOME` in the shell's environment, which the shell reads and never
    sets. One `Cycle` is one pass of the loop: reap, prompt, parse,
    dispatch. A `StopSignal` is one delivery of SIGTSTP to
    `handle_signal_tstp` (small_shell.c:491-507). What the operating system
    answers (finished children, `fork`, the child's fate) is part of the
    event; the output is the text the shell itself writes to its standard
    output. */
module Shell {
  import opened Wrappers
  import opened Parser
  import opened Status
  import opened Child
  import opened Builtins

  datatype State = State(latest: WaitStatus, foregroundOnly: bool, home: Option<string>)

  /** The state at start-up, in an environment whose `HOME` is `home`. */
  function Initial(home: Option<string>): State {
    State(InitialStatus, false, home)
  }

  const Prompt := ": "
  const EnterMessage := "\nEntering foreground-only mode (& is now ignored)\n "
  const LeaveMessage := "\nExiting foreground-only mode\n "

  /** What `fork` returns in the parent: failure, or a child and the world
      that child runs in. */
  datatype Fork = ForkFailed | Forked(pid: nat, world: World)

  /** The result of one pass, or of a run of passes: the shell goes on with
      a new state, or terminates with an exit code; either way after
      writing `out` and handing the directories `chdirs` to `chdir`, in
      order. */
  datatype Pass =
    | Continue(state: State, out: string, chdirs: seq<string>)
    | Finish(code: int, out: string, chdirs: seq<string>)

  /** The directories handed to `chdir` when `cd` asks for `target`. */
  function ChdirCalls(target: Option<string>): seq<string> {
    match target
    case None => []
    case Some(dir) => [dir]
  }

  /** The parent side of `exec_commands` and `manage_child_process`
      (small_shell.c:256-263, 298-304, 410-438). A failed `fork` is reported
      on standard error and changes nothing; a background child is
      announced and left running; a foreground child is waited for, and
      only then is `latest_status` assigned. */
  function Launch(s: State, cmd: Command, fork: Fork, out: string): (r: Pass)
    requires |cmd.args| >= 1
    ensures r.Continue? && r.state.foregroundOnly == s.foregroundOnly && r.state.home == s.home
    ensures r.chdirs == []
    ensures r.state.latest != s.latest ==> fork.Forked? && !cmd.isBackground
    ensures fork.Forked? && !cmd.isBackground ==> r.state.latest == ChildStatus(cmd, fork.world)
  {
    match fork
    case ForkFailed => Continue(s, out, [])
    case Forked(pid, w) =>
      if cmd.isBackground then Continue(s, out + BackgroundStarted(pid), [])
      else
        var st := ChildStatus(cmd, w);
        Continue(s.(latest := st), out + ForegroundReport(st), [])
  }

  /** The line starts an external command in the foreground and `fork`
      succeeded, so the shell waits for the child. */
  predicate WaitsForForeground(s: State, line: string, fork: Fork) {
    var p := ParseCommand(line, s.foregroundOnly);
    p.Some? && Classify(p.value.args) == External && !p.value.isBackground && fork.Forked?
  }

  /** The line is the `exit` built-in. */
  predicate IsExit(s: State, line: string) {
    var p := ParseCommand(line, s.foregroundOnly);
    p.Some? && Classify(p.value.args) == BuiltIn(ExitShell)
  }

  /** The line is the `cd` built-in. */
  predicate IsChangeDir(s: State, line: string) {
    var p := ParseCommand(line, s.foregroundOnly);
    p.Some? && Classify(p.value.args) == BuiltIn(ChangeDir)
  }

  /** One pass of the main loop. `exit` ends the shell with status 0 at once
      (no child is signalled); `cd` and `status` ignore redirections and
      `&`, and touch neither global. */
  function Iterate(s: State, done: seq<Reaped>, line: string, fork: Fork): (r: Pass)
    ensures r.Finish? <==> IsExit(s, line)
    ensures r.Finish? ==> r.code == 0
    ensures DoneReports(done) + Prompt <= r.out
    ensures r.Continue? ==> r.state.foregroundOnly == s.foregroundOnly
    ensures r.Continue? && !WaitsForForeground(s, line, fork) ==> r.state == s
    ensures r.Continue? ==> r.state.home == s.home
    ensures r.chdirs != [] ==> IsChangeDir(s, line) && |r.chdirs| == 1
    ensures WaitsForForeground(s, line, fork) ==>
              r.Continue? && r.state.latest == ChildStatus(ParseCommand(line, s.foregroundOnly).value, fork.world)
  {
    var out := DoneReports(done) + Prompt;
    match ParseCommand(line, s.foregroundOnly)
    case None => Continue(s, out, [])
    case Some(cmd) =>
      var d := Classify(cmd.args);
      if d == BuiltIn(ExitShell) then Finish(0, out, [])
      else if d == BuiltIn(ChangeDir) then Continue(s, out, ChdirCalls(CdTarget(cmd.args, s.home)))
      else if d == BuiltIn(ReportStatus) then Continue(s, out + StatusReport(s.latest), [])
      else Launch(s, cmd, fork, out)
  }

  /** `handle_signal_tstp`: flip the mode and say which mode is now on. */
  function StopRequest(s: State): (r: Pass)
    ensures r.Continue?
    ensures r.state.foregroundOnly == !s.foregroundOnly
    ensures r.state.latest == s.latest && r.state.home == s.home
    ensures r.chdirs == []
    ensures r.state.foregroundOnly ==> r.out == EnterMessage
    ensures !r.state.foregroundOnly ==> r.out == LeaveMessage
  {
    if !s.foregroundOnly then Continue(s.(foregroundOnly := true), EnterMessage, [])
    else Continue(s.(foregroundOnly := false), LeaveMessage, [])
  }

  datatype Event = Cycle(done: seq<Reaped>, line: string, fork: Fork) | StopSignal

  function Apply(s: State, e: Event): Pass {
    match e
    case Cycle(done, line, fork) => Iterate(s, done, line, fork)
    case StopSignal => StopRequest(s)
  }

  /** Writes `out` and calls `chdir` on `dirs` before whatever `r` does. */
  function After(out: string, dirs: seq<string>, r: Pass): Pass {
    match r
    case Continue(s, o, d) => Continue(s, out + o, dirs + d)
    case Finish(c, o, d) => Finish(c, out + o, dirs + d)
  }

  /** Runs `step` over a sequence of events, stopping at the first
      `Finish`. */
  function RunWith(step: (State, Event) -> Pass, s: State, evs: seq<Event>): Pass
    decreases |evs|
  {
    if |evs| == 0 then Continue(s, "", [])
    else
      match step(s, evs[0])
      case Finish(c, o, d) => Finish(c, o, d)
      case Continue(s', o, d) => After(o, d, RunWith(step, s', evs[1..]))
  }

  /** A run of the shell over a sequence of events, up to `exit`. */
  function RunEvents(s: State, evs: seq<Event>): Pass {
    RunWith(Apply, s, evs)
  }

  lemma AfterAfter(x: string, dx: seq<string>, y: string, dy: seq<string>, r: Pass)
    ensures After(x, dx, After(y, dy, r)) == After(x + y, dx + dy, r)
  {
    assert x + (y + r.out) == x + y + r.out;
    assert dx + (dy + r.chdirs) == dx + dy + r.chdirs;
  }

  lemma AfterNothing(r: Pass)
    ensures After("", [], r) == r
  {
    assert "" + r.out == r.out;
    assert [] + r.chdirs == r.chdirs;
  }

  /** Running two event sequences one after the other is running their
      concatenation. */
  lemma {:induction false} RunWithAppend(step: (State, Event) -> Pass, s: State, a: seq<Event>, b: seq<Event>)
    requires RunWith(step, s, a).Continue?
    ensures RunWith(step, s, a + b) ==
            After(RunWith(step, s, a).out, RunWith(step, s, a).chdirs, RunWith(step, RunWith(step, s, a).state, b))
    decreases |a|
  {
    if |a| == 0 {
      assert a + b == b;
      AfterNothing(RunWith(step, s, b));
    } else {
      var h := step(s, a[0]);
      assert (a + b)[0] == a[0];
      assert (a + b)[1..] == a[1..] + b;
      match h
      case Finish(_, _, _) =>
        assert false;
      case Continue(s', o, d) =>
        var mid := RunWith(step, s', a[1..]);
        assert RunWith(step, s, a) == After(o, d, mid);
        RunWithAppend(step, s', a[1..], b);
        assert RunWith(step, s, a + b) == After(o, d, RunWith(step, s', a[1..] + b));
        AfterAfter(o, d, mid.out, mid.chdirs, RunWith(step, mid.state, b));
    }
  }

  /** A single event that does not end the shell is just that step. */
  lemma RunWithSingle(step: (State, Event) -> Pass, s: State, e: Event)
    requires step(s, e).Continue?
    ensures RunWith(step, s, [e]) == step(s, e)
  {
    assert [e][1..] == [];
    assert RunWith(step, step(s, e).state, []) == Continue(step(s, e).state, "", []);
    assert step(s, e).out + "" == step(s, e).out;
    assert step(s, e).chdirs + [] == step(s, e).chdirs;
  }

  // ---- foreground-only mode ----

  /** Two SIGTSTPs in a row restore the mode, announcing the first change
      and then the second. */
  lemma ToggleTwice(s: State)
    ensures RunEvents(s, [StopSignal, StopSignal]) ==
            Continue(s, if s.foregroundOnly then LeaveMessage + EnterMessage else EnterMessage + LeaveMessage, [])
  {
    var s1 := StopRequest(s).state;
    assert [StopSignal, StopSignal] == [StopSignal] + [StopSignal];
    RunWithSingle(Apply, s, StopSignal);
    RunWithSingle(Apply, s1, StopSignal);
    RunWithAppend(Apply, s, [StopSignal], [StopSignal]);
    assert StopRequest(s1).state == s;
  }

  /** Only the background flag of a parsed line depends on the mode. */
  lemma ParseCommandUnderModes(line: string)
    ensures ParseCommand(line, true).Some? == ParseCommand(line, false).Some?
    ensures ParseCommand(line, true).Some? ==>
              ParseCommand(line, true).value.args == ParseCommand(line, false).value.args
  {
    if !IsBlankOrComment(line) {
      ForegroundOnlyChangesOnlyBackground(Start, Tokenizer.Tokens(line));
    }
  }

  /** In foreground-only mode a forked external command is always waited
      for, even when its line carries `&`. */
  lemma ForegroundOnlyAlwaysWaits(s: State, done: seq<Reaped>, line: string, pid: nat, w: World)
    requires s.foregroundOnly
    requires ParseCommand(line, true).Some? && Classify(ParseCommand(line, true).value.args) == External
    ensures WaitsForForeground(s, line, Forked(pid, w))
    ensures Iterate(s, done, line, Forked(pid, w)).state.latest == ChildStatus(ParseCommand(line, true).value, w)
  {
  }

  // ---- the foreground status ----

  /** A pass of the loop that cannot assign `latest_status`: a SIGTSTP, or a
      line that is blank, a comment, malformed, `cd` or `status`. */
  predicate Quiet(e: Event) {
    match e
    case StopSignal => true
    case Cycle(_, line, _) =>
      var p := ParseCommand(line, false);
      p.None? || Classify(p.value.args) == BuiltIn(ChangeDir) || Classify(p.value.args) == BuiltIn(ReportStatus)
  }

  lemma QuietKeepsStatus(s: State, e: Event)
    requires Quiet(e)
    ensures Apply(s, e).Continue? && Apply(s, e).state.latest == s.latest
  {
    if e.Cycle? {
      ParseCommandUnderModes(e.line);
    }
  }

  /** Built-ins and mode changes never change what `status` will report. */
  lemma {:induction false} QuietRunKeepsStatus(s: State, evs: seq<Event>)
    requires forall i :: 0 <= i < |evs| ==> Quiet(evs[i])
    ensures RunEvents(s, evs).Continue? && RunEvents(s, evs).state.latest == s.latest
    decreases |evs|
  {
    if |evs| > 0 {
      QuietKeepsStatus(s, evs[0]);
      assert RunEvents(s, evs) == After(Apply(s, evs[0]).out, Apply(s, evs[0]).chdirs, RunEvents(Apply(s, evs[0]).state, evs[1..]));
      QuietRunKeepsStatus(Apply(s, evs[0]).state, evs[1..]);
    }
  }

  const StatusLine := "status\n"
  const StatusCommand := Command(["status"], None, None, false)

  lemma ParseStatusLine(foregroundOnly: bool)
    ensures ParseCommand(StatusLine, foregroundOnly) == Some(StatusCommand)
  {
    assert Render(StatusCommand) == ["status"];
    assert Tokenizer.Join(["status"]) == "status";
    assert Tokenizer.Join(Render(StatusCommand)) + "\n" == StatusLine;
    assert Tokenizer.IsWord("status");
    assert WellFormed(StatusCommand);
    ParseRendered(StatusCommand, foregroundOnly);
    assert StatusCommand.(isBackground := StatusCommand.isBackground && !foregroundOnly) == StatusCommand;
  }

  /** A line that parses to the `status` built-in, with whatever arguments
      or redirections (which it ignores). */
  predicate IsStatusLine(line: string) {
    var p := ParseCommand(line, false);
    p.Some? && Classify(p.value.args) == BuiltIn(ReportStatus)
  }

  /** `status` prints the recorded status and leaves the state alone. */
  lemma StatusBuiltin(s: State, done: seq<Reaped>, line: string, fork: Fork)
    requires IsStatusLine(line)
    ensures Iterate(s, done, line, fork) == Continue(s, DoneReports(done) + Prompt + StatusReport(s.latest), [])
  {
    ParseCommandUnderModes(line);
  }

  /** Before any foreground command, `status` reports `exit value 0`. */
  lemma InitialStatusIsExitZero(home: Option<string>, done: seq<Reaped>, line: string, fork: Fork)
    requires IsStatusLine(line)
    ensures Iterate(Initial(home), done, line, fork) ==
            Continue(Initial(home), DoneReports(done) + Prompt + StatusReport(Initial(home).latest), [])
    ensures StatusReport(Initial(home).latest) == "exit value 0\n"
  {
    StatusBuiltin(Initial(home), done, line, fork);
    InitialStatusReport();
  }

  predicate EndsWith(text: string, tail: string) {
    |tail| <= |text| && text[|text| - |tail|..] == tail
  }

  /** Waiting for a foreground child prints the signal line at once when
      the child was killed, and nothing when it exited. */
  lemma ForegroundReported(s: State, done: seq<Reaped>, line: string, fork: Fork)
    requires WaitsForForeground(s, line, fork)
    ensures Iterate(s, done, line, fork).out ==
            DoneReports(done) + Prompt + ForegroundReport(ChildStatus(ParseCommand(line, s.foregroundOnly).value, fork.world))
  {
  }

  /** After a foreground command and then any number of built-ins and mode
      changes, the state still records how that command ended. */
  lemma ForegroundThenQuiet(s: State, done: seq<Reaped>, line: string, fork: Fork, quiet: seq<Event>)
    requires WaitsForForeground(s, line, fork)
    requires forall i :: 0 <= i < |quiet| ==> Quiet(quiet[i])
    ensures RunEvents(s, [Cycle(done, line, fork)] + quiet).Continue?
    ensures RunEvents(s, [Cycle(done, line, fork)] + quiet).state.latest ==
            ChildStatus(ParseCommand(line, s.foregroundOnly).value, fork.world)
  {
    var e := Cycle(done, line, fork);
    var r1 := Iterate(s, done, line, fork);
    assert Apply(s, e) == r1;
    RunWithSingle(Apply, s, e);
    QuietRunKeepsStatus(r1.state, quiet);
    RunWithAppend(Apply, s, [e], quiet);
  }

  lemma EndsWithConcat(x: string, y: string)
    ensures EndsWith(x + y, y)
  {
    assert (x + y)[|x + y| - |y|..] == y;
  }

  /** One more step that keeps the state and ends its output with `tail`
      ends the run's output with `tail`. */
  lemma RunWithEndsWith(step: (State, Event) -> Pass, s: State, before: seq<Event>, e: Event,
                        head: string, tail: string)
    requires RunWith(step, s, before).Continue?
    requires step(RunWith(step, s, before).state, e) == Continue(RunWith(step, s, before).state, head + tail, [])
    ensures RunWith(step, s, before + [e]).Continue?
    ensures EndsWith(RunWith(step, s, before + [e]).out, tail)
  {
    var r0 := RunWith(step, s, before);
    RunWithSingle(step, r0.state, e);
    RunWithAppend(step, s, before, [e]);
    assert RunWith(step, s, before + [e]).out == r0.out + (head + tail);
    assert r0.out + (head + tail) == (r0.out + head) + tail;
    EndsWithConcat(r0.out + head, tail);
  }

  /** A `status` event prints the recorded status and keeps the state. */
  lemma StatusEvent(s: State, e: Event)
    requires e.Cycle? && IsStatusLine(e.line)
    ensures Apply(s, e) == Continue(s, DoneReports(e.done) + Prompt + StatusReport(s.latest), [])
  {
    StatusBuiltin(s, e.done, e.line, e.fork);
  }

  /** Whatever ran before, a `status` line ends the output with the status
      recorded at that point. */
  lemma StatusLineEndsOutput(s: State, before: seq<Event>, done2: seq<Reaped>, line2: string, fork2: Fork)
    requires RunEvents(s, before).Continue?
    requires IsStatusLine(line2)
    ensures RunEvents(s, before + [Cycle(done2, line2, fork2)]).Continue?
    ensures EndsWith(RunEvents(s, before + [Cycle(done2, line2, fork2)]).out,
                     StatusReport(RunEvents(s, before).state.latest))
  {
    var r0 := RunWith(Apply, s, before);
    var e := Cycle(done2, line2, fork2);
    StatusEvent(r0.state, e);
    RunWithEndsWith(Apply, s, before, e, DoneReports(done2) + Prompt, StatusReport(r0.state.latest));
  }

  /** After a foreground command, any number of built-ins and mode
      changes, `status` reports how that command ended. */
  lemma StatusReportsLastForeground(s: State, done: seq<Reaped>, line: string, fork: Fork,
                                    quiet: seq<Event>, done2: seq<Reaped>, line2: string, fork2: Fork)
    requires WaitsForForeground(s, line, fork)
    requires forall i :: 0 <= i < |quiet| ==> Quiet(quiet[i])
    requires IsStatusLine(line2)
    ensures var r := RunEvents(s, [Cycle(done, line, fork)] + quiet + [Cycle(done2, line2, fork2)]);
            && r.Continue?
            && EndsWith(r.out, StatusReport(ChildStatus(ParseCommand(line, s.foregroundOnly).value, fork.world)))
  {
    ForegroundThenQuiet(s, done, line, fork, quiet);
    StatusLineEndsOutput(s, [Cycle(done, line, fork)] + quiet, done2, line2, fork2);
  }

  /** A foreground command whose input file cannot be opened leaves
      `exit value 1` as the status. */
  lemma UnreadableInputSetsStatusOne(s: State, done: seq<Reaped>, line: string, pid: nat, w: World)
    requires WaitsForForeground(s, line, Forked(pid, w))
    requires ParseCommand(line, s.foregroundOnly).value.inputFile.Some?
    requires !w.readable(ParseCommand(line, s.foregroundOnly).value.inputFile.value)
    ensures Iterate(s, done, line, Forked(pid, w)).state.latest == Exited(1)
  {
    UnreadableInputReported(ParseCommand(line, s.foregroundOnly).value, w);
  }

  /** A background launch announces the child and leaves the state alone. */
  lemma BackgroundLaunchAnnounced(s: State, done: seq<Reaped>, line: string, pid: nat, w: World)
    requires ParseCommand(line, s.foregroundOnly).Some?
    requires Classify(ParseCommand(line, s.foregroundOnly).value.args) == External
    requires ParseCommand(line, s.foregroundOnly).value.isBackground
    ensures Iterate(s, done, line, Forked(pid, w)) ==
            Continue(s, DoneReports(done) + Prompt + BackgroundStarted(pid), [])
  {
  }

  // ---- cd ----

  /** `cd` leaves the state alone and hands `chdir` the directory it names,
      or `HOME` when it names none; with `HOME` unset and no directory it
      calls nothing. */
  lemma ChangeDirRequests(s: State, done: seq<Reaped>, line: string, fork: Fork)
    requires IsChangeDir(s, line)
    ensures var args := ParseCommand(line, s.foregroundOnly).value.args;
            Iterate(s, done, line, fork) ==
            Continue(s, DoneReports(done) + Prompt,
                     if |args| == 1 then ChdirCalls(s.home) else [args[1]])
  {
  }

  /** Only `cd` calls `chdir`: every other pass hands it nothing. */
  lemma OnlyChangeDirCallsChdir(s: State, done: seq<Reaped>, line: string, fork: Fork)
    requires !IsChangeDir(s, line)
    ensures Iterate(s, done, line, fork).chdirs == []
  {
  }
}
