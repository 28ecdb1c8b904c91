/** What a forked child does before `execvp` (small_shell.c:266-295): its
    signal dispositions and the `file_redirection` rules
    (small_shell.c:316-399), as a plan, and how the child ends when an
    `open` or the `execvp` fails. The system calls themselves are not
    modelled; their successes and failures are inputs. */
module Child {
  import opened Wrappers
  import opened Parser
  import opened Status

  /** Where a standard stream of the child comes from. */
  datatype Stream = Inherited | DevNull | File(path: string)

  datatype Disposition = Default | Ignore

  datatype Plan = Plan(stdin: Stream, stdout: Stream, sigint: Disposition, sigtstp: Disposition)

  const DevNullPath := "/dev/null"

  /** The one rule both streams follow: the named file, else `/dev/null` for
      a background command, else the shell's own stream. */
  function Source(file: Option<string>, background: bool): Stream {
    match file
    case Some(p) => File(p)
    case None => if background then DevNull else Inherited
  }

  /** The child's setup for a command. */
  function PlanFor(cmd: Command): (p: Plan)
    ensures p.stdin.File? <==> cmd.inputFile.Some?
    ensures p.stdin.File? ==> p.stdin.path == cmd.inputFile.value
    ensures p.stdin == DevNull <==> cmd.inputFile.None? && cmd.isBackground
    ensures p.stdout.File? <==> cmd.outputFile.Some?
    ensures p.stdout.File? ==> p.stdout.path == cmd.outputFile.value
    ensures p.stdout == DevNull <==> cmd.outputFile.None? && cmd.isBackground
    ensures p.sigint == Ignore <==> cmd.isBackground
    ensures p.sigtstp == Ignore
  {
    Plan(Source(cmd.inputFile, cmd.isBackground),
         Source(cmd.outputFile, cmd.isBackground),
         if cmd.isBackground then Ignore else Default,
         Ignore)
  }

  /** A background child never reads from or writes to the terminal, and it
      survives Ctrl+C. */
  lemma BackgroundIsDetached(cmd: Command)
    requires cmd.isBackground
    ensures PlanFor(cmd).stdin != Inherited && PlanFor(cmd).stdout != Inherited
    ensures PlanFor(cmd).sigint == Ignore
  {
  }

  /** A foreground child without redirections keeps the terminal and can be
      interrupted. */
  lemma ForegroundKeepsTerminal(cmd: Command)
    requires !cmd.isBackground && cmd.inputFile.None? && cmd.outputFile.None?
    ensures PlanFor(cmd) == Plan(Inherited, Inherited, Default, Ignore)
  {
  }

  /** The two redirections are independent: each stream depends only on its
      own file and the background flag. */
  lemma StreamsIndependent(cmd: Command, other: Option<string>)
    ensures PlanFor(cmd.(outputFile := other)).stdin == PlanFor(cmd).stdin
    ensures PlanFor(cmd.(inputFile := other)).stdout == PlanFor(cmd).stdout
  {
  }

  /** The path `open` is called with for a redirected stream. */
  function PathOf(s: Stream): string
    requires !s.Inherited?
  {
    match s
    case DevNull => DevNullPath
    case File(p) => p
  }

  /** The outcome of the calls the child makes, as the operating system
      would answer them: which paths open for reading (`O_RDONLY`) and for
      writing (`O_WRONLY | O_CREAT | O_TRUNC`), whether `execvp` finds the
      program, and how the program ends once it runs. */
  datatype World = World(
    readable: string -> bool,
    writable: string -> bool,
    found: bool,
    program: WaitStatus)

  /** How the child's own code ends: replaced by the program with the plan
      in force, or exiting with a status after printing a message to the
      stream that is standard output at that moment. */
  datatype Outcome =
    | Replaced(plan: Plan)
    | Died(status: WaitStatus, message: string, printedTo: Stream)

  function InputError(s: Stream): string
    requires !s.Inherited?
  {
    if s.File? then "cannot open " + s.path + " for input\n" else "open error\n"
  }

  function OutputError(s: Stream): string
    requires !s.Inherited?
  {
    if s.File? then "cannot open " + s.path + " for output\n" else "open error\n"
  }

  predicate InputOpens(p: Plan, w: World) {
    p.stdin.Inherited? || w.readable(PathOf(p.stdin))
  }

  predicate OutputOpens(p: Plan, w: World) {
    p.stdout.Inherited? || w.writable(PathOf(p.stdout))
  }

  /** The child branch of `exec_commands`: signals, then the input
      redirection, then the output redirection, then `execvp`. The
      `execvp` failure message is printed after the redirections, so it
      goes to the redirected standard output. */
  function RunChild(cmd: Command, w: World): (o: Outcome)
    requires |cmd.args| >= 1
    ensures o.Replaced? <==> InputOpens(PlanFor(cmd), w) && OutputOpens(PlanFor(cmd), w) && w.found
    ensures o.Replaced? ==> o.plan == PlanFor(cmd)
    ensures o.Died? ==> o.status == Exited(1)
    ensures o.Died? && !InputOpens(PlanFor(cmd), w) ==>
              o.printedTo == Inherited && o.message == InputError(PlanFor(cmd).stdin)
    ensures o.Died? && InputOpens(PlanFor(cmd), w) && !OutputOpens(PlanFor(cmd), w) ==>
              o.printedTo == Inherited && o.message == OutputError(PlanFor(cmd).stdout)
    ensures o.Died? && InputOpens(PlanFor(cmd), w) && OutputOpens(PlanFor(cmd), w) ==>
              o.printedTo == PlanFor(cmd).stdout &&
              o.message == cmd.args[0] + ": no such file or directory\n"
  {
    var p := PlanFor(cmd);
    if !InputOpens(p, w) then Died(Exited(1), InputError(p.stdin), Inherited)
    else if !OutputOpens(p, w) then Died(Exited(1), OutputError(p.stdout), Inherited)
    else if !w.found then Died(Exited(1), cmd.args[0] + ": no such file or directory\n", p.stdout)
    else Replaced(p)
  }

  /** The status the parent's `waitpid` sees for this child. */
  function ChildStatus(cmd: Command, w: World): (st: WaitStatus)
    requires |cmd.args| >= 1
    ensures st == w.program || st == Exited(1)
    ensures RunChild(cmd, w).Replaced? ==> st == w.program
    ensures RunChild(cmd, w).Died? ==> st == Exited(1)
  {
    match RunChild(cmd, w)
    case Replaced(_) => w.program
    case Died(st, _, _) => st
  }

  /** An input file that cannot be opened is reported first, on the shell's
      own standard output, whether or not the output file would open. */
  lemma UnreadableInputReported(cmd: Command, w: World)
    requires |cmd.args| >= 1
    requires cmd.inputFile.Some? && !w.readable(cmd.inputFile.value)
    ensures RunChild(cmd, w) == Died(Exited(1), "cannot open " + cmd.inputFile.value + " for input\n", Inherited)
  {
  }

  /** Likewise an output file that cannot be opened, once the input was
      set up. */
  lemma UnwritableOutputReported(cmd: Command, w: World)
    requires |cmd.args| >= 1
    requires InputOpens(PlanFor(cmd), w)
    requires cmd.outputFile.Some? && !w.writable(cmd.outputFile.value)
    ensures RunChild(cmd, w) == Died(Exited(1), "cannot open " + cmd.outputFile.value + " for output\n", Inherited)
  {
  }

  /** A background command without `<` whose `/dev/null` will not open for
      reading reports only `open error`, on the shell's standard output. */
  lemma DevNullInputFailureReported(cmd: Command, w: World)
    requires |cmd.args| >= 1
    requires cmd.isBackground && cmd.inputFile.None? && !w.readable("/dev/null")
    ensures RunChild(cmd, w) == Died(Exited(1), "open error\n", Inherited)
  {
  }

  /** Likewise for `/dev/null` as the output of a background command without
      `>`, once the input was set up. */
  lemma DevNullOutputFailureReported(cmd: Command, w: World)
    requires |cmd.args| >= 1
    requires InputOpens(PlanFor(cmd), w)
    requires cmd.isBackground && cmd.outputFile.None? && !w.writable("/dev/null")
    ensures RunChild(cmd, w) == Died(Exited(1), "open error\n", Inherited)
  {
  }

  /** A background program that `execvp` cannot find reports so into
      `/dev/null` unless its output was redirected: the message is lost. */
  lemma BackgroundExecFailureIsSilent(cmd: Command, w: World)
    requires |cmd.args| >= 1
    requires cmd.isBackground && cmd.outputFile.None?
    requires InputOpens(PlanFor(cmd), w) && OutputOpens(PlanFor(cmd), w) && !w.found
    ensures RunChild(cmd, w).printedTo == DevNull
  {
  }
}
