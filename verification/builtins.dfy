/** The dispatch of `built_in_commands` (small_shell.c:184-239) and its use in
    the main loop (small_shell.c:84-89): `exit`, `cd` and `status` run inside
    the shell; every other name goes to `exec_commands`. */
module Builtins {
  import opened Wrappers

  datatype Builtin = ExitShell | ChangeDir | ReportStatus

  /** How a command line's argument vector is dispatched. `NoProgram` is the
      argument vector with nothing before its NULL: `strcmp` is then handed
      `arg_variables[0] == NULL` (small_shell.c:187), which is undefined. */
  datatype Dispatch = BuiltIn(which: Builtin) | External | NoProgram

  function NameOf(b: Builtin): string {
    match b
    case ExitShell => "exit"
    case ChangeDir => "cd"
    case ReportStatus => "status"
  }

  predicate IsBuiltinName(name: string) {
    name == "exit" || name == "cd" || name == "status"
  }

  /** Only the first argument decides, compared as a whole string (so
      `exit` with arguments still exits and `exits` is external). */
  function Classify(args: seq<string>): (d: Dispatch)
    ensures d == NoProgram <==> |args| == 0
    ensures d == External <==> |args| > 0 && !IsBuiltinName(args[0])
    ensures d.BuiltIn? ==> NameOf(d.which) == args[0]
  {
    if |args| == 0 then NoProgram
    else if args[0] == "exit" then BuiltIn(ExitShell)
    else if args[0] == "cd" then BuiltIn(ChangeDir)
    else if args[0] == "status" then BuiltIn(ReportStatus)
    else External
  }

  /** Each built-in is recognised by its own name, whatever follows it. */
  lemma ClassifyName(b: Builtin, rest: seq<string>)
    ensures Classify([NameOf(b)] + rest) == BuiltIn(b)
  {
  }

  /** The directory `cd` passes to `chdir`, given the value of `HOME`; None
      when there is nothing to do. Exactly one argument after `cd` is used:
      further ones are ignored. */
  function CdTarget(args: seq<string>, home: Option<string>): (dir: Option<string>)
    requires |args| >= 1
    ensures |args| == 1 ==> dir == home
    ensures |args| >= 2 ==> dir == Some(args[1])
  {
    if |args| == 1 then home else Some(args[1])
  }

  /** Extra arguments after the directory change nothing. */
  lemma CdIgnoresExtraArguments(args: seq<string>, more: seq<string>, home: Option<string>)
    requires |args| >= 2
    ensures CdTarget(args + more, home) == CdTarget(args, home)
  {
  }
}
