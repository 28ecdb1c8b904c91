# small_shell in Dafny

A model of the decision logic of `small_shell.c`, a minimal Unix shell with
three built-ins (`exit`, `cd`, `status`), input/output redirection,
background commands and a SIGTSTP-driven foreground-only mode. The
fork/exec/signal plumbing is replaced by its inputs: what the operating
system answers is a parameter, and the model states what the shell decides
from it.

| file | module | what it models |
|---|---|---|
| `wrappers.dfy` | `Wrappers` | `Option`, for the shell's nullable pointers |
| `decimal.dfy` | `Decimal` | `%d` rendering of process ids, exit values and signal numbers, and its inverse |
| `tokenizer.dfy` | `Tokenizer` | `strtok(…, " \n")` over the `fgets` buffer |
| `parser.dfy` | `Parser` | `parse_input` as written (`ParseInput`) and corrected (`ParseCommand`) |
| `status.dfy` | `Status` | the wait status, every status message, `background_tracker` |
| `builtins.dfy` | `Builtins` | built-in dispatch and the `cd` target |
| `child.dfy` | `Child` | the child's signal dispositions and `file_redirection`, as a plan, and how the child ends |
| `shell.dfy` | `Shell` | the main loop as a state machine over `latest_status`, `foreground_only` and the `HOME` it reads, with the directories handed to `chdir` |
| `defects.dfy` | `Defects` | inputs on which `parse_input` as written is undefined |

The parser keeps the `strtok` loop's shape, with one reformulation: where
the C code fetches the file name for `<`/`>` by a second `strtok` call, the
model records that a file name is awaited and takes the next token as it.
This makes the loop a fold (`Parser.RunAppend`), which is what the
"anywhere in the line" properties are proved from.

The command syntax the shell is meant for is
`name [arg]* [< in] [> out] [&]`. Where the code accepts more than that, or
does something other than a reader of that syntax would expect, the model
of `parse_input` and of the child follows the code:
- `&` sets the background flag wherever it stands as an ordinary token, not
  only at the end of the line (`Parser.BackgroundIffAmpersand`).
- Only a line whose first character is `\n` or `#` counts as blank. In the
  C program a line of spaces, or of operators only, reaches dispatch with no
  program name (`Defects.SpacesOnlyLine`, `Parser.ParseInput`). The main
  loop of the model (`Shell.Iterate`) does not follow the code here: it uses
  the corrected parser `Parser.ParseCommand`, which treats such lines, and
  every other line on which `parse_input` is undefined, like blank lines
  (see "## Findings").
- The SIGTSTP messages carry a leading newline and a trailing space:
  `"\nEntering foreground-only mode (& is now ignored)\n "` and
  `"\nExiting foreground-only mode\n "`.
- `exit` terminates the shell with status 0 without signalling any child.
- The message for a program `execvp` cannot find is printed after the
  redirections, so it goes to the redirected standard output (for a
  background command without `>`, to `/dev/null`).

## Model

| member | source | states |
|---|---|---|
| `Tokenizer.Tokens` | small_shell.c:123-148 | every token `strtok` hands back is non-empty and holds no space, newline or NUL |
| `Tokenizer.TokensContent` | small_shell.c:123-148 | the tokens laid end to end are exactly the non-delimiter characters before the first NUL, in order: nothing lost, reordered or invented |
| `Tokenizer.TokensSplit` | small_shell.c:123-148 | a delimiter splits the line: the tokens of `a d b` (no NUL in `a`) are those of `a` followed by those of `b`, so no token spans a delimiter |
| `Tokenizer.TokensOfWord` | small_shell.c:123-148 | a run of word characters is one token, whole: together with `TokensSplit`, tokens are the maximal runs between delimiters |
| `Tokenizer.TokensStopAtNul` | small_shell.c:123-148 | nothing after the first NUL yields a token |
| `Tokenizer.TokensOfJoin` | small_shell.c:123-148 | words joined by single spaces and followed by any run of delimiters tokenize back to the same words |
| `Parser.ParseInput` | small_shell.c:103-151 | no command exactly for lines starting with `\n` or `#`; a parsed record has at most MAX_ARGS well-formed, non-operator arguments; in foreground-only mode it is never background |
| `Parser.ParseCommand` | small_shell.c:114-146 | the corrected parser: a command it returns has between 1 and MAX_ARGS arguments and is what `parse_input` yields; it never returns one for blank or comment lines |
| `Parser.RunAppend` | small_shell.c:125-149 | scanning two token lists in turn equals scanning their concatenation |
| `Parser.RunWellFormed` | small_shell.c:128-146 | arguments and file names are tokens, and no operator token becomes an argument |
| `Parser.RunKeepsArgs` | small_shell.c:142 | arguments are only appended: those collected so far stay in place |
| `Parser.RunPlainWords` | small_shell.c:141-146 | ordinary tokens become arguments one by one in input order and change nothing else |
| `Parser.BackgroundSticky` | small_shell.c:134-140 | once the background flag is set, later tokens never clear it |
| `Parser.ForegroundOnlyIgnoresAmpersand` | small_shell.c:134-140 | in foreground-only mode the background flag is never set |
| `Parser.BackgroundNeverSteers` | small_shell.c:125-149 | the background flag and the mode never influence the arguments, file names or awaited token |
| `Parser.ForegroundOnlyChangesOnlyBackground` | small_shell.c:137-139 | foreground-only mode changes nothing of the parse except the background flag |
| `Parser.AmpersandAnywhere` | small_shell.c:134-140 | outside foreground-only mode an `&` read as an ordinary token sets the background flag wherever it stands |
| `Parser.BackgroundIffAmpersand` | small_shell.c:134-140 | outside foreground-only mode a line is background exactly when some `&` stands at an ordinary-token position (not as a file name) |
| `Parser.NoArgsIffOnlyOperators` | small_shell.c:125-146 | the scan collects no argument exactly when every token read as an ordinary token is an operator |
| `Parser.RedirectTakesNextToken` | small_shell.c:128-129 | `<` makes the next token the input file whatever it looks like, replacing an earlier one; that token is not an argument, every other field is kept, and the scan goes on from there with any continuation |
| `Parser.OutputRedirectTakesNextToken` | small_shell.c:131-132 | the same for `>` and the output file |
| `Parser.RenderRoundTrip` | small_shell.c:125-149 | scanning `name [arg]* [< in] [> out] [&]` rebuilds the command, minus the `&` in foreground-only mode |
| `Parser.ParseRendered` | small_shell.c:103-151 | a command written in the line syntax with its newline parses back to itself, given a program name not starting with `#` and at most MAX_ARGS arguments |
| `Decimal.FromNat` | small_shell.c:226 | `%d` of a non-negative value is a non-empty digit string with no leading zero |
| `Decimal.ToNatFromNat` | small_shell.c:230 | reading a printed number back gives the number |
| `Decimal.FromNatInjective` | small_shell.c:418 | distinct numbers are printed distinctly |
| `Status.ForegroundReport` | small_shell.c:429-437 | after a foreground wait the shell prints the signal line exactly when the child was killed, and nothing when it exited |
| `Status.ReadDescribe` | small_shell.c:225-231 | the outcome text names the status it was printed from |
| `Status.ReadStatusReportInverts` | small_shell.c:225-231 | the `status` line reads back to the status, so distinct statuses print distinctly |
| `Status.ReadBackgroundDoneInverts` | small_shell.c:457-474 | a completion line reads back to the process id and its outcome |
| `Status.DoneIsOneLine` | small_shell.c:463-473 | each completion report is exactly one line |
| `Status.BackgroundTracker` | small_shell.c:448-481 | the reaping loop prints the completion lines of the reaped children in order, one line per child |
| `Builtins.Classify` | small_shell.c:184-239 | no argument means no program name; a first argument other than `exit`, `cd`, `status` goes to exec; a built-in is recognised by its whole name |
| `Builtins.ClassifyName` | small_shell.c:187-222 | each built-in is recognised by its name whatever arguments follow |
| `Builtins.CdIgnoresExtraArguments` | small_shell.c:206-209 | arguments after the directory change nothing |
| `Child.PlanFor` | small_shell.c:266-398 | stdin is the input file, else `/dev/null` in the background, else inherited; stdout likewise with the output file; SIGINT ignored exactly for background children; SIGTSTP always ignored |
| `Child.BackgroundIsDetached` | small_shell.c:269-398 | a background child never uses the terminal's streams and ignores SIGINT |
| `Child.ForegroundKeepsTerminal` | small_shell.c:273-282 | a foreground child without redirections keeps both streams and has SIGINT at its default |
| `Child.StreamsIndependent` | small_shell.c:316-399 | each stream depends only on its own file name and the background flag |
| `Child.RunChild` | small_shell.c:287-398 | the child reaches the program exactly when every open it attempts succeeds and the program is found; otherwise it exits with status 1, reporting open failures on the shell's stdout and an exec failure on the redirected stdout |
| `Child.ChildStatus` | small_shell.c:291-328 | the parent sees the program's own status when the child reached it, and exit value 1 when the child died before |
| `Child.UnreadableInputReported` | small_shell.c:319-329 | an input file that will not open is reported first, as `cannot open <f> for input`, and ends the child with 1 |
| `Child.UnwritableOutputReported` | small_shell.c:358-372 | once input is set up, an output file that will not open is reported as `cannot open <f> for output` and ends the child with 1 |
| `Child.DevNullInputFailureReported` | small_shell.c:338-348 | a background command without `<` whose `/dev/null` will not open for reading prints `open error` on the shell's stdout and ends with 1 |
| `Child.DevNullOutputFailureReported` | small_shell.c:381-391 | the same for `/dev/null` as the output, once input was set up |
| `Child.BackgroundExecFailureIsSilent` | small_shell.c:290-295 | for a background command without `>`, the exec-failure message goes to `/dev/null` |
| `Shell.Launch` | small_shell.c:410-438 | a fork failure or background launch leaves `latest_status` alone; a forked foreground child's status becomes `latest_status`; the mode never changes |
| `Shell.Iterate` | small_shell.c:70-90 | each pass starts with the completion lines and the prompt; only `exit` ends the shell, with 0; only a waited-for foreground child changes the state, and then to its status |
| `Shell.StopRequest` | small_shell.c:491-507 | SIGTSTP flips the mode, keeps the status, and announces the mode now in force |
| `Shell.RunWithAppend` | small_shell.c:70-90 | running two event sequences in turn is running their concatenation, outputs concatenated |
| `Shell.ToggleTwice` | small_shell.c:497-506 | two SIGTSTPs restore the mode and print the entering then the exiting message (or the reverse when starting in foreground-only mode) |
| `Shell.ParseCommandUnderModes` | small_shell.c:137 | whether a line parses, and its arguments, do not depend on the mode |
| `Shell.ForegroundOnlyAlwaysWaits` | small_shell.c:134-140 | in foreground-only mode a forked external command is waited for and sets the status even when its line has `&` |
| `Shell.QuietKeepsStatus` | small_shell.c:193-237 | `cd`, `status`, unparsed lines and SIGTSTP do not assign `latest_status` |
| `Shell.QuietRunKeepsStatus` | small_shell.c:193-237 | any run of such events leaves the status as it was |
| `Shell.ParseStatusLine` | small_shell.c:222 | the line `status` parses to the `status` built-in in either mode |
| `Shell.StatusBuiltin` | small_shell.c:222-236 | `status` prints the recorded status and changes no state |
| `Shell.StatusLineEndsOutput` | small_shell.c:222-236 | whatever ran before, a `status` line ends the output with the status recorded at that point |
| `Shell.InitialStatusIsExitZero` | small_shell.c:45 | before any foreground command `status` prints `exit value 0` |
| `Shell.ForegroundReported` | small_shell.c:429-437 | a waited-for foreground child killed by a signal is reported at once; an exit is not |
| `Shell.ForegroundThenQuiet` | small_shell.c:424-427 | after a foreground command and any built-ins or mode changes, the recorded status is that command's |
| `Shell.ChangeDirRequests` | small_shell.c:193-219 | `cd` leaves the state alone and hands `chdir` its first argument, or `HOME` when it has none, calling nothing when `HOME` is unset |
| `Shell.StatusReportsLastForeground` | small_shell.c:424-427 | after a foreground command, built-ins and mode changes, `status` prints how that command ended |
| `Shell.UnreadableInputSetsStatusOne` | small_shell.c:319-329 | a foreground command whose input file will not open leaves `exit value 1` as the status |
| `Shell.BackgroundLaunchAnnounced` | small_shell.c:415-421 | a background launch prints `background pid is <pid>` and leaves the state alone |
| `Defects.SpacesOnlyLine` | small_shell.c:114-116 | any line of spaces and newlines that starts with a space (such as `"  \n"`) parses to a record with no arguments, which dispatch cannot handle; the corrected parser drops it |
| `Defects.OperatorsOnlyLine` | small_shell.c:128-140 | any line whose every ordinary token is an operator (such as `< f &`) yields no argument vector with a program name: an empty one, or a missing file name; the corrected parser drops it |
| `Defects.TrailingInputRedirect` | small_shell.c:128-129 | `cat <` makes the parser as written duplicate a NULL file name; the corrected parser drops the line |
| `Defects.TrailingOutputRedirect` | small_shell.c:131-132 | the same for `ls >` |
| `Defects.TooManyArguments` | small_shell.c:142-146 | 513 one-letter arguments fit in one buffer and overflow the argument vector; the corrected parser drops the line |
| `Defects.CorrectedHasProgram` | small_shell.c:187 | with the corrected parser every dispatched command has a program name |
| `Defects.CorrectedRejectsDanglingRedirect` | small_shell.c:128-132 | any line whose last token is a `<` or `>` read as an operator, however spaced, is undefined for the parser as written and never reaches dispatch with the corrected parser |

## Left out

- The system calls `fork`, `execvp`, `waitpid`, `open`, `dup2`, `close`, `chdir`, `getenv` and `exit`: their answers are inputs (`Shell.Fork`, `Child.World`, the `home` field of `Shell.State`), and the model states the decisions taken around them.
- The effect of `cd` on the working directory and the `perror` messages for a failed `cd` or `fork`: they concern the process environment and standard error, not the state or standard output modelled.
- The `waitpid(-1, …, WNOHANG)` polling in `background_tracker`: the children it reaps are given as a list, in the order the system would report them.
- The `sigaction` setup in `main` and in the child, and the asynchronous, non-atomic access to `foreground_only`: SIGTSTP is an event between loop passes; a signal arriving mid-pass or during a foreground wait is concurrency the model does not express.
- The raw wait-status encoding behind `WIFEXITED`/`WIFSIGNALED`: statuses are `Exited(n)` or `Signaled(s)`; the stopped/continued cases, for which `status` prints nothing, cannot occur since no wait uses `WUNTRACED`.
- `empty_heap_memory`, `calloc` and `strdup`: memory management has no counterpart in a value model.
- Prompt flushing and `fgets` itself: end of input (where the loop re-parses a stale buffer) and lines longer than 2047 characters (split over several reads) are not modelled; a line is one buffer.
- Output written by the children themselves, and its interleaving with the shell's own output.
- `Shell.ChangeDirRequests`: states which directory `chdir` is given, not whether the change succeeds; the working directory itself, and its effect on relative paths in later commands, is not modelled.
- `Shell.Iterate`: the loop runs the corrected parser `Parser.ParseCommand`, so a line on which `parse_input` as written is undefined (only spaces or operators, a trailing `<` or `>`, more than 512 arguments) is treated as a blank line and the loop goes on, where the C program dereferences NULL or writes past `arg_variables`; the as-written behaviour is modelled by `Parser.ParseInput` and shown in `Defects`.

## Findings

| source | as written | input that shows it | evidently intended | confidence | as-written member | corrected member |
|---|---|---|---|---|---|---|
| small_shell.c:114-116 | only a first character `\n` or `#` makes a line blank; a line with no program name reaches `strcmp(arg_variables[0], "exit")` with a NULL pointer | the line `"  \n"` (any line of spaces and newlines starting with a space) | a line with no program name is ignored like a blank line | high; not executed | `Defects.SpacesOnlyLine` | `Parser.ParseCommand` |
| small_shell.c:128-132 | `strdup(strtok(NULL, " \n"))` with no NULL check | the line `"cat <\n"` | a `<` or `>` without a file name rejects the line | high; not executed | `Defects.TrailingInputRedirect` | `Parser.ParseCommand` |
| small_shell.c:142-146 | no bound on `arg_count`; the NULL after the 513th argument lands at `arg_variables[513]` | 513 copies of `a` separated by spaces (1026 characters) | at most MAX_ARGS arguments, longer lines rejected | medium (the intended reaction is not stated); not executed | `Defects.TooManyArguments` | `Parser.ParseCommand` |
