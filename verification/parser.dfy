/** `parse_input` (small_shell.c:103-151): from one `fgets` buffer and the
    current foreground-only flag to a command record, NULL, or one of the
    undefined behaviours the C code runs into. */
module Parser {
  import opened Wrappers
  import opened Tokenizer

  /** Size of the `fgets` buffer: a line holds at most 2047 characters. */
  const INPUT_LENGTH := 2048
  /** `arg_variables` has room for MAX_ARGS arguments and the NULL after them. */
  const MAX_ARGS := 512

  /** `struct command_line`: the arguments before their NULL terminator, the
      optional redirection targets and the background flag. */
  datatype Command = Command(
    args: seq<string>,
    inputFile: Option<string>,
    outputFile: Option<string>,
    isBackground: bool)

  /** The record as `calloc` hands it out. */
  const Blank := Command([], None, None, false)

  predicate IsOperator(t: string) {
    t == "<" || t == ">" || t == "&"
  }

  /** Every field holds what the tokenizer can produce, and no argument is an
      operator. */
  predicate WellFormed(c: Command) {
    && (forall i :: 0 <= i < |c.args| ==> IsWord(c.args[i]) && !IsOperator(c.args[i]))
    && (c.inputFile.Some? ==> IsWord(c.inputFile.value))
    && (c.outputFile.Some? ==> IsWord(c.outputFile.value))
  }

  /** What the next token will be taken as: an ordinary token, or the file
      name a preceding `<` or `>` asks for with its own `strtok` call. */
  datatype Awaiting = Word | InputName | OutputName

  /** The loop state of `parse_input`. */
  datatype Scan = Scan(cmd: Command, awaiting: Awaiting)

  const Start := Scan(Blank, Word)

  /** One token of the `while (token)` loop. */
  function Step(sc: Scan, tok: string, foregroundOnly: bool): Scan {
    match sc.awaiting
    case InputName => Scan(sc.cmd.(inputFile := Some(tok)), Word)
    case OutputName => Scan(sc.cmd.(outputFile := Some(tok)), Word)
    case Word =>
      if tok == "<" then sc.(awaiting := InputName)
      else if tok == ">" then sc.(awaiting := OutputName)
      else if tok == "&" then
        (if foregroundOnly then sc else sc.(cmd := sc.cmd.(isBackground := true)))
      else sc.(cmd := sc.cmd.(args := sc.cmd.args + [tok]))
  }

  /** The whole token loop. */
  function Run(sc: Scan, toks: seq<string>, foregroundOnly: bool): Scan
    decreases |toks|
  {
    if |toks| == 0 then sc else Run(Step(sc, toks[0], foregroundOnly), toks[1..], foregroundOnly)
  }

  /** The check that makes `parse_input` return NULL. */
  predicate IsBlankOrComment(line: string) {
    |line| > 0 && (line[0] == '\n' || line[0] == '#')
  }

  /** Undefined behaviour `parse_input` reaches. */
  datatype Fault =
    | MissingFileName    // `strdup(NULL)` for a `<` or `>` with no token after it
    | ArgVectorOverflow  // a write past `arg_variables[MAX_ARGS]`

  datatype Parse = NoCommand | Parsed(cmd: Command) | Undefined(fault: Fault)

  /** `parse_input` as written. An over-long argument vector is reported even
      when the line also ends in a dangling `<`: the out-of-bounds write comes
      first. */
  function ParseInput(line: string, foregroundOnly: bool): (p: Parse)
    ensures p == NoCommand <==> IsBlankOrComment(line)
    ensures p.Parsed? ==> |p.cmd.args| <= MAX_ARGS && WellFormed(p.cmd)
    ensures p.Parsed? && foregroundOnly ==> !p.cmd.isBackground
  {
    if IsBlankOrComment(line) then NoCommand
    else
      var toks := Tokens(line);
      var sc := Run(Start, toks, foregroundOnly);
      RunWellFormed(Start, toks, foregroundOnly);
      ForegroundOnlyIgnoresAmpersand(Start, toks);
      if |sc.cmd.args| > MAX_ARGS then Undefined(ArgVectorOverflow)
      else if sc.awaiting != Word then Undefined(MissingFileName)
      else Parsed(sc.cmd)
  }

  /** The parser with the three defects closed: a line without a program
      name, with a dangling `<` or `>`, or with more than MAX_ARGS arguments
      is treated like a blank line. Wherever the parser as written is
      defined and yields a program name, the two agree. */
  function ParseCommand(line: string, foregroundOnly: bool): (r: Option<Command>)
    ensures r.Some? ==> 1 <= |r.value.args| <= MAX_ARGS && WellFormed(r.value)
    ensures r.Some? ==> ParseInput(line, foregroundOnly) == Parsed(r.value)
    ensures r.None? ==> match ParseInput(line, foregroundOnly)
                        case Parsed(c) => |c.args| == 0
                        case _ => true
    ensures IsBlankOrComment(line) ==> r.None?
  {
    match ParseInput(line, foregroundOnly)
    case Parsed(c) => if |c.args| == 0 then None else Some(c)
    case _ => None
  }

  // ---- properties of the token loop ----

  /** The loop is a fold: scanning two token lists one after the other is
      scanning their concatenation. */
  lemma {:induction false} RunAppend(sc: Scan, a: seq<string>, b: seq<string>, foregroundOnly: bool)
    ensures Run(sc, a + b, foregroundOnly) == Run(Run(sc, a, foregroundOnly), b, foregroundOnly)
    decreases |a|
  {
    if |a| == 0 {
      assert a + b == b;
    } else {
      assert (a + b)[0] == a[0];
      assert (a + b)[1..] == a[1..] + b;
      RunAppend(Step(sc, a[0], foregroundOnly), a[1..], b, foregroundOnly);
    }
  }

  lemma {:induction false} RunWellFormed(sc: Scan, toks: seq<string>, foregroundOnly: bool)
    requires WellFormed(sc.cmd)
    requires AllWords(toks)
    ensures WellFormed(Run(sc, toks, foregroundOnly).cmd)
    ensures |Run(sc, toks, foregroundOnly).cmd.args| <= |sc.cmd.args| + |toks|
    decreases |toks|
  {
    if |toks| > 0 {
      RunWellFormed(Step(sc, toks[0], foregroundOnly), toks[1..], foregroundOnly);
    }
  }

  /** Arguments are only ever appended: what was collected stays, in place. */
  lemma {:induction false} RunKeepsArgs(sc: Scan, toks: seq<string>, foregroundOnly: bool)
    ensures sc.cmd.args <= Run(sc, toks, foregroundOnly).cmd.args
    decreases |toks|
  {
    if |toks| > 0 {
      RunKeepsArgs(Step(sc, toks[0], foregroundOnly), toks[1..], foregroundOnly);
    }
  }

  /** Ordinary tokens become arguments one by one, in input order, and touch
      nothing else. */
  lemma {:induction false} RunPlainWords(sc: Scan, toks: seq<string>, foregroundOnly: bool)
    requires sc.awaiting == Word
    requires forall i :: 0 <= i < |toks| ==> !IsOperator(toks[i])
    ensures Run(sc, toks, foregroundOnly) == sc.(cmd := sc.cmd.(args := sc.cmd.args + toks))
    decreases |toks|
  {
    if |toks| == 0 {
      assert sc.cmd.args + toks == sc.cmd.args;
    } else {
      var sc' := Step(sc, toks[0], foregroundOnly);
      RunPlainWords(sc', toks[1..], foregroundOnly);
      assert sc.cmd.args + [toks[0]] + toks[1..] == sc.cmd.args + toks;
    }
  }

  /** Once set, the background flag stays set. */
  lemma {:induction false} BackgroundSticky(sc: Scan, toks: seq<string>, foregroundOnly: bool)
    requires sc.cmd.isBackground
    ensures Run(sc, toks, foregroundOnly).cmd.isBackground
    decreases |toks|
  {
    if |toks| > 0 {
      BackgroundSticky(Step(sc, toks[0], foregroundOnly), toks[1..], foregroundOnly);
    }
  }

  /** In foreground-only mode `&` is dropped: the flag never becomes set. */
  lemma {:induction false} ForegroundOnlyIgnoresAmpersand(sc: Scan, toks: seq<string>)
    requires !sc.cmd.isBackground
    ensures !Run(sc, toks, true).cmd.isBackground
    decreases |toks|
  {
    if |toks| > 0 {
      ForegroundOnlyIgnoresAmpersand(Step(sc, toks[0], true), toks[1..]);
    }
  }

  /** Two scan states that agree on everything except the background flag. */
  predicate SameExceptBackground(a: Scan, b: Scan) {
    && a.awaiting == b.awaiting
    && a.cmd.args == b.cmd.args
    && a.cmd.inputFile == b.cmd.inputFile
    && a.cmd.outputFile == b.cmd.outputFile
  }

  /** Neither the background flag nor the foreground-only mode ever steers
      how the other fields are filled. */
  lemma {:induction false} BackgroundNeverSteers(a: Scan, b: Scan, toks: seq<string>, fa: bool, fb: bool)
    requires SameExceptBackground(a, b)
    ensures SameExceptBackground(Run(a, toks, fa), Run(b, toks, fb))
    decreases |toks|
  {
    if |toks| > 0 {
      BackgroundNeverSteers(Step(a, toks[0], fa), Step(b, toks[0], fb), toks[1..], fa, fb);
    }
  }

  /** The foreground-only flag affects nothing but the background flag, which
      it leaves as the scan found it. */
  lemma ForegroundOnlyChangesOnlyBackground(sc: Scan, toks: seq<string>)
    ensures SameExceptBackground(Run(sc, toks, true), Run(sc, toks, false))
    ensures Run(sc, toks, true).cmd.isBackground == sc.cmd.isBackground
  {
    BackgroundNeverSteers(sc, sc, toks, true, false);
    if sc.cmd.isBackground {
      BackgroundSticky(sc, toks, true);
    } else {
      ForegroundOnlyIgnoresAmpersand(sc, toks);
    }
  }

  lemma RunTwo(sc: Scan, a: string, b: string, foregroundOnly: bool)
    ensures Run(sc, [a, b], foregroundOnly) == Step(Step(sc, a, foregroundOnly), b, foregroundOnly)
  {
    assert [a, b][1..] == [b];
    assert [b][1..] == [];
    var s1 := Step(sc, a, foregroundOnly);
    assert Run(sc, [a, b], foregroundOnly) == Run(s1, [b], foregroundOnly);
    assert Run(s1, [b], foregroundOnly) == Run(Step(s1, b, foregroundOnly), [], foregroundOnly);
  }

  /** Outside foreground-only mode, `&` sets the background flag wherever it
      stands as an ordinary token, not only at the end of the line. */
  lemma AmpersandAnywhere(pre: seq<string>, post: seq<string>)
    requires Run(Start, pre, false).awaiting == Word
    ensures Run(Start, pre + ["&"] + post, false).cmd.isBackground
  {
    RunAppend(Start, pre + ["&"], post, false);
    RunAppend(Start, pre, ["&"], false);
    BackgroundSticky(Run(Start, pre + ["&"], false), post, false);
  }

  /** Outside foreground-only mode the command runs in the background exactly
      when some `&` was read as an ordinary token (and not as a file name). */
  lemma {:induction false} BackgroundIffAmpersand(toks: seq<string>)
    ensures Run(Start, toks, false).cmd.isBackground <==>
            exists i :: 0 <= i < |toks| && toks[i] == "&" && Run(Start, toks[..i], false).awaiting == Word
    decreases |toks|
  {
    if |toks| == 0 {
    } else {
      var n := |toks| - 1;
      var pre := toks[..n];
      assert toks == pre + [toks[n]];
      RunAppend(Start, pre, [toks[n]], false);
      BackgroundIffAmpersand(pre);
      var before := Run(Start, pre, false);
      if Run(Start, toks, false).cmd.isBackground {
        if before.cmd.isBackground {
          var i :| 0 <= i < |pre| && pre[i] == "&" && Run(Start, pre[..i], false).awaiting == Word;
          assert pre[..i] == toks[..i];
        } else {
          assert toks[n] == "&" && before.awaiting == Word;
          assert toks[..n] == pre;
        }
      } else {
        forall i | 0 <= i < |toks| && toks[i] == "&"
          ensures Run(Start, toks[..i], false).awaiting != Word
        {
          if i < n {
            assert pre[..i] == toks[..i];
          } else {
            assert toks[..i] == pre;
          }
        }
      }
    }
  }

  /** A scan collects no argument exactly when every token it reads as an
      ordinary token is an operator: the other tokens are file names. */
  lemma {:induction false} NoArgsIffOnlyOperators(toks: seq<string>, foregroundOnly: bool)
    ensures Run(Start, toks, foregroundOnly).cmd.args == [] <==>
            forall i :: 0 <= i < |toks| && Run(Start, toks[..i], foregroundOnly).awaiting == Word ==> IsOperator(toks[i])
    decreases |toks|
  {
    if |toks| > 0 {
      var n := |toks| - 1;
      var pre := toks[..n];
      var t := toks[n];
      assert toks == pre + [t];
      RunAppend(Start, pre, [t], foregroundOnly);
      assert [t][1..] == [];
      NoArgsIffOnlyOperators(pre, foregroundOnly);
      var before := Run(Start, pre, foregroundOnly);
      assert Run(Start, toks, foregroundOnly) == Step(before, t, foregroundOnly);
      assert toks[..n] == pre;
      if Run(Start, toks, foregroundOnly).cmd.args == [] {
        assert before.cmd.args == [];
        forall i | 0 <= i < |toks| && Run(Start, toks[..i], foregroundOnly).awaiting == Word
          ensures IsOperator(toks[i])
        {
          if i < n {
            assert pre[..i] == toks[..i];
          }
        }
      } else {
        if before.cmd.args == [] {
          assert before.awaiting == Word && !IsOperator(t);
        } else {
          var i :| 0 <= i < |pre| && Run(Start, pre[..i], foregroundOnly).awaiting == Word && !IsOperator(pre[i]);
          assert pre[..i] == toks[..i];
        }
      }
    }
  }

  /** `<` makes the next token the input file whatever it looks like,
      replacing any earlier one, and the scan goes on from there with every
      other field as it was: `sort < in > out` and `sort > out < in` alike. */
  lemma RedirectTakesNextToken(pre: seq<string>, name: string, post: seq<string>, foregroundOnly: bool)
    requires Run(Start, pre, foregroundOnly).awaiting == Word
    ensures Run(Start, pre + ["<", name] + post, foregroundOnly) ==
            Run(Scan(Run(Start, pre, foregroundOnly).cmd.(inputFile := Some(name)), Word), post, foregroundOnly)
  {
    var mid := Run(Start, pre, foregroundOnly);
    RunAppend(Start, pre + ["<", name], post, foregroundOnly);
    RunAppend(Start, pre, ["<", name], foregroundOnly);
    RunTwo(mid, "<", name, foregroundOnly);
  }

  /** The same for `>` and the output file. */
  lemma OutputRedirectTakesNextToken(pre: seq<string>, name: string, post: seq<string>, foregroundOnly: bool)
    requires Run(Start, pre, foregroundOnly).awaiting == Word
    ensures Run(Start, pre + [">", name] + post, foregroundOnly) ==
            Run(Scan(Run(Start, pre, foregroundOnly).cmd.(outputFile := Some(name)), Word), post, foregroundOnly)
  {
    var mid := Run(Start, pre, foregroundOnly);
    RunAppend(Start, pre + [">", name], post, foregroundOnly);
    RunAppend(Start, pre, [">", name], foregroundOnly);
    RunTwo(mid, ">", name, foregroundOnly);
  }

  // ---- round trip with the line syntax `name [arg]* [< in] [> out] [&]` ----

  /** The tokens of `name [arg]* [< input] [> output] [&]` for a command. */
  function Render(c: Command): seq<string> {
    c.args
    + (if c.inputFile.Some? then ["<", c.inputFile.value] else [])
    + (if c.outputFile.Some? then [">", c.outputFile.value] else [])
    + (if c.isBackground then ["&"] else [])
  }

  lemma RenderIsWords(c: Command)
    requires WellFormed(c)
    ensures AllWords(Render(c))
  {
  }

  /** Scanning a rendered command rebuilds it; in foreground-only mode the
      trailing `&` is dropped. */
  lemma RenderRoundTrip(c: Command, foregroundOnly: bool)
    requires WellFormed(c)
    ensures Run(Start, Render(c), foregroundOnly) ==
            Scan(c.(isBackground := c.isBackground && !foregroundOnly), Word)
  {
    var ins := if c.inputFile.Some? then ["<", c.inputFile.value] else [];
    var outs := if c.outputFile.Some? then [">", c.outputFile.value] else [];
    var amp := if c.isBackground then ["&"] else [];
    assert Render(c) == c.args + ins + outs + amp;
    RunPlainWords(Start, c.args, foregroundOnly);
    assert Blank.args + c.args == c.args;
    var s1 := Run(Start, c.args, foregroundOnly);
    RunAppend(Start, c.args, ins, foregroundOnly);
    var s2 := Run(s1, ins, foregroundOnly);
    if c.inputFile.Some? {
      RunTwo(s1, "<", c.inputFile.value, foregroundOnly);
    }
    assert s2 == Scan(Blank.(args := c.args, inputFile := c.inputFile), Word);
    RunAppend(Start, c.args + ins, outs, foregroundOnly);
    var s3 := Run(s2, outs, foregroundOnly);
    if c.outputFile.Some? {
      RunTwo(s2, ">", c.outputFile.value, foregroundOnly);
    }
    assert s3 == Scan(Blank.(args := c.args, inputFile := c.inputFile, outputFile := c.outputFile), Word);
    RunAppend(Start, c.args + ins + outs, amp, foregroundOnly);
  }

  /** A command written out as `name [arg]* [< in] [> out] [&]`, one space between
      tokens and the newline `fgets` keeps, parses back to itself; the only
      exclusions are the ones the parser imposes (a program name, at most
      MAX_ARGS arguments, no leading `#`). */
  lemma ParseRendered(c: Command, foregroundOnly: bool)
    requires WellFormed(c)
    requires 1 <= |c.args| <= MAX_ARGS
    requires c.args[0][0] != '#'
    ensures ParseCommand(Join(Render(c)) + "\n", foregroundOnly) ==
            Some(c.(isBackground := c.isBackground && !foregroundOnly))
  {
    var toks := Render(c);
    var line := Join(toks) + "\n";
    RenderIsWords(c);
    TokensOfJoin(toks, "\n");
    RenderRoundTrip(c, foregroundOnly);
    assert toks[0] == c.args[0];
    JoinStartsWithFirst(toks);
    assert line[0] == c.args[0][0];
  }

  lemma {:induction false} JoinStartsWithFirst(ts: seq<string>)
    requires |ts| >= 1 && |ts[0]| >= 1
    ensures |Join(ts)| >= 1 && Join(ts)[0] == ts[0][0]
  {
  }
}
