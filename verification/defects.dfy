/** The lines on which `parse_input` as written (Parser.ParseInput) leads to
    undefined behaviour, each next to what the corrected parser
    (Parser.ParseCommand, the one the shell model uses) does with them. */
module Defects {
  import opened Wrappers
  import opened Tokenizer
  import opened Parser
  import opened Builtins

  /** A line of spaces and newlines that starts with a space, such as
      `"  \n"`, is not blank to the check at small_shell.c:114, so it yields
      a record with no arguments, and dispatching it hands `strcmp` the NULL
      `arg_variables[0]`. The corrected parser drops it. */
  lemma SpacesOnlyLine(line: string, foregroundOnly: bool)
    requires |line| > 0 && line[0] == ' '
    requires forall i :: 0 <= i < |line| ==> IsDelimiter(line[i])
    ensures ParseInput(line, foregroundOnly) == Parsed(Blank)
    ensures Classify(ParseInput(line, foregroundOnly).cmd.args) == NoProgram
    ensures ParseCommand(line, foregroundOnly) == None
  {
    TokensFromDelimiters(line);
  }

  /** More generally, a line every ordinary token of which is an operator,
      such as `< f &` (the rest being file names), has no program name: the
      parser as written yields an empty argument vector or trips over a
      missing file name, and the corrected parser drops the line. */
  lemma OperatorsOnlyLine(line: string, foregroundOnly: bool)
    requires !IsBlankOrComment(line)
    requires var toks := Tokens(line);
             forall i :: 0 <= i < |toks| && Run(Start, toks[..i], foregroundOnly).awaiting == Word ==> IsOperator(toks[i])
    ensures ParseInput(line, foregroundOnly) == Undefined(MissingFileName) ||
            (ParseInput(line, foregroundOnly).Parsed? && Classify(ParseInput(line, foregroundOnly).cmd.args) == NoProgram)
    ensures ParseCommand(line, foregroundOnly) == None
  {
    NoArgsIffOnlyOperators(Tokens(line), foregroundOnly);
  }

  /** A `<` with no token after it makes `parse_input` call `strdup(NULL)`
      (small_shell.c:129). The corrected parser rejects the line. */
  lemma TrailingInputRedirect(foregroundOnly: bool)
    ensures ParseInput("cat <\n", foregroundOnly) == Undefined(MissingFileName)
    ensures ParseCommand("cat <\n", foregroundOnly) == None
  {
    var toks := ["cat", "<"];
    assert Join(toks) + "\n" == "cat <\n";
    TokensOfJoin(toks, "\n");
    RunTwo(Start, "cat", "<", foregroundOnly);
  }

  /** The same for `>` (small_shell.c:132). */
  lemma TrailingOutputRedirect(foregroundOnly: bool)
    ensures ParseInput("ls >\n", foregroundOnly) == Undefined(MissingFileName)
    ensures ParseCommand("ls >\n", foregroundOnly) == None
  {
    var toks := ["ls", ">"];
    assert Join(toks) + "\n" == "ls >\n";
    TokensOfJoin(toks, "\n");
    RunTwo(Start, "ls", ">", foregroundOnly);
  }

  /** 513 one-letter arguments fit in one `fgets` buffer, and storing the NULL
      after the 513th writes `arg_variables[513]`, one past the array
      (small_shell.c:142-146). The corrected parser rejects the line. */
  lemma TooManyArguments(foregroundOnly: bool)
    ensures var line := Join(seq(MAX_ARGS + 1, _ => "a")) + "\n";
            && |line| < INPUT_LENGTH
            && ParseInput(line, foregroundOnly) == Undefined(ArgVectorOverflow)
            && ParseCommand(line, foregroundOnly) == None
  {
    var toks := seq(MAX_ARGS + 1, _ => "a");
    var line := Join(toks) + "\n";
    JoinLength(toks, 1);
    assert AllWords(toks);
    TokensOfJoin(toks, "\n");
    RunPlainWords(Start, toks, foregroundOnly);
    assert |Run(Start, toks, foregroundOnly).cmd.args| == MAX_ARGS + 1;
    assert toks[0] == "a";
    JoinStartsWithFirst(toks);
  }

  /** With the corrected parser every dispatched command has a program
      name. */
  lemma CorrectedHasProgram(line: string, foregroundOnly: bool)
    requires ParseCommand(line, foregroundOnly).Some?
    ensures Classify(ParseCommand(line, foregroundOnly).value.args) != NoProgram
  {
  }

  /** With the corrected parser a line whose last token is a `<` or `>`
      read as an operator is never dispatched, whatever precedes it and
      however the tokens are spaced; the parser as written reaches
      undefined behaviour on it. */
  lemma {:induction false} CorrectedRejectsDanglingRedirect(line: string, pre: seq<string>, op: string, foregroundOnly: bool)
    requires Tokens(line) == pre + [op]
    requires op == "<" || op == ">"
    requires Run(Start, pre, foregroundOnly).awaiting == Word
    ensures ParseCommand(line, foregroundOnly) == None
    ensures !IsBlankOrComment(line) ==> ParseInput(line, foregroundOnly).Undefined?
  {
    RunAppend(Start, pre, [op], foregroundOnly);
    assert [op][1..] == [];
    assert Run(Start, Tokens(line), foregroundOnly).awaiting != Word;
  }
}
