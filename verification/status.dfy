/** The foreground status and every message the shell prints about a child's
    end: the `status` built-in (small_shell.c:225-231), the foreground report
    (small_shell.c:430-437), the background launch and completion lines
    (small_shell.c:418, 458-474). */
module Status {
  import opened Wrappers
  import opened Decimal

  /** A wait status as `WIFEXITED`/`WEXITSTATUS` and
      `WIFSIGNALED`/`WTERMSIG` decode it; the bit layout is not modelled. */
  datatype WaitStatus = Exited(code: nat) | Signaled(signal: nat)

  /** `latest_status = 0` (small_shell.c:45): the raw value 0 decodes as a
      normal exit with value 0. */
  const InitialStatus := Exited(0)

  const ExitPrefix := "exit value "
  const SignalPrefix := "terminated by signal "

  /** The outcome part shared by all report lines. */
  function Describe(st: WaitStatus): string {
    match st
    case Exited(n) => ExitPrefix + FromNat(n)
    case Signaled(k) => SignalPrefix + FromNat(k)
  }

  /** What the `status` built-in prints. */
  function StatusReport(st: WaitStatus): string {
    Describe(st) + "\n"
  }

  /** What the shell prints right after waiting for a foreground child: the
      signal line when it was killed, nothing when it exited. */
  function ForegroundReport(st: WaitStatus): (out: string)
    ensures out == "" <==> st.Exited?
    ensures st.Signaled? ==> out == StatusReport(st)
  {
    if st.Signaled? then StatusReport(st) else ""
  }

  /** The initial status prints as `exit value 0`. */
  lemma InitialStatusReport()
    ensures StatusReport(InitialStatus) == "exit value 0\n"
  {
    assert FromNat(0) == [Digit(0)];
    assert Digit(0) == '0';
  }

  function BackgroundStarted(pid: nat): string {
    "background pid is " + FromNat(pid) + "\n"
  }

  function BackgroundDone(pid: nat, st: WaitStatus): string {
    "background pid " + FromNat(pid) + " is done: " + Describe(st) + "\n"
  }

  // ---- reading the messages back ----

  function ReadNumber(s: string): Option<nat> {
    if |s| > 0 && IsDigits(s) then Some(ToNat(s)) else None
  }

  function ReadDescription(s: string): Option<WaitStatus> {
    if ExitPrefix <= s then
      match ReadNumber(s[|ExitPrefix|..])
      case Some(n) => Some(Exited(n))
      case None => None
    else if SignalPrefix <= s then
      match ReadNumber(s[|SignalPrefix|..])
      case Some(k) => Some(Signaled(k))
      case None => None
    else None
  }

  function ReadStatusReport(s: string): Option<WaitStatus> {
    if |s| > 0 && s[|s| - 1] == '\n' then ReadDescription(s[..|s| - 1]) else None
  }

  const DonePrefix := "background pid "
  const DoneMiddle := " is done: "

  function ReadBackgroundDone(s: string): Option<(nat, WaitStatus)> {
    if !(DonePrefix <= s) then None
    else
      var rest := s[|DonePrefix|..];
      var k := DigitRun(rest);
      if k == 0 || !(DoneMiddle <= rest[k..]) then None
      else
        match ReadStatusReport(rest[k..][|DoneMiddle|..])
        case Some(st) => Some((ToNat(rest[..k]), st))
        case None => None
  }

  lemma ReadNumberFromNat(n: nat)
    ensures ReadNumber(FromNat(n)) == Some(n)
  {
    ToNatFromNat(n);
  }

  lemma ReadDescribe(st: WaitStatus)
    ensures ReadDescription(Describe(st)) == Some(st)
  {
    var s := Describe(st);
    match st
    case Exited(n) =>
      assert s[|ExitPrefix|..] == FromNat(n);
      ReadNumberFromNat(n);
    case Signaled(k) =>
      assert s[0] == 't';
      assert s[|SignalPrefix|..] == FromNat(k);
      ReadNumberFromNat(k);
  }

  /** The `status` line names the status it was printed from: distinct
      statuses never print alike. */
  lemma ReadStatusReportInverts(st: WaitStatus)
    ensures ReadStatusReport(StatusReport(st)) == Some(st)
  {
    var s := StatusReport(st);
    assert s[..|s| - 1] == Describe(st);
    ReadDescribe(st);
  }

  lemma PrefixSplit(p: string, x: string)
    ensures p <= p + x
    ensures (p + x)[|p|..] == x
  {
  }

  /** Reading a completion line splits it at the end of the digit run. */
  lemma ReadDoneParts(digits: string, report: string)
    requires |digits| > 0 && IsDigits(digits)
    requires ReadStatusReport(report).Some?
    ensures ReadBackgroundDone(DonePrefix + (digits + (DoneMiddle + report))) ==
            Some((ToNat(digits), ReadStatusReport(report).value))
  {
    var tail := DoneMiddle + report;
    var rest := digits + tail;
    PrefixSplit(DonePrefix, rest);
    assert DoneMiddle[0] == ' ';
    DigitRunOfDigits(digits, tail);
    PrefixSplit(digits, tail);
    assert rest[..|digits|] == digits;
    PrefixSplit(DoneMiddle, report);
  }

  /** A completion line names the process and its outcome. */
  lemma ReadBackgroundDoneInverts(pid: nat, st: WaitStatus)
    ensures ReadBackgroundDone(BackgroundDone(pid, st)) == Some((pid, st))
  {
    var digits := FromNat(pid);
    var report := StatusReport(st);
    assert BackgroundDone(pid, st) == DonePrefix + (digits + (DoneMiddle + report));
    ReadStatusReportInverts(st);
    ReadDoneParts(digits, report);
    ToNatFromNat(pid);
  }

  // ---- background_tracker ----

  /** One child that `waitpid(-1, &status, WNOHANG)` returned. */
  datatype Reaped = Reaped(pid: nat, status: WaitStatus)

  /** The completion lines for the children reaped in order. */
  function DoneReports(done: seq<Reaped>): string
    decreases |done|
  {
    if |done| == 0 then ""
    else DoneReports(done[..|done| - 1]) + BackgroundDone(done[|done| - 1].pid, done[|done| - 1].status)
  }

  /** Number of newline characters, that is of complete output lines. */
  function Lines(s: string): nat
    decreases |s|
  {
    if |s| == 0 then 0 else (if s[|s| - 1] == '\n' then 1 else 0) + Lines(s[..|s| - 1])
  }

  predicate NoNewline(s: string) {
    forall i :: 0 <= i < |s| ==> s[i] != '\n'
  }

  lemma {:induction false} LinesAppend(a: string, b: string)
    ensures Lines(a + b) == Lines(a) + Lines(b)
    decreases |b|
  {
    if |b| == 0 {
      assert a + b == a;
    } else {
      assert (a + b)[..|a + b| - 1] == a + b[..|b| - 1];
      LinesAppend(a, b[..|b| - 1]);
    }
  }

  lemma {:induction false} LinesOfNoNewline(s: string)
    requires NoNewline(s)
    ensures Lines(s) == 0
    decreases |s|
  {
    if |s| > 0 {
      LinesOfNoNewline(s[..|s| - 1]);
    }
  }

  lemma NoNewlineAppend(a: string, b: string)
    requires NoNewline(a) && NoNewline(b)
    ensures NoNewline(a + b)
  {
  }

  lemma DigitsNoNewline(s: string)
    requires IsDigits(s)
    ensures NoNewline(s)
  {
  }

  lemma DescribeNoNewline(st: WaitStatus)
    ensures NoNewline(Describe(st))
  {
    match st
    case Exited(n) =>
      assert NoNewline(ExitPrefix);
      DigitsNoNewline(FromNat(n));
      NoNewlineAppend(ExitPrefix, FromNat(n));
    case Signaled(k) =>
      assert NoNewline(SignalPrefix);
      DigitsNoNewline(FromNat(k));
      NoNewlineAppend(SignalPrefix, FromNat(k));
  }

  /** Every completion line is exactly one line of output. */
  lemma DoneIsOneLine(pid: nat, st: WaitStatus)
    ensures Lines(BackgroundDone(pid, st)) == 1
  {
    var digits := FromNat(pid);
    assert NoNewline(DonePrefix);
    assert NoNewline(DoneMiddle);
    DigitsNoNewline(digits);
    DescribeNoNewline(st);
    NoNewlineAppend(DonePrefix, digits);
    NoNewlineAppend(DonePrefix + digits, DoneMiddle);
    var body := DonePrefix + digits + DoneMiddle + Describe(st);
    NoNewlineAppend(DonePrefix + digits + DoneMiddle, Describe(st));
    assert BackgroundDone(pid, st) == body + "\n";
    LinesOfNoNewline(body);
    LinesAppend(body, "\n");
    assert "\n"[..0] == "";
  }

  /** Reaping one more child adds its completion line, and one line. */
  lemma DoneReportsStep(done: seq<Reaped>, i: nat)
    requires i < |done|
    ensures DoneReports(done[..i + 1]) == DoneReports(done[..i]) + BackgroundDone(done[i].pid, done[i].status)
    ensures Lines(DoneReports(done[..i + 1])) == Lines(DoneReports(done[..i])) + 1
  {
    var next := done[..i + 1];
    assert next[..|next| - 1] == done[..i];
    assert next[|next| - 1] == done[i];
    DoneIsOneLine(done[i].pid, done[i].status);
    LinesAppend(DoneReports(done[..i]), BackgroundDone(done[i].pid, done[i].status));
  }

  /** `background_tracker` (small_shell.c:448-481) over the children the
      operating system reports as finished, in the order it reports them:
      one completion line per child. */
  method BackgroundTracker(done: seq<Reaped>) returns (out: string)
    ensures out == DoneReports(done)
    ensures Lines(out) == |done|
  {
    out := "";
    var i := 0;
    while i < |done|
      invariant 0 <= i <= |done|
      invariant out == DoneReports(done[..i])
      invariant Lines(out) == i
    {
      DoneReportsStep(done, i);
      out := out + BackgroundDone(done[i].pid, done[i].status);
      i := i + 1;
    }
    assert done[..i] == done;
  }
}
