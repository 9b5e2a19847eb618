/** Model of orchestrator/error_handler.py: turning a process outcome into a
    (success, message) pair, the text of a failed subprocess, and the numbered
    summary of a list of errors. The process itself is not run: what
    `subprocess.run` did is an input. */
module ErrorHandler {
  import opened Strings
  import opened Wrappers

  /** What `subprocess.run` produced or raised. */
  datatype ProcessOutcome =
    | Exited(returnCode: int, stdout: string, stderr: string)
    | TimeoutExpired
    | CommandNotFound                   // FileNotFoundError
    | PermissionDenied                  // PermissionError
    | OtherException(message: string)   // any other exception, by its str()

  /** The kinds of failure `run_command` reports, each with its own message prefix. */
  datatype FailureKind = NonZeroExit | TimedOut | NotFound | Denied | Unexpected

  function FailedPrefix(returnCode: int): string {
    "Command failed (exit code " + IntToString(returnCode) + "): "
  }

  /** The kind of failure a `run_command` message reports, read back from its prefix. */
  function KindOfMessage(message: string): Option<FailureKind> {
    if StartsWith(message, "Command failed (exit code ") then Some(NonZeroExit)
    else if StartsWith(message, "Command timed out after ") then Some(TimedOut)
    else if StartsWith(message, "Command not found: ") then Some(NotFound)
    else if StartsWith(message, "Permission denied: ") then Some(Denied)
    else if StartsWith(message, "Unexpected error: ") then Some(Unexpected)
    else None
  }

  function KindOfOutcome(outcome: ProcessOutcome): Option<FailureKind> {
    match outcome
    case Exited(rc, _, _) => if rc == 0 then None else Some(NonZeroExit)
    case TimeoutExpired => Some(TimedOut)
    case CommandNotFound => Some(NotFound)
    case PermissionDenied => Some(Denied)
    case OtherException(_) => Some(Unexpected)
  }

  /** `ErrorHandler.run_command`: success exactly when the process exited with 0, and then
      the message is the stripped combined output; a failure message names the exit code. */
  function RunCommand(cmd: seq<string>, timeout: int, outcome: ProcessOutcome): (r: (bool, string))
    requires outcome.CommandNotFound? ==> |cmd| > 0
    ensures r.0 <==> outcome.Exited? && outcome.returnCode == 0
    ensures r.0 ==> r.1 == Strip(outcome.stdout + "\n" + outcome.stderr)
    ensures outcome.Exited? && outcome.returnCode != 0 ==>
      StartsWith(r.1, FailedPrefix(outcome.returnCode))
      && r.1[|FailedPrefix(outcome.returnCode)|..] == Strip(outcome.stdout + "\n" + outcome.stderr)
    ensures outcome.CommandNotFound? ==> r.1 == "Command not found: " + cmd[0]
  {
    match outcome
    case Exited(rc, out, err) =>
      var output := Strip(out + "\n" + err);
      if rc != 0 then (false, FailedPrefix(rc) + output) else (true, output)
    case TimeoutExpired =>
      (false, "Command timed out after " + IntToString(timeout) + " seconds: " + Join(cmd, " "))
    case CommandNotFound => (false, "Command not found: " + cmd[0])
    case PermissionDenied => (false, "Permission denied: " + Join(cmd, " "))
    case OtherException(e) => (false, "Unexpected error: " + e)
  }

  lemma KindOfTimedOutMessage(rest: string)
    ensures KindOfMessage("Command timed out after " + rest) == Some(TimedOut)
  {
    var m := "Command timed out after " + rest;
    assert m[8] == 't';
    assert m[..24] == "Command timed out after ";
  }

  lemma KindOfNotFoundMessage(rest: string)
    ensures KindOfMessage("Command not found: " + rest) == Some(NotFound)
  {
    var m := "Command not found: " + rest;
    assert m[8] == 'n';
    assert m[..19] == "Command not found: ";
  }

  lemma KindOfDeniedMessage(rest: string)
    ensures KindOfMessage("Permission denied: " + rest) == Some(Denied)
  {
    var m := "Permission denied: " + rest;
    assert m[0] == 'P';
    assert m[..19] == "Permission denied: ";
  }

  lemma KindOfUnexpectedMessage(rest: string)
    ensures KindOfMessage("Unexpected error: " + rest) == Some(Unexpected)
  {
    var m := "Unexpected error: " + rest;
    assert m[0] == 'U';
    assert m[..18] == "Unexpected error: ";
  }

  lemma KindOfFailedRun(cmd: seq<string>, timeout: int, rc: int, out: string, err: string)
    requires rc != 0
    ensures KindOfMessage(RunCommand(cmd, timeout, Exited(rc, out, err)).1) == Some(NonZeroExit)
  {
    var m := RunCommand(cmd, timeout, Exited(rc, out, err)).1;
    StartsWithConcat(m, "Command failed (exit code " + IntToString(rc), "): ");
    StartsWithConcat(m, "Command failed (exit code ", IntToString(rc));
  }

  lemma KindOfTimedOutRun(cmd: seq<string>, timeout: int)
    ensures KindOfMessage(RunCommand(cmd, timeout, TimeoutExpired).1) == Some(TimedOut)
  {
    var rest := IntToString(timeout) + " seconds: " + Join(cmd, " ");
    assert RunCommand(cmd, timeout, TimeoutExpired).1 == "Command timed out after " + rest;
    KindOfTimedOutMessage(rest);
  }

  /** Every failure message carries the prefix of its own kind and of no other, so the
      kind of failure can be read back from the message. */
  lemma FailureMessagesAreDistinct(cmd: seq<string>, timeout: int, outcome: ProcessOutcome)
    requires outcome.CommandNotFound? ==> |cmd| > 0
    ensures !RunCommand(cmd, timeout, outcome).0 ==>
      KindOfMessage(RunCommand(cmd, timeout, outcome).1) == KindOfOutcome(outcome)
  {
    match outcome
    case Exited(rc, out, err) =>
      if rc != 0 {
        KindOfFailedRun(cmd, timeout, rc, out, err);
      }
    case TimeoutExpired =>
      KindOfTimedOutRun(cmd, timeout);
    case CommandNotFound =>
      KindOfNotFoundMessage(cmd[0]);
    case PermissionDenied =>
      KindOfDeniedMessage(Join(cmd, " "));
    case OtherException(e) =>
      KindOfUnexpectedMessage(e);
  }

  function SubprocessHeader(returnCode: int): string {
    "Subprocess error (exit code " + IntToString(returnCode) + ")"
  }

  /** `ErrorHandler.handle_subprocess_error`: the exit-code line, then a Stdout section
      only when stdout is non-empty, then a Stderr section only when stderr is non-empty. */
  function HandleSubprocessError(returnCode: int, stdout: string, stderr: string): (r: string)
    ensures StartsWith(r, SubprocessHeader(returnCode))
    ensures stdout == "" && stderr == "" ==> r == SubprocessHeader(returnCode)
    ensures stdout != "" ==> StartsWith(r[|SubprocessHeader(returnCode)|..], "\nStdout: " + stdout)
    ensures stderr != "" ==> EndsWith(r, "\nStderr: " + stderr)
    ensures stderr == "" && stdout != "" ==> EndsWith(r, "\nStdout: " + stdout)
    ensures |r| == |SubprocessHeader(returnCode)| + (if stdout != "" then 9 + |stdout| else 0)
                   + (if stderr != "" then 9 + |stderr| else 0)
  {
    var header := SubprocessHeader(returnCode);
    var outSection := if stdout != "" then "\nStdout: " + stdout else "";
    var errSection := if stderr != "" then "\nStderr: " + stderr else "";
    ThreeParts(header, outSection, errSection);
    assert outSection + "" == outSection;
    header + outSection + errSection
  }

  /** An error as `create_error_summary` receives it: a context and the error's text. */
  datatype ContextError = ContextError(context: string, message: string)

  function NumberedLine(number: int, e: ContextError): string {
    IntToString(number) + ". " + e.context + ": " + e.message
  }

  function SummaryHeader(count: int): string {
    "Encountered " + IntToString(count) + " errors:"
  }

  /** The numbered lines for the errors, numbered from `first`, each followed by a newline. */
  function SummaryLines(errors: seq<ContextError>, first: int): string {
    if |errors| == 0 then ""
    else NumberedLine(first, errors[0]) + "\n" + SummaryLines(errors[1..], first + 1)
  }

  /** Appending one error appends its numbered line. */
  lemma {:induction false} SummaryLinesAppend(errors: seq<ContextError>, e: ContextError, first: int)
    ensures SummaryLines(errors + [e], first)
         == SummaryLines(errors, first) + NumberedLine(first + |errors|, e) + "\n"
  {
    if |errors| > 0 {
      var tail := errors[1..];
      assert (errors + [e])[1..] == tail + [e];
      assert (errors + [e])[0] == errors[0];
      SummaryLinesAppend(tail, e, first + 1);
      var head := NumberedLine(first, errors[0]) + "\n";
      var rest := SummaryLines(tail, first + 1);
      var last := NumberedLine(first + |errors|, e);
      assert SummaryLines(errors + [e], first) == head + SummaryLines(tail + [e], first + 1);
      assert SummaryLines(tail + [e], first + 1) == rest + last + "\n";
      assert SummaryLines(errors, first) == head + rest;
      Regroup(head, rest, last, "\n");
    } else {
      assert errors + [e] == [e];
    }
  }

  /** The text `create_error_summary` returns. */
  function ErrorSummary(errors: seq<ContextError>): string {
    if |errors| == 0 then "No errors occurred"
    else SummaryHeader(|errors|) + "\n" + SummaryLines(errors, 1)
  }

  /** `ErrorHandler.create_error_summary`, building the text line by line. */
  method CreateErrorSummary(errors: seq<ContextError>) returns (summary: string)
    ensures summary == ErrorSummary(errors)
  {
    if |errors| == 0 {
      return "No errors occurred";
    }
    ghost var head := SummaryHeader(|errors|) + "\n";
    summary := SummaryHeader(|errors|) + "\n";
    assert errors[..0] == [];
    for i := 0 to |errors|
      invariant summary == head + SummaryLines(errors[..i], 1)
    {
      SummaryStep(errors, i, head);
      summary := summary + NumberedLine(i + 1, errors[i]) + "\n";
    }
    assert errors[..|errors|] == errors;
  }

  lemma SummaryStep(errors: seq<ContextError>, i: nat, head: string)
    requires i < |errors|
    ensures head + SummaryLines(errors[..i + 1], 1)
         == head + SummaryLines(errors[..i], 1) + NumberedLine(i + 1, errors[i]) + "\n"
  {
    assert errors[..i + 1] == errors[..i] + [errors[i]];
    SummaryLinesAppend(errors[..i], errors[i], 1);
  }

  /** Splitting at a separator distributes over text joined by that separator. */
  lemma {:induction false} SplitAround(a: string, b: string, sep: char)
    ensures Split(a + [sep] + b, sep) == Split(a, sep) + Split(b, sep)
  {
    if |a| == 0 {
      assert a + [sep] + b == [sep] + b;
      SplitCons(sep, b, sep);
    } else {
      var c, t := a[0], a[1..];
      ConsAround(a, [sep], b);
      assert a == [c] + t;
      SplitAround(t, b, sep);
      var x, y := Split(t, sep), Split(b, sep);
      SplitCons(c, t + [sep] + b, sep);
      SplitCons(c, t, sep);
      if c == sep {
        assert Split(a + [sep] + b, sep) == [""] + (x + y);
        assert Split(a, sep) == [""] + x;
      } else {
        assert Split(a + [sep] + b, sep) == [[c] + (x + y)[0]] + (x + y)[1..];
        assert Split(a, sep) == [[c] + x[0]] + x[1..];
        FirstPieceAppend(c, x, y);
      }
    }
  }

  lemma ConsAround(a: string, m: string, b: string)
    requires |a| > 0
    ensures a + m + b == [a[0]] + (a[1..] + m + b)
  {
    assert a == [a[0]] + a[1..];
  }

  lemma FirstPieceAppend(c: char, x: seq<string>, y: seq<string>)
    requires |x| > 0
    ensures [[c] + (x + y)[0]] + (x + y)[1..] == ([[c] + x[0]] + x[1..]) + y
  {
    assert (x + y)[1..] == x[1..] + y;
  }

  lemma {:induction false} SplitNoSeparator(a: string, sep: char)
    requires sep !in a
    ensures Split(a, sep) == [a]
  {
    if |a| > 0 {
      SplitNoSeparator(a[1..], sep);
      assert a == [a[0]] + a[1..];
    }
  }

  predicate SingleLine(e: ContextError) {
    '\n' !in e.context && '\n' !in e.message
  }

  lemma NoNewlineInNumber(n: int)
    ensures '\n' !in IntToString(n)
  {
    var s := IntToString(n);
    var digits := if n >= 0 then s else s[1..];
    assert n < 0 ==> s == "-" + digits;
    assert forall k :: 0 <= k < |digits| ==> IsDigit(digits[k]);
  }

  lemma NoNewlineInLine(number: int, e: ContextError)
    requires SingleLine(e)
    ensures '\n' !in NumberedLine(number, e)
  {
    NoNewlineInNumber(number);
  }

  lemma {:induction false} SplitSummaryLines(errors: seq<ContextError>, first: int)
    requires forall k :: 0 <= k < |errors| ==> SingleLine(errors[k])
    ensures var pieces := Split(SummaryLines(errors, first), '\n');
      && |pieces| == |errors| + 1 && pieces[|errors|] == ""
      && forall k :: 0 <= k < |errors| ==> pieces[k] == NumberedLine(first + k, errors[k])
  {
    if |errors| > 0 {
      var line := NumberedLine(first, errors[0]);
      var rest := SummaryLines(errors[1..], first + 1);
      SplitSummaryLines(errors[1..], first + 1);
      NoNewlineInLine(first, errors[0]);
      SplitNoSeparator(line, '\n');
      assert SummaryLines(errors, first) == line + ['\n'] + rest;
      SplitAround(line, rest, '\n');
      var pieces := Split(SummaryLines(errors, first), '\n');
      var restPieces := Split(rest, '\n');
      assert pieces == [line] + restPieces;
      forall k | 0 <= k < |errors|
        ensures pieces[k] == NumberedLine(first + k, errors[k])
      {
        if k > 0 {
          assert pieces[k] == restPieces[k - 1];
          assert errors[k] == errors[1..][k - 1];
          assert restPieces[k - 1] == NumberedLine(first + 1 + (k - 1), errors[1..][k - 1]);
          assert first + 1 + (k - 1) == first + k;
        } else {
          assert pieces[0] == line;
        }
      }
    }
  }

  /** The summary of n > 0 errors, split into lines, is the header stating n, then one line
      "i. context: message" for each error in input order, numbered from 1. */
  lemma SummaryListsEachErrorInOrder(errors: seq<ContextError>)
    requires |errors| > 0
    requires forall k :: 0 <= k < |errors| ==> SingleLine(errors[k])
    ensures var lines := Split(ErrorSummary(errors), '\n');
      && |lines| == |errors| + 2
      && lines[0] == SummaryHeader(|errors|)
      && (forall k :: 0 <= k < |errors| ==> lines[k + 1] == NumberedLine(k + 1, errors[k]))
      && lines[|errors| + 1] == ""
  {
    var header := SummaryHeader(|errors|);
    NoNewlineInNumber(|errors|);
    assert '\n' !in header;
    SplitNoSeparator(header, '\n');
    SplitAround(header, SummaryLines(errors, 1), '\n');
    SplitSummaryLines(errors, 1);
  }
}
