/**
 * Running one command for a vendor (src/vendors.rs:62-82): format it,
 * refuse an unsupported one, echo it on a dry run, otherwise hand it to
 * the platform's shell and report the child's exit code.
 */
module Dispatcher {
  import opened Outcomes
  import opened Catalog
  import opened Formatter
  import opened Platforms

  /** A shell invocation: program, its command flag, and the command text. */
  datatype ShellCall = ShellCall(program: string, flag: string, command: string)

  /** What execute does to the outside world: a line on standard error, or an attempt to start a child. */
  datatype Effect = Diagnostic(line: string) | SpawnAttempted(call: ShellCall)

  /**
   * What waiting on the child reports: it could not be started (the
   * error std::process::Command::status returns), or it finished, with an
   * exit code unless a signal ended it.
   */
  datatype Status = NotStarted(reason: string) | Exited(code: Option<int>)

  const UnsupportedMessage := "command not supported by the current vendor"

  /** cmd /C on Windows, sh -c everywhere else. */
  function ShellFor(p: Platform, command: string): (call: ShellCall)
    ensures call.command == command
    ensures call.program == (if p == Windows then "cmd" else "sh")
    ensures call.flag == (if p == Windows then "/C" else "-c")
  {
    if p == Windows then ShellCall("cmd", "/C", command) else ShellCall("sh", "-c", command)
  }

  /** The result execute reports for a child: the start error, or the exit code with 0 for none. */
  function Outcome(s: Status): (r: Result<int, string>)
    ensures s.NotStarted? <==> r.Err?
    ensures s.Exited? && s.code.Some? ==> r == Ok(s.code.value)
    ensures s == Exited(None) ==> r == Ok(0)
  {
    match s
    case NotStarted(reason) => Err(reason)
    case Exited(None) => Ok(0)
    case Exited(Some(code)) => Ok(code)
  }

  /**
   * Vendor::execute for vendor v on platform p. run(call) stands for
   * spawning the shell call and waiting for it. Exactly one effect happens;
   * a spawn is attempted exactly when the command is supported and this is
   * not a dry run.
   */
  method Execute(v: Vendor, command: PlsCommand, args: string, yes: bool, dryRun: bool,
                 p: Platform, run: ShellCall -> Status)
    returns (r: Result<int, string>, effects: seq<Effect>)
    ensures var line := Format(command, Profile(v), args, yes);
      && (line == [] ==> r == Ok(1) && effects == [Diagnostic(UnsupportedMessage)])
      && (line != [] && dryRun ==> r == Ok(0) && effects == [Diagnostic(line)])
      && (line != [] && !dryRun ==>
            effects == [SpawnAttempted(ShellFor(p, line))] && r == Outcome(run(ShellFor(p, line))))
    ensures |effects| == 1
    ensures effects[0].SpawnAttempted? <==> !Unsupported(v, SlotIndex(command)) && !dryRun
  {
    var data := Lookup(v);
    var line := Format(command, data, args, yes);
    FormatEmptyIffUnsupported(command, v, args, yes);
    if line == [] {
      return Ok(1), [Diagnostic(UnsupportedMessage)];
    }
    if dryRun {
      return Ok(0), [Diagnostic(line)];
    }
    var call := ShellFor(p, line);
    var status := run(call);
    match status {
      case NotStarted(reason) =>
        return Err(reason), [SpawnAttempted(call)];
      case Exited(code) =>
        return Ok(if code.Some? then code.value else 0), [SpawnAttempted(call)];
    }
  }
}
