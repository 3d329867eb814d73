/**
 * `CommandService`: runs the build step (`make`), the backtest engine and the
 * speed-up data generator as child processes and maps what happened onto
 * `CommandError.commandFailed` or `CommandError.processFailed`.
 *
 * Launching, reading the pipes and waiting are replaced by `ProcessOutcome`, an abstract
 * description of what the operating system did with the configured process. Each method
 * returns the invocation it configures and how the Swift call completes.
 */
module Commands {
  import opened Wrappers
  import opened SwiftInt

  datatype CommandError = CommandFailed(reason: string) | ProcessFailed(reason: string)

  /** How a throwing call completes: it returns, or it throws a `CommandError`. */
  datatype Completion = Returned | Threw(error: CommandError)

  /** `Process.terminationStatus`. */
  type Int32 = x: int | -0x8000_0000 <= x < 0x8000_0000

  /** What happened to a configured process: `run()` threw an error with the given
      `localizedDescription`, or the process ran, wrote the given text to standard output
      and standard error (nil when the bytes are not valid UTF-8) and exited. */
  datatype ProcessOutcome =
    | LaunchFailed(description: string)
    | Exited(stdout: Option<string>, stderr: Option<string>, status: Int32)

  /** The executable and arguments a `Process` is configured with. */
  datatype Invocation = Invocation(executable: string, arguments: seq<string>)

  const MakeTool: string := "Make"
  const SpeedupTool: string := "Generate speedup helper data"

  /** `localizedDescription` of a `CommandError`, which does not conform to
      `LocalizedError`: Foundation's generic text naming the type and the case number.
      The associated reason is not part of it. */
  function BridgedDescription(e: CommandError): (d: string)
    ensures |d| > 0
  {
    FoundationDescription("trading_analyzer.CommandError", CaseNumber(e))
  }

  /** The position of the case in the enum's declaration. */
  function CaseNumber(e: CommandError): nat {
    if e.CommandFailed? then 0 else 1
  }

  /** Foundation's description of an error it knows only by domain and code. */
  function FoundationDescription(domain: string, code: nat): (d: string)
    ensures |d| > 0
  {
    "The operation couldn’t be completed. (" + domain + " error " + IntToString(code) + ".)"
  }

  /** `"<tool> command failed with exit code N"`, followed by `": <stderr>"` when
      standard error is not empty. */
  function ExitFailureReason(tool: string, status: Int32, errorOutput: string): (r: string)
    ensures |r| > |tool| && r[..|tool|] == tool
    ensures errorOutput != "" ==> |r| >= |errorOutput| + 2 && r[|r| - |errorOutput| - 2..] == ": " + errorOutput
  {
    tool + " command failed with exit code " + IntToString(status)
      + (if errorOutput != "" then ": " + errorOutput else "")
  }

  /** How `runMakeCommand` and `runGenerateSpeedupHelperDataCommand` complete: a launch
      failure becomes `processFailed`; a non-zero exit becomes `commandFailed`, whose
      `CommandError` is re-thrown unchanged by the first catch clause; exit status 0
      returns whatever was written to standard error. */
  function ClassifyExit(tool: string, outcome: ProcessOutcome): (c: Completion)
    ensures outcome.LaunchFailed? ==> c == Threw(ProcessFailed(outcome.description))
    ensures outcome.Exited? ==> (c.Returned? <==> outcome.status == 0)
    ensures outcome.Exited? && c.Threw? ==> c.error.CommandFailed?
    ensures outcome.Exited? && outcome.status != 0 ==>
      c == Threw(CommandFailed(ExitFailureReason(tool, outcome.status, outcome.stderr.GetOr(""))))
  {
    match outcome
    case LaunchFailed(description) => Threw(ProcessFailed(description))
    case Exited(_, stderr, status) =>
      var errorOutput := stderr.GetOr("");
      if status != 0 then Threw(CommandFailed(ExitFailureReason(tool, status, errorOutput)))
      else Returned
  }

  /** The failure reason starts with the tool name and the exit code in decimal; standard
      error follows after ": " only when there is some. */
  lemma ExitFailureReasonShape(tool: string, status: Int32, errorOutput: string)
    ensures var head := tool + " command failed with exit code " + IntToString(status);
      && ExitFailureReason(tool, status, errorOutput)[..|head|] == head
      && (errorOutput == "" ==> ExitFailureReason(tool, status, errorOutput) == head)
      && (errorOutput != "" ==> ExitFailureReason(tool, status, errorOutput) == head + ": " + errorOutput)
      && ParseInt(head[|tool + " command failed with exit code "|..]) == Some(status as int)
  {
    var head := tool + " command failed with exit code " + IntToString(status);
    assert head[|tool + " command failed with exit code "|..] == IntToString(status);
    ParseIntRoundTrip(status);
  }

  /** Undecodable standard error counts as empty in the reason. */
  lemma UndecodableStderrIsEmpty(tool: string, stdout: Option<string>, status: Int32)
    requires status != 0
    ensures ClassifyExit(tool, Exited(stdout, None, status))
         == Threw(CommandFailed(tool + " command failed with exit code " + IntToString(status)))
  {
  }

  /** The pieces of an interpolated string, written one after the other. */
  function Concat(parts: seq<string>): (s: string)
    ensures |parts| > 0 ==> OccursAt(s, parts[0], 0)
  {
    if parts == [] then "" else parts[0] + Concat(parts[1..])
  }

  /** `t` occurs in `s` at offset `i`. */
  predicate OccursAt(s: string, t: string, i: nat) {
    i + |t| <= |s| && s[i..i + |t|] == t
  }

  /** `t` occurs somewhere in `s`. */
  predicate Contains(s: string, t: string) {
    exists i: nat :: i <= |s| && OccursAt(s, t, i)
  }

  /** Every piece of an interpolated string occurs in it. */
  lemma {:induction false} ConcatContains(parts: seq<string>, k: nat)
    requires k < |parts|
    ensures Contains(Concat(parts), parts[k])
  {
    if k == 0 {
      assert OccursAt(Concat(parts), parts[0], 0);
    } else {
      ConcatContains(parts[1..], k - 1);
      var rest := Concat(parts[1..]);
      var i: nat :| i <= |rest| && OccursAt(rest, parts[k], i);
      var j := |parts[0]| + i;
      assert (parts[0] + rest)[j..j + |parts[k]|] == rest[i..i + |parts[k]|];
      assert OccursAt(Concat(parts), parts[k], j);
    }
  }

  /** The pieces of the backtest's shell command. The paths are embedded in double
      quotes except the speed-up helper data path. */
  function BacktestCommandParts(resultFilePath: string, dataFilePath: string, taskFilePath: string,
                                strategyFilePath: string, executableFilePath: string): seq<string>
  {
    [ executableFilePath + " trade backtest from-swap-parquet ",
      " --save-result-as-csv ",
      "--result-dir \"" + resultFilePath + "\"",
      " ",
      "--parquet-file-path-pattern \"" + dataFilePath + "/.*.parquet\"",
      " ",
      "--task-json-file-path-pattern \"" + taskFilePath + "/.*.json\"",
      "  ",
      "--speedup-helper-data-file-path " + dataFilePath,
      " ",
      "--trade-strategy-plugin-file-path-pattern \"" + strategyFilePath + "/.*.so\"" ]
  }

  function BacktestCommandLine(resultFilePath: string, dataFilePath: string, taskFilePath: string,
                               strategyFilePath: string, executableFilePath: string): (cmd: string)
    ensures OccursAt(cmd, executableFilePath + " trade backtest from-swap-parquet ", 0)
  {
    Concat(BacktestCommandParts(resultFilePath, dataFilePath, taskFilePath, strategyFilePath, executableFilePath))
  }

  /** The pieces of the speed-up data generation's shell command. Its lines end in a
      literal backslash and newline, which the shell reads as a continuation. */
  function SpeedupCommandParts(executablePath: string, dataFilePath: string): seq<string> {
    [ executablePath + " trade backtest generate-speedup-helper-data-from-swap-parquet ",
      "\\\n --belong-chain solana \\\n--market-type p2r \\\n",
      "--output-file-path \"" + dataFilePath + "\"",
      " \\\n",
      "--parquet-file-path-pattern \"" + dataFilePath + "/.*.parquet\"" ]
  }

  function SpeedupCommandLine(executablePath: string, dataFilePath: string): (cmd: string)
    ensures OccursAt(cmd, executablePath + " trade backtest generate-speedup-helper-data-from-swap-parquet ", 0)
  {
    Concat(SpeedupCommandParts(executablePath, dataFilePath))
  }

  /** The backtest command starts with the executable and passes each path where the
      engine expects it: the result directory and the three patterns quoted, the helper
      data directory bare. */
  lemma BacktestCommandEmbedsPaths(r: string, d: string, t: string, s: string, e: string)
    ensures var cmd := BacktestCommandLine(r, d, t, s, e);
      && OccursAt(cmd, e + " trade backtest from-swap-parquet ", 0)
      && Contains(cmd, "--result-dir \"" + r + "\"")
      && Contains(cmd, "--parquet-file-path-pattern \"" + d + "/.*.parquet\"")
      && Contains(cmd, "--task-json-file-path-pattern \"" + t + "/.*.json\"")
      && Contains(cmd, "--speedup-helper-data-file-path " + d)
      && Contains(cmd, "--trade-strategy-plugin-file-path-pattern \"" + s + "/.*.so\"")
  {
    var parts := BacktestCommandParts(r, d, t, s, e);
    ConcatContains(parts, 2);
    ConcatContains(parts, 4);
    ConcatContains(parts, 6);
    ConcatContains(parts, 8);
    ConcatContains(parts, 10);
  }

  /** The speed-up command writes its output into the data directory and reads the
      parquet files from it, both quoted. */
  lemma SpeedupCommandEmbedsPaths(e: string, d: string)
    ensures var cmd := SpeedupCommandLine(e, d);
      && OccursAt(cmd, e + " trade backtest generate-speedup-helper-data-from-swap-parquet ", 0)
      && Contains(cmd, "--output-file-path \"" + d + "\"")
      && Contains(cmd, "--parquet-file-path-pattern \"" + d + "/.*.parquet\"")
  {
    var parts := SpeedupCommandParts(e, d);
    ConcatContains(parts, 2);
    ConcatContains(parts, 4);
  }

  /** How `runBacktestCommand` completes. Non-empty standard error is thrown as
      `commandFailed` before the wait, and the catch-all clause re-wraps every error as
      `processFailed` with the bridged description. The exit status is never consulted. */
  function BacktestCompletion(outcome: ProcessOutcome): (c: Completion)
    ensures c.Threw? ==> c.error.ProcessFailed?
    ensures c.Threw? <==> outcome.LaunchFailed? || (outcome.stderr.Some? && outcome.stderr.value != "")
  {
    match outcome
    case LaunchFailed(description) => Threw(ProcessFailed(description))
    case Exited(_, stderr, _) =>
      if stderr.Some? && stderr.value != "" then
        Threw(ProcessFailed(BridgedDescription(CommandFailed(stderr.value))))
      else Returned
  }

  /** The exit status does not affect the backtest's completion, and neither does the
      text of its standard error: a failing run's message never carries it. */
  lemma BacktestIgnoresStatusAndErrorText(out: Option<string>, e1: string, e2: string, s1: Int32, s2: Int32)
    ensures BacktestCompletion(Exited(out, Some(""), s1)) == Returned
    ensures BacktestCompletion(Exited(out, None, s1)) == BacktestCompletion(Exited(out, None, s2))
    ensures e1 != "" && e2 != "" ==>
      BacktestCompletion(Exited(out, Some(e1), s1)) == BacktestCompletion(Exited(out, Some(e2), s2))
  {
  }

  /** What `runBacktestCommand` prints: the standard output when there is some, then,
      unless it threw, the verdict on the exit status. */
  function BacktestConsole(outcome: ProcessOutcome): (lines: seq<string>)
    ensures outcome.LaunchFailed? ==> lines == []
  {
    match outcome
    case LaunchFailed(_) => []
    case Exited(stdout, stderr, status) =>
      var echoed := if stdout.Some? && stdout.value != "" then ["Output: " + stdout.value] else [];
      if stderr.Some? && stderr.value != "" then echoed
      else if status == 0 then echoed + ["Command executed successfully"]
      else echoed + ["Command failed with exit code: " + IntToString(status)]
  }

  class CommandService {
    var isRunning: bool

    constructor ()
      ensures !isRunning
    {
      isRunning := false;
    }

    /** `runMakeCommand(makeFilePath:)`: `/usr/bin/make -f <makefile>`. */
    method RunMakeCommand(makeFilePath: string, outcome: ProcessOutcome)
      returns (invocation: Invocation, completion: Completion)
      ensures invocation == Invocation("/usr/bin/make", ["-f", makeFilePath])
      ensures completion == ClassifyExit(MakeTool, outcome)
    {
      invocation := Invocation("/usr/bin/make", ["-f", makeFilePath]);
      match outcome {
        case LaunchFailed(description) =>
          completion := Threw(ProcessFailed(description));
        case Exited(_, stderr, status) =>
          var errorOutput := stderr.GetOr("");
          if status != 0 {
            completion := Threw(CommandFailed(ExitFailureReason(MakeTool, status, errorOutput)));
          } else {
            completion := Returned;
          }
      }
    }

    /** `runBacktestCommand(...)`: `/bin/bash -c <command>`. `isRunning` is raised on
        entry and lowered only when the call throws. */
    method RunBacktestCommand(resultFilePath: string, dataFilePath: string, taskFilePath: string,
                              strategyFilePath: string, executableFilePath: string, outcome: ProcessOutcome)
      returns (invocation: Invocation, completion: Completion, console: seq<string>)
      modifies this
      ensures invocation == Invocation("/bin/bash", ["-c", BacktestCommandLine(resultFilePath, dataFilePath,
                                                     taskFilePath, strategyFilePath, executableFilePath)])
      ensures completion == BacktestCompletion(outcome)
      ensures console == BacktestConsole(outcome)
      ensures isRunning <==> completion.Returned?
    {
      isRunning := true;
      var command := BacktestCommandLine(resultFilePath, dataFilePath, taskFilePath, strategyFilePath, executableFilePath);
      invocation := Invocation("/bin/bash", ["-c", command]);
      console := [];
      match outcome {
        case LaunchFailed(description) =>
          isRunning := false;
          completion := Threw(ProcessFailed(description));
        case Exited(stdout, stderr, status) =>
          if stdout.Some? && stdout.value != "" {
            console := console + ["Output: " + stdout.value];
          }
          if stderr.Some? && stderr.value != "" {
            // thrown as commandFailed, caught by the catch-all clause
            var thrown := CommandFailed(stderr.value);
            isRunning := false;
            completion := Threw(ProcessFailed(BridgedDescription(thrown)));
          } else {
            if status == 0 {
              console := console + ["Command executed successfully"];
            } else {
              console := console + ["Command failed with exit code: " + IntToString(status)];
            }
            completion := Returned;
          }
      }
    }

    /** `runGenerateSpeedupHelperDataCommand(...)`: `/bin/bash -c <command>`. */
    method RunGenerateSpeedupHelperDataCommand(executablePath: string, dataFilePath: string, outcome: ProcessOutcome)
      returns (invocation: Invocation, completion: Completion)
      ensures invocation == Invocation("/bin/bash", ["-c", SpeedupCommandLine(executablePath, dataFilePath)])
      ensures completion == ClassifyExit(SpeedupTool, outcome)
    {
      invocation := Invocation("/bin/bash", ["-c", SpeedupCommandLine(executablePath, dataFilePath)]);
      match outcome {
        case LaunchFailed(description) =>
          completion := Threw(ProcessFailed(description));
        case Exited(_, stderr, status) =>
          var errorOutput := stderr.GetOr("");
          if status != 0 {
            completion := Threw(CommandFailed(ExitFailureReason(SpeedupTool, status, errorOutput)));
          } else {
            completion := Returned;
          }
      }
    }
  }

  /** A successful backtest leaves `isRunning` raised; only a failing one lowers it. */
  method IsRunningAfterBacktest(path: string, succeeding: ProcessOutcome, failing: ProcessOutcome)
    returns (afterSuccess: bool, afterFailure: bool)
    requires succeeding.Exited? && (succeeding.stderr.None? || succeeding.stderr.value == "")
    requires failing.LaunchFailed?
    ensures afterSuccess && !afterFailure
  {
    var service := new CommandService();
    var _, _, _ := service.RunBacktestCommand(path, path, path, path, path, succeeding);
    afterSuccess := service.isRunning;
    var _, _, _ := service.RunBacktestCommand(path, path, path, path, path, failing);
    afterFailure := service.isRunning;
  }
}
