/** What every toolbox script does around its own command line: pick the
    32- or 64-bit executable, find it below the LAStools install root, show
    and clean the command line, run the tool, and turn its result into the
    host's message, warning or error channel and the script's exit code. */
module Toolbox {
  import opened Text

  /** The three channels of the geoprocessor: AddMessage, AddWarning, AddError. */
  datatype Severity = Message | Warning | Error

  /** One line handed to the geoprocessor. */
  datatype Entry = Entry(severity: Severity, text: string)

  /** What the LAStools executable gave back: its return code and its
      combined standard output and standard error. */
  datatype Execution = Execution(returncode: int, output: string)

  /** The 64-bit executable is used unless the second-to-last argument (the
      "use 32 bit" checkbox) is `"true"`. */
  predicate Is64(argv: seq<string>)
    requires |argv| >= 2
  {
    argv[|argv| - 2] != "true"
  }

  /** The executable name: the tool's name, with `64` appended for the 64-bit build. */
  function ExeName(tool: string, is64: bool): string
  {
    if is64 then tool + "64" else tool
  }

  /** The name ends in `64` exactly for the 64-bit build, and always starts
      with the tool's name. */
  lemma ExeNameSuffix(tool: string, is64: bool)
    ensures var name := ExeName(tool, is64);
      name[..|tool|] == tool &&
      (is64 <==> (|name| == |tool| + 2 && name[|tool|..] == "64"))
  {
    var name := ExeName(tool, is64);
    if is64 {
      assert name[|tool|..] == "64";
    }
  }

  /** The folder that holds the executables. */
  function BinDir(root: string): string
  {
    root + "\\bin"
  }

  /** The executable's path, without the `.exe` extension. */
  function ExePath(root: string, exename: string): string
  {
    BinDir(root) + "\\" + exename
  }

  /** The install root has no space, its `bin` folder exists, and so does the executable. */
  predicate Installed(root: string, fs: set<string>, exename: string)
  {
    ' ' !in root && BinDir(root) in fs && ExePath(root, exename) + ".exe" in fs
  }

  /** Checks the install root and finds the executable. `found` is false when
      the script stops with exit code 1 before building any command. Every
      line is reported on the message channel, the failures included. */
  method Locate(exename: string, root: string, fs: set<string>)
    returns (exePath: string, found: bool, log: seq<Entry>)
    ensures found <==> Installed(root, fs, exename)
    ensures found ==> exePath == ExePath(root, exename)
    ensures ' ' in root ==> |log| == 3
    ensures log != [] && forall k :: 0 <= k < |log| ==> log[k].severity == Message
  {
    exePath := "";
    log := [];
    // `lastools_bin.count(" ") > 0`
    if ' ' in root {
      log := log + [Entry(Message, "Error. Path to .\\lastools installation contains spaces.")];
      log := log + [Entry(Message, "This does not work: " + root)];
      log := log + [Entry(Message, "This would work:    C:\\software\\lastools")];
      found := false;
      return;
    }
    var bin := root + "\\bin";
    if bin !in fs {
      log := log + [Entry(Message, "Cannot find .\\lastools\\bin at " + bin)];
      found := false;
      return;
    } else {
      log := log + [Entry(Message, "Found " + bin + " ...")];
    }
    exePath := bin + "\\" + exename;
    if exePath + ".exe" !in fs {
      log := log + [Entry(Message, "Cannot find " + exename + ".exe at " + exePath)];
      found := false;
      return;
    } else {
      log := log + [Entry(Message, "Found " + exePath + " ...")];
    }
    found := true;
  }

  /** Every token with its surrounding double quotes removed: what is handed
      to the process. */
  function StripAll(command: seq<string>): (r: seq<string>)
  {
    seq(|command|, i requires 0 <= i < |command| => Strip(command[i], '"'))
  }

  /** The reporting loop: builds the displayed command line from the tokens as
      they were, and strips the quotes off each token in place. */
  method ShowCommand(command: seq<string>) returns (display: string, stripped: seq<string>)
    requires |command| >= 1
    ensures display == Join(command)
    ensures stripped == StripAll(command)
  {
    stripped := command;
    display := stripped[0];
    assert command[..1] == [command[0]];
    stripped := stripped[0 := Strip(stripped[0], '"')];
    for i := 1 to |command|
      invariant |stripped| == |command|
      invariant display == Join(command[..i])
      invariant forall k :: 0 <= k < i ==> stripped[k] == Strip(command[k], '"')
      invariant forall k :: i <= k < |command| ==> stripped[k] == command[k]
    {
      JoinNext(command, i);
      var token := stripped[i];
      assert token == command[i];
      display := display + " " + token;
      stripped := stripped[i := Strip(stripped[i], '"')];
    }
    assert command[..|command|] == command;
    assert forall k :: 0 <= k < |command| ==> stripped[k] == StripAll(command)[k];
  }

  lemma JoinNext(command: seq<string>, i: nat)
    requires 1 <= i < |command|
    ensures Join(command[..i + 1]) == Join(command[..i]) + " " + command[i]
  {
    assert command[..i + 1][..i] == command[..i];
  }

  /** The final return code. The 64-bit build's return code is trusted. The
      32-bit build's is not: a `WARNING:` anywhere in the output makes it 1,
      failing that an `ERROR:` makes it 3, otherwise it stays as returned. */
  function ExitCode(is64: bool, e: Execution): int
  {
    if is64 then e.returncode
    else if Occurs(e.output, "WARNING:") then 1
    else if Occurs(e.output, "ERROR:") then 3
    else e.returncode
  }

  /** The channel a final return code is reported on: 0 success, 1 warnings, anything else failure. */
  function Status(code: int): Severity
  {
    if code == 0 then Message else if code == 1 then Warning else Error
  }

  /** The channel the tool's own output is copied to. */
  function OutputSeverity(is64: bool, e: Execution): Severity
  {
    if is64 then Status(e.returncode)
    else if Occurs(e.output, "WARNING:") then Warning
    else if Occurs(e.output, "ERROR:") then Error
    else Message
  }

  /** The closing line. */
  function StatusText(exename: string, code: int): string
  {
    if code == 0 then "Success. " + exename + " done."
    else if code == 1 then "Warnings. " + exename + " done."
    else "Error. " + exename + " failed."
  }

  /** Reports the tool's output and the outcome, and gives the exit code.
      The 32-bit branch overwrites the return code, as the scripts do. */
  method Report(is64: bool, exename: string, e: Execution) returns (returncode: int, log: seq<Entry>)
    ensures returncode == ExitCode(is64, e)
    ensures log == [Entry(OutputSeverity(is64, e), e.output), Entry(Status(returncode), StatusText(exename, returncode))]
  {
    returncode := e.returncode;
    var output := e.output;
    if is64 {
      if returncode == 0 {
        log := [Entry(Message, output)];
      } else if returncode == 1 {
        log := [Entry(Warning, output)];
      } else {
        log := [Entry(Error, output)];
      }
    } else {
      if Occurs(output, "WARNING:") {
        log := [Entry(Warning, output)];
        returncode := 1;
      } else if Occurs(output, "ERROR:") {
        log := [Entry(Error, output)];
        returncode := 3;
      } else {
        log := [Entry(Message, output)];
      }
    }
    if returncode == 0 {
      log := log + [Entry(Message, "Success. " + exename + " done.")];
    } else if returncode == 1 {
      log := log + [Entry(Warning, "Warnings. " + exename + " done.")];
    } else {
      log := log + [Entry(Error, "Error. " + exename + " failed.")];
    }
  }

  /** Everything after the command is built: show it, strip it, run the tool
      on the stripped tokens, report, and give the exit code. */
  method Execute(is64: bool, exename: string, command: seq<string>, tool: seq<string> -> Execution)
    returns (exit: int, log: seq<Entry>)
    requires |command| >= 1
    ensures exit == ExitCode(is64, tool(StripAll(command)))
    ensures |log| == 4
    ensures log[..2] == [Entry(Message, "LAStools command line:"), Entry(Message, Join(command))]
    ensures log[2] == Entry(OutputSeverity(is64, tool(StripAll(command))), tool(StripAll(command)).output)
    ensures log[3].severity == Status(exit)
  {
    log := [Entry(Message, "LAStools command line:")];
    var display, stripped := ShowCommand(command);
    log := log + [Entry(Message, display)];
    var result := tool(stripped);
    var reported;
    exit, reported := Report(is64, exename, result);
    log := log + reported;
  }

  // Properties of the classification.

  /** The 64-bit build goes by the return code alone, and its output is
      reported on the same channel as its outcome. */
  lemma ByReturnCode(e: Execution)
    ensures ExitCode(true, e) == e.returncode
    ensures OutputSeverity(true, e) == Status(ExitCode(true, e))
    ensures Status(e.returncode) == Message <==> e.returncode == 0
    ensures Status(e.returncode) == Warning <==> e.returncode == 1
  {
  }

  /** In the 32-bit build a warning marker wins over an error marker. */
  lemma WarningFirst(e: Execution)
    requires Occurs(e.output, "WARNING:")
    ensures ExitCode(false, e) == 1
    ensures OutputSeverity(false, e) == Warning == Status(ExitCode(false, e))
  {
  }

  /** In the 32-bit build an error marker alone makes the outcome an error with code 3. */
  lemma ErrorMarker(e: Execution)
    requires !Occurs(e.output, "WARNING:") && Occurs(e.output, "ERROR:")
    ensures ExitCode(false, e) == 3
    ensures OutputSeverity(false, e) == Error == Status(ExitCode(false, e))
  {
  }

  /** In the 32-bit build, output without a marker is copied as a plain
      message and the return code is kept as returned. */
  lemma NoMarker(e: Execution)
    requires !Occurs(e.output, "WARNING:") && !Occurs(e.output, "ERROR:")
    ensures ExitCode(false, e) == e.returncode
    ensures OutputSeverity(false, e) == Message
  {
  }

  /** Whatever the return code, 32-bit output `ERROR: file not found` is an error. */
  lemma FileNotFound(returncode: int)
    ensures ExitCode(false, Execution(returncode, "ERROR: file not found")) == 3
    ensures Status(ExitCode(false, Execution(returncode, "ERROR: file not found"))) == Error
  {
    NoOccurrence("ERROR: file not found", "WARNING:");
  }

  /** So the output channel and the outcome can disagree in the 32-bit build:
      quiet output with return code 2 is copied as a message, yet the script
      ends with the error line and exit code 2. */
  lemma QuietFailure()
    ensures var e := Execution(2, "done");
      OutputSeverity(false, e) == Message && Status(ExitCode(false, e)) == Error
  {
    NoOccurrence("done", "WARNING:");
    NoOccurrence("done", "ERROR:");
  }
}
