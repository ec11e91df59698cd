/** lasthin: thins a LiDAR file on a grid, keeping the lowest, highest or a
    random point per cell.

    Parameter vector (after the script path at index 0):
    1 input file, 2 grid step, 3 point to keep, 4 output format, 5 output
    file, 6 output folder, 7 output appendix, 8 additional options; then the
    "use 32 bit" and "verbose" checkboxes as the last two arguments. */
module LasThin {
  import opened Text
  import opened Fields
  import opened Toolbox

  /** Which point of each cell is kept: the lowest is the tool's default. */
  function KeepTokens(v: string): seq<string>
  {
    if v == "highest" then ["-highest"]
    else if v == "random" then ["-random"]
    else []
  }

  /** The output format table. */
  function FormatTokens(v: string): seq<string>
  {
    if v == "las" then ["-olas"]
    else if v == "laz" then ["-olaz"]
    else if v == "bin" then ["-obin"]
    else if v == "xyz" then ["-otxt"]
    else if v == "xyzi" then ["-otxt", "-oparse", "xyzi"]
    else if v == "txyzi" then ["-otxt", "-oparse", "txyzi"]
    else []
  }

  /** The executable, `-v` when verbose, and the input file. */
  function Head(argv: seq<string>, exePath: string): seq<string>
    requires |argv| >= 9
  {
    Lead(exePath, argv[|argv| - 1]) + ["-i", Quote(argv[1])]
  }

  /** The tokens of the fields between the input and the additional options, in order. */
  function Settings(argv: seq<string>): seq<string>
    requires |argv| >= 9
  {
    Decimal("-step", "1", argv[2]) +
    KeepTokens(argv[3]) +
    FormatTokens(argv[4]) +
    QuotedPath("-o", argv[5]) +
    QuotedPath("-odir", argv[6]) +
    QuotedPath("-odix", argv[7])
  }

  /** The command line, token by token, from the parameter vector. */
  function Command(argv: seq<string>, exePath: string): seq<string>
    requires |argv| >= 9
  {
    Head(argv, exePath) + Settings(argv) + Options(argv[8])
  }

  /** Appends the flag for the point to keep. */
  method AppendKeep(command: seq<string>, v: string) returns (extended: seq<string>)
    ensures extended == command + KeepTokens(v)
  {
    extended := command;
    if v == "highest" {
      extended := extended + ["-highest"];
    } else if v == "random" {
      extended := extended + ["-random"];
    }
  }

  /** Appends the output format flags. */
  method AppendFormat(command: seq<string>, v: string) returns (extended: seq<string>)
    ensures extended == command + FormatTokens(v)
  {
    extended := command;
    if v != "#" {
      if v == "las" {
        extended := extended + ["-olas"];
      } else if v == "laz" {
        extended := extended + ["-olaz"];
      } else if v == "bin" {
        extended := extended + ["-obin"];
      } else if v == "xyz" {
        extended := extended + ["-otxt"];
      } else if v == "xyzi" {
        extended := extended + ["-otxt"];
        extended := extended + ["-oparse"];
        extended := extended + ["xyzi"];
      } else if v == "txyzi" {
        extended := extended + ["-otxt"];
        extended := extended + ["-oparse"];
        extended := extended + ["txyzi"];
      }
    }
  }

  /** Builds the command line by appending tokens field after field. */
  method BuildCommand(argv: seq<string>, exePath: string) returns (command: seq<string>)
    requires |argv| >= 9
    ensures command == Command(argv, exePath)
  {
    command := [Quote(exePath)];
    command := AppendSwitch(command, argv[|argv| - 1], "-v");
    command := command + ["-i"];
    command := command + [Quote(argv[1])];
    assert command == Head(argv, exePath);
    ghost var head := command;
    command := AppendDecimal(command, "-step", "1", argv[2]);
    ghost var settings := Decimal("-step", "1", argv[2]);
    assert command == head + settings;
    command := AppendKeep(command, argv[3]);
    AppendAssoc(head, settings, KeepTokens(argv[3]));
    settings := settings + KeepTokens(argv[3]);
    assert command == head + settings;
    command := AppendFormat(command, argv[4]);
    AppendAssoc(head, settings, FormatTokens(argv[4]));
    settings := settings + FormatTokens(argv[4]);
    assert command == head + settings;
    command := AppendQuotedPath(command, "-o", argv[5]);
    AppendAssoc(head, settings, QuotedPath("-o", argv[5]));
    settings := settings + QuotedPath("-o", argv[5]);
    assert command == head + settings;
    command := AppendQuotedPath(command, "-odir", argv[6]);
    AppendAssoc(head, settings, QuotedPath("-odir", argv[6]));
    settings := settings + QuotedPath("-odir", argv[6]);
    assert command == head + settings;
    command := AppendQuotedPath(command, "-odix", argv[7]);
    AppendAssoc(head, settings, QuotedPath("-odix", argv[7]));
    settings := settings + QuotedPath("-odix", argv[7]);
    assert command == head + settings;
    command := AppendOptions(command, argv[8]);
  }

  /** The whole script: choose the executable, find it, build and show the
      command line, run the tool on the stripped tokens and report. */
  method Run(argv: seq<string>, root: string, fs: set<string>, tool: seq<string> -> Execution)
    returns (exit: int, log: seq<Entry>)
    requires |argv| >= 9
    ensures var exename := ExeName("lasthin", Is64(argv));
      log != [] && log[0] == Entry(Message, "Starting " + exename + " ...") &&
      (!Installed(root, fs, exename) ==>
        exit == 1 && forall k :: 0 <= k < |log| ==> log[k].severity == Message) &&
      (Installed(root, fs, exename) ==>
        exit == ExitCode(Is64(argv), tool(StripAll(Command(argv, ExePath(root, exename))))) &&
        log[|log| - 1].severity == Status(exit))
  {
    var is64 := argv[|argv| - 2] != "true";
    var exename := "lasthin";
    if is64 {
      exename := exename + "64";
    }
    log := [Entry(Message, "Starting " + exename + " ...")];
    var exePath, found, located := Locate(exename, root, fs);
    log := log + located;
    if !found {
      exit := 1;
      return;
    }
    var command := BuildCommand(argv, exePath);
    var reported;
    exit, reported := Execute(is64, exename, command, tool);
    log := log + reported;
  }

  // Properties of the command line.

  /** The executable comes first, `-v` follows it exactly when the last
      argument is `"true"`, then the input file; the additional options, when
      set, are the last tokens. */
  lemma Layout(argv: seq<string>, exePath: string)
    requires |argv| >= 9
    ensures var c := Command(argv, exePath);
      var h := if argv[|argv| - 1] == "true" then 2 else 1;
      c[0] == Quote(exePath) &&
      (c[1] == "-v" <==> argv[|argv| - 1] == "true") &&
      c[h..h + 2] == ["-i", Quote(argv[1])] &&
      (argv[8] != "#" ==> c[|c| - |Split(argv[8])|..] == Split(argv[8]))
  {
    Ends(Head(argv, exePath), Settings(argv), Options(argv[8]));
  }

  /** At most one flag for the point to keep: `-highest` exactly for
      `"highest"`, `-random` exactly for `"random"`, nothing for the lowest. */
  lemma KeepTable(v: string)
    ensures |KeepTokens(v)| <= 1
    ensures KeepTokens(v) == ["-highest"] <==> v == "highest"
    ensures KeepTokens(v) == ["-random"] <==> v == "random"
  {
  }

  /** The output formats: the binary formats give their one flag, `xyz` gives
      `-otxt` alone, `xyzi` and `txyzi` give `-otxt -oparse` and the format
      itself, and the unset value or any other text gives nothing. */
  lemma FormatTable(v: string)
    ensures var r := FormatTokens(v);
      (r == [] <==> v !in {"las", "laz", "bin", "xyz", "xyzi", "txyzi"}) &&
      (v == "las" ==> r == ["-olas"]) && (v == "laz" ==> r == ["-olaz"]) &&
      (v == "bin" ==> r == ["-obin"]) &&
      (v == "xyz" ==> r == ["-otxt"]) &&
      (v in {"xyzi", "txyzi"} ==> r == ["-otxt", "-oparse", v])
  {
  }
}
