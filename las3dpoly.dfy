/** las3dpoly: selects, removes, flags or classifies the points of a LiDAR
    file that lie within a distance of 3D polygons.

    Parameter vector (after the script path at index 0), read through a
    cursor that starts at 1:
    1 input file, 2 polygon file, 3 distance, 4 a free extra argument, 5 to
    10 the checkboxes match all above, match all below, remove points, flag
    as withheld, flag as keypoint and flag as synthetic, 11 classify, 12 the
    class, 13 output format, 14 output file, 15 output folder, 16 output
    appendix, 17 additional options; then the verbose checkbox as the last
    argument. The script always runs the 64-bit build. */
module Las3dPoly {
  import opened Text
  import opened Fields
  import opened Toolbox

  /** The executable: the 32-bit choice is switched off in this script. */
  const ExeName64 := "las3dpoly64"

  /** The six checkbox flags, in the order of their fields. */
  const FlagNames: seq<string> := [
    "-match_all_above", "-match_all_below", "-remove_points",
    "-flag_as_withheld", "-flag_as_keypoint", "-flag_as_synthetic"]

  /** A free argument passed on as one bare token unless unset. */
  function Bare(v: string): seq<string>
  {
    if v == Unset then [] else [v]
  }

  /** `-classify` and the class, when the classify checkbox is set. */
  function Classify(flag: string, code: string): seq<string>
  {
    if flag == "true" then ["-classify", code] else []
  }

  /** The output format table. */
  function FormatTokens(v: string): seq<string>
  {
    if v == "las" then ["-olas"]
    else if v == "laz" then ["-olaz"]
    else if v == "bin" then ["-obin"]
    else if v == "txt" then ["-otxt"]
    else if v == "xyzi" then ["-otxt", "-oparse", "xyzi"]
    else if v == "txyzi" then ["-otxt", "-oparse", "txyzi"]
    else []
  }

  /** The executable, `-v` when verbose, the input, the polygons and the distance. */
  function Head(argv: seq<string>, exePath: string): seq<string>
    requires |argv| >= 18
  {
    Lead(exePath, argv[|argv| - 1]) +
    ["-i", Quote(argv[1]), "-poly", Quote(argv[2]), "-distance", argv[3]]
  }

  /** The six checkbox flags, each present exactly when its field is `"true"`. */
  function Flags(argv: seq<string>): seq<string>
    requires |argv| >= 18
  {
    Switch(argv[5], FlagNames[0]) + Switch(argv[6], FlagNames[1]) + Switch(argv[7], FlagNames[2]) +
    Switch(argv[8], FlagNames[3]) + Switch(argv[9], FlagNames[4]) + Switch(argv[10], FlagNames[5])
  }

  /** The tokens of the fields between the distance and the additional options, in order. */
  function Settings(argv: seq<string>): seq<string>
    requires |argv| >= 18
  {
    Bare(argv[4]) +
    Flags(argv) +
    Classify(argv[11], argv[12]) +
    FormatTokens(argv[13]) +
    QuotedPath("-o", argv[14]) +
    QuotedPath("-odir", argv[15]) +
    QuotedPath("-odix", argv[16])
  }

  /** The command line, token by token, from the parameter vector. */
  function Command(argv: seq<string>, exePath: string): seq<string>
    requires |argv| >= 18
  {
    Head(argv, exePath) + Settings(argv) + Options(argv[17])
  }

  /** Appends the free argument unless it is unset. */
  method AppendBare(command: seq<string>, v: string) returns (extended: seq<string>)
    ensures extended == command + Bare(v)
  {
    extended := command;
    if v != "#" {
      extended := extended + [v];
    }
  }

  /** Appends `-classify` and the class when the checkbox is set. */
  method AppendClassify(command: seq<string>, flag: string, code: string) returns (extended: seq<string>)
    ensures extended == command + Classify(flag, code)
  {
    extended := command;
    if flag == "true" {
      extended := extended + ["-classify"];
      extended := extended + [code];
    }
  }

  /** Appends the output format flags. */
  method AppendFormat(command: seq<string>, v: string) returns (extended: seq<string>)
    ensures extended == command + FormatTokens(v)
  {
    extended := command;
    if v != "#" {
      if v == "las" {
        extended := extended + ["-olas"];
      } else if v == "laz" {
        extended := extended + ["-olaz"];
      } else if v == "bin" {
        extended := extended + ["-obin"];
      } else if v == "txt" {
        extended := extended + ["-otxt"];
      } else if v == "xyzi" {
        extended := extended + ["-otxt"];
        extended := extended + ["-oparse"];
        extended := extended + ["xyzi"];
      } else if v == "txyzi" {
        extended := extended + ["-otxt"];
        extended := extended + ["-oparse"];
        extended := extended + ["txyzi"];
      }
    }
  }

  /** Builds the command line, moving a cursor over the parameter vector: one
      place per field, two for the classify checkbox and its class. */
  method BuildCommand(argv: seq<string>, exePath: string) returns (command: seq<string>)
    requires |argv| >= 18
    ensures command == Command(argv, exePath)
  {
    command := [Quote(exePath)];
    command := AppendSwitch(command, argv[|argv| - 1], "-v");
    var c := 1;
    command := command + ["-i"];
    command := command + [Quote(argv[c])];
    c := c + 1;
    command := command + ["-poly"];
    command := command + [Quote(argv[c])];
    c := c + 1;
    command := command + ["-distance"];
    command := command + [argv[c]];
    c := c + 1;
    assert command == Head(argv, exePath);
    ghost var head := command;
    command := AppendBare(command, argv[c]);
    c := c + 1;
    ghost var settings := Bare(argv[4]);
    assert command == head + settings;
    ghost var start := command;
    command := AppendSwitch(command, argv[c], "-match_all_above");
    c := c + 1;
    ghost var flags := Switch(argv[5], FlagNames[0]);
    assert command == start + flags;
    command := AppendSwitch(command, argv[c], "-match_all_below");
    c := c + 1;
    AppendAssoc(start, flags, Switch(argv[6], FlagNames[1]));
    flags := flags + Switch(argv[6], FlagNames[1]);
    assert command == start + flags;
    command := AppendSwitch(command, argv[c], "-remove_points");
    c := c + 1;
    AppendAssoc(start, flags, Switch(argv[7], FlagNames[2]));
    flags := flags + Switch(argv[7], FlagNames[2]);
    assert command == start + flags;
    command := AppendSwitch(command, argv[c], "-flag_as_withheld");
    c := c + 1;
    AppendAssoc(start, flags, Switch(argv[8], FlagNames[3]));
    flags := flags + Switch(argv[8], FlagNames[3]);
    assert command == start + flags;
    command := AppendSwitch(command, argv[c], "-flag_as_keypoint");
    c := c + 1;
    AppendAssoc(start, flags, Switch(argv[9], FlagNames[4]));
    flags := flags + Switch(argv[9], FlagNames[4]);
    assert command == start + flags;
    command := AppendSwitch(command, argv[c], "-flag_as_synthetic");
    c := c + 1;
    AppendAssoc(start, flags, Switch(argv[10], FlagNames[5]));
    flags := flags + Switch(argv[10], FlagNames[5]);
    assert command == start + flags;
    AppendAssoc(head, settings, Flags(argv));
    settings := settings + Flags(argv);
    assert command == head + settings;
    command := AppendClassify(command, argv[c], argv[c + 1]);
    c := c + 2;
    AppendAssoc(head, settings, Classify(argv[11], argv[12]));
    settings := settings + Classify(argv[11], argv[12]);
    assert command == head + settings;
    command := AppendFormat(command, argv[c]);
    c := c + 1;
    AppendAssoc(head, settings, FormatTokens(argv[13]));
    settings := settings + FormatTokens(argv[13]);
    assert command == head + settings;
    command := AppendQuotedPath(command, "-o", argv[c]);
    c := c + 1;
    AppendAssoc(head, settings, QuotedPath("-o", argv[14]));
    settings := settings + QuotedPath("-o", argv[14]);
    assert command == head + settings;
    command := AppendQuotedPath(command, "-odir", argv[c]);
    c := c + 1;
    AppendAssoc(head, settings, QuotedPath("-odir", argv[15]));
    settings := settings + QuotedPath("-odir", argv[15]);
    assert command == head + settings;
    command := AppendQuotedPath(command, "-odix", argv[c]);
    c := c + 1;
    AppendAssoc(head, settings, QuotedPath("-odix", argv[16]));
    settings := settings + QuotedPath("-odix", argv[16]);
    assert command == head + settings;
    command := AppendOptions(command, argv[c]);
  }

  /** The whole script. The executable is always the 64-bit one, whatever the
      second-to-last argument says, so the outcome is the tool's own return
      code and its output goes to the channel of that code. */
  method Run(argv: seq<string>, root: string, fs: set<string>, tool: seq<string> -> Execution)
    returns (exit: int, log: seq<Entry>)
    requires |argv| >= 18
    ensures log != [] && log[0] == Entry(Message, "Starting las3dpoly64 ...")
    ensures !Installed(root, fs, ExeName64) ==>
      exit == 1 && forall k :: 0 <= k < |log| ==> log[k].severity == Message
    ensures Installed(root, fs, ExeName64) ==>
      var e := tool(StripAll(Command(argv, ExePath(root, ExeName64))));
      |log| >= 4 && exit == e.returncode &&
      log[|log| - 2] == Entry(Status(exit), e.output) &&
      log[|log| - 1].severity == Status(exit)
  {
    var is64 := true;
    var exename := "las3dpoly";
    if is64 {
      exename := exename + "64";
    }
    assert exename == ExeName64;
    log := [Entry(Message, "Starting " + exename + " ...")];
    var exePath, found, located := Locate(exename, root, fs);
    log := log + located;
    if !found {
      exit := 1;
      return;
    }
    var command := BuildCommand(argv, exePath);
    var reported;
    exit, reported := Execute(is64, exename, command, tool);
    ByReturnCode(tool(StripAll(command)));
    log := log + reported;
    assert log[|log| - 2] == reported[2] && log[|log| - 1] == reported[3];
  }

  // Properties of the command line.

  /** The executable comes first, `-v` follows it exactly when the last
      argument is `"true"`, then always `-i`, `-poly` and `-distance` with
      their values, in that order; the additional options, when set, are the
      last tokens. */
  lemma Layout(argv: seq<string>, exePath: string)
    requires |argv| >= 18
    ensures var c := Command(argv, exePath);
      var h := if argv[|argv| - 1] == "true" then 2 else 1;
      c[0] == Quote(exePath) &&
      (c[1] == "-v" <==> argv[|argv| - 1] == "true") &&
      c[h..h + 6] == ["-i", Quote(argv[1]), "-poly", Quote(argv[2]), "-distance", argv[3]] &&
      (argv[17] != "#" ==> c[|c| - |Split(argv[17])|..] == Split(argv[17]))
  {
    Ends(Head(argv, exePath), Settings(argv), Options(argv[17]));
  }

  /** Each of the six flags is in the block exactly when its own field is
      `"true"`. */
  lemma FlagRule(argv: seq<string>, i: nat)
    requires |argv| >= 18 && i < 6
    ensures FlagNames[i] in Flags(argv) <==> argv[5 + i] == "true"
  {
  }

  /** `-classify` and the class, verbatim, exactly when the checkbox is set;
      the class field is read in either case, so the cursor moves by two. */
  lemma ClassifyRule(flag: string, code: string)
    ensures Classify(flag, code) == [] <==> flag != "true"
    ensures flag == "true" ==> Classify(flag, code) == ["-classify", code]
  {
  }

  /** The output formats: the binary formats give their one flag, `txt`
      gives `-otxt` alone, `xyzi` and `txyzi` give `-otxt -oparse` and the
      format itself, and the unset value or any other text gives nothing. */
  lemma FormatTable(v: string)
    ensures var r := FormatTokens(v);
      (r == [] <==> v !in {"las", "laz", "bin", "txt", "xyzi", "txyzi"}) &&
      (v == "las" ==> r == ["-olas"]) && (v == "laz" ==> r == ["-olaz"]) &&
      (v == "bin" ==> r == ["-obin"]) && (v == "txt" ==> r == ["-otxt"]) &&
      (v in {"xyzi", "txyzi"} ==> r == ["-otxt", "-oparse", v])
  {
  }
}
