/** las2iso: extracts elevation contours from a LiDAR file.

    Parameter vector (after the script path at index 0):
    1 input file, 2 concavity, 3 points to contour, 4 how isovalues are
    chosen, 5 the number or value for that choice, 6 smoothing, 7 bump
    simplification, 8 short-line cleaning, 9 lakes, 10 creeks, 11 output
    format, 12 output file, 13 output folder, 14 output appendix, 15
    additional options; then the "use 32 bit" and "verbose" checkboxes as the
    last two arguments. */
module Las2Iso {
  import opened Text
  import opened Fields
  import opened Toolbox

  /** The classification codes kept for each choice, in the order passed on;
      empty for a choice the table does not list. */
  function ClassCodes(v: string): seq<string>
  {
    if v == "only ground points" then ["2"]
    else if v == "ground and keypoints" then ["2", "8"]
    else if v == "ground and buildings" then ["2", "6"]
    else if v == "ground and vegetation" then ["2", "3", "4", "5"]
    else if v == "ground and objects" then ["2", "3", "4", "5", "6"]
    else []
  }

  /** The tokens appended for the choice: `-keep_class`, the codes and
      `-extra_pass` for a listed choice, nothing otherwise. */
  function ClassTokens(v: string): seq<string>
  {
    if v == "only ground points" then ["-keep_class", "2", "-extra_pass"]
    else if v == "ground and keypoints" then ["-keep_class", "2", "8", "-extra_pass"]
    else if v == "ground and buildings" then ["-keep_class", "2", "6", "-extra_pass"]
    else if v == "ground and vegetation" then ["-keep_class", "2", "3", "4", "5", "-extra_pass"]
    else if v == "ground and objects" then ["-keep_class", "2", "3", "4", "5", "6", "-extra_pass"]
    else []
  }

  const EquallySpaced := "a number of x equally spaced contours"
  const EveryUnits := "a contour every x elevation units"
  const IsoValue := "the contour with the iso-value x"

  /** The isovalue choice: a count (omitted at the default of 10, passed on
      as typed), a spacing or a single value (both dot-normalised). */
  function IsoTokens(mode: string, v: string): seq<string>
  {
    if mode == EquallySpaced then Verbatim("-iso_number", "10", v)
    else if mode == EveryUnits then ["-iso_every", DotDecimal(v)]
    else if mode == IsoValue then ["-iso_value", DotDecimal(v)]
    else []
  }

  /** The executable, `-v` when verbose, and the input file. */
  function Head(argv: seq<string>, exePath: string): seq<string>
    requires |argv| >= 16
  {
    Lead(exePath, argv[|argv| - 1]) + ["-i", Quote(argv[1])]
  }

  /** The tokens of the fields between the input and the additional options,
      in order; the output block starts at index 11. */
  function Settings(argv: seq<string>): seq<string>
    requires |argv| >= 16
  {
    Decimal("-concavity", "50", argv[2]) +
    ClassTokens(argv[3]) +
    IsoTokens(argv[4], argv[5]) +
    Verbatim("-smooth", "do not smooth", argv[6]) +
    Verbatim("-simplify", "do not simplify", argv[7]) +
    Verbatim("-clean", "do not clean", argv[8]) +
    QuotedPath("-lakes", argv[9]) +
    QuotedPath("-creeks", argv[10]) +
    FormatSuffix(argv[11]) +
    QuotedPath("-o", argv[12]) +
    QuotedPath("-odir", argv[13]) +
    QuotedPath("-odix", argv[14])
  }

  /** The command line, token by token, from the parameter vector. */
  function Command(argv: seq<string>, exePath: string): seq<string>
    requires |argv| >= 16
  {
    Head(argv, exePath) + Settings(argv) + Options(argv[15])
  }

  /** Appends the classes to keep. */
  method AppendClass(command: seq<string>, v: string) returns (extended: seq<string>)
    ensures extended == command + ClassTokens(v)
  {
    extended := command;
    if v == "only ground points" {
      extended := extended + ["-keep_class"];
      extended := extended + ["2"];
      extended := extended + ["-extra_pass"];
    } else if v == "ground and keypoints" {
      extended := extended + ["-keep_class"];
      extended := extended + ["2"];
      extended := extended + ["8"];
      extended := extended + ["-extra_pass"];
    } else if v == "ground and buildings" {
      extended := extended + ["-keep_class"];
      extended := extended + ["2"];
      extended := extended + ["6"];
      extended := extended + ["-extra_pass"];
    } else if v == "ground and vegetation" {
      extended := extended + ["-keep_class"];
      extended := extended + ["2"];
      extended := extended + ["3"];
      extended := extended + ["4"];
      extended := extended + ["5"];
      extended := extended + ["-extra_pass"];
    } else if v == "ground and objects" {
      extended := extended + ["-keep_class"];
      extended := extended + ["2"];
      extended := extended + ["3"];
      extended := extended + ["4"];
      extended := extended + ["5"];
      extended := extended + ["6"];
      extended := extended + ["-extra_pass"];
    }
  }

  /** Appends the isovalue flags. */
  method AppendIso(command: seq<string>, mode: string, v: string) returns (extended: seq<string>)
    ensures extended == command + IsoTokens(mode, v)
  {
    extended := command;
    if mode == "a number of x equally spaced contours" {
      if v != "10" {
        extended := extended + ["-iso_number"];
        extended := extended + [v];
      }
    } else if mode == "a contour every x elevation units" {
      extended := extended + ["-iso_every"];
      extended := extended + [DotDecimal(v)];
    } else if mode == "the contour with the iso-value x" {
      extended := extended + ["-iso_value"];
      extended := extended + [DotDecimal(v)];
    }
  }

  /** Builds the command line by appending tokens field after field. */
  method BuildCommand(argv: seq<string>, exePath: string) returns (command: seq<string>)
    requires |argv| >= 16
    ensures command == Command(argv, exePath)
  {
    command := [Quote(exePath)];
    command := AppendSwitch(command, argv[|argv| - 1], "-v");
    command := command + ["-i"];
    command := command + [Quote(argv[1])];
    assert command == Head(argv, exePath);
    ghost var head := command;
    command := AppendDecimal(command, "-concavity", "50", argv[2]);
    ghost var settings := Decimal("-concavity", "50", argv[2]);
    assert command == head + settings;
    command := AppendClass(command, argv[3]);
    AppendAssoc(head, settings, ClassTokens(argv[3]));
    settings := settings + ClassTokens(argv[3]);
    assert command == head + settings;
    command := AppendIso(command, argv[4], argv[5]);
    AppendAssoc(head, settings, IsoTokens(argv[4], argv[5]));
    settings := settings + IsoTokens(argv[4], argv[5]);
    assert command == head + settings;
    command := AppendVerbatim(command, "-smooth", "do not smooth", argv[6]);
    AppendAssoc(head, settings, Verbatim("-smooth", "do not smooth", argv[6]));
    settings := settings + Verbatim("-smooth", "do not smooth", argv[6]);
    assert command == head + settings;
    command := AppendVerbatim(command, "-simplify", "do not simplify", argv[7]);
    AppendAssoc(head, settings, Verbatim("-simplify", "do not simplify", argv[7]));
    settings := settings + Verbatim("-simplify", "do not simplify", argv[7]);
    assert command == head + settings;
    command := AppendVerbatim(command, "-clean", "do not clean", argv[8]);
    AppendAssoc(head, settings, Verbatim("-clean", "do not clean", argv[8]));
    settings := settings + Verbatim("-clean", "do not clean", argv[8]);
    assert command == head + settings;
    command := AppendQuotedPath(command, "-lakes", argv[9]);
    AppendAssoc(head, settings, QuotedPath("-lakes", argv[9]));
    settings := settings + QuotedPath("-lakes", argv[9]);
    assert command == head + settings;
    command := AppendQuotedPath(command, "-creeks", argv[10]);
    AppendAssoc(head, settings, QuotedPath("-creeks", argv[10]));
    settings := settings + QuotedPath("-creeks", argv[10]);
    assert command == head + settings;
    var out := 11;
    command := AppendFormatSuffix(command, argv[out]);
    AppendAssoc(head, settings, FormatSuffix(argv[11]));
    settings := settings + FormatSuffix(argv[11]);
    assert command == head + settings;
    command := AppendQuotedPath(command, "-o", argv[out + 1]);
    AppendAssoc(head, settings, QuotedPath("-o", argv[12]));
    settings := settings + QuotedPath("-o", argv[12]);
    assert command == head + settings;
    command := AppendQuotedPath(command, "-odir", argv[out + 2]);
    AppendAssoc(head, settings, QuotedPath("-odir", argv[13]));
    settings := settings + QuotedPath("-odir", argv[13]);
    assert command == head + settings;
    command := AppendQuotedPath(command, "-odix", argv[out + 3]);
    AppendAssoc(head, settings, QuotedPath("-odix", argv[14]));
    settings := settings + QuotedPath("-odix", argv[14]);
    assert command == head + settings;
    command := AppendOptions(command, argv[out + 4]);
  }

  /** The whole script: choose the executable, find it, build and show the
      command line, run the tool on the stripped tokens and report. */
  method Run(argv: seq<string>, root: string, fs: set<string>, tool: seq<string> -> Execution)
    returns (exit: int, log: seq<Entry>)
    requires |argv| >= 16
    ensures var exename := ExeName("las2iso", Is64(argv));
      log != [] && log[0] == Entry(Message, "Starting " + exename + " ...") &&
      (!Installed(root, fs, exename) ==>
        exit == 1 && forall k :: 0 <= k < |log| ==> log[k].severity == Message) &&
      (Installed(root, fs, exename) ==>
        exit == ExitCode(Is64(argv), tool(StripAll(Command(argv, ExePath(root, exename))))) &&
        log[|log| - 1].severity == Status(exit))
  {
    var is64 := argv[|argv| - 2] != "true";
    var exename := "las2iso";
    if is64 {
      exename := exename + "64";
    }
    log := [Entry(Message, "Starting " + exename + " ...")];
    var exePath, found, located := Locate(exename, root, fs);
    log := log + located;
    if !found {
      exit := 1;
      return;
    }
    var command := BuildCommand(argv, exePath);
    var reported;
    exit, reported := Execute(is64, exename, command, tool);
    log := log + reported;
  }

  // Properties of the command line.

  /** The executable comes first, `-v` follows it exactly when the last
      argument is `"true"`, then always `-i` and the quoted input; the
      additional options, when set, are the last tokens. */
  lemma Layout(argv: seq<string>, exePath: string)
    requires |argv| >= 16
    ensures var c := Command(argv, exePath);
      var h := if argv[|argv| - 1] == "true" then 2 else 1;
      c[0] == Quote(exePath) &&
      (c[1] == "-v" <==> argv[|argv| - 1] == "true") &&
      c[h..h + 2] == ["-i", Quote(argv[1])] &&
      (argv[15] != "#" ==> c[|c| - |Split(argv[15])|..] == Split(argv[15]))
  {
    Ends(Head(argv, exePath), Settings(argv), Options(argv[15]));
  }

  /** A listed choice gives `-keep_class`, then class codes in strictly
      ascending order starting with ground (2), then `-extra_pass`; any other
      choice gives nothing. */
  lemma ClassTable(v: string)
    ensures var codes := ClassCodes(v);
      var r := ClassTokens(v);
      (codes == [] ==> r == []) &&
      (codes != [] ==>
        |r| == |codes| + 2 && r[0] == "-keep_class" && r[|r| - 1] == "-extra_pass" &&
        r[1..|r| - 1] == codes && codes[0] == "2" &&
        forall i, j :: 0 <= i < j < |codes| ==> |codes[i]| == 1 && codes[i][0] < codes[j][0])
  {
    var codes := ClassCodes(v);
    if codes != [] {
      var r := ClassTokens(v);
      assert r == ["-keep_class"] + codes + ["-extra_pass"];
      assert r[1..|r| - 1] == codes;
    }
  }

  /** Equally spaced contours: nothing at the default count of 10, otherwise
      `-iso_number` and the count exactly as typed, commas included. A
      spacing or a single value is always passed on, dot-normalised. Any
      other choice gives nothing. */
  lemma IsoRule(mode: string, v: string)
    ensures mode == EquallySpaced ==>
      (IsoTokens(mode, v) == [] <==> v == "10") &&
      (v != "10" ==> IsoTokens(mode, v) == ["-iso_number", v])
    ensures mode == EveryUnits ==>
      IsoTokens(mode, v) == ["-iso_every", DotDecimal(v)] && ',' !in IsoTokens(mode, v)[1]
    ensures mode == IsoValue ==>
      IsoTokens(mode, v) == ["-iso_value", DotDecimal(v)] && ',' !in IsoTokens(mode, v)[1]
    ensures mode !in {EquallySpaced, EveryUnits, IsoValue} ==> IsoTokens(mode, v) == []
  {
    DotDecimalNormal(v);
  }

  /** The parameter vector of the worked example: contours of the ground
      points of `in.las` with every other field at its default or unset,
      LAZ output, the 32-bit build and no verbose output. */
  const Example: seq<string> := [
    "las2iso.py", "in.las", "50", "only ground points",
    "a number of x equally spaced contours", "10", "do not smooth",
    "do not simplify", "do not clean", "#", "#", "laz", "#", "#", "#", "#",
    "true", "false"]

  /** The example gives the 32-bit build and exactly the input, the ground
      class with its extra pass, and the LAZ format: no `-iso_number` (the
      count is the default 10) and no `-v`. */
  lemma ExampleCommand(exePath: string)
    ensures !Is64(Example)
    ensures Command(Example, exePath) ==
      [Quote(exePath), "-i", "\"in.las\"", "-keep_class", "2", "-extra_pass", "-olaz"]
    ensures "-iso_number" !in Command(Example, exePath) && "-v" !in Command(Example, exePath)
  {
    var c := Command(Example, exePath);
    assert Example[1] == "in.las" && Example[|Example| - 1] == "false";
    assert Switch(Example[|Example| - 1], "-v") == [];
    assert Quote("in.las") == "\"in.las\"";
    assert Head(Example, exePath) == [Quote(exePath), "-i", "\"in.las\""];
    assert Decimal("-concavity", "50", Example[2]) == [];
    assert ClassTokens(Example[3]) == ["-keep_class", "2", "-extra_pass"];
    assert IsoTokens(Example[4], Example[5]) == [];
    assert Verbatim("-smooth", "do not smooth", Example[6]) == [];
    assert Verbatim("-simplify", "do not simplify", Example[7]) == [];
    assert Verbatim("-clean", "do not clean", Example[8]) == [];
    assert QuotedPath("-lakes", Example[9]) == [] && QuotedPath("-creeks", Example[10]) == [];
    assert Example[11] == "laz";
    assert "-o" + "laz" == "-olaz";
    assert FormatSuffix(Example[11]) == ["-olaz"];
    assert QuotedPath("-o", Example[12]) == [] && QuotedPath("-odir", Example[13]) == [];
    assert QuotedPath("-odix", Example[14]) == [] && Options(Example[15]) == [];
    assert Settings(Example) == ["-keep_class", "2", "-extra_pass", "-olaz"];
    assert c == [Quote(exePath), "-i", "\"in.las\"", "-keep_class", "2", "-extra_pass", "-olaz"];
    assert Quote(exePath)[0] == '"';
  }
}
