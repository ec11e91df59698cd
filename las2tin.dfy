/** las2tin: triangulates a LiDAR file into a TIN.

    Parameter vector (after the script path at index 0):
    1 input file, 2 concavity, 3 points to triangulate, 4 lakes, 5 creeks,
    6 output format, 7 output file, 8 output folder, 9 output appendix,
    10 additional options; then the "use 32 bit" and "verbose" checkboxes as
    the last two arguments. */
module Las2Tin {
  import opened Text
  import opened Fields
  import opened Toolbox
  import Las2Iso

  /** The classification codes kept for each choice, in the order passed on;
      empty for a choice the table does not list. */
  function ClassCodes(v: string): seq<string>
  {
    if v == "ground points only" then ["2"]
    else if v == "ground and keypoints" then ["2", "8"]
    else if v == "ground and buildings" then ["2", "6"]
    else if v == "ground and vegetation" then ["2", "3", "4", "5"]
    else if v == "ground and objects" then ["2", "3", "4", "5", "6"]
    else []
  }

  /** The tokens appended for the choice: `-keep_class`, the codes and
      `-extra_pass` for a listed choice, nothing otherwise. */
  function ClassTokens(v: string): seq<string>
  {
    if v == "ground points only" then ["-keep_class", "2", "-extra_pass"]
    else if v == "ground and keypoints" then ["-keep_class", "2", "8", "-extra_pass"]
    else if v == "ground and buildings" then ["-keep_class", "2", "6", "-extra_pass"]
    else if v == "ground and vegetation" then ["-keep_class", "2", "3", "4", "5", "-extra_pass"]
    else if v == "ground and objects" then ["-keep_class", "2", "3", "4", "5", "6", "-extra_pass"]
    else []
  }

  /** The executable, `-v` when verbose, and the input file. */
  function Head(argv: seq<string>, exePath: string): seq<string>
    requires |argv| >= 11
  {
    Lead(exePath, argv[|argv| - 1]) + ["-i", Quote(argv[1])]
  }

  /** The tokens of the fields between the input and the additional options,
      in order; the output block starts at index 6. */
  function Settings(argv: seq<string>): seq<string>
    requires |argv| >= 11
  {
    Decimal("-concavity", "50", argv[2]) +
    ClassTokens(argv[3]) +
    QuotedPath("-lakes", argv[4]) +
    QuotedPath("-creeks", argv[5]) +
    FormatSuffix(argv[6]) +
    QuotedPath("-o", argv[7]) +
    QuotedPath("-odir", argv[8]) +
    QuotedPath("-odix", argv[9])
  }

  /** The command line, token by token, from the parameter vector. */
  function Command(argv: seq<string>, exePath: string): seq<string>
    requires |argv| >= 11
  {
    Head(argv, exePath) + Settings(argv) + Options(argv[10])
  }

  /** Appends the classes to keep. */
  method AppendClass(command: seq<string>, v: string) returns (extended: seq<string>)
    ensures extended == command + ClassTokens(v)
  {
    extended := command;
    if v == "ground points only" {
      extended := extended + ["-keep_class"];
      extended := extended + ["2"];
      extended := extended + ["-extra_pass"];
    } else if v == "ground and keypoints" {
      extended := extended + ["-keep_class"];
      extended := extended + ["2"];
      extended := extended + ["8"];
      extended := extended + ["-extra_pass"];
    } else if v == "ground and buildings" {
      extended := extended + ["-keep_class"];
      extended := extended + ["2"];
      extended := extended + ["6"];
      extended := extended + ["-extra_pass"];
    } else if v == "ground and vegetation" {
      extended := extended + ["-keep_class"];
      extended := extended + ["2"];
      extended := extended + ["3"];
      extended := extended + ["4"];
      extended := extended + ["5"];
      extended := extended + ["-extra_pass"];
    } else if v == "ground and objects" {
      extended := extended + ["-keep_class"];
      extended := extended + ["2"];
      extended := extended + ["3"];
      extended := extended + ["4"];
      extended := extended + ["5"];
      extended := extended + ["6"];
      extended := extended + ["-extra_pass"];
    }
  }

  /** Builds the command line by appending tokens field after field. */
  method BuildCommand(argv: seq<string>, exePath: string) returns (command: seq<string>)
    requires |argv| >= 11
    ensures command == Command(argv, exePath)
  {
    command := [Quote(exePath)];
    command := AppendSwitch(command, argv[|argv| - 1], "-v");
    command := command + ["-i"];
    command := command + [Quote(argv[1])];
    assert command == Head(argv, exePath);
    ghost var head := command;
    command := AppendDecimal(command, "-concavity", "50", argv[2]);
    ghost var settings := Decimal("-concavity", "50", argv[2]);
    assert command == head + settings;
    command := AppendClass(command, argv[3]);
    AppendAssoc(head, settings, ClassTokens(argv[3]));
    settings := settings + ClassTokens(argv[3]);
    assert command == head + settings;
    command := AppendQuotedPath(command, "-lakes", argv[4]);
    AppendAssoc(head, settings, QuotedPath("-lakes", argv[4]));
    settings := settings + QuotedPath("-lakes", argv[4]);
    assert command == head + settings;
    command := AppendQuotedPath(command, "-creeks", argv[5]);
    AppendAssoc(head, settings, QuotedPath("-creeks", argv[5]));
    settings := settings + QuotedPath("-creeks", argv[5]);
    assert command == head + settings;
    var out := 6;
    command := AppendFormatSuffix(command, argv[out]);
    AppendAssoc(head, settings, FormatSuffix(argv[6]));
    settings := settings + FormatSuffix(argv[6]);
    assert command == head + settings;
    command := AppendQuotedPath(command, "-o", argv[out + 1]);
    AppendAssoc(head, settings, QuotedPath("-o", argv[7]));
    settings := settings + QuotedPath("-o", argv[7]);
    assert command == head + settings;
    command := AppendQuotedPath(command, "-odir", argv[out + 2]);
    AppendAssoc(head, settings, QuotedPath("-odir", argv[8]));
    settings := settings + QuotedPath("-odir", argv[8]);
    assert command == head + settings;
    command := AppendQuotedPath(command, "-odix", argv[out + 3]);
    AppendAssoc(head, settings, QuotedPath("-odix", argv[9]));
    settings := settings + QuotedPath("-odix", argv[9]);
    assert command == head + settings;
    command := AppendOptions(command, argv[out + 4]);
  }

  /** The whole script: choose the executable, find it, build and show the
      command line, run the tool on the stripped tokens and report. */
  method Run(argv: seq<string>, root: string, fs: set<string>, tool: seq<string> -> Execution)
    returns (exit: int, log: seq<Entry>)
    requires |argv| >= 11
    ensures var exename := ExeName("las2tin", Is64(argv));
      log != [] && log[0] == Entry(Message, "Starting " + exename + " ...") &&
      (!Installed(root, fs, exename) ==>
        exit == 1 && forall k :: 0 <= k < |log| ==> log[k].severity == Message) &&
      (Installed(root, fs, exename) ==>
        exit == ExitCode(Is64(argv), tool(StripAll(Command(argv, ExePath(root, exename))))) &&
        log[|log| - 1].severity == Status(exit))
  {
    var is64 := argv[|argv| - 2] != "true";
    var exename := "las2tin";
    if is64 {
      exename := exename + "64";
    }
    log := [Entry(Message, "Starting " + exename + " ...")];
    var exePath, found, located := Locate(exename, root, fs);
    log := log + located;
    if !found {
      exit := 1;
      return;
    }
    var command := BuildCommand(argv, exePath);
    var reported;
    exit, reported := Execute(is64, exename, command, tool);
    log := log + reported;
  }

  // Properties of the command line.

  /** The executable comes first, `-v` follows it exactly when the last
      argument is `"true"`, then always `-i` and the quoted input; the
      additional options, when set, are the last tokens. */
  lemma Layout(argv: seq<string>, exePath: string)
    requires |argv| >= 11
    ensures var c := Command(argv, exePath);
      var h := if argv[|argv| - 1] == "true" then 2 else 1;
      c[0] == Quote(exePath) &&
      (c[1] == "-v" <==> argv[|argv| - 1] == "true") &&
      c[h..h + 2] == ["-i", Quote(argv[1])] &&
      (argv[10] != "#" ==> c[|c| - |Split(argv[10])|..] == Split(argv[10]))
  {
    Ends(Head(argv, exePath), Settings(argv), Options(argv[10]));
  }

  /** A listed choice gives `-keep_class`, then class codes in strictly
      ascending order starting with ground (2), then `-extra_pass`; any other
      choice gives nothing. */
  lemma ClassTable(v: string)
    ensures var codes := ClassCodes(v);
      var r := ClassTokens(v);
      (codes == [] ==> r == []) &&
      (codes != [] ==>
        |r| == |codes| + 2 && r[0] == "-keep_class" && r[|r| - 1] == "-extra_pass" &&
        r[1..|r| - 1] == codes && codes[0] == "2" &&
        forall i, j :: 0 <= i < j < |codes| ==> |codes[i]| == 1 && codes[i][0] < codes[j][0])
  {
    var codes := ClassCodes(v);
    if codes != [] {
      var r := ClassTokens(v);
      assert r == ["-keep_class"] + codes + ["-extra_pass"];
      assert r[1..|r| - 1] == codes;
    }
  }

  /** The choice `"ground points only"` keeps class 2; las2iso's wording of
      the same choice, `"only ground points"`, is not in this table and keeps
      every class here, and the other way round. */
  lemma GroundOnlyWording()
    ensures ClassTokens("ground points only") == ["-keep_class", "2", "-extra_pass"]
    ensures ClassTokens("only ground points") == []
    ensures Las2Iso.ClassTokens("only ground points") == ["-keep_class", "2", "-extra_pass"]
    ensures Las2Iso.ClassTokens("ground points only") == []
  {
  }
}
