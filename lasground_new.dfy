/** lasground_new (production toolbox): classifies a folder of LiDAR files
    into ground and non-ground points.

    Parameter vector (after the script path at index 0), read through a
    cursor that starts at 1:
    1 input folder, 2 wildcards, 3 merged, 4 airborne, 5 horizontal feet,
    6 vertical feet, 7 terrain type, 8 granularity, 9 spike, 10 compute
    height, 11 replace z, 12 store in user data, 13 output format, 14 output
    file, 15 output folder, 16 output appendix, 17 cores, 18 additional
    options; then the "use 32 bit" and "verbose" checkboxes as the last two
    arguments. */
module LasGroundNew {
  import opened Text
  import opened Fields
  import opened Toolbox

  /** The one inverted checkbox: `-not_airborne` unless the field is `"true"`. */
  function NotAirborne(v: string): seq<string>
  {
    if v != "true" then ["-not_airborne"] else []
  }

  /** A labelled preset such as `25=city`: the flag and the number before
      the first `=`, unless the field is unset. */
  function Preset(flag: string, v: string): seq<string>
  {
    if v == Unset then [] else [flag, BeforeFirst(v, '=')]
  }

  /** The output format table. */
  function FormatTokens(v: string): seq<string>
  {
    if v == "las" then ["-olas"]
    else if v == "laz" then ["-olaz"]
    else if v == "bin" then ["-obin"]
    else if v == "xyzc" then ["-otxt", "-oparse", "xyzc"]
    else if v == "xyzci" then ["-otxt", "-oparse", "xyzci"]
    else if v == "txyzc" then ["-otxt", "-oparse", "txyzc"]
    else if v == "txyzci" then ["-otxt", "-oparse", "txyzci"]
    else []
  }

  /** The executable, `-v` when verbose, and one `-i` pair per wildcard. */
  function Head(argv: seq<string>, exePath: string): seq<string>
    requires |argv| >= 19
  {
    Lead(exePath, argv[|argv| - 1]) + Inputs(argv[1], Split(argv[2]))
  }

  /** The tokens of the fields between the inputs and the additional options, in order. */
  function Settings(argv: seq<string>): seq<string>
    requires |argv| >= 19
  {
    Switch(argv[3], "-merged") +
    NotAirborne(argv[4]) +
    Switch(argv[5], "-feet") +
    Switch(argv[6], "-elevation_feet") +
    Preset("-step", argv[7]) +
    Preset("-sub", argv[8]) +
    Verbatim("-spike", "0", argv[9]) +
    Switch(argv[10], "-compute_height") +
    Switch(argv[11], "-replace_z") +
    Switch(argv[12], "-store_in_user_data") +
    FormatTokens(argv[13]) +
    QuotedPath("-o", argv[14]) +
    QuotedPath("-odir", argv[15]) +
    QuotedPath("-odix", argv[16]) +
    Verbatim("-cores", "1", argv[17])
  }

  /** The command line, token by token, from the parameter vector. */
  function Command(argv: seq<string>, exePath: string): seq<string>
    requires |argv| >= 19
  {
    Head(argv, exePath) + Settings(argv) + Options(argv[18])
  }

  /** Appends `-not_airborne` unless the airborne checkbox is set. */
  method AppendNotAirborne(command: seq<string>, v: string) returns (extended: seq<string>)
    ensures extended == command + NotAirborne(v)
  {
    extended := command;
    if v != "true" {
      extended := extended + ["-not_airborne"];
    }
  }

  /** Appends the flag and the number of a labelled preset. */
  method AppendPreset(command: seq<string>, flag: string, v: string) returns (extended: seq<string>)
    ensures extended == command + Preset(flag, v)
  {
    extended := command;
    if v != "#" {
      extended := extended + [flag];
      extended := extended + [BeforeFirst(v, '=')];
    }
  }

  /** Appends the output format flags. */
  method AppendFormat(command: seq<string>, v: string) returns (extended: seq<string>)
    ensures extended == command + FormatTokens(v)
  {
    extended := command;
    if v != "#" {
      if v == "las" {
        extended := extended + ["-olas"];
      } else if v == "laz" {
        extended := extended + ["-olaz"];
      } else if v == "bin" {
        extended := extended + ["-obin"];
      } else if v == "xyzc" {
        extended := extended + ["-otxt"];
        extended := extended + ["-oparse"];
        extended := extended + ["xyzc"];
      } else if v == "xyzci" {
        extended := extended + ["-otxt"];
        extended := extended + ["-oparse"];
        extended := extended + ["xyzci"];
      } else if v == "txyzc" {
        extended := extended + ["-otxt"];
        extended := extended + ["-oparse"];
        extended := extended + ["txyzc"];
      } else if v == "txyzci" {
        extended := extended + ["-otxt"];
        extended := extended + ["-oparse"];
        extended := extended + ["txyzci"];
      }
    }
  }

  /** Builds the command line, moving a cursor over the parameter vector: two
      places for the inputs and one for every other field. */
  method BuildCommand(argv: seq<string>, exePath: string) returns (command: seq<string>)
    requires |argv| >= 19
    ensures command == Command(argv, exePath)
  {
    command := [Quote(exePath)];
    command := AppendSwitch(command, argv[|argv| - 1], "-v");
    var c := 1;
    command := AppendInputs(command, argv[c], argv[c + 1]);
    c := c + 2;
    assert command == Head(argv, exePath);
    ghost var head := command;
    command := AppendSwitch(command, argv[c], "-merged");
    c := c + 1;
    ghost var settings := Switch(argv[3], "-merged");
    assert command == head + settings;
    command := AppendNotAirborne(command, argv[c]);
    c := c + 1;
    AppendAssoc(head, settings, NotAirborne(argv[4]));
    settings := settings + NotAirborne(argv[4]);
    assert command == head + settings;
    command := AppendSwitch(command, argv[c], "-feet");
    c := c + 1;
    AppendAssoc(head, settings, Switch(argv[5], "-feet"));
    settings := settings + Switch(argv[5], "-feet");
    assert command == head + settings;
    command := AppendSwitch(command, argv[c], "-elevation_feet");
    c := c + 1;
    AppendAssoc(head, settings, Switch(argv[6], "-elevation_feet"));
    settings := settings + Switch(argv[6], "-elevation_feet");
    assert command == head + settings;
    command := AppendPreset(command, "-step", argv[c]);
    c := c + 1;
    AppendAssoc(head, settings, Preset("-step", argv[7]));
    settings := settings + Preset("-step", argv[7]);
    assert command == head + settings;
    command := AppendPreset(command, "-sub", argv[c]);
    c := c + 1;
    AppendAssoc(head, settings, Preset("-sub", argv[8]));
    settings := settings + Preset("-sub", argv[8]);
    assert command == head + settings;
    command := AppendVerbatim(command, "-spike", "0", argv[c]);
    c := c + 1;
    AppendAssoc(head, settings, Verbatim("-spike", "0", argv[9]));
    settings := settings + Verbatim("-spike", "0", argv[9]);
    assert command == head + settings;
    command := AppendSwitch(command, argv[c], "-compute_height");
    c := c + 1;
    AppendAssoc(head, settings, Switch(argv[10], "-compute_height"));
    settings := settings + Switch(argv[10], "-compute_height");
    assert command == head + settings;
    command := AppendSwitch(command, argv[c], "-replace_z");
    c := c + 1;
    AppendAssoc(head, settings, Switch(argv[11], "-replace_z"));
    settings := settings + Switch(argv[11], "-replace_z");
    assert command == head + settings;
    command := AppendSwitch(command, argv[c], "-store_in_user_data");
    c := c + 1;
    AppendAssoc(head, settings, Switch(argv[12], "-store_in_user_data"));
    settings := settings + Switch(argv[12], "-store_in_user_data");
    assert command == head + settings;
    command := AppendFormat(command, argv[c]);
    c := c + 1;
    AppendAssoc(head, settings, FormatTokens(argv[13]));
    settings := settings + FormatTokens(argv[13]);
    assert command == head + settings;
    command := AppendQuotedPath(command, "-o", argv[c]);
    c := c + 1;
    AppendAssoc(head, settings, QuotedPath("-o", argv[14]));
    settings := settings + QuotedPath("-o", argv[14]);
    assert command == head + settings;
    command := AppendQuotedPath(command, "-odir", argv[c]);
    c := c + 1;
    AppendAssoc(head, settings, QuotedPath("-odir", argv[15]));
    settings := settings + QuotedPath("-odir", argv[15]);
    assert command == head + settings;
    command := AppendQuotedPath(command, "-odix", argv[c]);
    c := c + 1;
    AppendAssoc(head, settings, QuotedPath("-odix", argv[16]));
    settings := settings + QuotedPath("-odix", argv[16]);
    assert command == head + settings;
    command := AppendVerbatim(command, "-cores", "1", argv[c]);
    c := c + 1;
    AppendAssoc(head, settings, Verbatim("-cores", "1", argv[17]));
    settings := settings + Verbatim("-cores", "1", argv[17]);
    assert command == head + settings;
    command := AppendOptions(command, argv[c]);
  }

  /** The whole script: choose the executable, find it, build and show the
      command line, run the tool on the stripped tokens and report. */
  method Run(argv: seq<string>, root: string, fs: set<string>, tool: seq<string> -> Execution)
    returns (exit: int, log: seq<Entry>)
    requires |argv| >= 19
    ensures var exename := ExeName("lasground_new", Is64(argv));
      log != [] && log[0] == Entry(Message, "Starting " + exename + " ...") &&
      (!Installed(root, fs, exename) ==>
        exit == 1 && forall k :: 0 <= k < |log| ==> log[k].severity == Message) &&
      (Installed(root, fs, exename) ==>
        exit == ExitCode(Is64(argv), tool(StripAll(Command(argv, ExePath(root, exename))))) &&
        log[|log| - 1].severity == Status(exit))
  {
    var is64 := argv[|argv| - 2] != "true";
    var exename := "lasground_new";
    if is64 {
      exename := exename + "64";
    }
    log := [Entry(Message, "Starting " + exename + " ...")];
    var exePath, found, located := Locate(exename, root, fs);
    log := log + located;
    if !found {
      exit := 1;
      return;
    }
    var command := BuildCommand(argv, exePath);
    var reported;
    exit, reported := Execute(is64, exename, command, tool);
    log := log + reported;
  }

  // Properties of the command line.

  /** The k-th wildcard gives the k-th `-i` pair right after the executable
      and the optional `-v`; the additional options, when set, are the last
      tokens. */
  lemma Layout(argv: seq<string>, exePath: string, k: nat)
    requires |argv| >= 19 && k < |Split(argv[2])|
    ensures var c := Command(argv, exePath);
      var h := if argv[|argv| - 1] == "true" then 2 else 1;
      h + 2 * k + 1 < |c| && c[h + 2 * k] == "-i" &&
      c[h + 2 * k + 1] == Quote(argv[1] + "\\" + Split(argv[2])[k]) &&
      (argv[18] != "#" ==> c[|c| - |Split(argv[18])|..] == Split(argv[18]))
  {
    var head := Head(argv, exePath);
    LeadInputsAt(exePath, argv[|argv| - 1], argv[1], Split(argv[2]), k);
    Ends(head, Settings(argv), Options(argv[18]));
  }

  /** `-not_airborne` is the inverse of a checkbox: present exactly when the
      field is not `"true"`. */
  lemma AirborneRule(v: string)
    ensures NotAirborne(v) == [] <==> v == "true"
    ensures NotAirborne(v) == [] <==> Switch(v, "-not_airborne") == ["-not_airborne"]
  {
  }

  /** A preset is omitted exactly when unset; otherwise its value is the part
      of the label before the first `=`, the whole label when it has none. */
  lemma PresetRule(flag: string, v: string)
    ensures Preset(flag, v) == [] <==> v == Unset
    ensures v != Unset ==>
      var n := Preset(flag, v)[1];
      |Preset(flag, v)| == 2 && Preset(flag, v)[0] == flag &&
      n <= v && '=' !in n && (|n| < |v| ==> v[|n|] == '=') &&
      ('=' !in v ==> n == v)
  {
    if v != Unset && '=' !in v {
      var n := BeforeFirst(v, '=');
      assert |n| == |v|;
    }
  }

  /** Examples: the terrain label `25=city` gives `-step 25`, the granularity
      label `9=hyper_fine` gives `-sub 9`. */
  lemma PresetExamples()
    ensures Preset("-step", "25=city") == ["-step", "25"]
    ensures Preset("-sub", "9=hyper_fine") == ["-sub", "9"]
  {
    assert BeforeFirst("=city", '=') == [];
    assert BeforeFirst("5=city", '=') == "5";
    assert BeforeFirst("25=city", '=') == "25";
    assert BeforeFirst("=hyper_fine", '=') == [];
    assert BeforeFirst("9=hyper_fine", '=') == "9";
  }

  /** The output formats: the binary formats give their one flag, the four
      text formats give `-otxt -oparse` and the format itself, and the unset
      value or any other text gives nothing. */
  lemma FormatTable(v: string)
    ensures var r := FormatTokens(v);
      (r == [] <==> v !in {"las", "laz", "bin", "xyzc", "xyzci", "txyzc", "txyzci"}) &&
      (v == "las" ==> r == ["-olas"]) && (v == "laz" ==> r == ["-olaz"]) &&
      (v == "bin" ==> r == ["-obin"]) &&
      (v in {"xyzc", "xyzci", "txyzc", "txyzci"} ==> r == ["-otxt", "-oparse", v])
  {
  }
}
