/** blast2dem (production toolbox): rasters a folder of LiDAR files into
    elevation, slope, intensity or colour rasters.

    Parameter vector (after the script path at index 0), read through a
    cursor that starts at 1:
    1 input folder, 2 wildcards, 3 merged, 4 step, 5 kill, 6 what to raster,
    7 output mode, 8 light direction, 9 time of day, 10 minimum, 11 maximum,
    12 points to use, 13 use tile bounding box, 14 output format, 15 output
    file, 16 output folder, 17 output appendix, 18 additional options; then
    the "use 32 bit" and "verbose" checkboxes as the last two arguments. */
module Blast2Dem {
  import opened Text
  import opened Fields
  import opened Toolbox
  import Las2Tin

  /** What is rastered instead of elevation. */
  function RasterTokens(v: string): seq<string>
  {
    if v == "slope" then ["-slope"]
    else if v == "intensity" then ["-intensity"]
    else if v == "rgb" then ["-rgb"]
    else []
  }

  /** The output mode flag. */
  function ShadeTokens(mode: string): seq<string>
  {
    if mode == "hillshade" then ["-hillshade"]
    else if mode == "gray ramp" then ["-gray"]
    else if mode == "false colors" then ["-false"]
    else []
  }

  /** The light vector for a compass direction; any direction the table does
      not list gets the south-west vector. */
  function Direction(v: string): seq<string>
  {
    if v == "north" then ["0", "1.41421"]
    else if v == "south" then ["0", "-1.41421"]
    else if v == "east" then ["1.41421", "0"]
    else if v == "west" then ["-1.41421", "0"]
    else if v == "north east" then ["1", "1"]
    else if v == "south east" then ["1", "-1"]
    else if v == "north west" then ["-1", "1"]
    else ["-1", "-1"]
  }

  /** The light elevation for a time of day; any time the table does not list
      gets the 9 pm value. */
  function Elevation(v: string): string
  {
    if v == "noon" then "100"
    else if v == "1 pm" then "2"
    else if v == "3 pm" then "1"
    else if v == "6 pm" then "0.5"
    else "0.1"
  }

  /** `-light`, the direction vector and the elevation, for a hillshade whose
      light is not the tool's default (north east at 1 pm). */
  function LightTokens(mode: string, direction: string, time: string): seq<string>
  {
    if mode == "hillshade" && (direction != "north east" || time != "1 pm") then
      ["-light"] + Direction(direction) + [Elevation(time)]
    else []
  }

  /** The colour range of a gray ramp or false colours, when both ends are set. */
  function MinMaxTokens(mode: string, min: string, max: string): seq<string>
  {
    if (mode == "gray ramp" || mode == "false colors") && min != Unset && max != Unset then
      ["-set_min_max", DotDecimal(min), DotDecimal(max)]
    else []
  }

  /** The points to use: a class list (without the extra pass of the TIN
      tools) or a return filter. */
  function KeepTokens(v: string): seq<string>
  {
    if v == "ground points only" then ["-keep_class", "2"]
    else if v == "ground and keypoints" then ["-keep_class", "2", "8"]
    else if v == "ground and buildings" then ["-keep_class", "2", "6"]
    else if v == "ground and vegetation" then ["-keep_class", "2", "3", "4", "5"]
    else if v == "ground and objects" then ["-keep_class", "2", "3", "4", "5", "6"]
    else if v == "last return only" then ["-last_only"]
    else if v == "first return only" then ["-first_only"]
    else []
  }

  /** The executable, `-v` when verbose, and one `-i` pair per wildcard. */
  function Head(argv: seq<string>, exePath: string): seq<string>
    requires |argv| >= 19
  {
    Lead(exePath, argv[|argv| - 1]) + Inputs(argv[1], Split(argv[2]))
  }

  /** The tokens of the fields between the inputs and the additional options, in order. */
  function Settings(argv: seq<string>): seq<string>
    requires |argv| >= 19
  {
    Switch(argv[3], "-merged") +
    Decimal("-step", "1", argv[4]) +
    Decimal("-kill", "100", argv[5]) +
    RasterTokens(argv[6]) +
    ShadeTokens(argv[7]) +
    LightTokens(argv[7], argv[8], argv[9]) +
    MinMaxTokens(argv[7], argv[10], argv[11]) +
    KeepTokens(argv[12]) +
    Switch(argv[13], "-use_tile_bb") +
    FormatSuffix(argv[14]) +
    QuotedPath("-o", argv[15]) +
    QuotedPath("-odir", argv[16]) +
    QuotedPath("-odix", argv[17])
  }

  /** The command line, token by token, from the parameter vector. */
  function Command(argv: seq<string>, exePath: string): seq<string>
    requires |argv| >= 19
  {
    Head(argv, exePath) + Settings(argv) + Options(argv[18])
  }

  /** Appends the flag for what is rastered. */
  method AppendRaster(command: seq<string>, v: string) returns (extended: seq<string>)
    ensures extended == command + RasterTokens(v)
  {
    extended := command;
    if v == "slope" {
      extended := extended + ["-slope"];
    } else if v == "intensity" {
      extended := extended + ["-intensity"];
    } else if v == "rgb" {
      extended := extended + ["-rgb"];
    }
  }

  /** Appends the output mode flag. */
  method AppendShade(command: seq<string>, mode: string) returns (extended: seq<string>)
    ensures extended == command + ShadeTokens(mode)
  {
    extended := command;
    if mode == "hillshade" {
      extended := extended + ["-hillshade"];
    } else if mode == "gray ramp" {
      extended := extended + ["-gray"];
    } else if mode == "false colors" {
      extended := extended + ["-false"];
    }
  }

  /** Appends the light direction vector. */
  method AppendDirection(command: seq<string>, v: string) returns (extended: seq<string>)
    ensures extended == command + Direction(v)
  {
    var x, y;
    if v == "north" {
      x, y := "0", "1.41421";
    } else if v == "south" {
      x, y := "0", "-1.41421";
    } else if v == "east" {
      x, y := "1.41421", "0";
    } else if v == "west" {
      x, y := "-1.41421", "0";
    } else if v == "north east" {
      x, y := "1", "1";
    } else if v == "south east" {
      x, y := "1", "-1";
    } else if v == "north west" {
      x, y := "-1", "1";
    } else {
      x, y := "-1", "-1";
    }
    extended := command + [x];
    extended := extended + [y];
  }

  /** Appends the light elevation. */
  method AppendElevation(command: seq<string>, v: string) returns (extended: seq<string>)
    ensures extended == command + [Elevation(v)]
  {
    if v == "noon" {
      extended := command + ["100"];
    } else if v == "1 pm" {
      extended := command + ["2"];
    } else if v == "3 pm" {
      extended := command + ["1"];
    } else if v == "6 pm" {
      extended := command + ["0.5"];
    } else {
      extended := command + ["0.1"];
    }
  }

  /** Appends the special lighting of a hillshade. */
  method AppendLight(command: seq<string>, mode: string, direction: string, time: string)
    returns (extended: seq<string>)
    ensures extended == command + LightTokens(mode, direction, time)
  {
    extended := command;
    if mode == "hillshade" {
      if direction != "north east" || time != "1 pm" {
        extended := extended + ["-light"];
        extended := AppendDirection(extended, direction);
        extended := AppendElevation(extended, time);
      }
    }
  }

  /** Appends the colour range. */
  method AppendMinMax(command: seq<string>, mode: string, min: string, max: string)
    returns (extended: seq<string>)
    ensures extended == command + MinMaxTokens(mode, min, max)
  {
    extended := command;
    if mode == "gray ramp" || mode == "false colors" {
      if min != "#" && max != "#" {
        extended := extended + ["-set_min_max"];
        extended := extended + [DotDecimal(min)];
        extended := extended + [DotDecimal(max)];
      }
    }
  }

  /** Appends the flags for the points to use. */
  method AppendKeep(command: seq<string>, v: string) returns (extended: seq<string>)
    ensures extended == command + KeepTokens(v)
  {
    extended := command;
    if v == "ground points only" {
      extended := extended + ["-keep_class"];
      extended := extended + ["2"];
    } else if v == "ground and keypoints" {
      extended := extended + ["-keep_class"];
      extended := extended + ["2"];
      extended := extended + ["8"];
    } else if v == "ground and buildings" {
      extended := extended + ["-keep_class"];
      extended := extended + ["2"];
      extended := extended + ["6"];
    } else if v == "ground and vegetation" {
      extended := extended + ["-keep_class"];
      extended := extended + ["2"];
      extended := extended + ["3"];
      extended := extended + ["4"];
      extended := extended + ["5"];
    } else if v == "ground and objects" {
      extended := extended + ["-keep_class"];
      extended := extended + ["2"];
      extended := extended + ["3"];
      extended := extended + ["4"];
      extended := extended + ["5"];
      extended := extended + ["6"];
    } else if v == "last return only" {
      extended := extended + ["-last_only"];
    } else if v == "first return only" {
      extended := extended + ["-first_only"];
    }
  }

  /** Builds the command line, moving a cursor over the parameter vector: two
      places for the inputs, one for most fields and five for the output mode
      with its lighting and colour range. */
  method BuildCommand(argv: seq<string>, exePath: string) returns (command: seq<string>)
    requires |argv| >= 19
    ensures command == Command(argv, exePath)
  {
    command := [Quote(exePath)];
    command := AppendSwitch(command, argv[|argv| - 1], "-v");
    var c := 1;
    command := AppendInputs(command, argv[c], argv[c + 1]);
    c := c + 2;
    assert command == Head(argv, exePath);
    ghost var head := command;
    command := AppendSwitch(command, argv[c], "-merged");
    c := c + 1;
    ghost var settings := Switch(argv[3], "-merged");
    assert command == head + settings;
    command := AppendDecimal(command, "-step", "1", argv[c]);
    c := c + 1;
    AppendAssoc(head, settings, Decimal("-step", "1", argv[4]));
    settings := settings + Decimal("-step", "1", argv[4]);
    assert command == head + settings;
    command := AppendDecimal(command, "-kill", "100", argv[c]);
    c := c + 1;
    AppendAssoc(head, settings, Decimal("-kill", "100", argv[5]));
    settings := settings + Decimal("-kill", "100", argv[5]);
    assert command == head + settings;
    command := AppendRaster(command, argv[c]);
    c := c + 1;
    AppendAssoc(head, settings, RasterTokens(argv[6]));
    settings := settings + RasterTokens(argv[6]);
    assert command == head + settings;
    command := AppendShade(command, argv[c]);
    AppendAssoc(head, settings, ShadeTokens(argv[7]));
    settings := settings + ShadeTokens(argv[7]);
    assert command == head + settings;
    command := AppendLight(command, argv[c], argv[c + 1], argv[c + 2]);
    AppendAssoc(head, settings, LightTokens(argv[7], argv[8], argv[9]));
    settings := settings + LightTokens(argv[7], argv[8], argv[9]);
    assert command == head + settings;
    command := AppendMinMax(command, argv[c], argv[c + 3], argv[c + 4]);
    c := c + 5;
    AppendAssoc(head, settings, MinMaxTokens(argv[7], argv[10], argv[11]));
    settings := settings + MinMaxTokens(argv[7], argv[10], argv[11]);
    assert command == head + settings;
    command := AppendKeep(command, argv[c]);
    c := c + 1;
    AppendAssoc(head, settings, KeepTokens(argv[12]));
    settings := settings + KeepTokens(argv[12]);
    assert command == head + settings;
    command := AppendSwitch(command, argv[c], "-use_tile_bb");
    c := c + 1;
    AppendAssoc(head, settings, Switch(argv[13], "-use_tile_bb"));
    settings := settings + Switch(argv[13], "-use_tile_bb");
    assert command == head + settings;
    command := AppendFormatSuffix(command, argv[c]);
    c := c + 1;
    AppendAssoc(head, settings, FormatSuffix(argv[14]));
    settings := settings + FormatSuffix(argv[14]);
    assert command == head + settings;
    command := AppendQuotedPath(command, "-o", argv[c]);
    c := c + 1;
    AppendAssoc(head, settings, QuotedPath("-o", argv[15]));
    settings := settings + QuotedPath("-o", argv[15]);
    assert command == head + settings;
    command := AppendQuotedPath(command, "-odir", argv[c]);
    c := c + 1;
    AppendAssoc(head, settings, QuotedPath("-odir", argv[16]));
    settings := settings + QuotedPath("-odir", argv[16]);
    assert command == head + settings;
    command := AppendQuotedPath(command, "-odix", argv[c]);
    c := c + 1;
    AppendAssoc(head, settings, QuotedPath("-odix", argv[17]));
    settings := settings + QuotedPath("-odix", argv[17]);
    assert command == head + settings;
    command := AppendOptions(command, argv[c]);
  }

  /** The whole script: choose the executable, find it, build and show the
      command line, run the tool on the stripped tokens and report. */
  method Run(argv: seq<string>, root: string, fs: set<string>, tool: seq<string> -> Execution)
    returns (exit: int, log: seq<Entry>)
    requires |argv| >= 19
    ensures var exename := ExeName("blast2dem", Is64(argv));
      log != [] && log[0] == Entry(Message, "Starting " + exename + " ...") &&
      (!Installed(root, fs, exename) ==>
        exit == 1 && forall k :: 0 <= k < |log| ==> log[k].severity == Message) &&
      (Installed(root, fs, exename) ==>
        exit == ExitCode(Is64(argv), tool(StripAll(Command(argv, ExePath(root, exename))))) &&
        log[|log| - 1].severity == Status(exit))
  {
    var is64 := argv[|argv| - 2] != "true";
    var exename := "blast2dem";
    if is64 {
      exename := exename + "64";
    }
    log := [Entry(Message, "Starting " + exename + " ...")];
    var exePath, found, located := Locate(exename, root, fs);
    log := log + located;
    if !found {
      exit := 1;
      return;
    }
    var command := BuildCommand(argv, exePath);
    var reported;
    exit, reported := Execute(is64, exename, command, tool);
    log := log + reported;
  }

  // Properties of the command line.

  /** The k-th wildcard gives the k-th `-i` pair right after the executable
      and the optional `-v`: `-i` and the quoted `folder\wildcard`. */
  lemma InputOrder(argv: seq<string>, exePath: string, k: nat)
    requires |argv| >= 19 && k < |Split(argv[2])|
    ensures var c := Command(argv, exePath);
      var h := if argv[|argv| - 1] == "true" then 2 else 1;
      h + 2 * k + 1 < |c| && c[h + 2 * k] == "-i" &&
      c[h + 2 * k + 1] == Quote(argv[1] + "\\" + Split(argv[2])[k])
  {
    var head := Head(argv, exePath);
    LeadInputsAt(exePath, argv[|argv| - 1], argv[1], Split(argv[2]), k);
    Ends(head, Settings(argv), Options(argv[18]));
  }

  /** The light is set exactly for a hillshade whose direction or time is not
      the default north east at 1 pm; it is then `-light`, two direction
      tokens and one elevation token. Unlisted directions and times fall to
      the south-west vector and the 9 pm elevation. */
  lemma LightRule(mode: string, direction: string, time: string)
    ensures var r := LightTokens(mode, direction, time);
      (r != [] <==> mode == "hillshade" && (direction != "north east" || time != "1 pm")) &&
      (r != [] ==> |r| == 4 && r[0] == "-light" && r[1..3] == Direction(direction) && r[3] == Elevation(time))
    ensures direction !in {"north", "south", "east", "west", "north east", "south east", "north west"} ==>
      Direction(direction) == ["-1", "-1"]
    ensures time !in {"noon", "1 pm", "3 pm", "6 pm"} ==> Elevation(time) == "0.1"
  {
    var r := LightTokens(mode, direction, time);
    if r != [] {
      assert r == ["-light"] + Direction(direction) + [Elevation(time)];
      assert r[1..3] == Direction(direction);
    }
  }

  /** The colour range is set exactly for a gray ramp or false colours with
      both ends set, as `-set_min_max` and the two ends, dot-normalised. */
  lemma MinMaxRule(mode: string, min: string, max: string)
    ensures var r := MinMaxTokens(mode, min, max);
      (r != [] <==> (mode == "gray ramp" || mode == "false colors") && min != Unset && max != Unset) &&
      (r != [] ==>
        |r| == 3 && r[0] == "-set_min_max" && ',' !in r[1] && ',' !in r[2] &&
        |r[1]| == |min| && |r[2]| == |max|)
  {
    DotDecimalNormal(min);
    DotDecimalNormal(max);
  }

  /** Lighting and a colour range never appear together, and lighting only
      follows the `-hillshade` flag. */
  lemma ShadingExclusive(mode: string, direction: string, time: string, min: string, max: string)
    ensures LightTokens(mode, direction, time) == [] || MinMaxTokens(mode, min, max) == []
    ensures LightTokens(mode, direction, time) != [] ==> ShadeTokens(mode) == ["-hillshade"]
    ensures MinMaxTokens(mode, min, max) != [] ==> ShadeTokens(mode) in {["-gray"], ["-false"]}
  {
  }

  /** The points-to-use table: the five class choices give the TIN tools'
      class list without its `-extra_pass`, the two return filters give one
      flag each, and any other choice gives nothing. */
  lemma KeepTable(v: string)
    ensures var r := KeepTokens(v);
      (r == [] <==> Las2Tin.ClassTokens(v) == [] && v != "last return only" && v != "first return only") &&
      (Las2Tin.ClassTokens(v) != [] ==> r + ["-extra_pass"] == Las2Tin.ClassTokens(v)) &&
      (v == "last return only" ==> r == ["-last_only"]) &&
      (v == "first return only" ==> r == ["-first_only"])
  {
  }
}
