# LAStools ArcGIS toolbox scripts: command builders and result classification

The LAStools ArcGIS toolbox wraps each LAStools executable in a Python script.
ArcGIS calls the script with a parameter vector: the script path, one text
field per dialog entry (`"#"` when an optional entry is empty), then the
"use 32 bit" and "verbose" checkboxes as the last two fields. Every script
does the same five things:

1. It picks `tool64` unless the 32-bit checkbox is `"true"`. The exception
   is las3dpoly, which always runs `las3dpoly64`.
2. It checks the install root. The root must not contain a space, and both
   `<root>\bin` and `<root>\bin\<exename>.exe` must exist. Otherwise it
   exits with code 1.
3. It builds the command line as a list of tokens, one rule per field.
4. It shows the tokens joined by spaces, strips the surrounding double
   quotes off every token, and runs the executable.
5. It reports the output and the outcome on the geoprocessor's message,
   warning or error channel, and exits with the final return code.
   - The 64-bit build's return code is trusted.
   - For the 32-bit build, `WARNING:` in the output means 1, otherwise
     `ERROR:` means 3, otherwise the code stays as the tool returned it.

This project models six of these scripts. The production scripts are
`blast2demPro.py` and `lasground_newPro.py`. The other four are
`las2iso.py`, `las2tin.py`, `las3dpoly.py` and `lasthin.py`.

Modules:

- `Text`: the Python string operations the scripts use:
  - `split()` on Python's whitespace;
  - `replace(",", ".")`;
  - `split("=")[0]`;
  - `strip('"')`;
  - `count(p) > 0`;
  - the space-joined display string.
- `Fields`: the token rule of each kind of field, as a function that gives
  the field's segment and an append method proved to add exactly that
  segment. It also holds the two loops: wildcard inputs and additional
  options.
- `Toolbox`: the parts every script shares. These are the executable name,
  the install checks (`Locate`), the display and quote-stripping loop
  (`ShowCommand`), the result classification (`Report`) and the run
  (`Execute`).
- `LasThin`, `Las2Tin`, `Las2Iso`, `Blast2Dem`, `LasGroundNew`,
  `Las3dPoly`: one module per script. Each has:
  - `Command(argv, exePath)`: the token list, as a function of the
    parameter vector, built from `Head`, `Settings` and `Options`;
  - `BuildCommand`: the scripts' appending code, with the cursor `c` or the
    output base index `out` where the script has one, proved equal to
    `Command`;
  - `Run`: the whole script.

Modelling choices:

- The install root is a parameter `root`. It stands for the three
  `dirname` calls on the script path.
- The existing files and folders are a set `fs`.
- The executable is a function `tool` from the stripped tokens to an
  `Execution` (return code and combined output).
- The geoprocessor calls are a log of `Entry(severity, text)`.
- Each script reads fixed positions of the parameter vector without
  checking its length. The model requires the length instead.

## Model

| member | source | states |
|---|---|---|
| Text.IsSpace | LAStools/ArcGIS_toolbox/scripts/lasthin.py:141 | the whitespace set of `str.isspace`: tab to carriage return, the separators 0x1C-0x1F, space, and the Unicode spaces (0x85, 0xA0, 0x1680, 0x2000-0x200A, 0x2028, 0x2029, 0x202F, 0x205F, 0x3000) |
| Text.WordLength | LAStools/ArcGIS_toolbox/scripts/lasthin.py:141 | a word of `split()` runs to the first whitespace character or the end, and is non-empty and space-free |
| Text.Split | LAStools/ArcGIS_toolbox/scripts/lasthin.py:141 | `str.split()` gives only non-empty words without whitespace |
| Text.SplitKeepsText | LAStools/ArcGIS_toolbox/scripts/lasthin.py:141-143 | the words, concatenated, are exactly the non-whitespace characters of the field, in order, so splitting loses only whitespace |
| Text.SplitAtWhitespace | LAStools/ArcGIS_toolbox/scripts/lasthin.py:141 | every `isspace` character separates words: splitting two texts joined by a space, a tab, a newline or any other whitespace character gives the words of the first, then the words of the second |
| Text.SplitJoin | LAStools/ArcGIS_toolbox/scripts/lasthin.py:148-153 | splitting the space-joined display of whitespace-free tokens gives the tokens back |
| Text.Join | LAStools/ArcGIS_toolbox/scripts/lasthin.py:146-153 | the display string: the tokens in order, each after the first preceded by one space, the first token alone for a one-token command |
| Text.DotDecimal | LAStools/ArcGIS_toolbox/scripts/lasthin.py:97 | `replace(",", ".")`: same length, every comma becomes a point, every other character is kept |
| Text.DotDecimalNormal | LAStools/ArcGIS_toolbox/scripts/lasthin.py:97 | the result holds no comma, and normalising twice is normalising once |
| Text.BeforeFirst | LAStools/ArcGIS_toolbox/scripts_production/lasground_newPro.py:129 | `split("=")[0]`: the longest prefix without `=`, stopped by an `=` or the end |
| Text.StripLeft | LAStools/ArcGIS_toolbox/scripts/lasthin.py:149 | the result is a suffix that does not start with the character, and everything dropped is that character |
| Text.StripRight | LAStools/ArcGIS_toolbox/scripts/lasthin.py:149 | the result is a prefix that does not end with the character, and everything dropped is that character |
| Text.Strip | LAStools/ArcGIS_toolbox/scripts/lasthin.py:149-152 | `strip('"')`: the quote character removed from the left, then from the right |
| Text.Quote | LAStools/ArcGIS_toolbox/scripts/lasthin.py:84-92 | a path token: the path between two double quotes |
| Text.StripQuote | LAStools/ArcGIS_toolbox/scripts/lasthin.py:125-152 | stripping the quotes off a quoted path gives the path back, for every path that neither begins nor ends with a quote |
| Text.Occurs | LAStools/ArcGIS_toolbox/scripts/lasthin.py:168-171 | `count(p) > 0`: `p` is a prefix of the text or occurs in the text after its first character |
| Text.OccursAt | LAStools/ArcGIS_toolbox/scripts/lasthin.py:168-171 | `count(p) > 0` holds exactly when `p` begins at some position of the text |
| Text.NoOccurrence | LAStools/ArcGIS_toolbox/scripts/lasthin.py:168-171 | a marker whose first character is absent from the output does not occur in it |
| Fields.Switch | LAStools/ArcGIS_toolbox/scripts_production/blast2demPro.py:98-99 | a checkbox: the flag alone exactly when the field is the text `"true"`, nothing otherwise |
| Fields.Decimal | LAStools/ArcGIS_toolbox/scripts/lasthin.py:95-97 | a numeric field: nothing at its default, otherwise the flag and the value with commas turned into points |
| Fields.Verbatim | LAStools/ArcGIS_toolbox/scripts/las2iso.py:141-153 | a field with a default: nothing at the default, otherwise the flag and the value as typed |
| Fields.QuotedPath | LAStools/ArcGIS_toolbox/scripts/lasthin.py:125-137 | an optional path: nothing when `"#"`, otherwise the flag and the path in double quotes |
| Fields.FormatSuffix | LAStools/ArcGIS_toolbox/scripts/las2iso.py:169-170 | a free format: nothing when `"#"`, otherwise the single token `-o` followed by the format |
| Fields.Options | LAStools/ArcGIS_toolbox/scripts/lasthin.py:140-143 | the additional options: nothing when `"#"`, otherwise the whitespace-separated words of the field |
| Fields.Lead | LAStools/ArcGIS_toolbox/scripts/lasthin.py:84-88 | the quoted executable first, then `-v` exactly when the verbose field is `"true"`; one or two tokens |
| Fields.InputPath | LAStools/ArcGIS_toolbox/scripts_production/blast2demPro.py:94 | an input token: the folder, a backslash and the wildcard, in double quotes |
| Fields.Inputs | LAStools/ArcGIS_toolbox/scripts_production/blast2demPro.py:91-95 | two tokens per wildcard |
| Fields.InputsAt | LAStools/ArcGIS_toolbox/scripts_production/blast2demPro.py:91-95 | the k-th wildcard gives `-i` at 2k and the quoted `folder\wildcard` at 2k+1 |
| Fields.LeadInputsAt | LAStools/ArcGIS_toolbox/scripts_production/blast2demPro.py:82-95 | after the executable and the optional `-v`, the k-th wildcard gives `-i` at one or two plus 2k and its quoted `folder\wildcard` right after |
| Fields.AppendInputs | LAStools/ArcGIS_toolbox/scripts_production/blast2demPro.py:91-95 | the wildcard loop appends exactly `Inputs` of the split wildcards, in order |
| Fields.AppendOptions | LAStools/ArcGIS_toolbox/scripts/lasthin.py:140-143 | the options loop appends exactly the split words of the field, in order, and nothing when it is unset |
| Fields.AppendSwitch | LAStools/ArcGIS_toolbox/scripts_production/blast2demPro.py:98-99 | appends the flag exactly when the field is `"true"` |
| Fields.AppendDecimal | LAStools/ArcGIS_toolbox/scripts/lasthin.py:95-97 | appends the flag and the dot-normalised value unless the field is the default |
| Fields.AppendVerbatim | LAStools/ArcGIS_toolbox/scripts/las2iso.py:141-153 | appends the flag and the value as typed unless the field is the default |
| Fields.AppendQuotedPath | LAStools/ArcGIS_toolbox/scripts/lasthin.py:125-137 | appends the flag and the quoted path unless the field is `"#"` |
| Fields.AppendFormatSuffix | LAStools/ArcGIS_toolbox/scripts/las2iso.py:169-170 | appends the one token `"-o" + fmt` unless the field is `"#"` |
| Fields.DecimalRule | LAStools/ArcGIS_toolbox/scripts_production/blast2demPro.py:104-113 | a numeric field is absent exactly at its default; otherwise the flag is followed by a comma-free value of the same length, equal to the field when it has no comma |
| Fields.DecimalComma | LAStools/ArcGIS_toolbox/scripts/lasthin.py:95-97 | `12,5` is passed as `12.5` |
| Fields.VerbatimRule | LAStools/ArcGIS_toolbox/scripts_production/lasground_newPro.py:144-147 | a verbatim field (`-spike`, `-cores`, `-smooth`, ...) is absent exactly at its default, otherwise the flag and the raw value |
| Fields.QuotedPathRule | LAStools/ArcGIS_toolbox/scripts/las2tin.py:130-137 | an optional path is absent exactly when unset; otherwise the flag and a token that strips back to the path |
| Fields.OptionsRule | LAStools/ArcGIS_toolbox/scripts/lasthin.py:140-143 | unset options add nothing; otherwise they add whitespace-free words that together are the field's non-space text |
| Fields.OptionsAtWhitespace | LAStools/ArcGIS_toolbox/scripts/lasthin.py:140-143 | a tab, newline or other whitespace character in the options field separates options exactly as a space does |
| Toolbox.Is64 | LAStools/ArcGIS_toolbox/scripts/lasthin.py:38 | the 64-bit build is used exactly when the second-to-last field is not `"true"` |
| Toolbox.ExeName | LAStools/ArcGIS_toolbox/scripts/lasthin.py:39-43 | the tool's name, with `64` appended for the 64-bit build |
| Toolbox.ExeNameSuffix | LAStools/ArcGIS_toolbox/scripts_production/lasground_newPro.py:38-44 | the executable name is the tool's name, with `64` appended exactly in the 64-bit case |
| Toolbox.BinDir | LAStools/ArcGIS_toolbox/scripts/lasthin.py:64 | the executables' folder: the install root followed by `\bin` |
| Toolbox.ExePath | LAStools/ArcGIS_toolbox/scripts/lasthin.py:74 | the executable's path: the bin folder, a backslash and the executable name |
| Toolbox.Installed | LAStools/ArcGIS_toolbox/scripts/lasthin.py:57-81 | the script may go on exactly when the root holds no space, the bin folder exists and the executable with `.exe` exists |
| Toolbox.StripAll | LAStools/ArcGIS_toolbox/scripts/lasthin.py:147-152 | the tokens handed to the process: every token, in order, with its surrounding double quotes stripped |
| Toolbox.ExitCode | LAStools/ArcGIS_toolbox/scripts/lasthin.py:159-175 | the final code: the 64-bit return code as returned; for 32-bit, 1 when `WARNING:` occurs, else 3 when `ERROR:` occurs, else the return code |
| Toolbox.Status | LAStools/ArcGIS_toolbox/scripts/lasthin.py:178-183 | the closing channel: message for 0, warning for 1, error for every other code |
| Toolbox.OutputSeverity | LAStools/ArcGIS_toolbox/scripts/lasthin.py:159-175 | the channel the output is copied to: by the return code for 64-bit; for 32-bit warning on `WARNING:`, else error on `ERROR:`, else message |
| Toolbox.StatusText | LAStools/ArcGIS_toolbox/scripts/lasthin.py:178-183 | the closing line: `Success.` and `done` for 0, `Warnings.` and `done` for 1, `Error.` and `failed` otherwise |
| Toolbox.Locate | LAStools/ArcGIS_toolbox/scripts_production/lasground_newPro.py:57-81 | the script goes on exactly when the root has no space and the bin folder and the executable exist; every line goes to the message channel |
| Toolbox.ShowCommand | LAStools/ArcGIS_toolbox/scripts_production/blast2demPro.py:246-252 | the display is the original tokens joined by single spaces, and every token loses its surrounding quotes |
| Toolbox.Report | LAStools/ArcGIS_toolbox/scripts_production/blast2demPro.py:258-283 | the final code is the 64-bit return code, or 1 / 3 / unchanged by the 32-bit markers; the output and closing lines go to the channels the code and markers choose |
| Toolbox.Execute | LAStools/ArcGIS_toolbox/scripts/lasthin.py:146-184 | the exit code is the classification of what the tool returns for the stripped tokens; the log is the header, the display, the output and the closing line |
| Toolbox.ByReturnCode | LAStools/ArcGIS_toolbox/scripts/lasthin.py:159-165 | 64-bit: the exit code is the return code, 0 is a message, 1 a warning, and the output goes to the outcome's channel |
| Toolbox.WarningFirst | LAStools/ArcGIS_toolbox/scripts/las2tin.py:190-192 | 32-bit: `WARNING:` gives 1 and a warning even when `ERROR:` is present too |
| Toolbox.ErrorMarker | LAStools/ArcGIS_toolbox/scripts/las2tin.py:193-195 | 32-bit: `ERROR:` alone gives 3 and an error |
| Toolbox.NoMarker | LAStools/ArcGIS_toolbox/scripts_production/blast2demPro.py:273-274 | 32-bit: without a marker the return code is kept and the output is a plain message |
| Toolbox.FileNotFound | LAStools/ArcGIS_toolbox/scripts/las2tin.py:193-195 | 32-bit output `ERROR: file not found` gives 3 whatever the return code |
| Toolbox.QuietFailure | LAStools/ArcGIS_toolbox/scripts/lasthin.py:167-184 | 32-bit: quiet output with return code 2 is copied as a message although the script ends in error |
| LasThin.AppendKeep | LAStools/ArcGIS_toolbox/scripts/lasthin.py:100-103 | appends the keep flag of `KeepTokens` |
| LasThin.AppendFormat | LAStools/ArcGIS_toolbox/scripts/lasthin.py:106-122 | appends the format flags of `FormatTokens` |
| LasThin.BuildCommand | LAStools/ArcGIS_toolbox/scripts/lasthin.py:84-143 | the appending code builds exactly `Command(argv, exePath)` |
| LasThin.Run | LAStools/ArcGIS_toolbox/scripts/lasthin.py:38-184 | a failed install check exits 1 with messages only; otherwise the exit code classifies the tool's result on the stripped command, and the closing line has that code's channel |
| LasThin.Layout | LAStools/ArcGIS_toolbox/scripts/lasthin.py:84-92 | the executable is first, `-v` is second exactly when verbose, then `-i` and the quoted input; the options are the last tokens |
| LasThin.KeepTable | LAStools/ArcGIS_toolbox/scripts/lasthin.py:100-103 | `-highest` exactly for `highest`, `-random` exactly for `random`, at most one token |
| LasThin.FormatTable | LAStools/ArcGIS_toolbox/scripts/lasthin.py:106-122 | the format table, with `xyz` as `-otxt` alone and nothing for `#` or an unlisted value |
| LasThin.KeepTokens | LAStools/ArcGIS_toolbox/scripts/lasthin.py:100-103 | `-highest` for `highest`, `-random` for `random`, nothing otherwise |
| LasThin.FormatTokens | LAStools/ArcGIS_toolbox/scripts/lasthin.py:106-122 | `las`, `laz`, `bin` give `-o<fmt>`, `xyz` gives `-otxt`, `xyzi` and `txyzi` give `-otxt -oparse <fmt>`, anything else nothing |
| LasThin.Head | LAStools/ArcGIS_toolbox/scripts/lasthin.py:84-92 | the executable, `-v` when verbose, then `-i` and the quoted input |
| LasThin.Settings | LAStools/ArcGIS_toolbox/scripts/lasthin.py:94-137 | the segments of the fields between the input and the options, in the order of the parameter vector |
| LasThin.Command | LAStools/ArcGIS_toolbox/scripts/lasthin.py:84-143 | the whole token list: head, settings, then the additional options from field 8 |
| Las2Tin.AppendClass | LAStools/ArcGIS_toolbox/scripts/las2tin.py:99-127 | appends the class tokens of `ClassTokens` |
| Las2Tin.BuildCommand | LAStools/ArcGIS_toolbox/scripts/las2tin.py:83-165 | the appending code, output block from `out = 6`, builds exactly `Command` |
| Las2Tin.Run | LAStools/ArcGIS_toolbox/scripts/las2tin.py:37-206 | as LasThin.Run, for `las2tin` |
| Las2Tin.Layout | LAStools/ArcGIS_toolbox/scripts/las2tin.py:83-91 | the input is always `-i` and the quoted input right after the executable and the optional `-v`; the options are last |
| Las2Tin.ClassTable | LAStools/ArcGIS_toolbox/scripts/las2tin.py:99-127 | a listed choice gives `-keep_class`, ascending codes starting at 2, `-extra_pass`; others give nothing |
| Las2Tin.GroundOnlyWording | LAStools/ArcGIS_toolbox/scripts/las2tin.py:99-102 | `ground points only` keeps class 2 here while las2iso's `only ground points` keeps nothing here, and the other way round |
| Las2Tin.ClassCodes | LAStools/ArcGIS_toolbox/scripts/las2tin.py:99-127 | the class codes kept for each of the five ground choices, `ground points only` being class 2 alone |
| Las2Tin.ClassTokens | LAStools/ArcGIS_toolbox/scripts/las2tin.py:99-127 | `-keep_class`, the choice's codes and `-extra_pass` for a listed choice, nothing otherwise |
| Las2Tin.Head | LAStools/ArcGIS_toolbox/scripts/las2tin.py:83-91 | the executable, `-v` when verbose, then `-i` and the quoted input |
| Las2Tin.Settings | LAStools/ArcGIS_toolbox/scripts/las2tin.py:92-158 | the segments of the fields between the input and the options, in the order of the parameter vector |
| Las2Tin.Command | LAStools/ArcGIS_toolbox/scripts/las2tin.py:83-165 | the whole token list: head, settings, then the additional options from field 10 (`out + 4`) |
| Las2Iso.AppendClass | LAStools/ArcGIS_toolbox/scripts/las2iso.py:98-126 | appends the class tokens of `ClassTokens` |
| Las2Iso.AppendIso | LAStools/ArcGIS_toolbox/scripts/las2iso.py:129-138 | appends the isovalue tokens of `IsoTokens` |
| Las2Iso.BuildCommand | LAStools/ArcGIS_toolbox/scripts/las2iso.py:82-191 | the appending code, output block from `out = 11`, builds exactly `Command` |
| Las2Iso.Run | LAStools/ArcGIS_toolbox/scripts/las2iso.py:36-232 | as LasThin.Run, for `las2iso` |
| Las2Iso.Layout | LAStools/ArcGIS_toolbox/scripts/las2iso.py:82-90 | `-v` directly follows the executable exactly when verbose; then `-i` and the quoted input; the options are last |
| Las2Iso.ClassTable | LAStools/ArcGIS_toolbox/scripts/las2iso.py:98-126 | a listed choice gives `-keep_class`, ascending codes starting at 2, `-extra_pass`; others give nothing |
| Las2Iso.IsoRule | LAStools/ArcGIS_toolbox/scripts/las2iso.py:129-138 | count 10 gives nothing, another count `-iso_number` with the raw value; spacing and value are dot-normalised; other modes give nothing |
| Las2Iso.ExampleCommand | LAStools/ArcGIS_toolbox/scripts/las2iso.py:82-191 | the ground-only LAZ example gives exactly the executable, `-i "in.las"`, `-keep_class 2 -extra_pass`, `-olaz`, with no `-iso_number` and no `-v` |
| Las2Iso.ClassCodes | LAStools/ArcGIS_toolbox/scripts/las2iso.py:98-126 | the class codes kept for each of the five ground choices, `only ground points` being class 2 alone |
| Las2Iso.ClassTokens | LAStools/ArcGIS_toolbox/scripts/las2iso.py:98-126 | `-keep_class`, the choice's codes and `-extra_pass` for a listed choice, nothing otherwise |
| Las2Iso.IsoTokens | LAStools/ArcGIS_toolbox/scripts/las2iso.py:129-138 | a count gives `-iso_number` unless 10, a spacing `-iso_every`, a value `-iso_value` (both dot-normalised), another mode nothing |
| Las2Iso.Head | LAStools/ArcGIS_toolbox/scripts/las2iso.py:82-90 | the executable, `-v` when verbose, then `-i` and the quoted input |
| Las2Iso.Settings | LAStools/ArcGIS_toolbox/scripts/las2iso.py:92-184 | the segments of the fields between the input and the options, in the order of the parameter vector |
| Las2Iso.Command | LAStools/ArcGIS_toolbox/scripts/las2iso.py:82-191 | the whole token list: head, settings, then the additional options from field 15 (`out + 4`) |
| Blast2Dem.AppendRaster | LAStools/ArcGIS_toolbox/scripts_production/blast2demPro.py:116-122 | appends the raster flag |
| Blast2Dem.AppendShade | LAStools/ArcGIS_toolbox/scripts_production/blast2demPro.py:125-130 | appends the output mode flag |
| Blast2Dem.AppendDirection | LAStools/ArcGIS_toolbox/scripts_production/blast2demPro.py:136-159 | appends the two tokens of the direction table |
| Blast2Dem.AppendElevation | LAStools/ArcGIS_toolbox/scripts_production/blast2demPro.py:160-169 | appends the one token of the time table |
| Blast2Dem.AppendLight | LAStools/ArcGIS_toolbox/scripts_production/blast2demPro.py:133-169 | appends `LightTokens` |
| Blast2Dem.AppendMinMax | LAStools/ArcGIS_toolbox/scripts_production/blast2demPro.py:172-176 | appends `MinMaxTokens` |
| Blast2Dem.AppendKeep | LAStools/ArcGIS_toolbox/scripts_production/blast2demPro.py:180-207 | appends `KeepTokens` |
| Blast2Dem.BuildCommand | LAStools/ArcGIS_toolbox/scripts_production/blast2demPro.py:82-242 | the cursor code (2 for the inputs, 5 for the output mode block, 1 otherwise) builds exactly `Command` |
| Blast2Dem.Run | LAStools/ArcGIS_toolbox/scripts_production/blast2demPro.py:36-283 | as LasThin.Run, for `blast2dem` |
| Blast2Dem.InputOrder | LAStools/ArcGIS_toolbox/scripts_production/blast2demPro.py:91-95 | the k-th wildcard gives the k-th `-i` and quoted `folder\wildcard` right after the executable and optional `-v` |
| Blast2Dem.LightRule | LAStools/ArcGIS_toolbox/scripts_production/blast2demPro.py:133-169 | `-light` exactly for a hillshade away from north east at 1 pm, then two direction tokens and one elevation; unlisted values fall to south west and 9 pm |
| Blast2Dem.MinMaxRule | LAStools/ArcGIS_toolbox/scripts_production/blast2demPro.py:172-176 | `-set_min_max` exactly for gray ramp or false colours with both ends set, then two comma-free values |
| Blast2Dem.ShadingExclusive | LAStools/ArcGIS_toolbox/scripts_production/blast2demPro.py:125-176 | lighting and a colour range never occur together; lighting comes only with `-hillshade`, a range only with `-gray` or `-false` |
| Blast2Dem.KeepTable | LAStools/ArcGIS_toolbox/scripts_production/blast2demPro.py:180-208 | the class choices give las2tin's class list without `-extra_pass`, the two return choices one flag each, and anything else nothing |
| Blast2Dem.RasterTokens | LAStools/ArcGIS_toolbox/scripts_production/blast2demPro.py:116-122 | `-slope`, `-intensity` or `-rgb` for those three choices, nothing otherwise |
| Blast2Dem.ShadeTokens | LAStools/ArcGIS_toolbox/scripts_production/blast2demPro.py:125-130 | `-hillshade`, `-gray` or `-false` for hillshade, gray ramp and false colors, nothing otherwise |
| Blast2Dem.Direction | LAStools/ArcGIS_toolbox/scripts_production/blast2demPro.py:136-159 | the light vector of each compass direction, with `-1 -1` (south west) for any unlisted value |
| Blast2Dem.Elevation | LAStools/ArcGIS_toolbox/scripts_production/blast2demPro.py:160-169 | the light elevation of each time of day, with `0.1` (9 pm) for any unlisted value |
| Blast2Dem.LightTokens | LAStools/ArcGIS_toolbox/scripts_production/blast2demPro.py:133-169 | `-light`, the direction and the elevation for a hillshade unless north east at 1 pm, nothing otherwise |
| Blast2Dem.MinMaxTokens | LAStools/ArcGIS_toolbox/scripts_production/blast2demPro.py:172-177 | `-set_min_max` and the two dot-normalised ends for gray ramp or false colors with both ends set, nothing otherwise |
| Blast2Dem.KeepTokens | LAStools/ArcGIS_toolbox/scripts_production/blast2demPro.py:180-208 | `-keep_class` and the codes for the five class choices, `-last_only` or `-first_only` for the return choices, nothing otherwise |
| Blast2Dem.Head | LAStools/ArcGIS_toolbox/scripts_production/blast2demPro.py:82-95 | the executable, `-v` when verbose, then `-i` and the quoted `folder\wildcard` for each wildcard |
| Blast2Dem.Settings | LAStools/ArcGIS_toolbox/scripts_production/blast2demPro.py:97-236 | the segments of the fields between the input and the options, in the order of the parameter vector |
| Blast2Dem.Command | LAStools/ArcGIS_toolbox/scripts_production/blast2demPro.py:82-242 | the whole token list: head, settings, then the additional options from field 18 |
| LasGroundNew.AppendNotAirborne | LAStools/ArcGIS_toolbox/scripts_production/lasground_newPro.py:106-108 | appends `-not_airborne` unless the field is `"true"` |
| LasGroundNew.AppendPreset | LAStools/ArcGIS_toolbox/scripts_production/lasground_newPro.py:127-142 | appends the flag and the label's number unless unset |
| LasGroundNew.AppendFormat | LAStools/ArcGIS_toolbox/scripts_production/lasground_newPro.py:164-187 | appends the format flags of `FormatTokens` |
| LasGroundNew.BuildCommand | LAStools/ArcGIS_toolbox/scripts_production/lasground_newPro.py:84-217 | the cursor code builds exactly `Command` |
| LasGroundNew.Run | LAStools/ArcGIS_toolbox/scripts_production/lasground_newPro.py:36-258 | as LasThin.Run, for `lasground_new` |
| LasGroundNew.Layout | LAStools/ArcGIS_toolbox/scripts_production/lasground_newPro.py:94-98 | the k-th wildcard gives the k-th `-i` pair after the executable and optional `-v`; the options are the last tokens |
| LasGroundNew.AirborneRule | LAStools/ArcGIS_toolbox/scripts_production/lasground_newPro.py:106-108 | `-not_airborne` is present exactly when the field is not `"true"`, the inverse of a checkbox |
| LasGroundNew.PresetRule | LAStools/ArcGIS_toolbox/scripts_production/lasground_newPro.py:127-142 | a preset is absent exactly when unset; its value is the label up to the first `=`, or the whole label |
| LasGroundNew.PresetExamples | LAStools/ArcGIS_toolbox/scripts_production/lasground_newPro.py:120-142 | `25=city` gives `-step 25`; `9=hyper_fine` gives `-sub 9` |
| LasGroundNew.FormatTable | LAStools/ArcGIS_toolbox/scripts_production/lasground_newPro.py:164-187 | the format table, with the four text formats as `-otxt -oparse <fmt>` and nothing for `#` or an unlisted value |
| LasGroundNew.NotAirborne | LAStools/ArcGIS_toolbox/scripts_production/lasground_newPro.py:106-108 | `-not_airborne` unless the field is `"true"` |
| LasGroundNew.Preset | LAStools/ArcGIS_toolbox/scripts_production/lasground_newPro.py:127-142 | nothing when `"#"`, otherwise the flag and the label up to its first `=` |
| LasGroundNew.FormatTokens | LAStools/ArcGIS_toolbox/scripts_production/lasground_newPro.py:164-187 | `las`, `laz`, `bin` give `-o<fmt>`, the four text formats `-otxt -oparse <fmt>`, anything else nothing |
| LasGroundNew.Head | LAStools/ArcGIS_toolbox/scripts_production/lasground_newPro.py:84-98 | the executable, `-v` when verbose, then `-i` and the quoted `folder\wildcard` for each wildcard |
| LasGroundNew.Settings | LAStools/ArcGIS_toolbox/scripts_production/lasground_newPro.py:100-211 | the segments of the fields between the input and the options, in the order of the parameter vector |
| LasGroundNew.Command | LAStools/ArcGIS_toolbox/scripts_production/lasground_newPro.py:84-217 | the whole token list: head, settings, then the additional options from field 18 |
| Las3dPoly.AppendBare | LAStools/ArcGIS_toolbox/scripts/las3dpoly.py:108-110 | appends the free argument as one token unless it is `"#"` |
| Las3dPoly.AppendClassify | LAStools/ArcGIS_toolbox/scripts/las3dpoly.py:136-139 | appends `-classify` and the class when the checkbox is set |
| Las3dPoly.AppendFormat | LAStools/ArcGIS_toolbox/scripts/las3dpoly.py:142-159 | appends the format flags of `FormatTokens` |
| Las3dPoly.BuildCommand | LAStools/ArcGIS_toolbox/scripts/las3dpoly.py:85-184 | the cursor code (2 for classify, 1 otherwise) builds exactly `Command` |
| Las3dPoly.Run | LAStools/ArcGIS_toolbox/scripts/las3dpoly.py:38-225 | always `las3dpoly64`; a failed install check exits 1; otherwise the exit code is the tool's return code and the output and closing line go to that code's channel |
| Las3dPoly.Layout | LAStools/ArcGIS_toolbox/scripts/las3dpoly.py:85-106 | after the executable and optional `-v` come `-i`, `-poly`, `-distance` with their values, in that order; the options are last |
| Las3dPoly.FlagRule | LAStools/ArcGIS_toolbox/scripts/las3dpoly.py:112-134 | each of the six flags is present exactly when its own field is `"true"` |
| Las3dPoly.ClassifyRule | LAStools/ArcGIS_toolbox/scripts/las3dpoly.py:136-139 | `-classify <class>` exactly when the checkbox is `"true"`, with the class verbatim |
| Las3dPoly.FormatTable | LAStools/ArcGIS_toolbox/scripts/las3dpoly.py:142-159 | the format table, with `txt` as `-otxt` alone and nothing for `#` or an unlisted value |
| Las3dPoly.Bare | LAStools/ArcGIS_toolbox/scripts/las3dpoly.py:108-110 | the free argument as one unquoted token unless `"#"` |
| Las3dPoly.Flags | LAStools/ArcGIS_toolbox/scripts/las3dpoly.py:112-134 | the six checkbox flags, each when its field is `"true"`, in the order of their fields |
| Las3dPoly.Classify | LAStools/ArcGIS_toolbox/scripts/las3dpoly.py:136-139 | `-classify` and the class as typed when the checkbox is `"true"`, nothing otherwise |
| Las3dPoly.FormatTokens | LAStools/ArcGIS_toolbox/scripts/las3dpoly.py:142-159 | `las`, `laz`, `bin` give `-o<fmt>`, `txt` gives `-otxt`, `xyzi` and `txyzi` give `-otxt -oparse <fmt>`, anything else nothing |
| Las3dPoly.Head | LAStools/ArcGIS_toolbox/scripts/las3dpoly.py:85-106 | the executable, `-v` when verbose, then `-i`, `-poly` and `-distance` with the quoted input, the quoted polygons and the distance as typed |
| Las3dPoly.Settings | LAStools/ArcGIS_toolbox/scripts/las3dpoly.py:108-177 | the segments of the fields between the input and the options, in the order of the parameter vector |
| Las3dPoly.Command | LAStools/ArcGIS_toolbox/scripts/las3dpoly.py:85-184 | the whole token list: head, settings, then the additional options from field 17 |

## Left out

- Process spawning (`subprocess.Popen`, `communicate`, `poll`) is not modelled. The executable is a function parameter from tokens to return code and output.
- With `shell=True` the process gets the token list, and the Windows shell decides how to quote and split it. This quoting is not modelled.
- The geoprocessor (`arcgisscripting`) is modelled only as the log of lines handed to `AddMessage`, `AddWarning` and `AddError`.
- `sys.exit` is modelled as the `exit` out-parameter. The operating system's truncation of exit codes is not modelled.
- The three `os.path.dirname` calls on the script path are not modelled. The install root is a parameter.
- `os.path.exists` is not modelled. Its answers are the set `fs`.
- A parameter vector shorter than the positions a script reads raises an exception in Python. It is a precondition here.
- `str(output)` and any decoding of the tool's output are not modelled. The output is a string already.
- The interface/ GUI programs are not part of this model.
- Text.Split: Python's whitespace set is modelled code point by code point. Unicode normalisation and the bytes form of `split` are not modelled.
- Toolbox.Locate: the exact texts of its messages are not stated in its contract, only their number for a root with a space and their channel.
- Toolbox.Execute: the closing line is stated only by its channel. Its text is stated by Toolbox.Report.
- LasThin.Run: the log is stated only at its first entry, by its channels on a failed install check, and at its closing channel. The lines in between are stated by Toolbox.Locate and Toolbox.Execute.
- Las2Tin.Run: as LasThin.Run.
- Las2Iso.Run: as LasThin.Run.
- Blast2Dem.Run: as LasThin.Run.
- LasGroundNew.Run: as LasThin.Run.
- Las3dPoly.Run: as LasThin.Run, except that the output line is also stated.
- Las3dPoly.FlagRule: states membership of each flag. It does not state the flags' order, which `Flags` fixes by construction.
