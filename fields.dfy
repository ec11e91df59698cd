/** The token rules the toolbox scripts apply to one parameter field each.
    Every script builds its command line by concatenating these segments in
    the order of its parameter vector; `"#"` is the host's "not set" value. */
module Fields {
  import opened Text

  /** The host's value for an optional parameter that was left empty. */
  const Unset: string := "#"

  /** A checkbox: `flag` exactly when the field is the text `"true"`. */
  function Switch(v: string, flag: string): seq<string>
  {
    if v == "true" then [flag] else []
  }

  /** A numeric field with a default: omitted at the default, otherwise the
      flag and the value with its decimal comma turned into a point. */
  function Decimal(flag: string, default: string, v: string): seq<string>
  {
    if v == default then [] else [flag, DotDecimal(v)]
  }

  /** A field with a default that is passed on as typed. */
  function Verbatim(flag: string, default: string, v: string): seq<string>
  {
    if v == default then [] else [flag, v]
  }

  /** An optional path: omitted when unset, otherwise the flag and the quoted path. */
  function QuotedPath(flag: string, v: string): seq<string>
  {
    if v == Unset then [] else [flag, Quote(v)]
  }

  /** The free output format of las2iso, las2tin and blast2dem: one token `-o<fmt>`. */
  function FormatSuffix(v: string): seq<string>
  {
    if v == Unset then [] else ["-o" + v]
  }

  /** The additional-options field: split on whitespace and passed on word by word. */
  function Options(v: string): seq<string>
  {
    if v == Unset then [] else Split(v)
  }

  /** The start of every command line: the quoted executable, then `-v` when
      the verbose checkbox (the last field) is set. */
  function Lead(exePath: string, verbose: string): (r: seq<string>)
    ensures |r| == (if verbose == "true" then 2 else 1)
    ensures r[0] == Quote(exePath)
    ensures verbose == "true" <==> "-v" in r
  {
    assert Quote(exePath)[0] != "-v"[0];
    [Quote(exePath)] + Switch(verbose, "-v")
  }

  /** The path of one input file: the folder, a backslash, the wildcard. */
  function InputPath(folder: string, wildcard: string): string
  {
    Quote(folder + "\\" + wildcard)
  }

  /** `-i` and the quoted `folder\wildcard` for each wildcard, in order. */
  function Inputs(folder: string, wildcards: seq<string>): (r: seq<string>)
    ensures |r| == 2 * |wildcards|
  {
    if wildcards == [] then []
    else ["-i", InputPath(folder, wildcards[0])] + Inputs(folder, wildcards[1..])
  }

  /** Each wildcard gives exactly one `-i` followed by its own path, at the
      place its position in the list dictates. */
  lemma {:induction false} InputsAt(folder: string, wildcards: seq<string>, k: nat)
    requires k < |wildcards|
    ensures Inputs(folder, wildcards)[2 * k] == "-i"
    ensures Inputs(folder, wildcards)[2 * k + 1] == InputPath(folder, wildcards[k])
    decreases k
  {
    if k > 0 {
      InputsAt(folder, wildcards[1..], k - 1);
      assert 2 * k == 2 * (k - 1) + 2;
    }
  }

  /** Adding one wildcard at the end adds its `-i` pair at the end, as the
      scripts' loop over the wildcards does. */
  lemma {:induction false} InputsSnoc(folder: string, wildcards: seq<string>, w: string)
    ensures Inputs(folder, wildcards + [w]) == Inputs(folder, wildcards) + ["-i", InputPath(folder, w)]
    decreases |wildcards|
  {
    if wildcards == [] {
      assert [w][1..] == [];
    } else {
      assert (wildcards + [w])[1..] == wildcards[1..] + [w];
      InputsSnoc(folder, wildcards[1..], w);
    }
  }

  /** The additional-options loop: appends each whitespace-separated word of
      the field, in order, unless the field is unset. */
  method AppendOptions(command: seq<string>, v: string) returns (extended: seq<string>)
    ensures extended == command + Options(v)
  {
    extended := command;
    if v != Unset {
      var additionalOptions := Split(v);
      for k := 0 to |additionalOptions|
        invariant extended == command + additionalOptions[..k]
      {
        assert additionalOptions[..k + 1] == additionalOptions[..k] + [additionalOptions[k]];
        extended := extended + [additionalOptions[k]];
      }
      assert additionalOptions[..|additionalOptions|] == additionalOptions;
    }
  }

  /** The input loop: one `-i` and one quoted `folder\wildcard` per
      whitespace-separated wildcard, in order. */
  method AppendInputs(command: seq<string>, folder: string, wildcards: string) returns (extended: seq<string>)
    ensures extended == command + Inputs(folder, Split(wildcards))
  {
    var words := Split(wildcards);
    extended := command;
    for k := 0 to |words|
      invariant extended == command + Inputs(folder, words[..k])
    {
      assert words[..k + 1] == words[..k] + [words[k]];
      InputsSnoc(folder, words[..k], words[k]);
      extended := extended + ["-i"];
      extended := extended + [InputPath(folder, words[k])];
    }
    assert words[..|words|] == words;
  }

  /** Appends `flag` when the checkbox field is `"true"`. */
  method AppendSwitch(command: seq<string>, v: string, flag: string) returns (extended: seq<string>)
    ensures extended == command + Switch(v, flag)
  {
    extended := command;
    if v == "true" {
      extended := extended + [flag];
    }
  }

  /** Appends `flag` and the dot-normalised value unless the field holds its default. */
  method AppendDecimal(command: seq<string>, flag: string, default: string, v: string)
    returns (extended: seq<string>)
    ensures extended == command + Decimal(flag, default, v)
  {
    extended := command;
    if v != default {
      extended := extended + [flag];
      extended := extended + [DotDecimal(v)];
    }
  }

  /** Appends `flag` and the value as typed unless the field holds its default. */
  method AppendVerbatim(command: seq<string>, flag: string, default: string, v: string)
    returns (extended: seq<string>)
    ensures extended == command + Verbatim(flag, default, v)
  {
    extended := command;
    if v != default {
      extended := extended + [flag];
      extended := extended + [v];
    }
  }

  /** Appends `flag` and the quoted path unless the field is unset. */
  method AppendQuotedPath(command: seq<string>, flag: string, v: string) returns (extended: seq<string>)
    ensures extended == command + QuotedPath(flag, v)
  {
    extended := command;
    if v != "#" {
      extended := extended + [flag];
      extended := extended + ["\"" + v + "\""];
    }
  }

  /** Appends the single token `-o<fmt>` unless the format field is unset. */
  method AppendFormatSuffix(command: seq<string>, v: string) returns (extended: seq<string>)
    ensures extended == command + FormatSuffix(v)
  {
    extended := command;
    if v != "#" {
      extended := extended + ["-o" + v];
    }
  }

  /** Regrouping appended segments, for the builders' bookkeeping. */
  lemma AppendAssoc(a: seq<string>, b: seq<string>, c: seq<string>)
    ensures a + b + c == a + (b + c)
  {
  }

  /** The first and the last of three concatenated segments can be read back. */
  lemma Ends(a: seq<string>, b: seq<string>, c: seq<string>)
    ensures (a + b + c)[..|a|] == a
    ensures (a + b + c)[|a + b + c| - |c|..] == c
  {
    assert (a + b + c)[..|a|] == a;
  }

  // Properties of the field rules.

  /** A numeric field is omitted exactly at its default; otherwise its flag
      is followed by the value with every comma turned into a point, so the
      token holds no comma and keeps the value's length. */
  lemma DecimalRule(flag: string, default: string, v: string)
    ensures Decimal(flag, default, v) == [] <==> v == default
    ensures v != default ==>
      |Decimal(flag, default, v)| == 2 && Decimal(flag, default, v)[0] == flag &&
      ',' !in Decimal(flag, default, v)[1] && |Decimal(flag, default, v)[1]| == |v|
    ensures v != default && ',' !in v ==> Decimal(flag, default, v) == [flag, v]
  {
    DotDecimalNormal(v);
    if ',' !in v {
      assert forall i :: 0 <= i < |v| ==> v[i] != ',';
      assert DotDecimal(v) == v;
    }
  }

  /** Example: `12,5` is passed on as `12.5`. */
  lemma DecimalComma()
    ensures Decimal("-step", "1", "12,5") == ["-step", "12.5"]
  {
    assert DotDecimal("12,5") == "12.5";
  }

  /** A field passed on as typed is omitted exactly at its default and is
      otherwise its flag followed by the value itself, commas included. */
  lemma VerbatimRule(flag: string, default: string, v: string)
    ensures Verbatim(flag, default, v) == [] <==> v == default
    ensures v != default ==> Verbatim(flag, default, v) == [flag, v]
  {
  }

  /** An optional path is omitted exactly when unset. Otherwise its flag is
      followed by the quoted path, and once the quotes are stripped for the
      process the tool receives the path as typed. */
  lemma QuotedPathRule(flag: string, v: string)
    ensures QuotedPath(flag, v) == [] <==> v == Unset
    ensures v != Unset ==> |QuotedPath(flag, v)| == 2 && QuotedPath(flag, v)[0] == flag
    ensures v != Unset && (v == [] || (v[0] != '"' && v[|v| - 1] != '"')) ==>
      Strip(QuotedPath(flag, v)[1], '"') == v
  {
    if v != Unset && (v == [] || (v[0] != '"' && v[|v| - 1] != '"')) {
      StripQuote(v);
    }
  }

  /** The additional options give nothing when unset; otherwise non-empty,
      whitespace-free words that hold every non-space character of the
      field, in order. */
  lemma OptionsRule(v: string)
    ensures v == Unset ==> Options(v) == []
    ensures forall k :: 0 <= k < |Options(v)| ==> IsWord(Options(v)[k])
    ensures v != Unset ==> Concat(Options(v)) == NonSpace(v)
  {
    if v != Unset {
      SplitKeepsText(v);
    }
  }

  /** Every whitespace character of the options field separates options: a
      tab or a newline splits the field just as a space does. */
  lemma OptionsAtWhitespace(a: string, ch: char, b: string)
    requires IsSpace(ch)
    ensures Options(a + [ch] + b) == Split(a) + Split(b)
  {
    assert (a + [ch] + b)[|a|] == ch;
    SplitAtWhitespace(a, ch, b);
  }

  /** After the lead, the k-th wildcard gives the k-th `-i` pair: `-i` at
      `|lead| + 2k`, its quoted `folder\wildcard` right after. */
  lemma LeadInputsAt(exePath: string, verbose: string, folder: string, wildcards: seq<string>, k: nat)
    requires k < |wildcards|
    ensures var head := Lead(exePath, verbose) + Inputs(folder, wildcards);
      var h := if verbose == "true" then 2 else 1;
      h + 2 * k + 1 < |head| && head[h + 2 * k] == "-i" &&
      head[h + 2 * k + 1] == Quote(folder + "\\" + wildcards[k])
  {
    InputsAt(folder, wildcards, k);
  }
}
