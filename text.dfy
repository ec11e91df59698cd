/** The Python string operations the toolbox scripts rely on, over `string`
    (a sequence of Unicode scalar values, as a Python 3 `str` is). */
module Text {

  /** Python's `str.isspace` for one character: the characters `str.split()`
      with no argument splits on. */
  predicate IsSpace(ch: char)
  {
    ('\t' <= ch <= '\r') || ('\U{1C}' <= ch <= ' ') ||
    ch == '\U{85}' || ch == '\U{A0}' || ch == '\U{1680}' ||
    ('\U{2000}' <= ch <= '\U{200A}') ||
    ch == '\U{2028}' || ch == '\U{2029}' || ch == '\U{202F}' ||
    ch == '\U{205F}' || ch == '\U{3000}'
  }

  /** A word of `str.split()`: non-empty and free of whitespace. */
  predicate IsWord(w: string)
  {
    w != [] && forall i :: 0 <= i < |w| ==> !IsSpace(w[i])
  }

  /** Length of the run of non-space characters at the start of `s`. */
  function WordLength(s: string): (n: nat)
    requires s != [] && !IsSpace(s[0])
    ensures 0 < n <= |s|
    ensures IsWord(s[..n])
    ensures n == |s| || IsSpace(s[n])
  {
    if |s| == 1 || IsSpace(s[1]) then 1 else 1 + WordLength(s[1..])
  }

  /** Python's `s.split()`: the maximal runs of non-space characters, in order. */
  function Split(s: string): (words: seq<string>)
    ensures forall k :: 0 <= k < |words| ==> IsWord(words[k])
    decreases |s|
  {
    if s == [] then []
    else if IsSpace(s[0]) then Split(s[1..])
    else
      var n := WordLength(s);
      [s[..n]] + Split(s[n..])
  }

  /** The characters of `s` that are not whitespace, in order. */
  function NonSpace(s: string): string
  {
    if s == [] then []
    else if IsSpace(s[0]) then NonSpace(s[1..])
    else [s[0]] + NonSpace(s[1..])
  }

  /** The words laid end to end, with nothing between them. */
  function Concat(ws: seq<string>): string
  {
    if ws == [] then [] else ws[0] + Concat(ws[1..])
  }

  lemma {:induction false} NonSpaceAppend(a: string, b: string)
    ensures NonSpace(a + b) == NonSpace(a) + NonSpace(b)
    decreases |a|
  {
    if a != [] {
      assert (a + b)[1..] == a[1..] + b;
      NonSpaceAppend(a[1..], b);
    } else {
      assert a + b == b;
    }
  }

  lemma {:induction false} NonSpaceOfWord(w: string)
    requires forall i :: 0 <= i < |w| ==> !IsSpace(w[i])
    ensures NonSpace(w) == w
    decreases |w|
  {
    if w != [] {
      NonSpaceOfWord(w[1..]);
      assert w == [w[0]] + w[1..];
    }
  }

  /** Splitting loses only the whitespace: the words, laid end to end, are
      exactly the non-space characters of the input. */
  lemma {:induction false} SplitKeepsText(s: string)
    ensures Concat(Split(s)) == NonSpace(s)
    decreases |s|
  {
    if s == [] {
    } else if IsSpace(s[0]) {
      SplitKeepsText(s[1..]);
    } else {
      var n := WordLength(s);
      SplitKeepsText(s[n..]);
      assert s == s[..n] + s[n..];
      NonSpaceAppend(s[..n], s[n..]);
      NonSpaceOfWord(s[..n]);
      var ws := Split(s);
      assert ws == [s[..n]] + Split(s[n..]);
      assert ws[1..] == Split(s[n..]);
    }
  }

  /** The command line shown to the user: the tokens joined by single spaces,
      built left to right as the reporting loop builds it. */
  function Join(ts: seq<string>): string
  {
    if |ts| == 0 then ""
    else if |ts| == 1 then ts[0]
    else Join(ts[..|ts| - 1]) + " " + ts[|ts| - 1]
  }

  lemma {:induction false} WordLengthAppend(a: string, b: string)
    requires a != [] && !IsSpace(a[0])
    requires WordLength(a) < |a| || b == [] || IsSpace(b[0])
    ensures WordLength(a + b) == WordLength(a)
    decreases |a|
  {
    var ab := a + b;
    if |a| == 1 || IsSpace(a[1]) {
    } else {
      assert ab[1..] == a[1..] + b;
      WordLengthAppend(a[1..], b);
    }
  }

  /** Any whitespace character separates: splitting `a + [ch] + b` at a
      character `str.isspace` accepts (a tab, a newline, a space, ...) splits
      each side on its own. */
  lemma {:induction false} SplitAtWhitespace(a: string, ch: char, b: string)
    requires IsSpace(ch)
    ensures Split(a + [ch] + b) == Split(a) + Split(b)
    decreases |a|
  {
    var s := a + [ch] + b;
    if a == [] {
      assert s[1..] == b;
    } else if IsSpace(a[0]) {
      assert s[1..] == a[1..] + [ch] + b;
      SplitAtWhitespace(a[1..], ch, b);
    } else {
      var n := WordLength(a);
      assert s == a + ([ch] + b);
      WordLengthAppend(a, [ch] + b);
      assert s[..n] == a[..n];
      assert Split(s) == [a[..n]] + Split(s[n..]);
      assert Split(a) == [a[..n]] + Split(a[n..]);
      if n < |a| {
        assert s[n..] == a[n..] + [ch] + b;
        SplitAtWhitespace(a[n..], ch, b);
      } else {
        assert s[n..] == [ch] + b;
        assert s[n..][1..] == b;
      }
    }
  }

  lemma {:induction false} SplitOfWord(w: string)
    requires IsWord(w)
    ensures Split(w) == [w]
  {
    var n := WordLength(w);
    assert n == |w|;
    assert w[n..] == [];
    assert w[..n] == w;
  }

  /** Joining words with single spaces and splitting again gives the words
      back: the displayed command line is faithful whenever no token is empty
      or holds whitespace. */
  lemma {:induction false} SplitJoin(ws: seq<string>)
    requires forall k :: 0 <= k < |ws| ==> IsWord(ws[k])
    ensures Split(Join(ws)) == ws
    decreases |ws|
  {
    if |ws| == 1 {
      SplitOfWord(ws[0]);
    } else if |ws| > 1 {
      var init := ws[..|ws| - 1];
      SplitJoin(init);
      SplitAtWhitespace(Join(init), ' ', ws[|ws| - 1]);
      assert Join(ws) == Join(init) + [' '] + ws[|ws| - 1];
      SplitOfWord(ws[|ws| - 1]);
      assert ws == init + [ws[|ws| - 1]];
    }
  }

  /** Python's `s.replace(",", ".")`: every decimal comma becomes a point. */
  function DotDecimal(s: string): (r: string)
    ensures |r| == |s|
    ensures forall i :: 0 <= i < |s| ==> r[i] == (if s[i] == ',' then '.' else s[i])
  {
    if s == [] then [] else [if s[0] == ',' then '.' else s[0]] + DotDecimal(s[1..])
  }

  /** A dot-normalised value holds no comma, and normalising it again changes nothing. */
  lemma DotDecimalNormal(s: string)
    ensures ',' !in DotDecimal(s)
    ensures DotDecimal(DotDecimal(s)) == DotDecimal(s)
  {
    var r := DotDecimal(s);
    assert forall i :: 0 <= i < |r| ==> r[i] != ',';
  }

  /** Python's `s.split(sep)[0]`: everything before the first `sep`. */
  function BeforeFirst(s: string, sep: char): (r: string)
    ensures r <= s
    ensures sep !in r
    ensures |r| < |s| ==> s[|r|] == sep
  {
    if s == [] || s[0] == sep then [] else [s[0]] + BeforeFirst(s[1..], sep)
  }

  /** Python's `s.lstrip(ch)`: drop every leading `ch`. */
  function StripLeft(s: string, ch: char): (r: string)
    ensures |r| <= |s| && r == s[|s| - |r|..]
    ensures forall i :: 0 <= i < |s| - |r| ==> s[i] == ch
    ensures r == [] || r[0] != ch
  {
    if s != [] && s[0] == ch then StripLeft(s[1..], ch) else s
  }

  /** Python's `s.rstrip(ch)`: drop every trailing `ch`. */
  function StripRight(s: string, ch: char): (r: string)
    ensures |r| <= |s| && r == s[..|r|]
    ensures forall i :: |r| <= i < |s| ==> s[i] == ch
    ensures r == [] || r[|r| - 1] != ch
  {
    if s != [] && s[|s| - 1] == ch then StripRight(s[..|s| - 1], ch) else s
  }

  /** Python's `s.strip(ch)`: drop `ch` from both ends. */
  function Strip(s: string, ch: char): string
  {
    StripRight(StripLeft(s, ch), ch)
  }

  /** The token the scripts build for a path: the path in double quotes. */
  function Quote(s: string): string
  {
    "\"" + s + "\""
  }

  /** Stripping quotes undoes quoting, for every path that does not itself
      begin or end with a quote. */
  lemma StripQuote(s: string)
    requires s == [] || (s[0] != '"' && s[|s| - 1] != '"')
    ensures Strip(Quote(s), '"') == s
  {
    var q := Quote(s);
    assert q[1..] == s + "\"";
    var l := StripLeft(q, '"');
    assert l == StripLeft(s + "\"", '"');
    if s == [] {
      assert StripLeft("\"", '"') == StripLeft("", '"');
    } else {
      assert l == s + "\"";
      assert (s + "\"")[..|s|] == s;
    }
  }

  /** Python's `s.count(p) > 0`: `p` occurs somewhere in `s`. */
  predicate Occurs(s: string, p: string)
    decreases |s|
  {
    p <= s || (s != [] && Occurs(s[1..], p))
  }

  /** An occurrence is a position at which `p` begins. */
  lemma {:induction false} OccursAt(s: string, p: string)
    ensures Occurs(s, p) <==> exists i :: 0 <= i <= |s| && p <= s[i..]
    decreases |s|
  {
    if Occurs(s, p) {
      OccurrenceFound(s, p);
    }
    if exists i :: 0 <= i <= |s| && p <= s[i..] {
      var i :| 0 <= i <= |s| && p <= s[i..];
      OccurrenceAt(s, p, i);
    }
  }

  lemma {:induction false} OccurrenceFound(s: string, p: string)
    requires Occurs(s, p)
    ensures exists i :: 0 <= i <= |s| && p <= s[i..]
    decreases |s|
  {
    if p <= s {
      assert s[0..] == s;
    } else {
      OccurrenceFound(s[1..], p);
      var i :| 0 <= i <= |s[1..]| && p <= s[1..][i..];
      assert s[1..][i..] == s[i + 1..];
    }
  }

  lemma {:induction false} OccurrenceAt(s: string, p: string, i: nat)
    requires i <= |s| && p <= s[i..]
    ensures Occurs(s, p)
    decreases i
  {
    if i > 0 {
      assert s[1..][i - 1..] == s[i..];
      OccurrenceAt(s[1..], p, i - 1);
    } else {
      assert s[i..] == s;
    }
  }

  /** A marker cannot occur in text that lacks its first character. */
  lemma {:induction false} NoOccurrence(s: string, p: string)
    requires p != [] && p[0] !in s
    ensures !Occurs(s, p)
    decreases |s|
  {
    if s != [] {
      assert s[0] in s;
      assert forall c :: c in s[1..] ==> c in s;
      NoOccurrence(s[1..], p);
    }
  }
}
