/** The `trim` template tag: it interpolates a template literal, removes the smallest
    indentation found on any non-blank line from every line, and strips the white space
    at both ends of the result. */
module TrimTag {
  import opened Wrappers

  /** ECMAScript white space: the WhiteSpace and LineTerminator code points, the set
      that `\S` excludes and that `String.prototype.trim` removes. */
  predicate IsWs(c: char)
  {
    var n := c as int;
    n == 0x09 || n == 0x0A || n == 0x0B || n == 0x0C || n == 0x0D || n == 0x20
    || n == 0xA0 || n == 0x1680 || (0x2000 <= n <= 0x200A) || n == 0x2028
    || n == 0x2029 || n == 0x202F || n == 0x205F || n == 0x3000 || n == 0xFEFF
  }

  predicate AllWs(s: string)
  {
    forall j :: 0 <= j < |s| ==> IsWs(s[j])
  }

  // ---------------------------------------------------------------------------
  // Interpolation

  /** The template literal's text: `strs[0] + args[0] + strs[1] + … + strs[n]`. A tagged
      template always has one more string part than it has substitutions. */
  function Interleave(strs: seq<string>, args: seq<string>): string
    requires |strs| == |args| + 1
    decreases |args|
  {
    if |args| == 0 then strs[0]
    else Interleave(strs[..|strs| - 1], args[..|args| - 1]) + args[|args| - 1] + strs[|strs| - 1]
  }

  function TotalLength(parts: seq<string>): nat
  {
    if |parts| == 0 then 0 else TotalLength(parts[..|parts| - 1]) + |parts[|parts| - 1]|
  }

  /** Interpolation loses and invents no text: its length is the length of all parts. */
  lemma {:induction false} InterleaveLength(strs: seq<string>, args: seq<string>)
    requires |strs| == |args| + 1
    ensures |Interleave(strs, args)| == TotalLength(strs) + TotalLength(args)
    decreases |args|
  {
    if |args| == 0 {
      assert strs[..0] == [];
    } else {
      InterleaveLength(strs[..|strs| - 1], args[..|args| - 1]);
    }
  }

  method Interpolate(strs: seq<string>, args: seq<string>) returns (result: string)
    requires |strs| == |args| + 1
    ensures result == Interleave(strs, args)
  {
    result := strs[0];
    var i := 0;
    while i < |args|
      invariant i <= |args|
      invariant result == Interleave(strs[..i + 1], args[..i])
    {
      assert strs[..i + 2][..i + 1] == strs[..i + 1];
      assert args[..i + 1][..i] == args[..i];
      result := result + args[i] + strs[i + 1];
      i := i + 1;
    }
    assert strs[..i + 1] == strs;
    assert args[..i] == args;
  }

  // ---------------------------------------------------------------------------
  // Lines

  /** `s.split('\n')`: the pieces between line feeds, always at least one. */
  function Split(s: string): (lines: seq<string>)
    ensures |lines| >= 1
    ensures forall i :: 0 <= i < |lines| ==> '\n' !in lines[i]
  {
    if |s| == 0 then [""]
    else
      var rest := Split(s[1..]);
      if s[0] == '\n' then [""] + rest
      else [[s[0]] + rest[0]] + rest[1..]
  }

  /** `lines.join('\n')`. */
  function Join(lines: seq<string>): string
    requires |lines| >= 1
  {
    if |lines| == 1 then lines[0] else lines[0] + "\n" + Join(lines[1..])
  }

  /** Joining the pieces of a split gives the text back. */
  lemma {:induction false} JoinSplit(s: string)
    ensures Join(Split(s)) == s
  {
    if |s| > 0 {
      var rest := Split(s[1..]);
      JoinSplit(s[1..]);
      if s[0] == '\n' {
        assert ([""] + rest)[1..] == rest;
      } else {
        var lines := [[s[0]] + rest[0]] + rest[1..];
        if |rest| > 1 {
          assert lines[1..] == rest[1..];
          assert Join(rest) == rest[0] + "\n" + Join(rest[1..]);
        }
      }
    }
  }

  lemma {:induction false} SplitLine(l: string)
    requires '\n' !in l
    ensures Split(l) == [l]
  {
    if |l| > 0 {
      SplitLine(l[1..]);
      assert [l[0]] + l[1..] == l;
    }
  }

  lemma {:induction false} SplitLineThen(l: string, t: string)
    requires '\n' !in l
    ensures Split(l + "\n" + t) == [l] + Split(t)
  {
    var s := l + "\n" + t;
    if |l| == 0 {
      assert s[1..] == t;
    } else {
      assert s[1..] == l[1..] + "\n" + t;
      SplitLineThen(l[1..], t);
      assert [l[0]] + l[1..] == l;
    }
  }

  /** Splitting lines that hold no line feed, once joined, gives the lines back. */
  lemma {:induction false} SplitJoin(lines: seq<string>)
    requires |lines| >= 1
    requires forall i :: 0 <= i < |lines| ==> '\n' !in lines[i]
    ensures Split(Join(lines)) == lines
  {
    if |lines| == 1 {
      SplitLine(lines[0]);
    } else {
      SplitJoin(lines[1..]);
      SplitLineThen(lines[0], Join(lines[1..]));
      assert [lines[0]] + lines[1..] == lines;
    }
  }

  lemma {:induction false} JoinSnoc(lines: seq<string>, l: string)
    requires |lines| >= 1
    ensures Join(lines + [l]) == Join(lines) + "\n" + l
  {
    if |lines| > 1 {
      assert (lines + [l])[1..] == lines[1..] + [l];
      JoinSnoc(lines[1..], l);
    }
  }

  // ---------------------------------------------------------------------------
  // Indentation

  /** `line.search(/\S/)`: the index of the first non-white-space character, or -1. */
  function FirstNonWs(line: string): (r: int)
    ensures -1 <= r < |line|
    ensures r == -1 <==> AllWs(line)
    ensures r >= 0 ==> !IsWs(line[r]) && AllWs(line[..r])
  {
    if |line| == 0 then -1
    else if !IsWs(line[0]) then 0
    else
      var t := FirstNonWs(line[1..]);
      if t == -1 then -1 else t + 1
  }

  /** `minIndent = Math.min(minIndent, indent)` for a line whose indent is not -1; the
      starting `Infinity` is `None`. */
  function Lower(minIndent: Option<nat>, indent: int): Option<nat>
  {
    if indent == -1 then minIndent
    else if minIndent.Some? && minIndent.value <= indent then minIndent
    else if indent < 0 then minIndent
    else Some(indent)
  }

  /** The smallest non-negative entry of `indents`, `None` (Infinity) when every entry
      is -1, folded in the order of the lines. */
  function MinOf(indents: seq<int>): (m: Option<nat>)
    requires forall i :: 0 <= i < |indents| ==> indents[i] >= -1
    ensures m.None? <==> forall i :: 0 <= i < |indents| ==> indents[i] == -1
    ensures m.Some? ==> exists i :: 0 <= i < |indents| && indents[i] == m.value
    ensures m.Some? ==> forall i :: 0 <= i < |indents| && indents[i] != -1 ==> m.value <= indents[i]
  {
    if |indents| == 0 then None
    else Lower(MinOf(indents[..|indents| - 1]), indents[|indents| - 1])
  }

  /** The indentation of each line, -1 for a blank one. */
  function Indents(lines: seq<string>): (r: seq<int>)
    ensures |r| == |lines|
    ensures forall i :: 0 <= i < |lines| ==> r[i] == FirstNonWs(lines[i])
  {
    seq(|lines|, i requires 0 <= i < |lines| => FirstNonWs(lines[i]))
  }

  /** The smallest indentation of a non-blank line, `None` (Infinity) when every line
      is blank. */
  function MinIndentOf(lines: seq<string>): Option<nat>
  {
    MinOf(Indents(lines))
  }

  /** One more line lowers the minimum by its own indentation. */
  lemma MinIndentOfNext(lines: seq<string>, i: nat)
    requires i < |lines|
    ensures MinIndentOf(lines[..i + 1]) == Lower(MinIndentOf(lines[..i]), FirstNonWs(lines[i]))
  {
    var before := Indents(lines[..i]);
    assert Indents(lines[..i + 1]) == before + [FirstNonWs(lines[i])];
    assert (before + [FirstNonWs(lines[i])])[..i] == before;
  }

  method MinIndent(lines: seq<string>) returns (minIndent: Option<nat>)
    ensures minIndent == MinIndentOf(lines)
  {
    minIndent := None;
    var i := 0;
    while i < |lines|
      invariant i <= |lines|
      invariant minIndent == MinIndentOf(lines[..i])
    {
      var indent := FirstNonWs(lines[i]);
      MinIndentOfNext(lines, i);
      if indent != -1 {
        if minIndent.None? || indent < minIndent.value {
          minIndent := Some(indent);
        }
      }
      i := i + 1;
    }
    assert lines[..i] == lines;
  }

  /** `line.slice(minIndent)`: the line from that index on; empty for Infinity or an
      index past the end. The result is always a suffix of the line. */
  function SliceFrom(line: string, minIndent: Option<nat>): (r: string)
    ensures |r| <= |line| && r == line[|line| - |r|..]
    ensures minIndent.Some? && minIndent.value <= |line| ==> |r| == |line| - minIndent.value
    ensures minIndent.Some? && minIndent.value >= |line| ==> r == ""
    ensures minIndent.None? ==> r == ""
  {
    match minIndent
    case None => ""
    case Some(k) => if k >= |line| then "" else line[k..]
  }

  /** Every line sliced at `minIndent`, each followed by a line feed. */
  function Reassemble(lines: seq<string>, minIndent: Option<nat>): string
  {
    if |lines| == 0 then ""
    else Reassemble(lines[..|lines| - 1], minIndent) + SliceFrom(lines[|lines| - 1], minIndent) + "\n"
  }

  function Dedented(lines: seq<string>, minIndent: Option<nat>): (r: seq<string>)
    ensures |r| == |lines|
  {
    if |lines| == 0 then []
    else Dedented(lines[..|lines| - 1], minIndent) + [SliceFrom(lines[|lines| - 1], minIndent)]
  }

  /** The reassembled text is the sliced lines joined by line feeds, plus a final one. */
  lemma {:induction false} ReassembleIsJoin(lines: seq<string>, minIndent: Option<nat>)
    requires |lines| >= 1
    ensures Reassemble(lines, minIndent) == Join(Dedented(lines, minIndent)) + "\n"
  {
    var n := |lines|;
    if n == 1 {
      assert Reassemble(lines[..0], minIndent) == "";
      assert Dedented(lines[..0], minIndent) == [];
    } else {
      ReassembleIsJoin(lines[..n - 1], minIndent);
      JoinSnoc(Dedented(lines[..n - 1], minIndent), SliceFrom(lines[n - 1], minIndent));
    }
  }

  method Dedent(lines: seq<string>, minIndent: Option<nat>) returns (result: string)
    ensures result == Reassemble(lines, minIndent)
  {
    result := "";
    var i := 0;
    while i < |lines|
      invariant i <= |lines|
      invariant result == Reassemble(lines[..i], minIndent)
    {
      assert lines[..i + 1][..i] == lines[..i];
      result := result + SliceFrom(lines[i], minIndent) + "\n";
      i := i + 1;
    }
    assert lines[..i] == lines;
  }

  /** Slicing at the smallest indentation removes white space only: every line is a
      white-space prefix followed by its sliced remainder. */
  lemma DedentDropsOnlyWhitespace(lines: seq<string>, i: nat)
    requires i < |lines|
    ensures var d := SliceFrom(lines[i], MinIndentOf(lines));
            AllWs(lines[i][..|lines[i]| - |d|])
  {
    var line := lines[i];
    var m := MinIndentOf(lines);
    var f := FirstNonWs(line);
    if f != -1 {
      assert m.Some? && m.value <= f;
      assert AllWs(line[..f]);
      assert line[..m.value] == line[..f][..m.value];
    }
  }

  /** Every least indented line keeps a non-white-space first character: no more than
      the common indentation is removed from any line. */
  lemma DedentKeepsLeastIndented(lines: seq<string>, i: nat)
    requires i < |lines| && MinIndentOf(lines).Some? && FirstNonWs(lines[i]) == MinIndentOf(lines).value
    ensures |SliceFrom(lines[i], MinIndentOf(lines))| > 0
    ensures !IsWs(SliceFrom(lines[i], MinIndentOf(lines))[0])
  {
    var m := MinIndentOf(lines);
    assert SliceFrom(lines[i], m)[0] == lines[i][m.value];
  }


  // ---------------------------------------------------------------------------
  // Trimming the ends

  /** `trimStart`: the longest suffix that does not start with white space. */
  function TrimStart(s: string): (r: string)
    ensures |r| <= |s| && r == s[|s| - |r|..]
    ensures AllWs(s[..|s| - |r|])
    ensures |r| == 0 || !IsWs(r[0])
  {
    if |s| > 0 && IsWs(s[0]) then
      var r := TrimStart(s[1..]);
      assert s[..|s| - |r|] == [s[0]] + s[1..][..|s[1..]| - |r|];
      r
    else s
  }

  /** `trimEnd`: the longest prefix that does not end with white space. */
  function TrimEnd(s: string): (r: string)
    ensures |r| <= |s| && r == s[..|r|]
    ensures AllWs(s[|r|..])
    ensures |r| == 0 || !IsWs(r[|r| - 1])
  {
    if |s| > 0 && IsWs(s[|s| - 1]) then
      var r := TrimEnd(s[..|s| - 1]);
      assert s[|r|..] == s[..|s| - 1][|r|..] + [s[|s| - 1]];
      r
    else s
  }

  /** `String.prototype.trim`: the text between the leading and the trailing white
      space; it neither starts nor ends with white space, and it is empty exactly when
      the text is all white space. */
  function TrimWs(s: string): (r: string)
    ensures |r| == 0 || (!IsWs(r[0]) && !IsWs(r[|r| - 1]))
    ensures |r| == 0 <==> AllWs(s)
  {
    TrimBothEnds(s);
    TrimEnd(TrimStart(s))
  }

  lemma TrimBothEnds(s: string)
    ensures var t := TrimStart(s);
            var r := TrimEnd(t);
            (|r| == 0 <==> AllWs(s)) && (|r| == 0 || !IsWs(r[0]))
  {
    var t := TrimStart(s);
    TrimStartBlank(s);
    if |t| > 0 {
      TrimEndNonBlank(t);
    }
  }

  /** Trimming the start leaves nothing exactly when the text is all white space. */
  lemma TrimStartBlank(s: string)
    ensures |TrimStart(s)| == 0 <==> AllWs(s)
  {
    var t := TrimStart(s);
    var k := |s| - |t|;
    assert |t| == 0 ==> s[..k] == s;
    assert |t| > 0 ==> t[0] == s[k];
  }

  /** Trimming the end of a text that starts with a non-white-space character keeps
      that character. */
  lemma TrimEndNonBlank(t: string)
    requires |t| > 0 && !IsWs(t[0])
    ensures |TrimEnd(t)| > 0 && TrimEnd(t)[0] == t[0]
  {
    var r := TrimEnd(t);
    assert |r| < |t| ==> t[|r|..][0] == t[|r|];
  }

  // ---------------------------------------------------------------------------
  // The tag

  /** What `trim` returns for a template with string parts `strs` and substitutions
      `args`. */
  function Trimmed(strs: seq<string>, args: seq<string>): string
    requires |strs| == |args| + 1
  {
    var lines := Split(Interleave(strs, args));
    TrimWs(Reassemble(lines, MinIndentOf(lines)))
  }

  method Trim(strs: seq<string>, args: seq<string>) returns (result: string)
    requires |strs| == |args| + 1
    ensures result == Trimmed(strs, args)
    ensures |result| == 0 || (!IsWs(result[0]) && !IsWs(result[|result| - 1]))
  {
    var text := Interpolate(strs, args);
    var lines := Split(text);
    var minIndent := MinIndent(lines);
    var dedented := Dedent(lines, minIndent);
    result := TrimWs(dedented);
  }

  lemma {:induction false} ReassembleBlank(lines: seq<string>)
    ensures AllWs(Reassemble(lines, None))
  {
    if |lines| > 0 {
      ReassembleBlank(lines[..|lines| - 1]);
    }
  }

  /** A template whose every line is blank trims to the empty string. */
  lemma TrimmedAllBlank(strs: seq<string>, args: seq<string>)
    requires |strs| == |args| + 1
    requires AllWs(Interleave(strs, args))
    ensures Trimmed(strs, args) == ""
  {
    var text := Interleave(strs, args);
    var lines := Split(text);
    forall i | 0 <= i < |lines|
      ensures FirstNonWs(lines[i]) == -1
    {
      LinesOfBlankAreBlank(text, i);
    }
    ReassembleBlank(lines);
  }

  lemma {:induction false} LinesOfBlankAreBlank(s: string, i: nat)
    requires AllWs(s)
    requires i < |Split(s)|
    ensures AllWs(Split(s)[i])
  {
    if |s| > 0 {
      var rest := Split(s[1..]);
      assert AllWs(s[1..]);
      if s[0] == '\n' {
        if i > 0 {
          LinesOfBlankAreBlank(s[1..], i - 1);
        }
      } else if i == 0 {
        LinesOfBlankAreBlank(s[1..], 0);
        assert Split(s)[0] == [s[0]] + rest[0];
      } else {
        LinesOfBlankAreBlank(s[1..], i);
      }
    }
  }
}
