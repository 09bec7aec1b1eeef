/** Python's `str.strip()` and `str.splitlines()` on text, the two string
    operations the line-delimited decoder relies on. */
module TextLines {

  /** A line boundary for `str.splitlines`: LF, CR, VT, FF, the file, group
      and record separators, NEL and the Unicode line and paragraph
      separators. CR LF counts as one boundary (see BreakWidth). */
  predicate IsLineBreak(c: char)
  {
    c == '\n' || c == '\r' || c == '\U{0B}' || c == '\U{0C}'
    || c == '\U{1C}' || c == '\U{1D}' || c == '\U{1E}'
    || c == '\U{85}' || c == '\U{2028}' || c == '\U{2029}'
  }

  /** The characters `str.isspace` accepts, which `str.strip()` removes:
      every line boundary, the unit separator, tab, space, and the Unicode
      space separators. */
  predicate IsWhitespace(c: char)
  {
    IsLineBreak(c) || c == '\t' || c == ' ' || c == '\U{1F}' || c == '\U{A0}'
    || c == '\U{1680}' || ('\U{2000}' <= c <= '\U{200A}')
    || c == '\U{202F}' || c == '\U{205F}' || c == '\U{3000}'
  }

  predicate AllWhitespace(s: string)
  {
    forall k :: 0 <= k < |s| ==> IsWhitespace(s[k])
  }

  predicate NoBreaks(s: string)
  {
    forall k :: 0 <= k < |s| ==> !IsLineBreak(s[k])
  }

  /** `s.lstrip()`: what is left of `s` after its leading whitespace. */
  function TrimStart(s: string): string
  {
    if s != [] && IsWhitespace(s[0]) then TrimStart(s[1..]) else s
  }

  /** `s.rstrip()`: what is left of `s` before its trailing whitespace. */
  function TrimEnd(s: string): string
  {
    if s != [] && IsWhitespace(s[|s| - 1]) then TrimEnd(s[..|s| - 1]) else s
  }

  /** TrimStart removes exactly the leading run of whitespace. */
  lemma {:induction false} TrimStartShape(s: string)
    ensures var r := TrimStart(s);
      && |r| <= |s| && r == s[|s| - |r|..]
      && AllWhitespace(s[..|s| - |r|])
      && (r != [] ==> !IsWhitespace(r[0]))
  {
    if s != [] && IsWhitespace(s[0]) {
      TrimStartShape(s[1..]);
      var r := TrimStart(s);
      assert s[..|s| - |r|] == [s[0]] + s[1..][..|s| - 1 - |r|];
    }
  }

  /** TrimEnd removes exactly the trailing run of whitespace. */
  lemma {:induction false} TrimEndShape(s: string)
    ensures var r := TrimEnd(s);
      && |r| <= |s| && r == s[..|r|]
      && AllWhitespace(s[|r|..])
      && (r != [] ==> !IsWhitespace(r[|r| - 1]))
  {
    if s != [] && IsWhitespace(s[|s| - 1]) {
      var t := s[..|s| - 1];
      TrimEndShape(t);
      var r := TrimEnd(s);
      assert s[|r|..] == t[|r|..] + [s[|s| - 1]];
    }
  }

  /** `s.strip()`. */
  function Strip(s: string): string
  {
    TrimEnd(TrimStart(s))
  }

  /** Strip is characterised by its outcome: whenever `s` is whitespace, then
      a middle part that neither starts nor ends with whitespace, then
      whitespace, the middle part is what Strip returns. */
  lemma StripIsMiddle(pre: string, mid: string, post: string)
    requires AllWhitespace(pre) && AllWhitespace(post)
    requires mid != [] ==> !IsWhitespace(mid[0]) && !IsWhitespace(mid[|mid| - 1])
    ensures Strip(pre + mid + post) == mid
  {
    var s := pre + mid + post;
    if mid == [] {
      assert s == (pre + post) + [];
      TrimStartSkips(pre + post, []);
    } else {
      assert s == pre + (mid + post);
      TrimStartSkips(pre, mid + post);
      TrimEndSkips(mid, post);
    }
  }

  lemma {:induction false} TrimStartSkips(pre: string, rest: string)
    requires AllWhitespace(pre)
    requires rest != [] ==> !IsWhitespace(rest[0])
    ensures TrimStart(pre + rest) == rest
  {
    if pre != [] {
      assert (pre + rest)[1..] == pre[1..] + rest;
      TrimStartSkips(pre[1..], rest);
    } else {
      assert pre + rest == rest;
    }
  }

  lemma {:induction false} TrimEndSkips(rest: string, post: string)
    requires AllWhitespace(post)
    requires rest != [] ==> !IsWhitespace(rest[|rest| - 1])
    ensures TrimEnd(rest + post) == rest
  {
    if post != [] {
      var n := |post|;
      assert (rest + post)[..|rest| + n - 1] == rest + post[..n - 1];
      TrimEndSkips(rest, post[..n - 1]);
    } else {
      assert rest + post == rest;
    }
  }

  /** A string strips to nothing exactly when it is all whitespace. */
  lemma StripEmptyIff(s: string)
    ensures Strip(s) == [] <==> AllWhitespace(s)
  {
    if AllWhitespace(s) {
      StripIsMiddle(s, [], []);
      assert s + [] + [] == s;
    } else {
      TrimStartShape(s);
      assert s[..|s|] == s;
      TrimEndShape(TrimStart(s));
    }
  }

  /** Strip removes whitespace from both ends and nothing else: what it
      returns is a slice of `s` with only whitespace around it, and neither
      starts nor ends with whitespace. */
  lemma StripShape(s: string)
    ensures var r := Strip(s);
      exists i :: 0 <= i <= i + |r| <= |s| && r == s[i..i + |r|]
        && AllWhitespace(s[..i]) && AllWhitespace(s[i + |r|..])
        && (r != [] ==> !IsWhitespace(r[0]) && !IsWhitespace(r[|r| - 1]))
  {
    var t := TrimStart(s);
    TrimStartShape(s);
    TrimEndShape(t);
    var r := Strip(s);
    var i := |s| - |t|;
    assert r == s[i..i + |r|];
    assert s[i + |r|..] == t[|r|..];
    assert AllWhitespace(s[..i]) && AllWhitespace(s[i + |r|..]);
    assert r != [] ==> !IsWhitespace(r[0]) && !IsWhitespace(r[|r| - 1]);
  }

  /** Stripping twice changes nothing more. */
  lemma StripIdempotent(s: string)
    ensures Strip(Strip(s)) == Strip(s)
  {
    var m := Strip(s);
    StripShape(s);
    StripIsMiddle([], m, []);
    assert [] + m + [] == m;
  }

  /** The index of the first line boundary in `s`, or `|s|` if there is none. */
  function FirstBreak(s: string): (j: nat)
    ensures j <= |s|
    ensures j < |s| ==> IsLineBreak(s[j])
    ensures NoBreaks(s[..j])
  {
    if s == [] || IsLineBreak(s[0]) then 0 else 1 + FirstBreak(s[1..])
  }

  /** How many characters the boundary at `j` takes: two for CR LF, else one. */
  function BreakWidth(s: string, j: nat): nat
    requires j < |s|
  {
    if s[j] == '\r' && j + 1 < |s| && s[j + 1] == '\n' then 2 else 1
  }

  /** `s.splitlines()`: the lines of `s` without their boundaries. There is no
      final empty line after a trailing boundary, and no line at all in the
      empty string. */
  function SplitLines(s: string): (lines: seq<string>)
    ensures forall i :: 0 <= i < |lines| ==> NoBreaks(lines[i])
    ensures lines == [] <==> s == []
    decreases |s|
  {
    if s == [] then []
    else
      var j := FirstBreak(s);
      if j == |s| then [s]
      else [s[..j]] + SplitLines(s[j + BreakWidth(s, j)..])
  }

  /** Every line followed by the terminator `sep`. */
  function Terminated(lines: seq<string>, sep: string): string
  {
    if lines == [] then [] else lines[0] + sep + Terminated(lines[1..], sep)
  }

  /** SplitLines undoes writing lines out each terminated by LF, or each by
      CR LF: a CR LF pair is one boundary, so it never yields an empty line. */
  lemma {:induction false} SplitLinesTerminated(lines: seq<string>, sep: string)
    requires sep == "\n" || sep == "\r\n"
    requires forall i :: 0 <= i < |lines| ==> NoBreaks(lines[i])
    ensures SplitLines(Terminated(lines, sep)) == lines
  {
    if lines != [] {
      SplitLinesCons(lines[0], sep, Terminated(lines[1..], sep));
      SplitLinesTerminated(lines[1..], sep);
      assert lines == [lines[0]] + lines[1..];
    }
  }

  /** A single line boundary, or CR LF, written between or after lines. */
  predicate Separator(sep: string)
  {
    (|sep| == 1 && IsLineBreak(sep[0])) || sep == "\r\n"
  }

  /** A line without breaks followed by one separator splits off as the
      first line, unless the separator is a lone CR that the next character
      would turn into CR LF. */
  lemma SplitLinesCons(l: string, sep: string, rest: string)
    requires Separator(sep)
    requires NoBreaks(l)
    requires sep == "\r" ==> rest == [] || rest[0] != '\n'
    ensures SplitLines(l + sep + rest) == [l] + SplitLines(rest)
  {
    var s := l + sep + rest;
    assert s == l + (sep + rest);
    FirstBreakAfter(l, sep + rest);
    assert s[..|l|] == l;
    assert BreakWidth(s, |l|) == |sep| by {
      assert s[|l|] == sep[0];
      if sep == "\r\n" {
        assert s[|l| + 1] == sep[1];
      } else if |l| + 1 < |s| {
        assert s[|l| + 1] == rest[0];
      }
    }
    assert s[|l| + |sep|..] == rest;
  }

  /** The lines written out with `sep` between each two of them and none
      after the last: `sep.join(lines)`. */
  function Join(lines: seq<string>, sep: string): string
  {
    if lines == [] then []
    else if |lines| == 1 then lines[0]
    else lines[0] + sep + Join(lines[1..], sep)
  }

  /** A text with no line boundary is one line, or none when it is empty. */
  lemma {:induction false} FirstBreakNone(l: string)
    requires NoBreaks(l)
    ensures FirstBreak(l) == |l|
  {
    if l != [] {
      FirstBreakNone(l[1..]);
    }
  }

  /** A join of lines that ends in a non-empty line starts with the first
      line's first character, or else with the separator. */
  lemma JoinHead(lines: seq<string>, sep: string)
    requires |lines| >= 1 && lines[|lines| - 1] != [] && sep != []
    ensures var t := Join(lines, sep);
      t != [] && (lines[0] != [] ==> t[0] == lines[0][0]) && (lines[0] == [] ==> t[0] == sep[0])
  {
    if |lines| > 1 {
      assert Join(lines, sep) == lines[0] + (sep + Join(lines[1..], sep));
    }
  }

  /** A join of lines ends with the last line's last character. */
  lemma {:induction false} JoinLast(lines: seq<string>, sep: string)
    requires |lines| >= 1 && lines[|lines| - 1] != []
    ensures var t, l := Join(lines, sep), lines[|lines| - 1];
      t != [] && t[|t| - 1] == l[|l| - 1]
  {
    if |lines| > 1 {
      JoinLast(lines[1..], sep);
    }
  }

  /** `splitlines()` undoes joining break-free lines by one separator, the
      shape a stripped body has, provided the last line is not empty (an
      empty last line leaves no trace in the text). */
  lemma {:induction false} SplitLinesJoin(lines: seq<string>, sep: string)
    requires Separator(sep)
    requires forall i :: 0 <= i < |lines| ==> NoBreaks(lines[i])
    requires lines != [] ==> lines[|lines| - 1] != []
    ensures SplitLines(Join(lines, sep)) == lines
  {
    if |lines| == 1 {
      FirstBreakNone(lines[0]);
    } else if |lines| > 1 {
      var rest := Join(lines[1..], sep);
      JoinHead(lines[1..], sep);
      SplitLinesCons(lines[0], sep, rest);
      SplitLinesJoin(lines[1..], sep);
      assert lines == [lines[0]] + lines[1..];
    }
  }

  lemma {:induction false} FirstBreakAfter(l: string, rest: string)
    requires NoBreaks(l)
    requires rest != [] && IsLineBreak(rest[0])
    ensures FirstBreak(l + rest) == |l|
  {
    if l != [] {
      assert (l + rest)[1..] == l[1..] + rest;
      FirstBreakAfter(l[1..], rest);
    } else {
      assert l + rest == rest;
    }
  }
}
