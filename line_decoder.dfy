/** The line-delimited JSON decoder of `get_request_cvp`: the response body is
    stripped and split into lines, every line is stripped again, blank lines
    are skipped, and each remaining line goes to the JSON parser on its own.
    A line the parser rejects is reported and dropped; decoding goes on. The
    parser (`json.loads`) is a parameter. */
module LineDecoder {
  import opened Json
  import opened TextLines

  /** What happens to one line of the body. */
  datatype Verdict =
    | Blank                       // empty once stripped: never parsed
    | Parsed(value: Json)         // stripped text parsed: appended to the result
    | Unparseable(text: string)   // stripped text rejected: one diagnostic

  /** The fate of one line. It is blank exactly when it is all whitespace. */
  function Classify(line: string, parse: string -> Option<Json>): (v: Verdict)
    ensures v.Blank? <==> AllWhitespace(line)
  {
    var text := Strip(line);
    StripEmptyIff(line);
    if text == [] then Blank
    else match parse(text)
      case Some(obj) => Parsed(obj)
      case None => Unparseable(text)
  }

  /** The fate of every line, in order. */
  function Verdicts(lines: seq<string>, parse: string -> Option<Json>): (vs: seq<Verdict>)
    ensures |vs| == |lines|
    ensures forall i :: 0 <= i < |lines| ==> vs[i] == Classify(lines[i], parse)
  {
    seq(|lines|, i requires 0 <= i < |lines| => Classify(lines[i], parse))
  }

  /** The parsed values among the verdicts, in order. */
  function Values(vs: seq<Verdict>): seq<Json>
  {
    if vs == [] then []
    else (if vs[0].Parsed? then [vs[0].value] else []) + Values(vs[1..])
  }

  /** The rejected texts among the verdicts, in order. */
  function Failures(vs: seq<Verdict>): seq<string>
  {
    if vs == [] then []
    else (if vs[0].Unparseable? then [vs[0].text] else []) + Failures(vs[1..])
  }

  /** How many lines were handed to the parser. */
  function NonBlankCount(vs: seq<Verdict>): nat
  {
    if vs == [] then 0
    else (if vs[0].Blank? then 0 else 1) + NonBlankCount(vs[1..])
  }

  /** The lines the decoder walks over: `body.strip().splitlines()`. */
  function BodyLines(body: string): seq<string>
  {
    SplitLines(Strip(body))
  }

  /** What decoding `body` returns. */
  function Decoded(body: string, parse: string -> Option<Json>): seq<Json>
  {
    Values(Verdicts(BodyLines(body), parse))
  }

  /** The stripped lines decoding `body` reports as unparseable. */
  function Diagnostics(body: string, parse: string -> Option<Json>): seq<string>
  {
    Failures(Verdicts(BodyLines(body), parse))
  }

  /** The decode loop: one pass over the lines, appending each parsed value
      and recording each line that failed to parse. */
  method DecodeBody(body: string, parse: string -> Option<Json>)
    returns (objs: seq<Json>, failed: seq<string>)
    ensures objs == Decoded(body, parse)
    ensures failed == Diagnostics(body, parse)
  {
    var lines := SplitLines(Strip(body));
    ghost var vs := Verdicts(lines, parse);
    objs, failed := [], [];
    for i := 0 to |lines|
      invariant objs == Values(vs[..i])
      invariant failed == Failures(vs[..i])
    {
      PrefixStep(vs, i);
      match Classify(lines[i], parse)
      case Blank =>
      case Parsed(obj) =>
        objs := objs + [obj];
      case Unparseable(line) =>
        failed := failed + [line];
    }
    assert vs[..|lines|] == vs;
  }

  /** What one more verdict adds to the values and the failures of a prefix. */
  lemma PrefixStep(vs: seq<Verdict>, i: nat)
    requires i < |vs|
    ensures Values(vs[..i + 1]) == Values(vs[..i]) + (if vs[i].Parsed? then [vs[i].value] else [])
    ensures Failures(vs[..i + 1]) == Failures(vs[..i]) + (if vs[i].Unparseable? then [vs[i].text] else [])
  {
    assert vs[..i + 1] == vs[..i] + [vs[i]];
    ValuesAppend(vs[..i], [vs[i]]);
    FailuresAppend(vs[..i], [vs[i]]);
    ValuesCons(vs[i], []);
    FailuresCons(vs[i], []);
    assert [vs[i]] + [] == [vs[i]];
  }

  /** Decoding distributes over concatenation of line sequences. */
  lemma {:induction false} ValuesAppend(a: seq<Verdict>, b: seq<Verdict>)
    ensures Values(a + b) == Values(a) + Values(b)
  {
    if a == [] {
      assert a + b == b;
    } else {
      var head := if a[0].Parsed? then [a[0].value] else [];
      assert a + b == [a[0]] + (a[1..] + b);
      ValuesCons(a[0], a[1..] + b);
      ValuesAppend(a[1..], b);
      assert a == [a[0]] + a[1..];
      ValuesCons(a[0], a[1..]);
      SeqAssoc(head, Values(a[1..]), Values(b));
    }
  }

  lemma ValuesCons(v: Verdict, rest: seq<Verdict>)
    ensures Values([v] + rest) == (if v.Parsed? then [v.value] else []) + Values(rest)
  {
    assert ([v] + rest)[1..] == rest;
  }

  lemma {:induction false} FailuresAppend(a: seq<Verdict>, b: seq<Verdict>)
    ensures Failures(a + b) == Failures(a) + Failures(b)
  {
    if a == [] {
      assert a + b == b;
    } else {
      var head := if a[0].Unparseable? then [a[0].text] else [];
      assert a + b == [a[0]] + (a[1..] + b);
      FailuresCons(a[0], a[1..] + b);
      FailuresAppend(a[1..], b);
      assert a == [a[0]] + a[1..];
      FailuresCons(a[0], a[1..]);
      SeqAssoc(head, Failures(a[1..]), Failures(b));
    }
  }

  lemma FailuresCons(v: Verdict, rest: seq<Verdict>)
    ensures Failures([v] + rest) == (if v.Unparseable? then [v.text] else []) + Failures(rest)
  {
    assert ([v] + rest)[1..] == rest;
  }

  /** Every non-blank line yields either one value or one diagnostic, and a
      blank line yields neither: so the result is never longer than the
      number of non-blank lines, which is at most the number of lines. */
  lemma {:induction false} ValuesCount(vs: seq<Verdict>)
    ensures |Values(vs)| + |Failures(vs)| == NonBlankCount(vs)
    ensures |Values(vs)| <= NonBlankCount(vs) <= |vs|
  {
    if vs != [] {
      ValuesCount(vs[1..]);
    }
  }

  /** The indices, from `i` on, of the verdicts that carry a value: each is a
      parsed position from `i` on, and they ascend. */
  function OriginsFrom(vs: seq<Verdict>, i: nat): (o: seq<nat>)
    requires i <= |vs|
    ensures forall k :: 0 <= k < |o| ==> i <= o[k] < |vs| && vs[o[k]].Parsed?
    ensures forall k, m :: 0 <= k < m < |o| ==> o[k] < o[m]
    decreases |vs| - i
  {
    if i == |vs| then []
    else (if vs[i].Parsed? then [i] else []) + OriginsFrom(vs, i + 1)
  }

  /** Every parsed position from `i` on is among the origins from `i` on. */
  lemma {:induction false} OriginsFromComplete(vs: seq<Verdict>, i: nat, j: nat)
    requires i <= j < |vs| && vs[j].Parsed?
    ensures j in OriginsFrom(vs, i)
    decreases |vs| - i
  {
    if i < j {
      OriginsFromComplete(vs, i + 1, j);
      var o' := OriginsFrom(vs, i + 1);
      assert OriginsFrom(vs, i) == (if vs[i].Parsed? then [i] else []) + o';
    }
  }

  /** The values from `i` on are what the origins from `i` on parsed to. */
  lemma {:induction false} ValuesFrom(vs: seq<Verdict>, i: nat)
    requires i <= |vs|
    ensures var r, o := Values(vs[i..]), OriginsFrom(vs, i);
      |r| == |o| && forall k :: 0 <= k < |o| ==> o[k] < |vs| && vs[o[k]] == Parsed(r[k])
    decreases |vs| - i
  {
    if i < |vs| {
      ValuesFrom(vs, i + 1);
      var r, o := Values(vs[i..]), OriginsFrom(vs, i);
      var r', o' := Values(vs[i + 1..]), OriginsFrom(vs, i + 1);
      assert vs[i..] == [vs[i]] + vs[i + 1..];
      ValuesCons(vs[i], vs[i + 1..]);
      if vs[i].Parsed? {
        assert r == [vs[i].value] + r';
        assert o == [i] + o';
        forall k | 0 <= k < |o|
          ensures o[k] < |vs| && vs[o[k]] == Parsed(r[k])
        {
          if k > 0 {
            assert o[k] == o'[k - 1] && r[k] == r'[k - 1];
          }
        }
      } else {
        assert r == r' by {
          assert [] + r' == r';
        }
        assert o == o' by {
          assert [] + o' == o';
        }
      }
    }
  }

  /** The indices of the lines of `body` that yield a value. */
  function Origins(body: string, parse: string -> Option<Json>): seq<nat>
  {
    OriginsFrom(Verdicts(BodyLines(body), parse), 0)
  }

  /** Decoding returns exactly the values of the parseable lines of the body,
      in their original order: the k-th value is what line `Origins[k]`
      parses to, those indices ascend, and every line that parses is one of
      them. */
  lemma DecodedExactly(body: string, parse: string -> Option<Json>)
    ensures var lines, r, o := BodyLines(body), Decoded(body, parse), Origins(body, parse);
      && |r| == |o|
      && (forall k :: 0 <= k < |o| ==> o[k] < |lines| && Classify(lines[o[k]], parse) == Parsed(r[k]))
      && (forall k, m :: 0 <= k < m < |o| ==> o[k] < o[m])
      && (forall j :: 0 <= j < |lines| && Classify(lines[j], parse).Parsed? ==> j in o)
  {
    var vs := Verdicts(BodyLines(body), parse);
    ValuesFrom(vs, 0);
    assert vs[0..] == vs;
    forall j | 0 <= j < |vs| && vs[j].Parsed?
      ensures j in OriginsFrom(vs, 0)
    {
      OriginsFromComplete(vs, 0, j);
    }
  }

  /** A body made of break-free lines joined by one separator, with any
      whitespace before and after them, has exactly those lines: so the
      valid and the malformed lines, blank lines among them, are decoded
      each on its own and in order, as DecodedExactly states. The first
      line must not start, and the last must not end, with whitespace:
      `strip()` would otherwise take that whitespace from them. */
  lemma DecodeJoined(pre: string, lines: seq<string>, sep: string, post: string,
                     parse: string -> Option<Json>)
    requires AllWhitespace(pre) && AllWhitespace(post) && Separator(sep)
    requires forall i :: 0 <= i < |lines| ==> NoBreaks(lines[i])
    requires lines != [] ==> lines[0] != [] && !IsWhitespace(lines[0][0])
    requires lines != [] ==> var l := lines[|lines| - 1]; l != [] && !IsWhitespace(l[|l| - 1])
    ensures var body := pre + Join(lines, sep) + post;
      && BodyLines(body) == lines
      && Decoded(body, parse) == Values(Verdicts(lines, parse))
      && Diagnostics(body, parse) == Failures(Verdicts(lines, parse))
  {
    var text := Join(lines, sep);
    if lines != [] {
      JoinHead(lines, sep);
      JoinLast(lines, sep);
    }
    StripIsMiddle(pre, text, post);
    SplitLinesJoin(lines, sep);
  }

  /** No blank line reaches the parser or the result, and the result is no
      longer than the number of lines of the body that are not blank. */
  lemma DecodedBound(body: string, parse: string -> Option<Json>)
    ensures var vs := Verdicts(BodyLines(body), parse);
      |Decoded(body, parse)| + |Diagnostics(body, parse)| == NonBlankCount(vs) <= |BodyLines(body)|
  {
    ValuesCount(Verdicts(BodyLines(body), parse));
  }

  /** A body that is empty or all whitespace decodes to nothing and reports
      nothing: it has no lines at all. */
  lemma DecodeBlankBody(body: string, parse: string -> Option<Json>)
    requires AllWhitespace(body)
    ensures Decoded(body, parse) == [] && Diagnostics(body, parse) == []
  {
    StripEmptyIff(body);
  }

  /** A line that does not parse (or is blank) is skipped and decoding carries
      on: the result is what the other lines alone give. A line that parses
      puts its value between those of the lines before and after it. */
  lemma DecodeSkipsOnly(vs: seq<Verdict>, j: nat)
    requires j < |vs|
    ensures !vs[j].Parsed? ==> Values(vs) == Values(vs[..j] + vs[j + 1..])
    ensures vs[j].Parsed? ==> Values(vs) == Values(vs[..j]) + [vs[j].value] + Values(vs[j + 1..])
  {
    var left, x, right := vs[..j], vs[j], vs[j + 1..];
    SplitAround(vs, j);
    ValuesAppend(left, [x] + right);
    ValuesAppend(left, right);
    var mid := if x.Parsed? then [x.value] else [];
    assert Values([x] + right) == mid + Values(right) by {
      assert ([x] + right)[1..] == right;
    }
    SeqAssoc(Values(left), mid, Values(right));
  }

  lemma SplitAround<T>(s: seq<T>, j: nat)
    requires j < |s|
    ensures s == s[..j] + ([s[j]] + s[j + 1..])
  {
  }

  lemma SeqAssoc<T>(a: seq<T>, b: seq<T>, c: seq<T>)
    ensures a + (b + c) == a + b + c
    ensures b == [] ==> a + (b + c) == a + c
  {
  }

  /** When every line parses, the result has one value per line, in order,
      and nothing is reported. */
  lemma {:induction false} DecodeAllParse(vs: seq<Verdict>)
    requires forall i :: 0 <= i < |vs| ==> vs[i].Parsed?
    ensures |Values(vs)| == |vs|
    ensures forall i :: 0 <= i < |vs| ==> Values(vs)[i] == vs[i].value
    ensures Failures(vs) == []
  {
    if vs != [] {
      DecodeAllParse(vs[1..]);
    }
  }
}
