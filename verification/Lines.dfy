/** Splitting a text into lines and joining lines into a text. */
module Lines {

  const NL: char := '\n'

  /** `strings.Split(s, "\n")`: always at least one field. */
  function Split(s: string): (r: seq<string>)
    ensures |r| >= 1
  {
    if s == "" then [""]
    else if s[0] == NL then [""] + Split(s[1..])
    else
      var r := Split(s[1..]);
      [[s[0]] + r[0]] + r[1..]
  }

  /** `strings.Join(lines, "\n")`. */
  function Join(lines: seq<string>): string {
    if lines == [] then ""
    else if |lines| == 1 then lines[0]
    else lines[0] + [NL] + Join(lines[1..])
  }

  /** The lines of a text; a final newline does not open another line. */
  function SplitLines(s: string): seq<string> {
    if s == "" then []
    else
      var lines := Split(s);
      if lines[|lines|-1] == "" then lines[..|lines|-1] else lines
  }

  predicate EndsInNewline(s: string) {
    s != "" && s[|s|-1] == NL
  }

  function AssembleContent(lines: seq<string>, trailingNewline: bool): string {
    var content := Join(lines);
    if trailingNewline && lines != [] then content + [NL] else content
  }

  lemma {:induction false} JoinCons(x: string, lines: seq<string>)
    requires lines != []
    ensures Join([x] + lines) == x + [NL] + Join(lines)
  {
    assert ([x] + lines)[1..] == lines;
  }

  lemma {:induction false} JoinPrefixed(c: char, lines: seq<string>)
    requires lines != []
    ensures Join([[c] + lines[0]] + lines[1..]) == [c] + Join(lines)
  {
    if |lines| == 1 {
    } else {
      JoinCons([c] + lines[0], lines[1..]);
    }
  }

  lemma {:induction false} JoinOfSplit(s: string)
    ensures Join(Split(s)) == s
  {
    if s == "" {
    } else {
      JoinOfSplit(s[1..]);
      if s[0] == NL {
        JoinCons("", Split(s[1..]));
      } else {
        JoinPrefixed(s[0], Split(s[1..]));
      }
    }
  }

  lemma {:induction false} SplitOfNewline(s: string)
    requires EndsInNewline(s)
    ensures |Split(s)| >= 2
  {
    if s[0] == NL {
    } else {
      SplitOfNewline(s[1..]);
    }
  }

  function Last(lines: seq<string>): string
    requires lines != []
  {
    lines[|lines|-1]
  }

  lemma {:induction false} LastOfPrefixed(c: char, lines: seq<string>)
    requires lines != []
    ensures Last([[c] + lines[0]] + lines[1..]) == if |lines| == 1 then [c] + lines[0] else Last(lines)
    ensures Last([""] + lines) == Last(lines)
  {
  }

  lemma {:induction false} LastFieldOfSplit(s: string)
    requires s != ""
    ensures Last(Split(s)) == if s[0] != NL && |Split(s[1..])| == 1 then [s[0]] + Split(s[1..])[0]
                              else Last(Split(s[1..]))
  {
    LastOfPrefixed(s[0], Split(s[1..]));
  }

  /** The last field of a split is empty exactly for the empty text and a text that ends in a newline. */
  lemma {:induction false} LastFieldEmpty(s: string)
    ensures Last(Split(s)) == "" <==> s == "" || EndsInNewline(s)
  {
    if s == "" {
    } else {
      LastFieldEmpty(s[1..]);
      LastFieldOfSplit(s);
      if EndsInNewline(s[1..]) {
        SplitOfNewline(s[1..]);
      }
    }
  }

  lemma {:induction false} JoinDropEmptyLast(lines: seq<string>)
    requires |lines| >= 2 && lines[|lines|-1] == ""
    ensures Join(lines) == Join(lines[..|lines|-1]) + [NL]
  {
    if |lines| == 2 {
    } else {
      JoinDropEmptyLast(lines[1..]);
      assert lines[1..][..|lines|-2] == lines[1..|lines|-1] == lines[..|lines|-1][1..];
    }
  }

  /** Round trip: the lines of any text, with the knowledge whether it ended in a newline, give the text back. */
  lemma {:induction false} AssembleInvertsSplit(s: string)
    ensures AssembleContent(SplitLines(s), EndsInNewline(s)) == s
  {
    if s == "" {
    } else {
      JoinOfSplit(s);
      LastFieldEmpty(s);
      if EndsInNewline(s) {
        SplitOfNewline(s);
        JoinDropEmptyLast(Split(s));
      }
    }
  }

  /** A text is determined by its lines and whether it ends in a newline. */
  lemma {:induction false} SplitLinesInjective(s: string, t: string)
    requires SplitLines(s) == SplitLines(t) && EndsInNewline(s) == EndsInNewline(t)
    ensures s == t
  {
    AssembleInvertsSplit(s);
    AssembleInvertsSplit(t);
  }

  /** No line of a split holds a newline. */
  ghost predicate Clean(lines: seq<string>) {
    forall i :: 0 <= i < |lines| ==> NL !in lines[i]
  }

  lemma {:induction false} SplitIsClean(s: string)
    ensures Clean(Split(s))
  {
    if s == "" {
    } else {
      SplitIsClean(s[1..]);
    }
  }

  lemma {:induction false} SplitOfClean(x: string)
    requires NL !in x
    ensures Split(x) == [x]
  {
    if x == "" {
    } else {
      SplitOfClean(x[1..]);
      assert x[0] in x && [x[0]] + x[1..] == x;
    }
  }

  lemma {:induction false} SplitAtNewline(x: string, rest: string)
    requires NL !in x
    ensures Split(x + [NL] + rest) == [x] + Split(rest)
  {
    var s := x + [NL] + rest;
    if x == "" {
      assert s[1..] == rest;
    } else {
      SplitAtNewline(x[1..], rest);
      assert s[1..] == x[1..] + [NL] + rest;
      assert x[0] in x && s[0] == x[0] && [x[0]] + x[1..] == x;
    }
  }

  /** The other round trip: lines without newlines survive joining. */
  lemma {:induction false} SplitOfJoin(lines: seq<string>)
    requires lines != [] && Clean(lines)
    ensures Split(Join(lines)) == lines
  {
    if |lines| == 1 {
      SplitOfClean(lines[0]);
    } else {
      SplitOfJoin(lines[1..]);
      SplitAtNewline(lines[0], Join(lines[1..]));
    }
  }

  lemma {:induction false} SplitLinesOfJoin(lines: seq<string>)
    requires lines != [] && Clean(lines) && Join(lines) != ""
    ensures SplitLines(Join(lines)) == if Last(lines) == "" then lines[..|lines|-1] else lines
  {
    SplitOfJoin(lines);
  }

  lemma {:induction false} JoinWithEmptyLast(lines: seq<string>)
    requires lines != []
    ensures Join(lines) + [NL] == Join(lines + [""])
  {
    JoinDropEmptyLast(lines + [""]);
    assert (lines + [""])[..|lines|] == lines;
  }

  lemma {:induction false} EmptyJoin(lines: seq<string>)
    requires lines != [] && Join(lines) == ""
    ensures lines == [""]
  {
  }

  /** The lines of an assembled text are the lines put in, but for a final empty line without newline behind it. */
  lemma {:induction false} SplitLinesOfAssembled(lines: seq<string>, trailingNewline: bool)
    requires Clean(lines)
    ensures SplitLines(AssembleContent(lines, trailingNewline))
         == if !trailingNewline && lines != [] && Last(lines) == "" then lines[..|lines|-1] else lines
  {
    if lines == [] {
    } else if trailingNewline {
      JoinWithEmptyLast(lines);
      SplitLinesOfJoin(lines + [""]);
      assert (lines + [""])[..|lines|] == lines;
    } else if Join(lines) == "" {
      EmptyJoin(lines);
    } else {
      SplitLinesOfJoin(lines);
    }
  }
}
