/** The streaming reader: what `read_file` reports for a range of lines, and when its line hashes are accepted by
    the editor. */
module ReadFile {

  import opened Options
  import opened Lcs
  import opened Lines
  import opened Edits

  const CR: char := '\r'
  const MAX_LINES_DEFAULT := 10000

  /** `bufio.MaxScanTokenSize`: a line of this length no longer fits the scanner's buffer. */
  const MAX_SCAN_TOKEN := 65536

  datatype Entry = Entry(number: int, hash: string, text: Line)

  datatype ReadError = EmptyRange | TooManyLines | LineTooLong | NoLinesFrom(start: int)

  datatype ReadResult = Report(entries: seq<Entry>) | Refused(error: ReadError)

  /** The next line of the stream, without its newline, and what follows it. */
  function NextLine(rest: string): (r: (string, string))
    requires rest != ""
    ensures |r.1| < |rest|
  {
    if rest[0] == NL then ("", rest[1..])
    else if |rest| == 1 then (rest, "")
    else
      var r := NextLine(rest[1..]);
      ([rest[0]] + r.0, r.1)
  }

  /** `bufio.ScanLines` drops one carriage return before the newline. */
  function DropCR(line: Line): Line {
    if line != "" && line[|line|-1] == CR then line[..|line|-1] else line
  }

  lemma {:induction false} NextLineSplits(rest: string)
    requires rest != ""
    ensures Split(rest)[0] == NextLine(rest).0
    ensures if |Split(rest)| == 1 then NextLine(rest).1 == "" && !EndsInNewline(rest)
            else Split(rest)[1..] == Split(NextLine(rest).1)
  {
    if rest[0] == NL {
    } else if |rest| == 1 {
      assert Split(rest[1..]) == [""];
    } else {
      NextLineSplits(rest[1..]);
    }
  }

  /** Scanning line by line yields exactly the lines of `SplitLines`. */
  lemma {:induction false} ScanAgreesWithSplit(rest: string)
    requires rest != ""
    ensures SplitLines(rest) == [NextLine(rest).0] + SplitLines(NextLine(rest).1)
  {
    var l, r := NextLine(rest).0, NextLine(rest).1;
    NextLineSplits(rest);
    LastFieldEmpty(rest);
    if |Split(rest)| == 1 {
      assert Split(rest) == [l];
    } else {
      assert Split(rest) == [l] + Split(r);
    }
  }

  /** Everything the scanner yields, in order, before the carriage returns are dropped. */
  function Tokens(rest: string): seq<Line>
    decreases |rest|
  {
    if rest == "" then [] else [NextLine(rest).0] + Tokens(NextLine(rest).1)
  }

  lemma {:induction false} TokensAreLines(rest: string)
    ensures Tokens(rest) == SplitLines(rest)
    decreases |rest|
  {
    if rest == "" {
    } else {
      TokensAreLines(NextLine(rest).1);
      ScanAgreesWithSplit(rest);
    }
  }

  /** How many lines the loop asks the scanner for: one more than the range, to see that it is past it. */
  function LinesScanned(lines: seq<Line>, endLine: Option<int>): int {
    match endLine
    case None => |lines|
    case Some(e) => Min(|lines|, Max(0, e + 1))
  }

  function FirstLine(startArg: Option<int>): int {
    match startArg
    case None => 1
    case Some(s) => if s <= 0 then 1 else s
  }

  function LastLine(lines: seq<Line>, endLine: Option<int>): int {
    match endLine
    case None => |lines|
    case Some(e) => Min(|lines|, e)
  }

  /** A range is readable when it is not empty, starts inside the file, no scanned line is too long, and an open
      range is not too big. */
  ghost predicate Readable(lines: seq<Line>, startArg: Option<int>, endLine: Option<int>) {
    && (endLine.Some? ==> FirstLine(startArg) <= endLine.value)
    && FirstLine(startArg) <= |lines|
    && Scannable(lines, FirstLine(startArg), endLine)
  }

  function EntryFor(h: LineHash, lines: seq<Line>, n: int): Entry
    requires 1 <= n <= |lines|
  {
    Entry(n, h(DropCR(lines[n-1])), DropCR(lines[n-1]))
  }

  /** One entry for each line from `first` to `last`. */
  ghost predicate Reports(h: LineHash, lines: seq<Line>, first: int, last: int, entries: seq<Entry>) {
    && 1 <= first && last <= |lines| && |entries| == last - first + 1
    && forall i :: 0 <= i < |entries| ==> entries[i] == EntryFor(h, lines, first + i)
  }

  /** The entry shows the line of its number, without a carriage return at its end, and the hash of what it shows. */
  predicate TellsLine(h: LineHash, lines: seq<Line>, e: Entry) {
    && 1 <= e.number <= |lines| && e.hash == h(e.text)
    && var line := lines[e.number-1];
       if line != "" && line[|line|-1] == '\r' then line == e.text + "\r" else line == e.text
  }

  /** The entries tell the lines from `first` to `last`, one after the other. */
  ghost predicate TellsRange(h: LineHash, lines: seq<Line>, entries: seq<Entry>, first: int, last: int) {
    && |entries| == last - first + 1
    && forall i :: 0 <= i < |entries| ==> entries[i].number == first + i && TellsLine(h, lines, entries[i])
  }

  /** Some line among the first `n` has 65536 characters or more. */
  ghost predicate LongAmong(lines: seq<Line>, n: int) {
    exists k :: 0 <= k < n && k < |lines| && |lines[k]| >= 65536
  }

  /** The answer to a request for the lines from `first` on, up to `endLine` if that is given. */
  ghost predicate Answers(r: ReadResult, h: LineHash, lines: seq<Line>, first: int, endLine: Option<int>) {
    match r
    case Report(entries) =>
      first <= |lines|
      && TellsRange(h, lines, entries, first,
                    if endLine.Some? && endLine.value < |lines| then endLine.value else |lines|)
    case Refused(EmptyRange) => endLine.Some? && first > endLine.value
    case Refused(LineTooLong) => LongAmong(lines, if endLine.Some? then endLine.value + 1 else first + 9999)
    case Refused(TooManyLines) => endLine.None? && |lines| >= first + 9999 && !LongAmong(lines, first + 9999)
    case Refused(NoLinesFrom(start)) => start == first > |lines| && (endLine.Some? ==> first <= endLine.value)
  }

  lemma {:induction false} ReportTells(h: LineHash, lines: seq<Line>, first: int, last: int, entries: seq<Entry>)
    requires Reports(h, lines, first, last, entries)
    ensures TellsRange(h, lines, entries, first, last)
  {
    forall i | 0 <= i < |entries|
      ensures entries[i].number == first + i && TellsLine(h, lines, entries[i])
    {
      EntryTells(h, lines, first + i);
    }
  }

  lemma {:induction false} EntryTells(h: LineHash, lines: seq<Line>, n: int)
    requires 1 <= n <= |lines|
    ensures TellsLine(h, lines, EntryFor(h, lines, n))
  {
    var line := lines[n-1];
    assert line != "" && line[|line|-1] == '\r' ==> line == line[..|line|-1] + "\r";
  }

  /** The scan loop of the source. */
  method Execute(h: LineHash, data: string, startArg: Option<int>, endLine: Option<int>) returns (r: ReadResult)
    ensures r.Report? <==> Readable(SplitLines(data), startArg, endLine)
    ensures r.Report? ==> Reports(h, SplitLines(data), FirstLine(startArg), LastLine(SplitLines(data), endLine),
                                  r.entries)
    ensures r == Refused(EmptyRange) <==> endLine.Some? && FirstLine(startArg) > endLine.value
    ensures Answers(r, h, SplitLines(data), if startArg.Some? && startArg.value > 0 then startArg.value else 1, endLine)
  {
    var startLine := if startArg.None? || startArg.value <= 0 then 1 else startArg.value;
    if endLine.Some? && startLine > endLine.value {
      return Refused(EmptyRange);
    }
    TokensAreLines(data);
    ghost var last;
    var err, lines, hashes;
    err, lines, hashes, last := ScanLoop(h, Tokens(data), startLine, endLine);
    if err.Some? {
      return Refused(err.value);
    }
    if |lines| == 0 {
      return Refused(NoLinesFrom(startLine));
    }
    FormattedReports(h, SplitLines(data), last, lines, startLine, hashes);
    ReportTells(h, SplitLines(data), startLine, last, FormatWithLineNumbers(lines, startLine, hashes));
    return Report(FormatWithLineNumbers(lines, startLine, hashes));
  }

  /** The loop over the scanner's lines; it reads one line past a closed range before it stops. */
  method ScanLoop(h: LineHash, all: seq<Line>, startLine: int, endLine: Option<int>)
    returns (err: Option<ReadError>, lines: seq<Line>, hashes: seq<string>, ghost kept: nat)
    requires 1 <= startLine && (endLine.Some? ==> startLine <= endLine.value)
    ensures err.None? ==> Scanned(h, all, startLine, kept, lines, hashes) && kept == LastLine(all, endLine)
    ensures err.None? ==> Scannable(all, startLine, endLine)
    ensures err.Some? ==> !Scannable(all, startLine, endLine)
    ensures err.Some? ==> err.value.LineTooLong? || err.value.TooManyLines?
    ensures err == Some(LineTooLong) ==>
              LongAmong(all, if endLine.Some? then endLine.value + 1 else startLine + 9999)
    ensures err == Some(TooManyLines) ==>
              endLine.None? && |all| >= startLine + 9999 && !LongAmong(all, startLine + 9999)
  {
    err, lines, hashes := None, [], [];
    var lineNum: nat := 0;
    kept := 0;
    while lineNum < |all|
      invariant lineNum == kept <= |all| && AllFit(all, kept)
      invariant endLine.Some? ==> kept <= endLine.value
      invariant Scanned(h, all, startLine, kept, lines, hashes)
      invariant endLine.None? ==> |lines| < MAX_LINES_DEFAULT
    {
      var raw := all[lineNum];
      if |raw| >= MAX_SCAN_TOKEN {
        return Some(LineTooLong), lines, hashes, kept;
      }
      lineNum := lineNum + 1;
      if lineNum < startLine {
        kept := kept + 1;
        continue;
      }
      if endLine.Some? && lineNum > endLine.value {
        break;
      }
      lines, hashes := Collect(h, all, startLine, kept, lines, hashes, raw);
      kept := kept + 1;
      if endLine.None? && |lines| >= MAX_LINES_DEFAULT {
        return Some(TooManyLines), lines, hashes, kept;
      }
    }
    RangeRead(all, startLine, endLine, kept);
  }

  /** Having stopped at the end of the range or of the file, the loop has seen every line it asked for. */
  lemma {:induction false} RangeRead(all: seq<Line>, startLine: int, endLine: Option<int>, k: nat)
    requires k <= |all| && AllFit(all, k + 1)
    requires k == |all| || endLine == Some(k)
    requires endLine.Some? ==> k <= endLine.value
    requires endLine.None? ==> k - startLine + 1 < MAX_LINES_DEFAULT
    ensures k == LastLine(all, endLine) && Scannable(all, startLine, endLine)
  {
  }

  /** No scanned line is too long, and an open range is not too big. */
  ghost predicate Scannable(lines: seq<Line>, first: int, endLine: Option<int>) {
    && AllFit(lines, LinesScanned(lines, endLine))
    && (endLine.None? ==> |lines| - first + 1 < MAX_LINES_DEFAULT)
  }

  /** The first `k` lines fit the scanner's buffer. */
  ghost predicate AllFit(lines: seq<Line>, k: int) {
    forall i :: 0 <= i < k && i < |lines| ==> |lines[i]| < MAX_SCAN_TOKEN
  }

  /** The lines and hashes collected after `lineNum` scanned lines. */
  ghost predicate Scanned(h: LineHash, all: seq<Line>, startLine: int, lineNum: int, lines: seq<Line>,
                          hashes: seq<string>) {
    && 1 <= startLine && 0 <= lineNum <= |all|
    && |hashes| == |lines| == (if lineNum < startLine then 0 else lineNum - startLine + 1)
    && forall i :: 0 <= i < |lines| ==> ScannedAt(h, all, startLine, lines, hashes, i)
  }

  ghost predicate ScannedAt(h: LineHash, all: seq<Line>, startLine: int, lines: seq<Line>, hashes: seq<string>, i: nat)
    requires 1 <= startLine && i < |lines| == |hashes|
  {
    startLine + i <= |all| && lines[i] == DropCR(all[startLine + i - 1]) && hashes[i] == h(lines[i])
  }

  /** Drops the carriage return, keeps the line and computes its hash. */
  method Collect(h: LineHash, ghost all: seq<Line>, startLine: int, ghost k: nat, lines: seq<Line>, hashes: seq<string>,
                 raw: Line)
    returns (lines': seq<Line>, hashes': seq<string>)
    requires Scanned(h, all, startLine, k, lines, hashes) && startLine <= k + 1 <= |all| && raw == all[k]
    ensures Scanned(h, all, startLine, k + 1, lines', hashes')
  {
    var line := DropCR(raw);
    lines' := lines + [line];
    hashes' := hashes + [h(line)];
    forall i | 0 <= i < |lines'|
      ensures ScannedAt(h, all, startLine, lines', hashes', i)
    {
      assert i < |lines| ==> ScannedAt(h, all, startLine, lines, hashes, i);
    }
  }

  /** One entry for each line, numbered on from the start line. */
  function FormatWithLineNumbers(lines: seq<Line>, startLine: int, hashes: seq<string>): seq<Entry>
    requires |lines| == |hashes|
  {
    seq(|lines|, i requires 0 <= i < |lines| => Entry(startLine + i, hashes[i], lines[i]))
  }

  lemma {:induction false} FormattedReports(h: LineHash, all: seq<Line>, lineNum: int, lines: seq<Line>, startLine: int,
                                            hashes: seq<string>)
    requires Scanned(h, all, startLine, lineNum, lines, hashes) && startLine <= lineNum
    ensures Reports(h, all, startLine, lineNum, FormatWithLineNumbers(lines, startLine, hashes))
  {
    forall i | 0 <= i < |lines|
      ensures FormatWithLineNumbers(lines, startLine, hashes)[i] == EntryFor(h, all, startLine + i)
    {
      assert ScannedAt(h, all, startLine, lines, hashes, i);
    }
  }

  /** A reported line and hash, used as an edit anchor on the unchanged file, is accepted exactly when the dropped
      carriage return, if there was one, does not show in the hash. */
  lemma {:induction false} AnchorAcceptedIff(h: LineHash, data: string, n: int, operation: string, content: string)
    requires 1 <= n <= |SplitLines(data)|
    ensures ValidEdits(h, [Edit(operation, n, EntryFor(h, SplitLines(data), n).hash, content)], SplitLines(data))
            <==> h(SplitLines(data)[n-1]) == h(DropCR(SplitLines(data)[n-1]))
  {
    var e := Edit(operation, n, EntryFor(h, SplitLines(data), n).hash, content);
    assert [e][0] == e;
  }

  /** The edit names a line of the file, with the hash reported for it. */
  ghost predicate Reported(h: LineHash, lines: seq<Line>, e: Edit) {
    1 <= e.line <= |lines| && e.hash == EntryFor(h, lines, e.line).hash
  }

  /** A carriage return dropped from the line the edit names does not show in the hash. */
  ghost predicate HidesReturn(h: LineHash, lines: seq<Line>, e: Edit) {
    1 <= e.line <= |lines| && h(lines[e.line-1]) == h(DropCR(lines[e.line-1]))
  }

  /** Main result: edits anchored on reported lines, at most one a line, are accepted together if and only if no dropped
      carriage return shows in a hash. */
  lemma {:induction false} ReportedAnchorsAcceptedIff(h: LineHash, data: string, edits: seq<Edit>)
    requires DistinctLines(edits) && forall i :: 0 <= i < |edits| ==> Reported(h, SplitLines(data), edits[i])
    ensures FirstProblem(h, edits, SplitLines(data), 0) == None <==>
            forall i :: 0 <= i < |edits| ==> HidesReturn(h, SplitLines(data), edits[i])
  {
    var lines := SplitLines(data);
    AcceptedIffValid(h, edits, lines);
    assert InBounds(edits, |lines|) by {
      assert forall i :: 0 <= i < |edits| ==> Reported(h, lines, edits[i]);
    }
    if ValidEdits(h, edits, lines) {
      forall i | 0 <= i < |edits|
        ensures HidesReturn(h, lines, edits[i])
      {
        assert Reported(h, lines, edits[i]);
      }
    } else {
      assert exists i :: 0 <= i < |edits| && !HidesReturn(h, lines, edits[i]) by {
        var i :| 0 <= i < |edits| && h(lines[edits[i].line - 1]) != edits[i].hash;
        assert Reported(h, lines, edits[i]);
        assert !HidesReturn(h, lines, edits[i]);
      }
    }
  }

  /** The edit names a line of the file that does not end in a carriage return, with the hash reported for it. */
  ghost predicate Anchored(h: LineHash, lines: seq<Line>, e: Edit) {
    Reported(h, lines, e) && DropCR(lines[e.line-1]) == lines[e.line-1]
  }

  /** In particular when no anchored line ends in a carriage return. */
  lemma {:induction false} ReportedAnchorsAreAccepted(h: LineHash, data: string, edits: seq<Edit>)
    requires DistinctLines(edits)
    requires forall i :: 0 <= i < |edits| ==> Anchored(h, SplitLines(data), edits[i])
    ensures FirstProblem(h, edits, SplitLines(data), 0) == None
  {
    forall i | 0 <= i < |edits|
      ensures Reported(h, SplitLines(data), edits[i]) && HidesReturn(h, SplitLines(data), edits[i])
    {
      assert Anchored(h, SplitLines(data), edits[i]);
    }
    ReportedAnchorsAcceptedIff(h, data, edits);
  }

  /** With a carriage return the hash can miss: under every hash that tells "a" from "a" with a carriage return, the
      editor refuses the anchor reported for that line. */
  lemma {:induction false} CarriageReturnRejected(h: LineHash)
    ensures ValidEdits(h, [Edit("delete", 1, EntryFor(h, SplitLines("a\r\n"), 1).hash, "")], SplitLines("a\r\n")) <==>
            h("a") == h("a\r")
  {
    SplitAtNewline("a\r", "");
    assert "a\r" + [NL] + "" == "a\r\n" && Split("") == [""];
    assert Split("a\r\n") == ["a\r", ""];
    assert SplitLines("a\r\n") == ["a\r"] && DropCR("a\r") == "a";
    AnchorAcceptedIff(h, "a\r\n", 1, "delete", "");
  }
}
