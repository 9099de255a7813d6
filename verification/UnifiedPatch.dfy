/** Reading the unified text back: by its marks alone, the text of a diff is a patch that turns the old file into the
    new one. */
module UnifiedPatch {

  import opened Options
  import opened Lcs
  import opened Blocks
  import opened Patch
  import opened NewNumbers
  import opened Lines
  import opened Unified

  // ----- a text line by line

  lemma {:induction false} FirstFieldLonger(c: char, fields: seq<string>, more: seq<string>)
    requires |fields| >= 2
    ensures var all := fields[..|fields|-1] + more;
            [[c] + all[0]] + all[1..] == ([[c] + fields[0]] + fields[1..])[..|fields|-1] + more
  {
  }

  lemma {:induction false} SplitOfCons(c: char, s: string)
    ensures Split([c] + s) == if c == NL then [""] + Split(s) else [[c] + Split(s)[0]] + Split(s)[1..]
  {
    assert ([c] + s)[1..] == s;
  }

  lemma {:induction false} SplitBehind(t: string, rest: string)
    requires EndsInNewline(t)
    ensures Split(t + rest) == Split(t)[..|Split(t)|-1] + Split(rest)
  {
    var c, u := t[0], t[1..];
    assert t == [c] + u && t + rest == [c] + (u + rest);
    SplitOfCons(c, u);
    SplitOfCons(c, u + rest);
    if u == "" {
      assert u + rest == rest && Split(u) == [""];
    } else {
      SplitBehind(u, rest);
      SplitOfNewline(u);
      FieldsBehind(c, Split(u), Split(rest));
    }
  }

  lemma {:induction false} FieldsBehind(c: char, fields: seq<string>, more: seq<string>)
    requires |fields| >= 2
    ensures var all := fields[..|fields|-1] + more;
            if c == NL then [""] + all == ([""] + fields)[..|fields|] + more
            else [[c] + all[0]] + all[1..] == ([[c] + fields[0]] + fields[1..])[..|fields|-1] + more
  {
    if c != NL { FirstFieldLonger(c, fields, more); }
  }

  lemma {:induction false} SplitOneLine(x: string)
    requires NL !in x
    ensures Split(x + [NL]) == [x, ""] && SplitLines(x + [NL]) == [x]
  {
    SplitAtNewline(x, "");
    assert x + [NL] + "" == x + [NL] && Split("") == [""];
  }

  lemma {:induction false} SplitOneMore(t: string, x: string)
    requires t == "" || EndsInNewline(t)
    requires NL !in x
    ensures EndsInNewline(t + (x + [NL])) && SplitLines(t + (x + [NL])) == SplitLines(t) + [x]
  {
    SplitOneLine(x);
    if t == "" {
      assert t + (x + [NL]) == x + [NL];
    } else {
      SplitBehindText(t, x + [NL], x);
    }
  }

  lemma {:induction false} SplitBehindText(t: string, rest: string, x: string)
    requires EndsInNewline(t) && Split(rest) == [x, ""]
    ensures SplitLines(t + rest) == SplitLines(t) + [x]
  {
    LastFieldEmpty(t);
    SplitBehind(t, rest);
    var front := Split(t)[..|Split(t)|-1];
    assert (front + [x, ""])[..|front| + 1] == front + [x];
  }

  // ----- reading

  /** What a mark and the content behind it stand for. */
  function ReadLine(line: string): DiffLine
    requires line != ""
  {
    DiffLine(if line[0] == ' ' then Context else if line[0] == '-' then Delete else Insert, line[1..], None, None, None)
  }

  /** The lines that the text of a hunk stands for. */
  function ReadLines(lines: seq<string>): seq<DiffLine>
    requires forall i :: 0 <= i < |lines| ==> lines[i] != ""
  {
    seq(|lines|, i requires 0 <= i < |lines| => ReadLine(lines[i]))
  }

  /** The same lines, but for numbers and hashes. */
  ghost predicate SameLines(a: seq<DiffLine>, b: seq<DiffLine>) {
    |a| == |b| && forall i :: 0 <= i < |a| ==> SameLine(a[i], b[i])
  }

  predicate SameLine(a: DiffLine, b: DiffLine) {
    a.kind == b.kind && a.content == b.content
  }

  lemma {:induction false} SameSides(a: seq<DiffLine>, b: seq<DiffLine>)
    requires SameLines(a, b)
    ensures OldSide(a) == OldSide(b) && NewSide(a) == NewSide(b)
  {
    if a == [] {
    } else {
      var n := |a| - 1;
      forall i | 0 <= i < n
        ensures SameLine(a[..n][i], b[..n][i])
      {
        assert SameLine(a[i], b[i]);
      }
      SameSides(a[..n], b[..n]);
      assert SameLine(a[n], b[n]);
    }
  }

  /** The text of a hunk behind its header. */
  function BodyText(b: Block): string {
    RenderLines("", b.lines, |b.lines|)
  }

  lemma {:induction false} TextBehindHeader(header: string, ls: seq<DiffLine>, k: nat)
    requires k <= |ls|
    ensures RenderLines(header, ls, k) == header + RenderLines("", ls, k)
  {
    if k == 0 {
    } else {
      TextBehindHeader(header, ls, k - 1);
      var front, line := RenderLines("", ls, k - 1), RenderLine(ls[k-1].kind, ls[k-1].content);
      assert header + front + line == header + (front + line);
    }
  }

  ghost predicate AllClean(ls: seq<DiffLine>) {
    forall i :: 0 <= i < |ls| ==> NL !in ls[i].content
  }

  /** The text, read back, is the first `k` lines. */
  ghost predicate ReadsAs(text: string, ls: seq<DiffLine>, k: nat)
    requires k <= |ls|
  {
    (text == "" || EndsInNewline(text)) && LinesReadAs(SplitLines(text), ls, k)
  }

  ghost predicate LinesReadAs(lines: seq<string>, ls: seq<DiffLine>, k: nat)
    requires k <= |ls|
  {
    |lines| == k && forall i :: 0 <= i < k ==> LineReadsAs(lines[i], ls[i])
  }

  lemma {:induction false} OneMoreLine(lines: seq<string>, ls: seq<DiffLine>, k: nat, x: string)
    requires k < |ls| && LinesReadAs(lines, ls, k) && LineReadsAs(x, ls[k])
    ensures LinesReadAs(lines + [x], ls, k + 1)
  {
  }

  predicate LineReadsAs(line: string, l: DiffLine) {
    line != "" && SameLine(ReadLine(line), l)
  }

  lemma {:induction false} OneLineReadsBack(kind: Kind, content: Line)
    requires NL !in content
    ensures NL !in [Prefix(kind)] + content
    ensures RenderLine(kind, content) == ([Prefix(kind)] + content) + [NL]
    ensures ReadLine([Prefix(kind)] + content).kind == kind && ReadLine([Prefix(kind)] + content).content == content
  {
  }

  lemma {:induction false} OneMoreReadsAs(ls: seq<DiffLine>, k: nat, t: string, x: string)
    requires k < |ls| && ReadsAs(t, ls, k) && LineReadsAs(x, ls[k]) && NL !in x
    ensures ReadsAs(t + (x + [NL]), ls, k + 1)
  {
    OneMoreLine(SplitLines(t), ls, k, x);
    SplitOneMore(t, x);
  }

  lemma {:induction false} TextReadsBack(ls: seq<DiffLine>, k: nat)
    requires AllClean(ls) && k <= |ls|
    ensures ReadsAs(RenderLines("", ls, k), ls, k)
  {
    if k > 0 {
      TextReadsBack(ls, k - 1);
      var t, l := RenderLines("", ls, k - 1), ls[k-1];
      OneLineReadsBack(l.kind, l.content);
      OneMoreReadsAs(ls, k - 1, t, [Prefix(l.kind)] + l.content);
    }
  }

  // ----- the text as a patch

  /** The block as a reader of its text knows it: its header's numbers, and the lines the text stands for. */
  ghost predicate IsReadFrom(r: Block, b: Block) {
    var lines := SplitLines(BodyText(b));
    && (forall i :: 0 <= i < |lines| ==> lines[i] != "")
    && r == b.(lines := ReadLines(lines))
  }

  /** Each block as it is read from its own text. */
  ghost predicate AllRead(rs: seq<Block>, bs: seq<Block>) {
    |rs| == |bs| && forall i :: 0 <= i < |bs| ==> IsReadFrom(rs[i], bs[i])
  }

  lemma {:induction false} ReadHasSides(r: Block, b: Block)
    requires IsReadFrom(r, b) && AllClean(b.lines)
    ensures SamePatch(r, b)
  {
    TextReadsBack(b.lines, |b.lines|);
    var lines := SplitLines(BodyText(b));
    forall i | 0 <= i < |r.lines|
      ensures SameLine(r.lines[i], b.lines[i])
    {
      assert LineReadsAs(lines[i], b.lines[i]);
    }
    SameSides(r.lines, b.lines);
  }

  lemma {:induction false} SameBlockApplies(before: seq<Line>, out: seq<Line>, pos: nat, r: Block, b: Block)
    requires OldSide(r.lines) == OldSide(b.lines) && NewSide(r.lines) == NewSide(b.lines)
    requires r.oldStartLine == b.oldStartLine
    ensures ApplyBlock(before, out, pos, r) == ApplyBlock(before, out, pos, b)
  {
  }

  /** Both blocks do the same to a file. */
  ghost predicate SamePatch(r: Block, b: Block) {
    r.oldStartLine == b.oldStartLine && OldSide(r.lines) == OldSide(b.lines) && NewSide(r.lines) == NewSide(b.lines)
  }

  lemma {:induction false} NextAppliesAlike(before: seq<Line>, rs: seq<Block>, bs: seq<Block>, k: nat)
    requires k < |rs| && k < |bs| && SamePatch(rs[k], bs[k])
    requires ApplyUpTo(before, rs, k) == ApplyUpTo(before, bs, k)
    ensures ApplyUpTo(before, rs, k + 1) == ApplyUpTo(before, bs, k + 1)
  {
    match ApplyUpTo(before, bs, k)
    case None =>
    case Some(st) => SameBlockApplies(before, st.0, st.1, rs[k], bs[k]);
  }

  lemma {:induction false} ReadAppliesAlike(before: seq<Line>, rs: seq<Block>, bs: seq<Block>, k: nat)
    requires |rs| == |bs| && k <= |bs| && forall i :: 0 <= i < |bs| ==> SamePatch(rs[i], bs[i])
    ensures ApplyUpTo(before, rs, k) == ApplyUpTo(before, bs, k)
  {
    if k > 0 {
      ReadAppliesAlike(before, rs, bs, k - 1);
      NextAppliesAlike(before, rs, bs, k - 1);
    }
  }

  lemma {:induction false} LineIsClean(before: seq<Line>, after: seq<Line>, oldHashes: Hashes, newHashes: Hashes,
                                       i: nat, j: nat)
    requires Clean(before) && Clean(after)
    requires i < |BlocksOf(before, after, oldHashes, newHashes)|
    requires j < |BlocksOf(before, after, oldHashes, newHashes)[i].lines|
    ensures NL !in BlocksOf(before, after, oldHashes, newHashes)[i].lines[j].content
  {
    var l := BlocksOf(before, after, oldHashes, newHashes)[i].lines[j];
    if l.kind.Insert? {
      NewNumberIsTrueIff(before, after, oldHashes, newHashes, i, j);
    } else {
      OldNumbersAreTrue(before, after, oldHashes, newHashes, i, j);
    }
  }

  lemma {:induction false} BlockIsClean(before: seq<Line>, after: seq<Line>, oldHashes: Hashes, newHashes: Hashes,
                                        i: nat)
    requires Clean(before) && Clean(after) && i < |BlocksOf(before, after, oldHashes, newHashes)|
    ensures AllClean(BlocksOf(before, after, oldHashes, newHashes)[i].lines)
  {
    forall j | 0 <= j < |BlocksOf(before, after, oldHashes, newHashes)[i].lines|
      ensures NL !in BlocksOf(before, after, oldHashes, newHashes)[i].lines[j].content
    {
      LineIsClean(before, after, oldHashes, newHashes, i, j);
    }
  }

  lemma {:induction false} LinesAreClean(s: string)
    ensures Clean(SplitLines(s))
  {
    SplitIsClean(s);
  }

  /** Main result: for any two texts, the text of each block is a header followed by a body, and reading the bodies back
      by their marks gives blocks that patch the lines of the old text into those of the new one. */
  lemma {:induction false} TextIsPatch(f: HeaderFormat, oldContent: string, newContent: string, oldHashes: Hashes,
                                       newHashes: Hashes, rs: seq<Block>)
    requires AllRead(rs, BlocksOf(SplitLines(oldContent), SplitLines(newContent), oldHashes, newHashes))
    ensures Apply(SplitLines(oldContent), rs) == Some(SplitLines(newContent))
    ensures forall i :: 0 <= i < |rs| ==>
              var b := BlocksOf(SplitLines(oldContent), SplitLines(newContent), oldHashes, newHashes)[i];
              RenderBlock(f, b) == f(b.oldStartLine, b.oldCount, b.newStartLine, b.newCount) + BodyText(b)
  {
    var before, after := SplitLines(oldContent), SplitLines(newContent);
    var bs := BlocksOf(before, after, oldHashes, newHashes);
    LinesAreClean(oldContent);
    LinesAreClean(newContent);
    forall i | 0 <= i < |bs|
      ensures SamePatch(rs[i], bs[i])
      ensures RenderBlock(f, bs[i])
           == f(bs[i].oldStartLine, bs[i].oldCount, bs[i].newStartLine, bs[i].newCount) + BodyText(bs[i])
    {
      BlockIsClean(before, after, oldHashes, newHashes, i);
      assert IsReadFrom(rs[i], bs[i]);
      ReadHasSides(rs[i], bs[i]);
      TextBehindHeader(f(bs[i].oldStartLine, bs[i].oldCount, bs[i].newStartLine, bs[i].newCount), bs[i].lines,
                       |bs[i].lines|);
    }
    ReadAppliesAlike(before, rs, bs, |bs|);
    PatchRebuildsNewFile(before, after, oldHashes, newHashes);
  }

  lemma {:induction false} BlockCanBeRead(b: Block) returns (r: Block)
    requires AllClean(b.lines)
    ensures IsReadFrom(r, b)
  {
    TextReadsBack(b.lines, |b.lines|);
    assert forall i :: 0 <= i < |b.lines| ==> LineReadsAs(SplitLines(BodyText(b))[i], b.lines[i]);
    r := b.(lines := ReadLines(SplitLines(BodyText(b))));
  }

  lemma {:induction false} BlocksCanBeRead(bs: seq<Block>) returns (rs: seq<Block>)
    requires forall i :: 0 <= i < |bs| ==> AllClean(bs[i].lines)
    ensures AllRead(rs, bs)
  {
    rs := [];
    for i := 0 to |bs|
      invariant |rs| == i && forall k :: 0 <= k < i ==> IsReadFrom(rs[k], bs[k])
    {
      var r := BlockCanBeRead(bs[i]);
      rs := rs + [r];
    }
  }

  /** Every body can be read back. */
  lemma {:induction false} TextCanBeRead(oldContent: string, newContent: string, oldHashes: Hashes, newHashes: Hashes)
    returns (rs: seq<Block>)
    ensures AllRead(rs, BlocksOf(SplitLines(oldContent), SplitLines(newContent), oldHashes, newHashes))
  {
    var before, after := SplitLines(oldContent), SplitLines(newContent);
    LinesAreClean(oldContent);
    LinesAreClean(newContent);
    forall i | 0 <= i < |BlocksOf(before, after, oldHashes, newHashes)|
      ensures AllClean(BlocksOf(before, after, oldHashes, newHashes)[i].lines)
    {
      BlockIsClean(before, after, oldHashes, newHashes, i);
    }
    rs := BlocksCanBeRead(BlocksOf(before, after, oldHashes, newHashes));
  }
}
