/** The unified text of a diff. The source formats it with a second copy of the block loop; the main result is
    that this text is the rendering of exactly the structured blocks. */
module Unified {

  import opened Lcs
  import opened Changes
  import opened Hunks
  import opened Blocks
  import opened Format
  import opened Patch
  import opened Preview
  import opened Lines

  /** How `fmt.Sprintf` prints old start, old count, new start and new count; any printing will do. */
  type HeaderFormat = (int, int, int, int) -> string

  function Prefix(kind: Kind): char {
    match kind
    case Context => ' '
    case Delete => '-'
    case Insert => '+'
  }

  function RenderLine(kind: Kind, content: Line): string {
    [Prefix(kind)] + content + "\n"
  }

  /** `text` followed by the first `k` lines. */
  function RenderLines(text: string, ls: seq<DiffLine>, k: nat): string
    requires k <= |ls|
  {
    if k == 0 then text else RenderLines(text, ls, k-1) + RenderLine(ls[k-1].kind, ls[k-1].content)
  }

  function RenderBlock(f: HeaderFormat, b: Block): string {
    RenderLines(f(b.oldStartLine, b.oldCount, b.newStartLine, b.newCount), b.lines, |b.lines|)
  }

  /** `text` followed by the first `k` blocks. */
  function RenderBlocks(f: HeaderFormat, text: string, bs: seq<Block>, k: nat): string
    requires k <= |bs|
  {
    if k == 0 then text else RenderBlocks(f, text, bs, k-1) + RenderBlock(f, bs[k-1])
  }

  lemma {:induction false} RenderPrefix(text: string, ls: seq<DiffLine>, l: DiffLine, k: nat)
    requires k <= |ls|
    ensures RenderLines(text, ls + [l], k) == RenderLines(text, ls, k)
  {
    if k == 0 {
    } else {
      RenderPrefix(text, ls, l, k - 1);
    }
  }

  /** One text for each block. */
  ghost predicate HunkTexts(f: HeaderFormat, hunks: seq<string>, bs: seq<Block>) {
    |hunks| == |bs| && forall i :: 0 <= i < |bs| ==> HunkTextAt(f, hunks, bs, i)
  }

  ghost predicate HunkTextAt(f: HeaderFormat, hunks: seq<string>, bs: seq<Block>, i: nat)
    requires i < |hunks| == |bs|
  {
    hunks[i] == RenderBlock(f, bs[i])
  }

  lemma {:induction false} HunkTextsOneMore(f: HeaderFormat, hunks: seq<string>, bs: seq<Block>, hunk: string, b: Block)
    requires HunkTexts(f, hunks, bs) && hunk == RenderBlock(f, b)
    ensures HunkTexts(f, hunks + [hunk], bs + [b])
  {
    var hunks', bs' := hunks + [hunk], bs + [b];
    forall i | 0 <= i < |bs'|
      ensures HunkTextAt(f, hunks', bs', i)
    {
      assert i < |bs| ==> HunkTextAt(f, hunks, bs, i);
    }
  }

  /** The text so far is exactly the rendering of the lines so far. */
  ghost predicate Rendered(text: string, header: string, ls: seq<DiffLine>) {
    text == RenderLines(header, ls, |ls|)
  }

  /** The three writes of one line: its mark, its content, a newline. */
  method WriteLine(kind: Kind, content: Line, text: string, ghost header: string, ghost ls: seq<DiffLine>,
                   ghost l: DiffLine)
    returns (text': string, ghost lines: seq<DiffLine>)
    requires Rendered(text, header, ls) && l.kind == kind && l.content == content
    ensures lines == ls + [l] && Rendered(text', header, lines)
  {
    RenderPrefix(header, ls, l, |ls|);
    text' := text + ([Prefix(kind)] + content + "\n");
    lines := ls + [l];
  }

  /** `formatHunk`: the text twin of the structured formatter. The ghost hash tables may be any. */
  method FormatHunk(f: HeaderFormat, before: seq<Line>, after: seq<Line>, changes: seq<Change>, hunkStart: nat,
                    hunkEnd: nat,
                    ghost oldHashes: Hashes, ghost newHashes: Hashes, ghost h: Hunk) returns (text: string)
    requires Script(before, after, changes) && InRange(changes, |before|)
    requires Tight(changes, |before|, |changes|, h) && hunkStart == h.start && hunkEnd == h.end
    ensures text == RenderBlock(f, HunkBlock(before, after, changes, h, oldHashes, newHashes))
  {
    FilterPicksTheGroup(before, after, changes, h);
    HunkIsFormattable(before, after, changes, h);
    // The source returns an empty text for an empty list; the grouping never asks for one.
    var rel := FilterChangesInRange(changes, hunkStart, hunkEnd);
    text := FormatRun(f, before, after, rel, hunkStart, hunkEnd, oldHashes, newHashes);
  }

  method RunHeader(f: HeaderFormat, rel: seq<Change>, hunkStart: nat, hunkEnd: nat) returns (header: string)
    requires rel != [] && hunkStart <= rel[0].oldStart
    ensures header == f(hunkStart + 1, hunkEnd - hunkStart, hunkStart + 1,
                        hunkEnd - hunkStart - TotalRemoved(rel) + TotalAdded(rel))
  {
    var oldCount: int := hunkEnd - hunkStart;
    var removedLines, addedLines := CountChanges(rel);
    var newStart := ComputeNewStart(rel, hunkStart);
    header := f(hunkStart + 1, oldCount, newStart + 1, oldCount - removedLines + addedLines);
  }

  method FormatRun(f: HeaderFormat, before: seq<Line>, after: seq<Line>, rel: seq<Change>, hunkStart: nat, hunkEnd: nat,
                   ghost oldHashes: Hashes, ghost newHashes: Hashes) returns (text: string)
    requires Formattable(before, after, rel, hunkStart, hunkEnd) && hunkStart <= rel[0].oldStart
    ensures text == RenderBlock(f, BlockOf(before, after, rel, hunkStart, hunkEnd, oldHashes, newHashes))
  {
    var header := RunHeader(f, rel, hunkStart, hunkEnd);
    text := FormatText(before, after, rel, hunkStart, hunkEnd, header, oldHashes, newHashes);
  }

  /** The loop nest, writing text. */
  method FormatText(before: seq<Line>, after: seq<Line>, rel: seq<Change>, hunkStart: nat, hunkEnd: nat, header: string,
                    ghost oldHashes: Hashes, ghost newHashes: Hashes) returns (text: string)
    requires Formattable(before, after, rel, hunkStart, hunkEnd)
    ensures Rendered(text, header, Body(before, after, rel, hunkStart, hunkEnd, oldHashes, newHashes))
  {
    text := header;
    ghost var lines: seq<DiffLine> := [];
    var oldPos: nat, changeIndex: nat := hunkStart, 0;
    ghost var newPos: int := hunkStart;
    LoopStarts(before, after, rel, hunkStart, hunkEnd, oldHashes, newHashes);
    while oldPos < hunkEnd || changeIndex < |rel|
      invariant Stands(before, after, rel, hunkStart, hunkEnd, oldHashes, newHashes, lines, oldPos, newPos,
                       changeIndex)
      invariant Rendered(text, header, lines)
      decreases |rel| - changeIndex + hunkEnd - oldPos
    {
      text, lines, oldPos, newPos, changeIndex :=
        NextText(before, after, rel, hunkStart, hunkEnd, header, text, lines, oldPos, newPos, changeIndex, oldHashes,
                 newHashes);
    }
    LoopEnds(before, after, rel, hunkStart, hunkEnd, oldHashes, newHashes, lines, oldPos, newPos, changeIndex);
  }

  /** One round of the loop, which takes the same branches as the structured formatter's. */
  method NextText(before: seq<Line>, after: seq<Line>, rel: seq<Change>, hunkStart: nat, hunkEnd: nat,
                  ghost header: string,
                  text: string, ghost ls: seq<DiffLine>, oldPos: nat, ghost newPos: int, changeIndex: nat,
                  ghost oldHashes: Hashes, ghost newHashes: Hashes)
    returns (text': string, ghost lines: seq<DiffLine>, oldPos': nat, ghost newPos': int, changeIndex': nat)
    requires Formattable(before, after, rel, hunkStart, hunkEnd) && (oldPos < hunkEnd || changeIndex < |rel|)
    requires Stands(before, after, rel, hunkStart, hunkEnd, oldHashes, newHashes, ls, oldPos, newPos, changeIndex)
    requires Rendered(text, header, ls)
    ensures Stands(before, after, rel, hunkStart, hunkEnd, oldHashes, newHashes, lines, oldPos', newPos', changeIndex')
    ensures Rendered(text', header, lines)
    ensures |rel| - changeIndex' + hunkEnd - oldPos' < |rel| - changeIndex + hunkEnd - oldPos
  {
    var again;
    text', lines, oldPos', newPos', changeIndex', again :=
      ChangeText(before, after, rel, hunkStart, hunkEnd, header, text, ls, oldPos, newPos, changeIndex, oldHashes,
                 newHashes);
    ContextIsNext(rel, hunkEnd, oldPos, changeIndex, oldPos', changeIndex', again);
    text', lines, oldPos', newPos' :=
      ContextText(before, after, rel, hunkStart, hunkEnd, header, text', lines, oldPos', newPos', changeIndex',
                  !again && oldPos' < hunkEnd, oldHashes, newHashes);
  }

  /** The change that starts here, if any; `again` when the loop goes on without a context line. */
  method ChangeText(before: seq<Line>, after: seq<Line>, rel: seq<Change>, hunkStart: nat, hunkEnd: nat,
                    ghost header: string,
                    text: string, ghost ls: seq<DiffLine>, oldPos: nat, ghost newPos: int, changeIndex: nat,
                    ghost oldHashes: Hashes, ghost newHashes: Hashes)
    returns (text': string, ghost lines: seq<DiffLine>, oldPos': nat, ghost newPos': int, changeIndex': nat,
             again: bool)
    requires Formattable(before, after, rel, hunkStart, hunkEnd)
    requires Stands(before, after, rel, hunkStart, hunkEnd, oldHashes, newHashes, ls, oldPos, newPos, changeIndex)
    requires Rendered(text, header, ls)
    ensures Stands(before, after, rel, hunkStart, hunkEnd, oldHashes, newHashes, lines, oldPos', newPos', changeIndex')
    ensures Rendered(text', header, lines)
    ensures AfterChange(rel, hunkEnd, oldPos, changeIndex, oldPos', changeIndex', again)
  {
    text', lines, oldPos', newPos', changeIndex', again := text, ls, oldPos, newPos, changeIndex, false;
    RoomAhead(before, after, rel, hunkStart, hunkEnd, changeIndex);
    if changeIndex < |rel| {
      var c := rel[changeIndex];
      if oldPos == c.oldStart || (c.oldStart == c.oldEnd && oldPos >= c.oldStart && changeIndex < |rel|) {
        text', oldPos', lines, newPos' := PassChange(before, after, rel, hunkStart, hunkEnd, header, text, ls, newPos,
                                                     changeIndex,
                                                     oldHashes, newHashes);
        changeIndex' := changeIndex + 1;
        again := c.oldStart == c.oldEnd;
      }
    }
  }

  /** The body of the loop at a change. */
  method PassChange(before: seq<Line>, after: seq<Line>, rel: seq<Change>, hunkStart: nat, hunkEnd: nat,
                    ghost header: string,
                    text: string, ghost ls: seq<DiffLine>, ghost newPos: int, k: nat,
                    ghost oldHashes: Hashes, ghost newHashes: Hashes)
    returns (text': string, oldPos': nat, ghost lines: seq<DiffLine>, ghost newPos': int)
    requires Formattable(before, after, rel, hunkStart, hunkEnd) && k < |rel| && Rendered(text, header, ls)
    requires Stands(before, after, rel, hunkStart, hunkEnd, oldHashes, newHashes, ls, rel[k].oldStart, newPos, k)
    ensures oldPos' == rel[k].oldEnd && Rendered(text', header, lines)
    ensures rel[k].oldStart <= oldPos' <= hunkEnd && (k + 1 < |rel| ==> oldPos' < rel[k+1].oldStart)
    ensures Stands(before, after, rel, hunkStart, hunkEnd, oldHashes, newHashes, lines, oldPos', newPos', k + 1)
  {
    RoomAhead(before, after, rel, hunkStart, hunkEnd, k + 1);
    RoomAhead(before, after, rel, hunkStart, hunkEnd, k);
    StepChange(before, after, rel, hunkStart, hunkEnd, oldHashes, newHashes, newPos, k);
    text', oldPos', lines := WriteChange(before, after, rel[k], header, text, ls, newPos, oldHashes, newHashes);
    newPos' := newPos + rel[k].Added();
  }

  /** The body of the loop at a context line. */
  method ContextText(before: seq<Line>, after: seq<Line>, rel: seq<Change>, hunkStart: nat, hunkEnd: nat,
                     ghost header: string,
                     text: string, ghost ls: seq<DiffLine>, oldPos: nat, ghost newPos: int, k: nat, due: bool,
                     ghost oldHashes: Hashes, ghost newHashes: Hashes)
    returns (text': string, ghost lines: seq<DiffLine>, oldPos': nat, ghost newPos': int)
    requires Formattable(before, after, rel, hunkStart, hunkEnd) && Rendered(text, header, ls)
    requires Stands(before, after, rel, hunkStart, hunkEnd, oldHashes, newHashes, ls, oldPos, newPos, k)
    requires due ==> oldPos < if k < |rel| then rel[k].oldStart else hunkEnd
    ensures Rendered(text', header, lines)
    ensures Stands(before, after, rel, hunkStart, hunkEnd, oldHashes, newHashes, lines, oldPos', newPos', k)
    ensures oldPos' == if due then oldPos + 1 else oldPos
  {
    text', lines, oldPos', newPos' := text, ls, oldPos, newPos;
    if due {
      StepContext(before, after, rel, hunkStart, hunkEnd, oldHashes, newHashes, oldPos, newPos, k);
      text', lines := WriteLine(Context, before[oldPos], text, header, ls,
                                ContextLine(before, oldHashes, oldPos, newPos));
      oldPos', newPos' := oldPos' + 1, newPos' + 1;
    }
  }

  method WriteChange(before: seq<Line>, after: seq<Line>, c: Change, ghost header: string, text: string,
                     ghost ls: seq<DiffLine>, ghost newPos: int, ghost oldHashes: Hashes, ghost newHashes: Hashes)
    returns (text': string, oldPos': nat, ghost lines: seq<DiffLine>)
    requires c.oldStart <= c.oldEnd <= |before| && c.newStart <= c.newEnd <= |after|
    requires Rendered(text, header, ls)
    ensures oldPos' == c.oldEnd && Rendered(text', header, lines)
    ensures lines == AddInserts(AddDeletes(ls, before, oldHashes, c.oldStart, c.oldEnd), after, newHashes, c.newStart,
                                c.newEnd, newPos)
  {
    text', lines := WriteDeletes(before, c, header, text, ls, oldHashes);
    oldPos' := c.oldEnd;
    text', lines := WriteInserts(after, c, header, text', lines, newPos, newHashes);
  }

  method WriteDeletes(before: seq<Line>, c: Change, ghost header: string, text: string, ghost ls: seq<DiffLine>,
                      ghost oldHashes: Hashes)
    returns (text': string, ghost lines: seq<DiffLine>)
    requires c.oldStart <= c.oldEnd <= |before| && Rendered(text, header, ls)
    ensures Rendered(text', header, lines) && lines == AddDeletes(ls, before, oldHashes, c.oldStart, c.oldEnd)
  {
    text', lines := text, ls;
    for i := c.oldStart to c.oldEnd
      invariant Rendered(text', header, lines) && lines == AddDeletes(ls, before, oldHashes, c.oldStart, i)
    {
      text', lines := WriteLine(Delete, before[i], text', header, lines, DeleteLine(before, oldHashes, i));
    }
  }

  method WriteInserts(after: seq<Line>, c: Change, ghost header: string, text: string, ghost ls: seq<DiffLine>,
                      ghost newPos: int, ghost newHashes: Hashes)
    returns (text': string, ghost lines: seq<DiffLine>)
    requires c.newStart <= c.newEnd <= |after| && Rendered(text, header, ls)
    ensures Rendered(text', header, lines) && lines == AddInserts(ls, after, newHashes, c.newStart, c.newEnd, newPos)
  {
    text', lines := text, ls;
    for i := c.newStart to c.newEnd
      invariant Rendered(text', header, lines) && lines == AddInserts(ls, after, newHashes, c.newStart, i, newPos)
    {
      text', lines := WriteLine(Insert, after[i], text', header, lines,
                                InsertLine(after, newHashes, i, newPos + i - c.newStart));
    }
  }

  /** The loop of `computeHunks`: the same grouping, one text per closed hunk. */
  method ComputeHunks(f: HeaderFormat, before: seq<Line>, after: seq<Line>, ghost oldHashes: Hashes,
                      ghost newHashes: Hashes)
    returns (hunks: seq<string>)
    requires before != []
    ensures HunkTexts(f, hunks, BlocksOf(before, after, oldHashes, newHashes))
  {
    var changes := FindChanges(before, after);
    if |changes| == 0 {
      NoBlocksIfNoChanges(before, after, oldHashes, newHashes);
      return [];
    }
    ghost var blocks;
    hunks, blocks := GroupAndFormat(f, before, after, changes, oldHashes, newHashes);
  }

  /** After `i` changes: no hunk yet, or one is open and the texts are those of the hunks closed before it. */
  ghost predicate GroupedTexts(f: HeaderFormat, before: seq<Line>, after: seq<Line>, changes: seq<Change>,
                               oldHashes: Hashes, newHashes: Hashes, i: nat, hunkStart: int, hunkEnd: int,
                               hunks: seq<string>, blocks: seq<Block>)
    requires Script(before, after, changes) && InRange(changes, |before|) && i <= |changes|
  {
    && HunkTexts(f, hunks, blocks)
    && if i == 0 then hunkStart == -1 && blocks == []
       else hunkStart != -1 && Grouping(before, after, changes, oldHashes, newHashes, i, hunkStart, hunkEnd, blocks)
  }

  /** One round of the grouping loop. */
  method GroupNext(f: HeaderFormat, before: seq<Line>, after: seq<Line>, changes: seq<Change>, i: nat,
                   hunks: seq<string>, ghost blocks: seq<Block>, hunkStart: int, hunkEnd: int,
                   ghost oldHashes: Hashes, ghost newHashes: Hashes)
    returns (hunks': seq<string>, ghost blocks': seq<Block>, hunkStart': int, hunkEnd': int)
    requires Script(before, after, changes) && InRange(changes, |before|) && i < |changes|
    requires GroupedTexts(f, before, after, changes, oldHashes, newHashes, i, hunkStart, hunkEnd, hunks, blocks)
    ensures GroupedTexts(f, before, after, changes, oldHashes, newHashes, i + 1, hunkStart', hunkEnd', hunks', blocks')
  {
    hunks', blocks', hunkStart', hunkEnd' := hunks, blocks, hunkStart, hunkEnd;
    var c := changes[i];
    if hunkStart == -1 {
      FirstOpens(before, after, changes, oldHashes, newHashes);
      hunkStart', hunkEnd' := Max(0, c.oldStart - CONTEXT_LINES), Min(|before|, c.oldEnd + CONTEXT_LINES);
    } else if c.oldStart - CONTEXT_LINES <= hunkEnd {
      NextWidens(before, after, changes, oldHashes, newHashes, i, hunkStart, hunkEnd, blocks);
      hunkEnd' := Min(|before|, c.oldEnd + CONTEXT_LINES);
    } else {
      NextJoinsIff(before, after, changes, oldHashes, newHashes, i, hunkStart, hunkEnd, blocks);
      hunks', blocks' := CloseText(f, before, after, changes, i, hunks, blocks, hunkStart, hunkEnd, oldHashes,
                                   newHashes);
      NextOpens(before, after, changes, oldHashes, newHashes, i, blocks');
      hunkStart', hunkEnd' := Max(0, c.oldStart - CONTEXT_LINES), Min(|before|, c.oldEnd + CONTEXT_LINES);
    }
  }

  method GroupAndFormat(f: HeaderFormat, before: seq<Line>, after: seq<Line>, changes: seq<Change>,
                        ghost oldHashes: Hashes, ghost newHashes: Hashes)
    returns (hunks: seq<string>, ghost blocks: seq<Block>)
    requires changes == ChangesOf(before, after) && before != []
    ensures blocks == BlocksOf(before, after, oldHashes, newHashes)
    ensures HunkTexts(f, hunks, blocks)
  {
    HunksOfDiff(before, after);
    hunks, blocks := [], [];
    var hunkStart: int, hunkEnd: int := -1, -1;
    for i := 0 to |changes|
      invariant GroupedTexts(f, before, after, changes, oldHashes, newHashes, i, hunkStart, hunkEnd, hunks, blocks)
    {
      hunks, blocks, hunkStart, hunkEnd := GroupNext(f, before, after, changes, i, hunks, blocks, hunkStart, hunkEnd,
                                                     oldHashes, newHashes);
    }
    if hunkStart != -1 {
      hunks, blocks := CloseText(f, before, after, changes, |changes|, hunks, blocks, hunkStart, hunkEnd, oldHashes,
                                 newHashes);
    }
  }

  method CloseText(f: HeaderFormat, before: seq<Line>, after: seq<Line>, changes: seq<Change>, ghost k: nat,
                   hunks: seq<string>, ghost blocks: seq<Block>, hunkStart: nat, hunkEnd: nat,
                   ghost oldHashes: Hashes, ghost newHashes: Hashes)
    returns (hunks': seq<string>, ghost blocks': seq<Block>)
    requires Script(before, after, changes) && InRange(changes, |before|) && 0 < k <= |changes|
    requires k < |changes| ==> !Joins(changes, k, HunksUpTo(changes, |before|, k))
    requires Grouping(before, after, changes, oldHashes, newHashes, k, hunkStart, hunkEnd, blocks)
    requires HunkTexts(f, hunks, blocks)
    ensures BlocksAre(before, after, changes, HunksUpTo(changes, |before|, k), oldHashes, newHashes, blocks')
    ensures HunkTexts(f, hunks', blocks')
  {
    ghost var hs := HunksUpTo(changes, |before|, k);
    LastIsTight(changes, |before|, k);
    hunks', blocks' := AppendText(f, before, after, changes, hs, hunks, blocks, hunkStart, hunkEnd, oldHashes,
                                  newHashes);
  }

  /** The text of the last of these hunks, behind those of the others. */
  method AppendText(f: HeaderFormat, before: seq<Line>, after: seq<Line>, changes: seq<Change>, ghost hs: seq<Hunk>,
                    hunks: seq<string>, ghost blocks: seq<Block>, hunkStart: nat, hunkEnd: nat,
                    ghost oldHashes: Hashes, ghost newHashes: Hashes)
    returns (hunks': seq<string>, ghost blocks': seq<Block>)
    requires Script(before, after, changes) && InRange(changes, |before|) && AllTight(changes, |before|, hs)
    requires hs != [] && hs[|hs|-1].start == hunkStart && hs[|hs|-1].end == hunkEnd
    requires BlocksAre(before, after, changes, hs[..|hs|-1], oldHashes, newHashes, blocks)
    requires HunkTexts(f, hunks, blocks)
    ensures BlocksAre(before, after, changes, hs, oldHashes, newHashes, blocks')
    ensures HunkTexts(f, hunks', blocks')
  {
    ghost var h := hs[|hs|-1];
    LastBlock(before, after, changes, hs, oldHashes, newHashes);
    var hunk := FormatHunk(f, before, after, changes, hunkStart, hunkEnd, oldHashes, newHashes, h);
    ghost var block := HunkBlock(before, after, changes, h, oldHashes, newHashes);
    HunkTextsOneMore(f, hunks, blocks, hunk, block);
    hunks' := hunks + [hunk];
    blocks' := blocks + [block];
  }

  // ----- a file that had no lines

  /** How the headers of a new file's text are printed: of the whole file, of its first part, of the lines left out, and
      of its last part. */
  datatype NewFileFormat = NewFileFormat(whole: int -> string, first: (int, int) -> string, omitted: int -> string,
                                         last: (int, int) -> string)

  const MAX_NEW_LINES := 1000

  /** The lines of a long new file that are shown: the first two thirds of the limit, and the rest from the end. */
  function FirstShown(maxLines: nat): nat {
    maxLines * 2 / 3
  }

  /** The text of a new file: every line of its block behind a title, or the first and the last ones. */
  function RenderNewFile(nf: NewFileFormat, path: string, ls: seq<DiffLine>, maxLines: nat): string {
    if |ls| == 0 then ""
    else if |ls| <= maxLines then RenderLines(NewFileTitle(path) + nf.whole(|ls|), ls, |ls|)
    else RenderEnds(nf, NewFileTitle(path), ls, FirstShown(maxLines), maxLines - FirstShown(maxLines))
  }

  function NewFileTitle(path: string): string {
    "--- /dev/null\n" + "+++ " + path + "\n"
  }

  function RenderEnds(nf: NewFileFormat, title: string, ls: seq<DiffLine>, first: nat, last: nat): string
    requires first + last <= |ls|
  {
    var head := RenderLines(title + nf.first(first, |ls|), ls, first);
    RenderFrom(head + nf.omitted(|ls| - first - last) + nf.last(|ls| - last + 1, last), ls, |ls| - last, |ls|)
  }

  /** `text` followed by the lines from `j` up to `k`. */
  function RenderFrom(text: string, ls: seq<DiffLine>, j: nat, k: nat): string
    requires j <= k <= |ls|
    decreases k
  {
    if k == j then text else RenderFrom(text, ls, j, k-1) + RenderLine(ls[k-1].kind, ls[k-1].content)
  }

  /** Lines `lo .. hi`, each behind a plus. */
  function Added(lines: seq<Line>, lo: nat, hi: nat): string
    requires lo <= hi <= |lines|
    decreases hi
  {
    if lo == hi then "" else Added(lines, lo, hi - 1) + ("+" + lines[hi-1] + "\n")
  }

  /** The text of a new file: nothing for none, all its lines behind a title, or the first two thirds of the limit and
      the last lines for the rest, with the number of lines left out between them. */
  ghost predicate ShowsNewFile(nf: NewFileFormat, text: string, title: string, lines: seq<Line>, maxLines: nat) {
    var total, first := |lines|, maxLines * 2 / 3;
    var rest := maxLines - first;
    if total == 0 then text == ""
    else if total <= maxLines then text == title + nf.whole(total) + Added(lines, 0, total)
    else
      text == title + nf.first(first, total) + Added(lines, 0, first) + nf.omitted(total - maxLines)
              + nf.last(total - rest + 1, rest) + Added(lines, total - rest, total)
  }

  lemma {:induction false} InsertedLines(after: seq<Line>, hashes: Hashes, k: nat)
    requires k <= |after|
    ensures var ls := AddInserts([], after, hashes, 0, k, 0);
            |ls| == k && forall i :: 0 <= i < k ==> ls[i].kind == Insert && ls[i].content == after[i]
  {
    if k == 0 {
    } else {
      InsertedLines(after, hashes, k - 1);
    }
  }

  /** `GenerateNewFileDiff`. */
  method GenerateNewFileDiff(nf: NewFileFormat, path: string, content: string, maxLines: nat, ghost hashes: Hashes)
    returns (text: string)
    ensures text == RenderNewFile(nf, path, NewFileBlock(SplitLines(content), hashes).lines, maxLines)
    ensures ShowsNewFile(nf, text, "--- /dev/null\n" + "+++ " + path + "\n", SplitLines(content), maxLines)
  {
    var lines := SplitLines(content);
    ghost var ls := NewFileBlock(lines, hashes).lines;
    InsertedLines(lines, hashes, |lines|);
    var totalLines := |lines|;
    if totalLines == 0 {
      return "";
    }
    var title := "--- /dev/null\n" + "+++ " + path + "\n";
    if totalLines <= maxLines {
      text := WriteInserted(lines, title + nf.whole(totalLines), 0, totalLines);
      AddedIsRendered(title + nf.whole(totalLines), ls, lines, totalLines);
    } else {
      text := WriteEnds(nf, title, lines, maxLines);
      EndsAreRendered(nf, text, title, lines, ls, maxLines);
    }
  }

  /** These lines are inserts with these contents. */
  ghost predicate AreInserts(ls: seq<DiffLine>, lines: seq<Line>) {
    |ls| == |lines| && forall i :: 0 <= i < |lines| ==> ls[i].kind == Insert && ls[i].content == lines[i]
  }

  lemma {:induction false} AddedIsRendered(header: string, ls: seq<DiffLine>, lines: seq<Line>, n: nat)
    requires AreInserts(ls, lines) && n <= |lines|
    ensures RenderLines(header, ls, n) == header + Added(lines, 0, n)
  {
    if n == 0 {
      assert Added(lines, 0, 0) == "";
    } else {
      AddedIsRendered(header, ls, lines, n - 1);
      assert RenderLine(ls[n-1].kind, ls[n-1].content) == "+" + lines[n-1] + "\n";
      assert header + Added(lines, 0, n - 1) + ("+" + lines[n-1] + "\n") == header + Added(lines, 0, n);
    }
  }

  lemma {:induction false} AddedIsRenderedFrom(header: string, ls: seq<DiffLine>, lines: seq<Line>, j: nat, n: nat)
    requires AreInserts(ls, lines) && j <= n <= |lines|
    ensures RenderFrom(header, ls, j, n) == header + Added(lines, j, n)
    decreases n
  {
    if n == j {
    } else {
      AddedIsRenderedFrom(header, ls, lines, j, n - 1);
      assert RenderLine(ls[n-1].kind, ls[n-1].content) == "+" + lines[n-1] + "\n";
      assert header + Added(lines, j, n - 1) + ("+" + lines[n-1] + "\n") == header + Added(lines, j, n);
    }
  }

  /** What is shown of a long file renders both ends of its block. */
  lemma {:induction false} EndsAreRendered(nf: NewFileFormat, text: string, title: string, lines: seq<Line>,
                                           ls: seq<DiffLine>, maxLines: nat)
    requires AreInserts(ls, lines) && maxLines < |lines| && ShowsNewFile(nf, text, title, lines, maxLines)
    ensures text == RenderEnds(nf, title, ls, FirstShown(maxLines), maxLines - FirstShown(maxLines))
  {
    var first, last := FirstShown(maxLines), maxLines - FirstShown(maxLines);
    var head := title + nf.first(first, |ls|);
    AddedIsRendered(head, ls, lines, first);
    AddedIsRenderedFrom(head + Added(lines, 0, first) + nf.omitted(|ls| - first - last)
                        + nf.last(|ls| - last + 1, last), ls, lines, |ls| - last, |ls|);
  }

  method WriteEnds(nf: NewFileFormat, title: string, lines: seq<Line>, maxLines: nat) returns (text: string)
    requires maxLines < |lines|
    ensures ShowsNewFile(nf, text, title, lines, maxLines)
  {
    var totalLines := |lines|;
    var firstCount := maxLines * 2 / 3;
    var lastCount := maxLines - firstCount;
    text := WriteInserted(lines, title + nf.first(firstCount, totalLines), 0, firstCount);
    text := text + nf.omitted(totalLines - firstCount - lastCount);
    var startLast := totalLines - lastCount;
    text := WriteInserted(lines, text + nf.last(startLast + 1, lastCount), startLast, totalLines);
  }

  /** The loop over lines `from .. to`. */
  method WriteInserted(lines: seq<Line>, head: string, from: nat, to: nat) returns (text: string)
    requires from <= to <= |lines|
    ensures text == head + Added(lines, from, to)
  {
    text := head;
    for i := from to to
      invariant text == head + Added(lines, from, i)
    {
      assert head + Added(lines, from, i) + ("+" + lines[i] + "\n") == head + Added(lines, from, i + 1);
      text := text + ("+" + lines[i] + "\n");
    }
  }

  /** Main result: the unified text renders the structured blocks, whatever hashes those carry: behind the title for a
      file that had lines, and for one that had none the single block of the new file, shortened when it is long. */
  method GenerateUnifiedDiff(f: HeaderFormat, nf: NewFileFormat, path: string, oldContent: string, newContent: string,
                             ghost oldHashes: Hashes, ghost newHashes: Hashes)
    returns (text: string)
    ensures var before, after := SplitLines(oldContent), SplitLines(newContent);
            var bs := BlocksOf(before, after, oldHashes, newHashes);
            text == if bs == [] then ""
                    else if before == [] then RenderNewFile(nf, path, bs[0].lines, MAX_NEW_LINES)
                    else RenderBlocks(f, "--- " + path + "\n" + "+++ " + path + "\n", bs, |bs|)
  {
    var oldLines, newLines := SplitLines(oldContent), SplitLines(newContent);
    if |oldLines| == 0 && |newLines| == 0 {
      return "";
    }
    if |oldLines| == 0 {
      text := GenerateNewFileDiff(nf, path, newContent, MAX_NEW_LINES, newHashes);
      return;
    }
    var hunks := ComputeHunks(f, oldLines, newLines, oldHashes, newHashes);
    text := WriteHunks(f, "--- " + path + "\n" + "+++ " + path + "\n", hunks,
                       BlocksOf(oldLines, newLines, oldHashes, newHashes));
  }

  method WriteHunks(f: HeaderFormat, title: string, hunks: seq<string>, ghost bs: seq<Block>) returns (text: string)
    requires HunkTexts(f, hunks, bs)
    ensures text == if bs == [] then "" else RenderBlocks(f, title, bs, |bs|)
  {
    if |hunks| == 0 {
      return "";
    }
    text := title;
    for i := 0 to |hunks|
      invariant text == RenderBlocks(f, title, bs, i)
    {
      assert HunkTextAt(f, hunks, bs, i);
      text := text + hunks[i];
    }
  }
}
