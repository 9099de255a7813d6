/** The formatting loop that turns one hunk into a structured block, and the new-side start number it prints. */
module Format {

  import opened Lcs
  import opened Changes
  import opened Hunks
  import opened Blocks

  /** What `computeNewStart` adds up: the net growth of the leading changes that start before the hunk. */
  function Offset(cs: seq<Change>, start: nat, k: nat): int
    requires k <= |cs|
    decreases |cs| - k
  {
    if k == |cs| || cs[k].oldStart >= start then 0 else cs[k].Added() - cs[k].Removed() + Offset(cs, start, k + 1)
  }

  method ComputeNewStart(cs: seq<Change>, hunkStart: nat) returns (r: int)
    ensures r == hunkStart + Offset(cs, hunkStart, 0)
  {
    var offset, k := 0, 0;
    while k < |cs|
      invariant 0 <= k <= |cs|
      invariant offset + Offset(cs, hunkStart, k) == Offset(cs, hunkStart, 0)
    {
      var c := cs[k];
      if c.oldStart < hunkStart {
        offset := offset + (c.newEnd - c.newStart) - (c.oldEnd - c.oldStart);
      } else {
        break;
      }
      k := k + 1;
    }
    r := hunkStart + offset;
  }

  /** The true new positions of the first line of hunk `h` and of the line behind it. */
  function NewBegin(cs: seq<Change>, h: Hunk): int
    requires h.first < |cs|
  {
    cs[h.first].newStart - (cs[h.first].oldStart - h.start)
  }

  function NewFinish(cs: seq<Change>, h: Hunk): int
    requires 0 < h.next <= |cs|
  {
    cs[h.next-1].newEnd + (h.end - cs[h.next-1].oldEnd)
  }

  /** The hunk's first and last lines are aligned on both sides. */
  lemma {:induction false} HunkEnds(before: seq<Line>, after: seq<Line>, cs: seq<Change>, h: Hunk)
    requires Script(before, after, cs) && InRange(cs, |before|) && Tight(cs, |before|, |cs|, h)
    ensures h.start <= h.end <= |before| && 0 <= NewBegin(cs, h) && 0 <= NewFinish(cs, h) <= |after|
    ensures EqualRun(before, h.start, cs[h.first].oldStart, after, NewBegin(cs, h), cs[h.first].newStart)
    ensures EqualRun(before, OldAt(cs, h.first), h.start, after, NewAt(cs, h.first), NewBegin(cs, h))
    ensures EqualRun(before, cs[h.next-1].oldEnd, h.end, after, cs[h.next-1].newEnd, NewFinish(cs, h))
  {
    HunkHead(before, after, cs, h);
    HunkTail(before, after, cs, h);
  }

  lemma {:induction false} HunkHead(before: seq<Line>, after: seq<Line>, cs: seq<Change>, h: Hunk)
    requires Script(before, after, cs) && InRange(cs, |before|) && Tight(cs, |before|, |cs|, h)
    ensures h.start <= h.end <= |before| && 0 <= NewBegin(cs, h)
    ensures EqualRun(before, h.start, cs[h.first].oldStart, after, NewBegin(cs, h), cs[h.first].newStart)
    ensures EqualRun(before, OldAt(cs, h.first), h.start, after, NewAt(cs, h.first), NewBegin(cs, h))
  {
    assert Sound(before, after, cs, h.first);
    AtMost(before, after, cs, h.first, h.next - 1);
  }

  lemma {:induction false} HunkTail(before: seq<Line>, after: seq<Line>, cs: seq<Change>, h: Hunk)
    requires Script(before, after, cs) && InRange(cs, |before|) && Tight(cs, |before|, |cs|, h)
    ensures h.end <= |before| && 0 <= NewFinish(cs, h) <= |after|
    ensures EqualRun(before, cs[h.next-1].oldEnd, h.end, after, cs[h.next-1].newEnd, NewFinish(cs, h))
  {
    assert Sound(before, after, cs, h.next - 1);
    assert h.next < |cs| ==> Sound(before, after, cs, h.next);
  }

  /** Change `j` of a hunk lies inside it, behind the change before, and what is in front of it is equal on both
      sides. */
  lemma {:induction false} ChangeInHunk(before: seq<Line>, after: seq<Line>, cs: seq<Change>, h: Hunk, j: nat)
    requires Script(before, after, cs) && InRange(cs, |before|) && Tight(cs, |before|, |cs|, h)
    requires h.first <= j < h.next
    ensures cs[j].oldStart <= cs[j].oldEnd <= h.end && cs[j].newStart <= cs[j].newEnd <= |after|
    ensures if j == h.first then h.start <= cs[j].oldStart else cs[j-1].oldEnd < cs[j].oldStart
    ensures j > h.first ==>
              EqualRun(before, cs[j-1].oldEnd, cs[j].oldStart, after, cs[j-1].newEnd, cs[j].newStart)
  {
    HunkEnds(before, after, cs, h);
    assert Sound(before, after, cs, j);
    AtMost(before, after, cs, j, h.next - 1);
  }

  lemma {:induction false} HunkFits(before: seq<Line>, after: seq<Line>, cs: seq<Change>, h: Hunk, k: nat)
    requires Script(before, after, cs) && InRange(cs, |before|) && Tight(cs, |before|, |cs|, h)
    requires k < h.next - h.first && 0 <= NewBegin(cs, h)
    ensures Fits(before, after, cs[h.first..h.next], h.start, h.end, k)
    ensures AlignedAt(before, after, cs[h.first..h.next], h.start, NewBegin(cs, h), k)
  {
    ChangeInHunk(before, after, cs, h, h.first + k);
    HunkHead(before, after, cs, h);
  }

  /** A hunk of the grouping can be formatted. */
  lemma {:induction false} HunkIsFormattable(before: seq<Line>, after: seq<Line>, cs: seq<Change>, h: Hunk)
    requires Script(before, after, cs) && InRange(cs, |before|) && Tight(cs, |before|, |cs|, h)
    ensures 0 <= NewBegin(cs, h) <= NewFinish(cs, h) <= |after|
    ensures Formattable(before, after, cs[h.first..h.next], h.start, h.end)
    ensures Aligned(before, after, cs[h.first..h.next], h.start, NewBegin(cs, h))
  {
    HunkEnds(before, after, cs, h);
    forall k | 0 <= k < h.next - h.first
      ensures Fits(before, after, cs[h.first..h.next], h.start, h.end, k)
      ensures AlignedAt(before, after, cs[h.first..h.next], h.start, NewBegin(cs, h), k)
    {
      HunkFits(before, after, cs, h, k);
    }
    BodyOrder(before, after, cs[h.first..h.next], h.start, h.end, NewBegin(cs, h));
  }

  lemma {:induction false} BodyOrder(before: seq<Line>, after: seq<Line>, rel: seq<Change>, start: nat, end: nat,
                                     w: nat)
    requires Formattable(before, after, rel, start, end) && Aligned(before, after, rel, start, w)
    ensures w <= rel[|rel|-1].newEnd <= |after|
  {
    PositionsAt(before, after, rel, start, end, w, |rel|);
  }

  /** The whole loop nest of the source; `h` is the hunk of the grouping whose range is being formatted. */
  method FormatStructuredHunk(before: seq<Line>, after: seq<Line>, changes: seq<Change>, hunkStart: nat, hunkEnd: nat,
                              oldHashes: Hashes, newHashes: Hashes, ghost h: Hunk) returns (block: Block)
    requires Script(before, after, changes) && InRange(changes, |before|)
    requires Tight(changes, |before|, |changes|, h) && hunkStart == h.start && hunkEnd == h.end
    ensures Formattable(before, after, changes[h.first..h.next], hunkStart, hunkEnd)
    ensures block == BlockOf(before, after, changes[h.first..h.next], hunkStart, hunkEnd, oldHashes, newHashes)
  {
    FilterPicksTheGroup(before, after, changes, h);
    HunkIsFormattable(before, after, changes, h);
    // The source returns an empty block for an empty list; the grouping never asks for one.
    var rel := FilterChangesInRange(changes, hunkStart, hunkEnd);
    block := FormatRelevant(before, after, rel, hunkStart, hunkEnd, oldHashes, newHashes);
  }

  /** The block of the changes that touch the range. */
  method FormatRelevant(before: seq<Line>, after: seq<Line>, rel: seq<Change>, hunkStart: nat, hunkEnd: nat,
                        oldHashes: Hashes, newHashes: Hashes) returns (block: Block)
    requires Formattable(before, after, rel, hunkStart, hunkEnd) && hunkStart <= rel[0].oldStart
    ensures block == BlockOf(before, after, rel, hunkStart, hunkEnd, oldHashes, newHashes)
  {
    var removedLines, addedLines := CountChanges(rel);
    var newStart := ComputeNewStart(rel, hunkStart);
    var lines := FormatLines(before, after, rel, hunkStart, hunkEnd, newStart, oldHashes, newHashes);
    block := Block(hunkStart + 1, hunkEnd - hunkStart, newStart + 1, hunkEnd - hunkStart - removedLines + addedLines,
                   lines);
  }

  method CountChanges(rel: seq<Change>) returns (removedLines: int, addedLines: int)
    ensures removedLines == TotalRemoved(rel) && addedLines == TotalAdded(rel)
  {
    removedLines, addedLines := 0, 0;
    for i := 0 to |rel|
      invariant removedLines == TotalRemoved(rel[..i]) && addedLines == TotalAdded(rel[..i])
    {
      assert rel[..i+1][..i] == rel[..i];
      removedLines := removedLines + rel[i].oldEnd - rel[i].oldStart;
      addedLines := addedLines + rel[i].newEnd - rel[i].newStart;
    }
    assert rel[..|rel|] == rel;
  }

  method FormatLines(before: seq<Line>, after: seq<Line>, rel: seq<Change>, hunkStart: nat, hunkEnd: nat, newStart: int,
                     oldHashes: Hashes, newHashes: Hashes) returns (lines: seq<DiffLine>)
    requires Formattable(before, after, rel, hunkStart, hunkEnd) && newStart == hunkStart
    ensures lines == Body(before, after, rel, hunkStart, hunkEnd, oldHashes, newHashes)
  {
    lines := [];
    var oldPos: nat, newPos: int, changeIndex: nat := hunkStart, newStart, 0;
    LoopStarts(before, after, rel, hunkStart, hunkEnd, oldHashes, newHashes);
    while oldPos < hunkEnd || changeIndex < |rel|
      invariant Stands(before, after, rel, hunkStart, hunkEnd, oldHashes, newHashes, lines, oldPos, newPos,
                       changeIndex)
      decreases |rel| - changeIndex + hunkEnd - oldPos
    {
      lines, oldPos, newPos, changeIndex := NextLines(before, after, rel, hunkStart, hunkEnd, lines, oldPos, newPos,
                                                      changeIndex,
                                                      oldHashes, newHashes);
    }
    LoopEnds(before, after, rel, hunkStart, hunkEnd, oldHashes, newHashes, lines, oldPos, newPos, changeIndex);
  }

  /** One round of the loop: a change, if one starts here, and a context line, unless the change only inserted or the
      hunk is at its end. */
  method NextLines(before: seq<Line>, after: seq<Line>, rel: seq<Change>, hunkStart: nat, hunkEnd: nat,
                   ls: seq<DiffLine>,
                   oldPos: nat, newPos: int, changeIndex: nat, oldHashes: Hashes, newHashes: Hashes)
    returns (lines: seq<DiffLine>, oldPos': nat, newPos': int, changeIndex': nat)
    requires Formattable(before, after, rel, hunkStart, hunkEnd) && (oldPos < hunkEnd || changeIndex < |rel|)
    requires Stands(before, after, rel, hunkStart, hunkEnd, oldHashes, newHashes, ls, oldPos, newPos, changeIndex)
    ensures Stands(before, after, rel, hunkStart, hunkEnd, oldHashes, newHashes, lines, oldPos', newPos', changeIndex')
    ensures |rel| - changeIndex' + hunkEnd - oldPos' < |rel| - changeIndex + hunkEnd - oldPos
  {
    var again;
    lines, oldPos', newPos', changeIndex', again :=
      ChangeLines(before, after, rel, hunkStart, hunkEnd, ls, oldPos, newPos, changeIndex, oldHashes, newHashes);
    ContextIsNext(rel, hunkEnd, oldPos, changeIndex, oldPos', changeIndex', again);
    lines, oldPos', newPos' := PassContext(before, after, rel, hunkStart, hunkEnd, lines, oldPos', newPos',
                                           changeIndex', !again && oldPos' < hunkEnd, oldHashes, newHashes);
  }

  /** Behind the first half of a round the next line is a context line, and the round makes progress. */
  lemma {:induction false} ContextIsNext(rel: seq<Change>, hunkEnd: nat, oldPos: nat, k: nat, oldPos': nat, k': nat,
                                         again: bool)
    requires AfterChange(rel, hunkEnd, oldPos, k, oldPos', k', again) && (oldPos < hunkEnd || k < |rel|)
    ensures !again && oldPos' < hunkEnd ==> oldPos' < if k' < |rel| then rel[k'].oldStart else hunkEnd
    ensures var done := if !again && oldPos' < hunkEnd then oldPos' + 1 else oldPos'; done - oldPos + k' - k > 0
  {
  }

  /** The first half of a round: the change that starts here, if there is one. `again` when it only inserted. */
  method ChangeLines(before: seq<Line>, after: seq<Line>, rel: seq<Change>, hunkStart: nat, hunkEnd: nat,
                     ls: seq<DiffLine>,
                     oldPos: nat, newPos: int, changeIndex: nat, oldHashes: Hashes, newHashes: Hashes)
    returns (lines: seq<DiffLine>, oldPos': nat, newPos': int, changeIndex': nat, again: bool)
    requires Formattable(before, after, rel, hunkStart, hunkEnd)
    requires Stands(before, after, rel, hunkStart, hunkEnd, oldHashes, newHashes, ls, oldPos, newPos, changeIndex)
    ensures Stands(before, after, rel, hunkStart, hunkEnd, oldHashes, newHashes, lines, oldPos', newPos', changeIndex')
    ensures AfterChange(rel, hunkEnd, oldPos, changeIndex, oldPos', changeIndex', again)
  {
    lines, oldPos', newPos', changeIndex', again := ls, oldPos, newPos, changeIndex, false;
    RoomAhead(before, after, rel, hunkStart, hunkEnd, changeIndex);
    if changeIndex < |rel| {
      var c := rel[changeIndex];
      if oldPos == c.oldStart || (c.oldStart == c.oldEnd && oldPos >= c.oldStart && changeIndex < |rel|) {
        lines, oldPos', newPos' := PassChange(before, after, rel, hunkStart, hunkEnd, ls, newPos, changeIndex,
                                              oldHashes, newHashes);
        changeIndex' := changeIndex + 1;
        again := c.oldStart == c.oldEnd;
      }
    }
  }

  /** Where the first half of a round leads: past the change that starts here, or nowhere when none does. */
  predicate AfterChange(rel: seq<Change>, hunkEnd: nat, oldPos: nat, k: nat, oldPos': nat, k': nat, again: bool) {
    && oldPos <= oldPos' && k <= k' <= |rel| && (again ==> k' == k + 1)
    && (k' == k ==> oldPos' == oldPos && (k < |rel| ==> oldPos < rel[k].oldStart <= hunkEnd))
    && (oldPos' < hunkEnd && k' < |rel| && !again ==> oldPos' < rel[k'].oldStart)
  }

  /** The second half of a round: a context line, if it is `due`. */
  method PassContext(before: seq<Line>, after: seq<Line>, rel: seq<Change>, hunkStart: nat, hunkEnd: nat,
                     ls: seq<DiffLine>,
                     oldPos: nat, newPos: int, k: nat, due: bool, oldHashes: Hashes, newHashes: Hashes)
    returns (lines: seq<DiffLine>, oldPos': nat, newPos': int)
    requires Formattable(before, after, rel, hunkStart, hunkEnd)
    requires Stands(before, after, rel, hunkStart, hunkEnd, oldHashes, newHashes, ls, oldPos, newPos, k)
    requires due ==> oldPos < if k < |rel| then rel[k].oldStart else hunkEnd
    ensures Stands(before, after, rel, hunkStart, hunkEnd, oldHashes, newHashes, lines, oldPos', newPos', k)
    ensures oldPos' == if due then oldPos + 1 else oldPos
  {
    lines, oldPos', newPos' := ls, oldPos, newPos;
    if due {
      StepContext(before, after, rel, hunkStart, hunkEnd, oldHashes, newHashes, oldPos, newPos, k);
      lines := lines + [ContextLine(before, oldHashes, oldPos, newPos)];
      oldPos', newPos' := oldPos' + 1, newPos' + 1;
    }
  }

  /** The body of the loop at a change. */
  method PassChange(before: seq<Line>, after: seq<Line>, rel: seq<Change>, hunkStart: nat, hunkEnd: nat,
                    ls: seq<DiffLine>,
                    newPos: int, k: nat, oldHashes: Hashes, newHashes: Hashes)
    returns (lines: seq<DiffLine>, oldPos': nat, newPos': int)
    requires Formattable(before, after, rel, hunkStart, hunkEnd) && k < |rel|
    requires Stands(before, after, rel, hunkStart, hunkEnd, oldHashes, newHashes, ls, rel[k].oldStart, newPos, k)
    ensures oldPos' == rel[k].oldEnd && newPos' == newPos + rel[k].Added()
    ensures rel[k].oldStart <= oldPos' <= hunkEnd && (k + 1 < |rel| ==> oldPos' < rel[k+1].oldStart)
    ensures Stands(before, after, rel, hunkStart, hunkEnd, oldHashes, newHashes, lines, oldPos', newPos', k + 1)
  {
    RoomAhead(before, after, rel, hunkStart, hunkEnd, k + 1);
    RoomAhead(before, after, rel, hunkStart, hunkEnd, k);
    StepChange(before, after, rel, hunkStart, hunkEnd, oldHashes, newHashes, newPos, k);
    lines, oldPos', newPos' := EmitChange(before, after, rel[k], ls, newPos, oldHashes, newHashes);
  }

  /** Where the loop stands: between the end of the last change done and the start of the next. */
  ghost predicate Cursor(before: seq<Line>, after: seq<Line>, rel: seq<Change>, start: nat, end: nat, oldPos: nat,
                         newPos: int, k: nat)
    requires Formattable(before, after, rel, start, end)
  {
    && k <= |rel|
    && Pos(rel, start, k) <= oldPos <= (if k < |rel| then rel[k].oldStart else end) <= end
    && newPos == RunningNew(rel, start, k) + oldPos - Pos(rel, start, k)
  }

  ghost function LinesAt(before: seq<Line>, after: seq<Line>, rel: seq<Change>, start: nat, end: nat,
                         oldHashes: Hashes, newHashes: Hashes, oldPos: nat, k: nat): seq<DiffLine>
    requires Formattable(before, after, rel, start, end) && k <= |rel|
    requires Pos(rel, start, k) <= oldPos <= |before|
  {
    AddContext(BodyUpTo(before, after, rel, start, end, oldHashes, newHashes, k),
               before, oldHashes, Pos(rel, start, k), oldPos, RunningNew(rel, start, k))
  }

  /** The loop stands here, with these lines emitted. */
  ghost predicate Stands(before: seq<Line>, after: seq<Line>, rel: seq<Change>, start: nat, end: nat, oldHashes: Hashes,
                         newHashes: Hashes, lines: seq<DiffLine>, oldPos: nat, newPos: int, k: nat)
    requires Formattable(before, after, rel, start, end)
  {
    && Cursor(before, after, rel, start, end, oldPos, newPos, k)
    && lines == LinesAt(before, after, rel, start, end, oldHashes, newHashes, oldPos, k)
  }

  /** Before the loop nothing is emitted, behind it everything. */
  lemma {:induction false} LoopStarts(before: seq<Line>, after: seq<Line>, rel: seq<Change>, start: nat, end: nat,
                                      oldHashes: Hashes, newHashes: Hashes)
    requires Formattable(before, after, rel, start, end)
    ensures Stands(before, after, rel, start, end, oldHashes, newHashes, [], start, start, 0)
  {
    RoomAhead(before, after, rel, start, end, 0);
  }

  lemma {:induction false} LoopEnds(before: seq<Line>, after: seq<Line>, rel: seq<Change>, start: nat, end: nat,
                                    oldHashes: Hashes, newHashes: Hashes, lines: seq<DiffLine>, oldPos: nat,
                                    newPos: int, k: nat)
    requires Formattable(before, after, rel, start, end)
    requires Stands(before, after, rel, start, end, oldHashes, newHashes, lines, oldPos, newPos, k)
    requires oldPos >= end && k >= |rel|
    ensures lines == Body(before, after, rel, start, end, oldHashes, newHashes)
  {
  }

  lemma {:induction false} StepChange(before: seq<Line>, after: seq<Line>, rel: seq<Change>, start: nat, end: nat,
                                      oldHashes: Hashes, newHashes: Hashes, newPos: int, k: nat)
    requires Formattable(before, after, rel, start, end) && k < |rel|
    requires rel[k].oldStart <= rel[k].oldEnd <= |before| && rel[k].newStart <= rel[k].newEnd <= |after|
    requires Cursor(before, after, rel, start, end, rel[k].oldStart, newPos, k)
    ensures Cursor(before, after, rel, start, end, rel[k].oldEnd, newPos + rel[k].Added(), k + 1)
    ensures LinesAt(before, after, rel, start, end, oldHashes, newHashes, rel[k].oldEnd, k + 1)
         == AddInserts(AddDeletes(LinesAt(before, after, rel, start, end, oldHashes, newHashes, rel[k].oldStart, k),
                                  before, oldHashes, rel[k].oldStart, rel[k].oldEnd),
                       after, newHashes, rel[k].newStart, rel[k].newEnd, newPos)
  {
    RoomAhead(before, after, rel, start, end, k + 1);
  }

  lemma {:induction false} StepContext(before: seq<Line>, after: seq<Line>, rel: seq<Change>, start: nat, end: nat,
                                       oldHashes: Hashes, newHashes: Hashes, oldPos: nat, newPos: int, k: nat)
    requires Formattable(before, after, rel, start, end) && Cursor(before, after, rel, start, end, oldPos, newPos, k)
    requires oldPos < if k < |rel| then rel[k].oldStart else end
    ensures Cursor(before, after, rel, start, end, oldPos + 1, newPos + 1, k)
    ensures LinesAt(before, after, rel, start, end, oldHashes, newHashes, oldPos + 1, k)
         == LinesAt(before, after, rel, start, end, oldHashes, newHashes, oldPos, k)
            + [ContextLine(before, oldHashes, oldPos, newPos)]
  {
  }

  /** In front of change `k` there is a context line, unless it is the first; the last change ends inside the hunk. */
  lemma {:induction false} RoomAhead(before: seq<Line>, after: seq<Line>, rel: seq<Change>, start: nat, end: nat,
                                     k: nat)
    requires Formattable(before, after, rel, start, end) && k <= |rel|
    ensures k < |rel| ==> start <= rel[k].oldStart <= rel[k].oldEnd <= end
    ensures k < |rel| ==> rel[k].newStart <= rel[k].newEnd <= |after|
    ensures Pos(rel, start, k) <= end
    ensures 0 < k < |rel| ==> Pos(rel, start, k) < rel[k].oldStart
  {
    if k < |rel| { assert Fits(before, after, rel, start, end, k); }
    if k > 0 { RoomAhead(before, after, rel, start, end, k - 1); }
  }

  /** The two inner loops: the deletes of a change, then its inserts. */
  method EmitChange(before: seq<Line>, after: seq<Line>, c: Change, ls: seq<DiffLine>, newPos: int,
                    oldHashes: Hashes, newHashes: Hashes) returns (lines: seq<DiffLine>, oldPos': nat, newPos': int)
    requires c.oldStart <= c.oldEnd <= |before| && c.newStart <= c.newEnd <= |after|
    ensures oldPos' == c.oldEnd && newPos' == newPos + c.Added()
    ensures lines == AddInserts(AddDeletes(ls, before, oldHashes, c.oldStart, c.oldEnd), after, newHashes, c.newStart,
                                c.newEnd, newPos)
  {
    lines, oldPos', newPos' := ls, c.oldStart, newPos;
    for i := c.oldStart to c.oldEnd
      invariant lines == AddDeletes(ls, before, oldHashes, c.oldStart, i) && oldPos' == i
    {
      lines := lines + [DeleteLine(before, oldHashes, i)];
      oldPos' := oldPos' + 1;
    }
    for i := c.newStart to c.newEnd
      invariant lines == AddInserts(AddDeletes(ls, before, oldHashes, c.oldStart, c.oldEnd), after, newHashes,
                                    c.newStart, i, newPos)
      invariant newPos' == newPos + i - c.newStart
    {
      lines := lines + [InsertLine(after, newHashes, i, newPos')];
      newPos' := newPos' + 1;
    }
  }
}
