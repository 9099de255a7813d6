/** The structured diff of two texts: the grouping loop, the blocks and the summary. */
module Preview {

  import opened Options
  import opened Lcs
  import opened Changes
  import opened Hunks
  import opened Blocks
  import opened Format
  import opened Patch
  import opened Lines

  /** `operations` counts edits by name. */
  datatype Summary = Summary(totalEdits: int, operations: multiset<string>, linesAdded: int, linesRemoved: int,
                             netChange: int)

  datatype DiffPreview = DiffPreview(path: string, summary: Summary, blocks: seq<Block>)

  /** The loop that opens, extends and closes hunks, formatting each one as it closes. */
  method ComputeBlocks(before: seq<Line>, after: seq<Line>, changes: seq<Change>, oldHashes: Hashes, newHashes: Hashes)
    returns (blocks: seq<Block>)
    requires changes == ChangesOf(before, after) && before != []
    ensures blocks == BlocksOf(before, after, oldHashes, newHashes)
  {
    HunksOfDiff(before, after);
    blocks := [];
    var hunkStart, hunkEnd := -1, 0;
    for i := 0 to |changes|
      invariant if i == 0 then hunkStart == -1 && blocks == []
                else hunkStart != -1 && Grouping(before, after, changes, oldHashes, newHashes, i, hunkStart, hunkEnd,
                                                 blocks)
    {
      var c := changes[i];
      if hunkStart == -1 {
        FirstOpens(before, after, changes, oldHashes, newHashes);
        hunkStart, hunkEnd := Max(0, c.oldStart - CONTEXT_LINES), Min(|before|, c.oldEnd + CONTEXT_LINES);
      } else if c.oldStart - CONTEXT_LINES <= hunkEnd {
        NextWidens(before, after, changes, oldHashes, newHashes, i, hunkStart, hunkEnd, blocks);
        hunkEnd := Min(|before|, c.oldEnd + CONTEXT_LINES);
      } else {
        NextJoinsIff(before, after, changes, oldHashes, newHashes, i, hunkStart, hunkEnd, blocks);
        blocks := CloseHunk(before, after, changes, i, blocks, hunkStart, hunkEnd, oldHashes, newHashes);
        NextOpens(before, after, changes, oldHashes, newHashes, i, blocks);
        hunkStart, hunkEnd := Max(0, c.oldStart - CONTEXT_LINES), Min(|before|, c.oldEnd + CONTEXT_LINES);
      }
    }
    if hunkStart != -1 {
      blocks := CloseHunk(before, after, changes, |changes|, blocks, hunkStart, hunkEnd, oldHashes, newHashes);
    }
  }

  /** After `k` changes: one hunk is open, and `blocks` renders the ones closed before it. */
  ghost predicate Grouping(before: seq<Line>, after: seq<Line>, cs: seq<Change>, oldHashes: Hashes, newHashes: Hashes,
                           k: nat, hunkStart: int, hunkEnd: int, blocks: seq<Block>)
    requires Script(before, after, cs) && InRange(cs, |before|) && 0 < k <= |cs|
  {
    var hs, closed := HunksUpTo(cs, |before|, k), Closed(cs, |before|, k);
    && hunkStart == hs[|hs|-1].start && hunkEnd == hs[|hs|-1].end
    && BlocksAre(before, after, cs, closed, oldHashes, newHashes, blocks)
  }

  /** The blocks are those of these hunks, which are final. */
  ghost predicate BlocksAre(before: seq<Line>, after: seq<Line>, cs: seq<Change>, hs: seq<Hunk>, oldHashes: Hashes,
                            newHashes: Hashes, blocks: seq<Block>)
    requires Script(before, after, cs) && InRange(cs, |before|)
  {
    AllTight(cs, |before|, hs) && blocks == BlocksFor(before, after, cs, hs, oldHashes, newHashes, |hs|)
  }

  /** What the next change does to the open hunk and the closed ones. */
  lemma {:induction false} StepGrouping(before: seq<Line>, after: seq<Line>, cs: seq<Change>, k: nat)
    requires InRange(cs, |before|) && k < |cs|
    ensures var m := |before|;
            var hs, hs' := HunksUpTo(cs, m, k), HunksUpTo(cs, m, k + 1);
            if k > 0 && cs[k].oldStart - CONTEXT_LINES <= hs[|hs|-1].end
            then Closed(cs, m, k + 1) == Closed(cs, m, k) && hs'[|hs'|-1] == Widen(cs, m, k, hs[|hs|-1])
            else Closed(cs, m, k + 1) == hs && hs'[|hs'|-1] == Open(cs, m, k)
  {
  }

  /** The first change opens the first hunk. */
  lemma {:induction false} FirstOpens(before: seq<Line>, after: seq<Line>, cs: seq<Change>, oldHashes: Hashes,
                                      newHashes: Hashes)
    requires Script(before, after, cs) && InRange(cs, |before|) && cs != []
    ensures Grouping(before, after, cs, oldHashes, newHashes, 1, Max(0, cs[0].oldStart - CONTEXT_LINES),
                     Min(|before|, cs[0].oldEnd + CONTEXT_LINES), [])
  {
    StepGrouping(before, after, cs, 0);
    assert HunksUpTo(cs, |before|, 0) == [];
  }

  lemma {:induction false} NextJoinsIff(before: seq<Line>, after: seq<Line>, cs: seq<Change>, oldHashes: Hashes,
                                        newHashes: Hashes, k: nat, hunkStart: int, hunkEnd: int, blocks: seq<Block>)
    requires Script(before, after, cs) && InRange(cs, |before|) && 0 < k < |cs|
    requires Grouping(before, after, cs, oldHashes, newHashes, k, hunkStart, hunkEnd, blocks)
    ensures Joins(cs, k, HunksUpTo(cs, |before|, k)) <==> cs[k].oldStart - CONTEXT_LINES <= hunkEnd
  {
  }

  /** A change near the open hunk widens it. */
  lemma {:induction false} NextWidens(before: seq<Line>, after: seq<Line>, cs: seq<Change>, oldHashes: Hashes,
                                      newHashes: Hashes, k: nat, hunkStart: int, hunkEnd: int, blocks: seq<Block>)
    requires Script(before, after, cs) && InRange(cs, |before|) && 0 < k < |cs|
    requires Grouping(before, after, cs, oldHashes, newHashes, k, hunkStart, hunkEnd, blocks)
    requires cs[k].oldStart - CONTEXT_LINES <= hunkEnd
    ensures Grouping(before, after, cs, oldHashes, newHashes, k + 1, hunkStart,
                     Min(|before|, cs[k].oldEnd + CONTEXT_LINES), blocks)
  {
    StepGrouping(before, after, cs, k);
  }

  /** When the open hunk has been closed, the next change opens another. */
  lemma {:induction false} NextOpens(before: seq<Line>, after: seq<Line>, cs: seq<Change>, oldHashes: Hashes,
                                     newHashes: Hashes, k: nat, blocks: seq<Block>)
    requires Script(before, after, cs) && InRange(cs, |before|) && 0 < k < |cs|
    requires !Joins(cs, k, HunksUpTo(cs, |before|, k))
    requires BlocksAre(before, after, cs, HunksUpTo(cs, |before|, k), oldHashes, newHashes, blocks)
    ensures Grouping(before, after, cs, oldHashes, newHashes, k + 1, Max(0, cs[k].oldStart - CONTEXT_LINES),
                     Min(|before|, cs[k].oldEnd + CONTEXT_LINES), blocks)
  {
    StepGrouping(before, after, cs, k);
  }

  /** The hunks already closed after `k` changes: all but the last. */
  ghost function Closed(cs: seq<Change>, m: nat, k: nat): seq<Hunk>
    requires k <= |cs| && InRange(cs, m)
  {
    var hs := HunksUpTo(cs, m, k);
    if hs == [] then [] else hs[..|hs|-1]
  }

  /** Formats the hunk that is open after `k` changes and appends its block, which is never empty. */
  method CloseHunk(before: seq<Line>, after: seq<Line>, changes: seq<Change>, ghost k: nat, blocks: seq<Block>,
                   hunkStart: nat, hunkEnd: nat, oldHashes: Hashes, newHashes: Hashes) returns (blocks': seq<Block>)
    requires Script(before, after, changes) && InRange(changes, |before|) && 0 < k <= |changes|
    requires k < |changes| ==> !Joins(changes, k, HunksUpTo(changes, |before|, k))
    requires Grouping(before, after, changes, oldHashes, newHashes, k, hunkStart, hunkEnd, blocks)
    ensures BlocksAre(before, after, changes, HunksUpTo(changes, |before|, k), oldHashes, newHashes, blocks')
  {
    ghost var hs := HunksUpTo(changes, |before|, k);
    LastIsTight(changes, |before|, k);
    blocks' := AppendBlock(before, after, changes, hs, blocks, hunkStart, hunkEnd, oldHashes, newHashes);
  }

  /** The block of the last of these hunks, behind those of the others. */
  method AppendBlock(before: seq<Line>, after: seq<Line>, changes: seq<Change>, ghost hs: seq<Hunk>, blocks: seq<Block>,
                     hunkStart: nat, hunkEnd: nat, oldHashes: Hashes, newHashes: Hashes)
    returns (blocks': seq<Block>)
    requires Script(before, after, changes) && InRange(changes, |before|) && AllTight(changes, |before|, hs)
    requires hs != [] && hs[|hs|-1].start == hunkStart && hs[|hs|-1].end == hunkEnd
    requires BlocksAre(before, after, changes, hs[..|hs|-1], oldHashes, newHashes, blocks)
    ensures BlocksAre(before, after, changes, hs, oldHashes, newHashes, blocks')
  {
    ghost var h := hs[|hs|-1];
    LastBlock(before, after, changes, hs, oldHashes, newHashes);
    HunkBlockShows(before, after, changes, h, oldHashes, newHashes);
    var block := FormatStructuredHunk(before, after, changes, hunkStart, hunkEnd, oldHashes, newHashes, h);
    blocks' := blocks;
    if |block.lines| > 0 {
      blocks' := blocks' + [block];
    }
  }

  /** The block of the last hunk is the last block. */
  lemma {:induction false} LastBlock(before: seq<Line>, after: seq<Line>, cs: seq<Change>, hs: seq<Hunk>,
                                     oldHashes: Hashes, newHashes: Hashes)
    requires Script(before, after, cs) && InRange(cs, |before|) && AllTight(cs, |before|, hs) && hs != []
    ensures AllTight(cs, |before|, hs[..|hs|-1]) && Tight(cs, |before|, |cs|, hs[|hs|-1])
    ensures BlocksFor(before, after, cs, hs[..|hs|-1], oldHashes, newHashes, |hs|-1)
            + [HunkBlock(before, after, cs, hs[|hs|-1], oldHashes, newHashes)]
         == BlocksFor(before, after, cs, hs, oldHashes, newHashes, |hs|)
  {
    BlocksForPrefix(before, after, cs, hs, oldHashes, newHashes, |hs| - 1);
  }

  /** An open hunk that the next change does not join is final. */
  lemma {:induction false} LastIsTight(cs: seq<Change>, m: nat, k: nat)
    requires InRange(cs, m) && 0 < k <= |cs|
    requires k < |cs| ==> !Joins(cs, k, HunksUpTo(cs, m, k))
    requires AllTight(cs, m, Closed(cs, m, k))
    ensures AllTight(cs, m, HunksUpTo(cs, m, k))
  {
    var hs := HunksUpTo(cs, m, k);
    GroupingPartitions(cs, m, k);
    forall i | 0 <= i < |hs|
      ensures Tight(cs, m, |cs|, hs[i])
    {
      assert Tight(cs, m, k, hs[i]);
      if i < |hs| - 1 { assert Closed(cs, m, k)[i] == hs[i]; }
    }
  }

  lemma {:induction false} BlocksForPrefix(before: seq<Line>, after: seq<Line>, cs: seq<Change>, hs: seq<Hunk>,
                                           oldHashes: Hashes, newHashes: Hashes, k: nat)
    requires Script(before, after, cs) && InRange(cs, |before|) && AllTight(cs, |before|, hs) && k < |hs|
    ensures BlocksFor(before, after, cs, hs[..|hs|-1], oldHashes, newHashes, k)
         == BlocksFor(before, after, cs, hs, oldHashes, newHashes, k)
  {
    if k == 0 {
    } else {
      BlocksForPrefix(before, after, cs, hs, oldHashes, newHashes, k - 1);
    }
  }

  /** The two nested counting loops over the finished blocks. */
  method CountLines(blocks: seq<Block>) returns (linesAdded: int, linesRemoved: int)
    ensures linesAdded == SumInserts(blocks, |blocks|) && linesRemoved == SumDeletes(blocks, |blocks|)
  {
    linesAdded, linesRemoved := 0, 0;
    for i := 0 to |blocks|
      invariant linesAdded == SumInserts(blocks, i) && linesRemoved == SumDeletes(blocks, i)
    {
      var lines := blocks[i].lines;
      for j := 0 to |lines|
        invariant linesAdded == SumInserts(blocks, i) + Inserts(lines, j)
        invariant linesRemoved == SumDeletes(blocks, i) + Deletes(lines, j)
      {
        match lines[j].kind
        case Insert => linesAdded := linesAdded + 1;
        case Delete => linesRemoved := linesRemoved + 1;
        case Context =>
      }
    }
  }

  method GenerateNewFileBlock(lines: seq<Line>, hashes: Hashes) returns (block: Block)
    ensures block == NewFileBlock(lines, hashes)
    ensures block.oldStartLine == 0 && block.oldCount == 0 && block.newStartLine == 1 && block.newCount == |lines|
    ensures |block.lines| == |lines|
    ensures forall i :: 0 <= i < |lines| ==>
              block.lines[i] == DiffLine(Insert, lines[i], None, Some(i + 1), hashes(i + 1))
  {
    var out: seq<DiffLine> := [];
    for i := 0 to |lines|
      invariant out == AddInserts([], lines, hashes, 0, i, 0) && |out| == i
      invariant forall k :: 0 <= k < i ==> out[k] == DiffLine(Insert, lines[k], None, Some(k + 1), hashes(k + 1))
    {
      var lineNum := i + 1;
      out := out + [DiffLine(Insert, lines[i], None, Some(lineNum), hashes(lineNum))];
    }
    block := Block(0, 0, 1, |lines|, out);
  }

  /** The summary is the optimal edit: no diff of the two files adds or removes fewer lines. */
  ghost predicate OptimalSummary(summary: Summary, before: seq<Line>, after: seq<Line>) {
    && summary.linesAdded == |after| - Len(before, after, |before|, |after|)
    && summary.linesRemoved == |before| - Len(before, after, |before|, |after|)
    && summary.netChange == |after| - |before|
    && summary.totalEdits == |ChangesOf(before, after)|
    && summary.operations == if before == [] && after != [] then multiset{"insert"} else multiset{}
  }

  /** The structured diff of two texts. */
  method GenerateStructuredDiffWithHashes(path: string, oldContent: string, newContent: string,
                                          oldHashes: Hashes, newHashes: Hashes) returns (preview: DiffPreview)
    ensures preview.path == path
    ensures preview.blocks == BlocksOf(SplitLines(oldContent), SplitLines(newContent), oldHashes, newHashes)
    ensures Apply(SplitLines(oldContent), preview.blocks) == Some(SplitLines(newContent))
    ensures OptimalSummary(preview.summary, SplitLines(oldContent), SplitLines(newContent))
  {
    var before, after := SplitLines(oldContent), SplitLines(newContent);
    PatchRebuildsNewFile(before, after, oldHashes, newHashes);
    if |before| == 0 {
      preview := DiffOfNewFile(path, after, oldHashes, newHashes);
    } else {
      preview := DiffOfExistingFile(path, before, after, oldHashes, newHashes);
    }
  }

  method DiffOfNewFile(path: string, after: seq<Line>, oldHashes: Hashes, newHashes: Hashes)
    returns (preview: DiffPreview)
    ensures preview.path == path && preview.blocks == BlocksOf([], after, oldHashes, newHashes)
    ensures OptimalSummary(preview.summary, [], after)
  {
    ChangesOfNewFile(after);
    if |after| == 0 {
      return DiffPreview(path, Summary(0, multiset{}, 0, 0, 0), []);
    }
    var block := GenerateNewFileBlock(after, newHashes);
    preview := DiffPreview(path, Summary(1, multiset{"insert"}, |after|, 0, |after|), [block]);
  }

  method DiffOfExistingFile(path: string, before: seq<Line>, after: seq<Line>, oldHashes: Hashes, newHashes: Hashes)
    returns (preview: DiffPreview)
    requires before != []
    ensures preview.path == path && preview.blocks == BlocksOf(before, after, oldHashes, newHashes)
    ensures OptimalSummary(preview.summary, before, after)
  {
    SummaryIsOptimal(before, after, oldHashes, newHashes);
    var changes := FindChanges(before, after);
    if |changes| == 0 {
      NoBlocksIfNoChanges(before, after, oldHashes, newHashes);
      return DiffPreview(path, Summary(0, multiset{}, 0, 0, 0), []);
    }
    var blocks := ComputeBlocks(before, after, changes, oldHashes, newHashes);
    var linesAdded, linesRemoved := CountLines(blocks);
    preview := DiffPreview(path, Summary(|changes|, multiset{}, linesAdded, linesRemoved, linesAdded - linesRemoved),
                           blocks);
  }

  lemma {:induction false} ChangesOfNewFile(after: seq<Line>)
    ensures ChangesOf([], after) == if after == [] then [] else [Change(0, 0, 0, |after|)]
  {
    assert Matches([], after) == [];
    assert GapsBefore(Matches([], after), 0) == [];
  }

  lemma {:induction false} NoBlocksIfNoChanges(before: seq<Line>, after: seq<Line>, oldHashes: Hashes,
                                               newHashes: Hashes)
    requires before != [] && ChangesOf(before, after) == []
    ensures BlocksOf(before, after, oldHashes, newHashes) == []
  {
    HunksOfDiff(before, after);
  }
}
