/** The new-side start number of a block. `computeNewStart` is handed the filtered change list, so it never sees
    the changes in front of the hunk; this module proves exactly when the printed number is still the true one. */
module NewNumbers {

  import opened Options
  import opened Lcs
  import opened Changes
  import opened Hunks
  import opened Blocks
  import opened Format
  import opened Patch

  /** Sound changes shift the new side against the old side by what they added net. */
  lemma {:induction false} ShiftIsNet(before: seq<Line>, after: seq<Line>, cs: seq<Change>, k: nat)
    requires AllSound(before, after, cs) && k <= |cs|
    ensures NewAt(cs, k) - OldAt(cs, k) == TotalAdded(cs[..k]) - TotalRemoved(cs[..k])
  {
    if k == 0 {
    } else {
      ShiftIsNet(before, after, cs, k - 1);
      assert Sound(before, after, cs, k - 1);
      assert cs[..k][..k-1] == cs[..k-1];
    }
  }

  /** Handed the whole change list, the source's sum would give the hunk's true new position. */
  lemma {:induction false} WholeListGivesTrueStart(before: seq<Line>, after: seq<Line>, cs: seq<Change>, h: Hunk,
                                                   k: nat)
    requires Script(before, after, cs) && InRange(cs, |before|) && Tight(cs, |before|, |cs|, h) && k <= h.first
    ensures h.start + Offset(cs, h.start, k) == NewBegin(cs, h) - (NewAt(cs, k) - OldAt(cs, k))
    decreases h.first - k
  {
    assert Sound(before, after, cs, h.first);
    if k == h.first {
    } else {
      WholeListGivesTrueStart(before, after, cs, h, k + 1);
      assert Sound(before, after, cs, k);
      AtMost(before, after, cs, k, h.first - 1);
    }
  }

  /** Handed the hunk's own changes, as it is, the sum is always zero. */
  lemma {:induction false} OwnListGivesOldStart(before: seq<Line>, after: seq<Line>, cs: seq<Change>, h: Hunk)
    requires Script(before, after, cs) && InRange(cs, |before|) && Tight(cs, |before|, |cs|, h)
    ensures Offset(cs[h.first..h.next], h.start, 0) == 0
  {
  }

  /** Where in the new file block `i` really starts: the length of what the replay has produced by then. */
  function TrueNewStart(before: seq<Line>, bs: seq<Block>, i: nat): Option<int>
    requires i < |bs|
  {
    match ApplyUpTo(before, bs, i)
    case None => None
    case Some(st) => Some(|st.0| + Max(0, bs[i].oldStartLine - 1) - st.1)
  }

  /** A piece starts in the new file where the replay puts it. */
  lemma {:induction false} PieceStart(before: seq<Line>, after: seq<Line>, ps: seq<Piece>, bs: seq<Block>, i: nat)
    requires InPieces(before, after, ps, bs) && i < |ps|
    ensures TrueNewStart(before, bs, i) == Some(ps[i].w)
  {
    PiecesReach(before, after, ps, bs, i);
    assert PieceAt(before, after, ps, bs, i);
  }

  lemma {:induction false} CutNewStart(before: seq<Line>, after: seq<Line>, cs: seq<Change>, hs: seq<Hunk>,
                                       bs: seq<Block>, i: nat)
    requires Cut(before, after, cs, hs, bs) && i < |hs|
    ensures CutAt(before, after, cs, hs, bs, i)
    ensures TrueNewStart(before, bs, i) == Some(NewBegin(cs, hs[i]))
  {
    CutPieces(before, after, cs, hs, bs);
    PieceStart(before, after, PiecesOf(cs, hs), bs, i);
    assert CutAt(before, after, cs, hs, bs, i);
  }

  /** The hunk's lines are shifted by what the changes before it added net. */
  lemma {:induction false} HunkShift(before: seq<Line>, after: seq<Line>, cs: seq<Change>, h: Hunk)
    requires Script(before, after, cs) && InRange(cs, |before|) && Tight(cs, |before|, |cs|, h)
    ensures NewBegin(cs, h) - h.start == TotalAdded(cs[..h.first]) - TotalRemoved(cs[..h.first])
  {
    ShiftIsNet(before, after, cs, h.first);
    HunkEnds(before, after, cs, h);
  }

  lemma {:induction false} CutNewNumbers(before: seq<Line>, after: seq<Line>, cs: seq<Change>, hs: seq<Hunk>,
                                         bs: seq<Block>, i: nat)
    requires Cut(before, after, cs, hs, bs) && i < |hs|
    ensures CutAt(before, after, cs, hs, bs, i)
    ensures NewBegin(cs, hs[i]) - hs[i].start == SumInserts(bs, i) - SumDeletes(bs, i)
  {
    assert CutAt(before, after, cs, hs, bs, i);
    HunkShift(before, after, cs, hs[i]);
    SumsOfBlocks(before, after, cs, hs, bs, i);
    HunksRunOn(cs, |before|, hs, i);
  }

  /** Main result: block `i` prints its true new start line if and only if the blocks before it insert as many
      lines as they delete. */
  lemma {:induction false} NewStartIsTrueIff(before: seq<Line>, after: seq<Line>, oldHashes: Hashes, newHashes: Hashes,
                                             i: nat)
    requires i < |BlocksOf(before, after, oldHashes, newHashes)|
    ensures var bs := BlocksOf(before, after, oldHashes, newHashes);
            TrueNewStart(before, bs, i) == Some(bs[i].newStartLine - 1) <==> SumInserts(bs, i) == SumDeletes(bs, i)
  {
    var bs := BlocksOf(before, after, oldHashes, newHashes);
    if before == [] {
      assert i == 0 && ApplyUpTo(before, bs, 0) == Some(([], 0));
    } else {
      var cs, hs := BlocksAreCut(before, after, oldHashes, newHashes);
      CutNewStart(before, after, cs, hs, bs, i);
      CutNewNumbers(before, after, cs, hs, bs, i);
      HunkPrintsOldStart(before, after, cs, hs[i], bs[i]);
    }
  }

  lemma {:induction false} HunkPrintsOldStart(before: seq<Line>, after: seq<Line>, cs: seq<Change>, h: Hunk, b: Block)
    requires h.first < h.next <= |cs| && ShowsHunk(before, after, cs, h, b)
    ensures b.newStartLine - 1 == h.start
  {
  }

  lemma {:induction false} SidesCount(ls: seq<DiffLine>)
    ensures OldCount(ls, |ls|) == |OldSide(ls)| && NewCount(ls, |ls|) == |NewSide(ls)|
  {
    if ls == [] {
    } else {
      var front, last := ls[..|ls|-1], ls[|ls|-1];
      assert ls == front + [last];
      SidesCount(front);
      CountsOfPrefix(front, last, |front|);
    }
  }

  lemma {:induction false} OldSideHolds(ls: seq<DiffLine>, j: nat)
    requires j < |ls| && !ls[j].kind.Insert?
    ensures OldCount(ls, j) < |OldSide(ls)| && OldSide(ls)[OldCount(ls, j)] == ls[j].content
    decreases |ls|
  {
    var front, last := ls[..|ls|-1], ls[|ls|-1];
    assert ls == front + [last];
    CountsOfPrefix(front, last, j);
    if j < |front| {
      OldSideHolds(front, j);
    } else {
      SidesCount(front);
    }
  }

  lemma {:induction false} NewSideHolds(ls: seq<DiffLine>, j: nat)
    requires j < |ls| && !ls[j].kind.Delete?
    ensures NewCount(ls, j) < |NewSide(ls)| && NewSide(ls)[NewCount(ls, j)] == ls[j].content
    decreases |ls|
  {
    var front, last := ls[..|ls|-1], ls[|ls|-1];
    assert ls == front + [last];
    CountsOfPrefix(front, last, j);
    if j < |front| {
      NewSideHolds(front, j);
    } else {
      SidesCount(front);
    }
  }

  /** Line `j` of a block is entry number `OldCount` of its old side, and entry number `NewCount` of its new side. */
  lemma {:induction false} SidesHoldContent(ls: seq<DiffLine>, j: nat)
    requires j < |ls|
    ensures OldCount(ls, |ls|) == |OldSide(ls)| && NewCount(ls, |ls|) == |NewSide(ls)|
    ensures !ls[j].kind.Insert? ==> OldCount(ls, j) < |OldSide(ls)| && OldSide(ls)[OldCount(ls, j)] == ls[j].content
    ensures !ls[j].kind.Delete? ==> NewCount(ls, j) < |NewSide(ls)| && NewSide(ls)[NewCount(ls, j)] == ls[j].content
  {
    SidesCount(ls);
    if !ls[j].kind.Insert? {
      OldSideHolds(ls, j);
    }
    if !ls[j].kind.Delete? {
      NewSideHolds(ls, j);
    }
  }

  /** A line that carries an old number carries the true number of its content. */
  predicate OldNumberIsTrue(before: seq<Line>, l: DiffLine) {
    && (l.oldNumber.Some? <==> !l.kind.Insert?)
    && (l.oldNumber.Some? ==> 1 <= l.oldNumber.value <= |before| && before[l.oldNumber.value - 1] == l.content)
  }

  predicate NewNumberIsTrue(after: seq<Line>, l: DiffLine) {
    && (l.newNumber.Some? <==> !l.kind.Delete?)
    && (l.newNumber.Some? ==> 1 <= l.newNumber.value <= |after| && after[l.newNumber.value - 1] == l.content)
  }

  lemma {:induction false} OldNumberOf(before: seq<Line>, b: Block, j: nat)
    requires WellNumbered(before, b) && j < |b.lines|
    ensures OldNumberIsTrue(before, b.lines[j])
  {
    assert LineNumbered(b.lines, Max(0, b.oldStartLine - 1), b.newStartLine - 1, j);
    SidesHoldContent(b.lines, j);
  }

  lemma {:induction false} NewNumberOf(before: seq<Line>, after: seq<Line>, cs: seq<Change>, h: Hunk, b: Block, j: nat)
    requires h.first < h.next <= |cs| && ShowsHunk(before, after, cs, h, b) && j < |b.lines|
    requires NewBegin(cs, h) == h.start
    ensures NewNumberIsTrue(after, b.lines[j])
  {
    assert LineNumbered(b.lines, h.start, h.start, j);
    SidesHoldContent(b.lines, j);
  }

  /** Every old number in a diff is the true line number of the content beside it. */
  lemma {:induction false} OldNumbersAreTrue(before: seq<Line>, after: seq<Line>, oldHashes: Hashes, newHashes: Hashes,
                                             i: nat, j: nat)
    requires i < |BlocksOf(before, after, oldHashes, newHashes)|
    requires j < |BlocksOf(before, after, oldHashes, newHashes)[i].lines|
    ensures OldNumberIsTrue(before, BlocksOf(before, after, oldHashes, newHashes)[i].lines[j])
  {
    BlocksAreWellNumbered(before, after, oldHashes, newHashes, i);
    OldNumberOf(before, BlocksOf(before, after, oldHashes, newHashes)[i], j);
  }

  /** So is every new number, in each block whose predecessors insert as much as they delete; the first block
      always is one. */
  lemma {:induction false} NewNumbersAreTrueIf(before: seq<Line>, after: seq<Line>, oldHashes: Hashes,
                                               newHashes: Hashes, i: nat, j: nat)
    requires i < |BlocksOf(before, after, oldHashes, newHashes)|
    requires j < |BlocksOf(before, after, oldHashes, newHashes)[i].lines|
    requires var bs := BlocksOf(before, after, oldHashes, newHashes); SumInserts(bs, i) == SumDeletes(bs, i)
    ensures NewNumberIsTrue(after, BlocksOf(before, after, oldHashes, newHashes)[i].lines[j])
  {
    var bs := BlocksOf(before, after, oldHashes, newHashes);
    if before == [] {
      NewFileNumbers(after, newHashes, j);
    } else {
      var cs, hs := BlocksAreCut(before, after, oldHashes, newHashes);
      CutNewNumbers(before, after, cs, hs, bs, i);
      NewNumberOf(before, after, cs, hs[i], bs[i], j);
    }
  }

  /** Line `j` of block `i` stands at its place behind the block's true start in the new file, and prints that place if
      and only if the blocks before it insert as many lines as they delete. */
  ghost predicate NumberTrueIff(before: seq<Line>, after: seq<Line>, bs: seq<Block>, i: nat, j: nat)
    requires i < |bs| && j < |bs[i].lines|
  {
    var l, start := bs[i].lines[j], TrueNewStart(before, bs, i);
    && start.Some? && 0 <= start.value + NewCount(bs[i].lines, j) < |after|
    && after[start.value + NewCount(bs[i].lines, j)] == l.content
    && (l.newNumber == Some(start.value + NewCount(bs[i].lines, j) + 1) <==> SumInserts(bs, i) == SumDeletes(bs, i))
  }

  /** Main result, line by line and exactly: when a printed new number is the line's place in the new file. */
  lemma {:induction false} NewNumberIsTrueIff(before: seq<Line>, after: seq<Line>, oldHashes: Hashes, newHashes: Hashes,
                                              i: nat, j: nat)
    requires i < |BlocksOf(before, after, oldHashes, newHashes)|
    requires j < |BlocksOf(before, after, oldHashes, newHashes)[i].lines|
    requires !BlocksOf(before, after, oldHashes, newHashes)[i].lines[j].kind.Delete?
    ensures NumberTrueIff(before, after, BlocksOf(before, after, oldHashes, newHashes), i, j)
  {
    var bs := BlocksOf(before, after, oldHashes, newHashes);
    if before == [] {
      NewFileNumberIff(after, newHashes, bs, j);
    } else {
      var cs, hs := BlocksAreCut(before, after, oldHashes, newHashes);
      CutNumberIff(before, after, cs, hs, bs, i, j);
    }
  }

  lemma {:induction false} NewFileNumberIff(after: seq<Line>, newHashes: Hashes, bs: seq<Block>, j: nat)
    requires bs == [NewFileBlock(after, newHashes)] && j < |bs[0].lines| && !bs[0].lines[j].kind.Delete?
    ensures NumberTrueIff([], after, bs, 0, j)
  {
    assert ApplyUpTo([], bs, 0) == Some(([], 0));
    NewFileBlockShows(after, newHashes);
    PrintedNumber(bs[0].lines, 0, j);
    NewSideHolds(bs[0].lines, j);
  }

  lemma {:induction false} CutNumberIff(before: seq<Line>, after: seq<Line>, cs: seq<Change>, hs: seq<Hunk>,
                                        bs: seq<Block>, i: nat, j: nat)
    requires Cut(before, after, cs, hs, bs) && i < |hs|
    requires j < |bs[i].lines| && !bs[i].lines[j].kind.Delete?
    ensures NumberTrueIff(before, after, bs, i, j)
  {
    CutNewStart(before, after, cs, hs, bs, i);
    CutNewNumbers(before, after, cs, hs, bs, i);
    HunkNumberIff(before, after, cs, hs[i], bs, i, j);
  }

  lemma {:induction false} HunkNumberIff(before: seq<Line>, after: seq<Line>, cs: seq<Change>, h: Hunk, bs: seq<Block>,
                                         i: nat, j: nat)
    requires i < |bs| && j < |bs[i].lines| && !bs[i].lines[j].kind.Delete?
    requires h.first < h.next <= |cs| && ShowsHunk(before, after, cs, h, bs[i])
    requires TrueNewStart(before, bs, i) == Some(NewBegin(cs, h))
    requires NewBegin(cs, h) - h.start == SumInserts(bs, i) - SumDeletes(bs, i)
    ensures NumberTrueIff(before, after, bs, i, j)
  {
    PrintedNumber(bs[i].lines, h.start, j);
    SliceHoldsContent(bs[i].lines, after, NewBegin(cs, h), NewFinish(cs, h), j);
  }

  lemma {:induction false} PrintedNumber(ls: seq<DiffLine>, start: int, j: nat)
    requires j < |ls| && !ls[j].kind.Delete? && Numbered(ls, start, start)
    ensures ls[j].newNumber == Some(start + NewCount(ls, j) + 1)
  {
    assert LineNumbered(ls, start, start, j);
  }

  lemma {:induction false} SliceHoldsContent(ls: seq<DiffLine>, after: seq<Line>, w: nat, y: nat, j: nat)
    requires j < |ls| && !ls[j].kind.Delete? && w <= y <= |after| && NewSide(ls) == after[w..y]
    ensures w + NewCount(ls, j) < |after| && after[w + NewCount(ls, j)] == ls[j].content
  {
    SidesHoldContent(ls, j);
  }

  lemma {:induction false} NewFileNumbers(after: seq<Line>, newHashes: Hashes, j: nat)
    requires j < |NewFileBlock(after, newHashes).lines|
    ensures NewNumberIsTrue(after, NewFileBlock(after, newHashes).lines[j])
  {
    NewFileBlockShows(after, newHashes);
    assert LineNumbered(NewFileBlock(after, newHashes).lines, 0, 0, j);
    SidesHoldContent(NewFileBlock(after, newHashes).lines, j);
  }

  const SEVEN: seq<Line> := ["a", "a", "a", "a", "a", "a", "a"]
  const NINE: seq<Line> := ["x", "a", "a", "a", "a", "a", "a", "a", "y"]

  lemma {:induction false} LenAtMost(before: seq<Line>, after: seq<Line>, i: nat, j: nat)
    requires i <= |before| && j <= |after|
    ensures Len(before, after, i, j) <= i
    decreases i + j
  {
    if i == 0 || j == 0 {
    } else if before[i-1] == after[j-1] {
      LenAtMost(before, after, i - 1, j - 1);
    } else {
      LenAtMost(before, after, i - 1, j);
      LenAtMost(before, after, i, j - 1);
    }
  }

  ghost predicate Diagonal(ms: seq<Match>) {
    forall i :: 0 <= i < |ms| ==> ms[i] == Match(i, i + 1)
  }

  lemma {:induction false} DiagonalOfSample(k: nat)
    requires k <= 7
    ensures Len(SEVEN, NINE, k, k + 1) == k
    ensures |Trace(SEVEN, NINE, k, k + 1)| == k && Diagonal(Trace(SEVEN, NINE, k, k + 1))
  {
    if k == 0 {
    } else {
      DiagonalOfSample(k - 1);
      assert SEVEN[k-1] == "a" == NINE[k];
    }
  }

  lemma {:induction false} SampleMatches()
    ensures |Matches(SEVEN, NINE)| == 7 && Diagonal(Matches(SEVEN, NINE))
  {
    DiagonalOfSample(7);
    LenAtMost(SEVEN, NINE, 6, 9);
    assert SEVEN[6] == "a" && NINE[8] == "y";
  }

  lemma {:induction false} SampleGaps(k: nat)
    requires |Matches(SEVEN, NINE)| == 7 && Diagonal(Matches(SEVEN, NINE))
    requires 0 < k <= 7
    ensures GapsBefore(Matches(SEVEN, NINE), k) == [Change(0, 0, 0, 1)]
  {
    var ms := Matches(SEVEN, NINE);
    assert ms[k-1] == Match(k - 1, k);
    if k == 1 {
      assert GapsBefore(ms, 0) == [];
    } else {
      SampleGaps(k - 1);
      assert ms[k-2] == Match(k - 2, k - 1);
      assert Gap(OldPast(ms, k-1), ms[k-1].oldIndex, NewPast(ms, k-1), ms[k-1].newIndex) == [];
    }
  }

  /** A line added at the top and one at the bottom: the second block prints line 5 but starts at line 6. */
  lemma {:induction false} NewStartCanBeWrong(oldHashes: Hashes, newHashes: Hashes)
    ensures var bs := BlocksOf(SEVEN, NINE, oldHashes, newHashes);
            |bs| == 2 && bs[1].newStartLine == 5 && TrueNewStart(SEVEN, bs, 1) == Some(5)
  {
    SampleMatches();
    SampleGaps(7);
    var cs := ChangesOf(SEVEN, NINE);
    assert cs == [Change(0, 0, 0, 1), Change(7, 7, 8, 9)];
    SampleHunks(cs);
    var cs', hs := BlocksAreCut(SEVEN, NINE, oldHashes, newHashes);
    CutNewStart(SEVEN, NINE, cs', hs, BlocksOf(SEVEN, NINE, oldHashes, newHashes), 1);
  }

  lemma {:induction false} SampleHunks(cs: seq<Change>)
    requires cs == [Change(0, 0, 0, 1), Change(7, 7, 8, 9)] && InRange(cs, 7)
    ensures HunksOf(cs, 7) == [Hunk(0, 3, 0, 1), Hunk(4, 7, 1, 2)]
  {
    assert HunksUpTo(cs, 7, 0) == [];
    assert HunksUpTo(cs, 7, 1) == [Hunk(0, 3, 0, 1)];
  }
}
