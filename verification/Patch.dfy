/** What a list of blocks means: the result of replaying it over the old lines by old position. The main
    results are that the blocks of a diff rebuild the new file, and that their counts are the optimal ones. */
module Patch {

  import opened Options
  import opened Lcs
  import opened Changes
  import opened Hunks
  import opened Blocks
  import opened Format

  /** Copy the gap in front of the block, check that the block's old side is what the file holds there, and
      emit its new side. A block for an empty old file has start line 0. */
  function ApplyBlock(before: seq<Line>, out: seq<Line>, pos: nat, b: Block): Option<(seq<Line>, nat)> {
    var s, os := Max(0, b.oldStartLine - 1), OldSide(b.lines);
    if pos <= s && s + |os| <= |before| && before[s..s + |os|] == os
    then Some((out + before[pos..s] + NewSide(b.lines), s + |os|))
    else None
  }

  function ApplyUpTo(before: seq<Line>, blocks: seq<Block>, k: nat): Option<(seq<Line>, nat)>
    requires k <= |blocks|
  {
    if k == 0 then Some(([], 0))
    else
      match ApplyUpTo(before, blocks, k-1)
      case None => None
      case Some(st) => ApplyBlock(before, st.0, st.1, blocks[k-1])
  }

  /** Replays all blocks and copies the rest of the old file. */
  function Apply(before: seq<Line>, blocks: seq<Block>): Option<seq<Line>> {
    match ApplyUpTo(before, blocks, |blocks|)
    case None => None
    case Some(st) => if st.1 <= |before| then Some(st.0 + before[st.1..]) else None
  }

  ghost predicate AllTight(cs: seq<Change>, m: nat, hs: seq<Hunk>)
    requires InRange(cs, m)
  {
    forall i :: 0 <= i < |hs| ==> Tight(cs, m, |cs|, hs[i])
  }

  /** The blocks of the first `k` hunks. */
  function BlocksFor(before: seq<Line>, after: seq<Line>, cs: seq<Change>, hs: seq<Hunk>,
                     oldHashes: Hashes, newHashes: Hashes, k: nat): (bs: seq<Block>)
    requires Script(before, after, cs) && InRange(cs, |before|) && AllTight(cs, |before|, hs) && k <= |hs|
    ensures |bs| == k
  {
    if k == 0 then []
    else
      HunkIsFormattable(before, after, cs, hs[k-1]);
      BlocksFor(before, after, cs, hs, oldHashes, newHashes,
                k-1) + [HunkBlock(before, after, cs, hs[k-1], oldHashes, newHashes)]
  }

  function HunkBlock(before: seq<Line>, after: seq<Line>, cs: seq<Change>, h: Hunk, oldHashes: Hashes,
                     newHashes: Hashes): Block
    requires Script(before, after, cs) && InRange(cs, |before|) && Tight(cs, |before|, |cs|, h)
  {
    HunkIsFormattable(before, after, cs, h);
    BlockOf(before, after, cs[h.first..h.next], h.start, h.end, oldHashes, newHashes)
  }

  lemma {:induction false} BlocksForAt(before: seq<Line>, after: seq<Line>, cs: seq<Change>, hs: seq<Hunk>,
                                       oldHashes: Hashes, newHashes: Hashes, k: nat, i: nat)
    requires Script(before, after, cs) && InRange(cs, |before|) && AllTight(cs, |before|, hs) && i < k <= |hs|
    ensures BlocksFor(before, after, cs, hs, oldHashes, newHashes, k)[i]
         == HunkBlock(before, after, cs, hs[i], oldHashes, newHashes)
  {
    if i + 1 == k {
    } else {
      BlocksForAt(before, after, cs, hs, oldHashes, newHashes, k - 1, i);
    }
  }

  /** Block `b` covers exactly the old lines of hunk `h` and stands for exactly its new lines, counts both in its
      header, and numbers both from the hunk's old start. */
  ghost predicate ShowsHunk(before: seq<Line>, after: seq<Line>, cs: seq<Change>, h: Hunk, b: Block)
    requires h.first < h.next <= |cs|
  {
    && h.start <= h.end <= |before| && 0 <= NewBegin(cs, h) <= NewFinish(cs, h) <= |after|
    && OldSide(b.lines) == before[h.start..h.end] && NewSide(b.lines) == after[NewBegin(cs, h)..NewFinish(cs, h)]
    && b.oldStartLine == h.start + 1 && b.newStartLine == h.start + 1
    && Numbered(b.lines, h.start, h.start)
    && b.oldCount == |OldSide(b.lines)| && b.newCount == |NewSide(b.lines)|
    && Tally(b.lines, TotalRemoved(cs[h.first..h.next]), TotalAdded(cs[h.first..h.next]))
    && b.lines != []
  }

  /** The lines of a hunk's block, as slices of both files. */
  lemma {:induction false} HunkBodyShows(before: seq<Line>, after: seq<Line>, rel: seq<Change>, start: nat, end: nat,
                                         w: nat, y: nat, oldHashes: Hashes, newHashes: Hashes)
    requires Formattable(before, after, rel, start, end) && Aligned(before, after, rel, start, w)
    requires EqualRun(before, rel[|rel|-1].oldEnd, end, after, rel[|rel|-1].newEnd, y) && w <= y
    ensures Shows(Body(before, after, rel, start, end, oldHashes, newHashes), start, start, before[start..end],
                  after[w..y])
  {
    BodyShows(before, after, rel, start, end, w, y, oldHashes, newHashes);
    ExtendIsSlice(before, start, end);
    ExtendIsSlice(after, w, y);
  }

  /** The header of a block counts its lines. */
  lemma {:induction false} HeaderCounts(ls: seq<DiffLine>, start: nat, end: nat, os: seq<Line>, ns: seq<Line>, d: int,
                                        a: int)
    requires Shows(ls, start, start, os, ns) && Tally(ls, d, a) && |os| == end - start
    ensures |OldSide(ls)| == end - start && |NewSide(ls)| == end - start - d + a
    ensures os != [] || ns != [] ==> ls != []
  {
    CountsBalance(ls, |ls|);
  }

  lemma {:induction false} HunkBlockShows(before: seq<Line>, after: seq<Line>, cs: seq<Change>, h: Hunk,
                                          oldHashes: Hashes, newHashes: Hashes)
    requires Script(before, after, cs) && InRange(cs, |before|) && Tight(cs, |before|, |cs|, h)
    ensures ShowsHunk(before, after, cs, h, HunkBlock(before, after, cs, h, oldHashes, newHashes))
  {
    var rel, w, y := cs[h.first..h.next], NewBegin(cs, h), NewFinish(cs, h);
    HunkIsFormattable(before, after, cs, h);
    HunkEnds(before, after, cs, h);
    assert rel[|rel|-1] == cs[h.next-1];
    HunkBodyShows(before, after, rel, h.start, h.end, w, y, oldHashes, newHashes);
    BodyTally(before, after, rel, h.start, h.end, oldHashes, newHashes);
    HunkNotEmpty(before, after, cs, h);
    HeaderCounts(Body(before, after, rel, h.start, h.end, oldHashes, newHashes), h.start, h.end,
                 before[h.start..h.end], after[w..y], TotalRemoved(rel), TotalAdded(rel));
  }

  lemma {:induction false} HunkNotEmpty(before: seq<Line>, after: seq<Line>, cs: seq<Change>, h: Hunk)
    requires Script(before, after, cs) && InRange(cs, |before|) && Tight(cs, |before|, |cs|, h)
    ensures h.start < h.end || NewBegin(cs, h) < NewFinish(cs, h)
  {
    assert Sound(before, after, cs, h.first);
    HunkEnds(before, after, cs, h);
    AtMost(before, after, cs, h.first, h.next - 1);
    if h.first < h.next - 1 {
      SoundOrder(before, after, cs, h.first, h.next - 1);
    }
  }

  lemma {:induction false} ExtendIsSlice(s: seq<Line>, from: nat, to: nat)
    requires from <= to <= |s|
    ensures Extend([], s, from, to) == s[from..to]
  {
    if from == to {
    } else {
      ExtendIsSlice(s, from, to - 1);
      assert s[from..to] == s[from..to-1] + [s[to-1]];
    }
  }

  /** A change script cut into hunks, and one block for each hunk. */
  ghost predicate Cut(before: seq<Line>, after: seq<Line>, cs: seq<Change>, hs: seq<Hunk>, bs: seq<Block>) {
    && Script(before, after, cs) && InRange(cs, |before|)
    && Partition(cs, |before|, |cs|, hs) && |bs| == |hs|
    && forall i :: 0 <= i < |hs| ==> CutAt(before, after, cs, hs, bs, i)
  }

  ghost predicate CutAt(before: seq<Line>, after: seq<Line>, cs: seq<Change>, hs: seq<Hunk>, bs: seq<Block>, i: nat)
    requires InRange(cs, |before|) && i < |hs| == |bs|
  {
    Tight(cs, |before|, |cs|, hs[i]) && ShowsHunk(before, after, cs, hs[i], bs[i])
  }

  /** The new lines run on across the equal gap in front of hunk `k`. */
  lemma {:induction false} GapBefore(before: seq<Line>, after: seq<Line>, cs: seq<Change>, hs: seq<Hunk>,
                                     bs: seq<Block>, k: nat)
    requires Cut(before, after, cs, hs, bs) && k < |hs|
    ensures CutAt(before, after, cs, hs, bs, k)
    ensures k == 0 ==> EqualRun(before, 0, hs[k].start, after, 0, NewBegin(cs, hs[k]))
    ensures k > 0 ==> CutAt(before, after, cs, hs, bs, k-1)
                      && EqualRun(before, hs[k-1].end, hs[k].start, after, NewFinish(cs, hs[k-1]), NewBegin(cs, hs[k]))
  {
    assert CutAt(before, after, cs, hs, bs, k);
    if k == 0 {
      HunkEnds(before, after, cs, hs[k]);
    } else {
      assert CutAt(before, after, cs, hs, bs, k-1) && Follows(hs, k);
      HunkGap(before, after, cs, hs[k-1], hs[k]);
    }
  }

  lemma {:induction false} HunkGap(before: seq<Line>, after: seq<Line>, cs: seq<Change>, g: Hunk, h: Hunk)
    requires Script(before, after, cs) && InRange(cs, |before|)
    requires Tight(cs, |before|, |cs|, g) && Tight(cs, |before|, |cs|, h) && g.next == h.first && g.end < h.start
    ensures 0 <= NewBegin(cs, h) && 0 <= NewFinish(cs, g)
    ensures EqualRun(before, g.end, h.start, after, NewFinish(cs, g), NewBegin(cs, h))
  {
    HunkEnds(before, after, cs, g);
    HunkEnds(before, after, cs, h);
  }

  // ----- replaying

  /** What a block stands for: the old lines `start .. end` become the new lines `w .. y`. */
  datatype Piece = Piece(start: int, end: int, w: int, y: int)

  function OldReach(ps: seq<Piece>, i: nat): int
    requires i <= |ps|
  {
    if i == 0 then 0 else ps[i-1].end
  }

  function NewReach(ps: seq<Piece>, i: nat): int
    requires i <= |ps|
  {
    if i == 0 then 0 else ps[i-1].y
  }

  /** Block `i` stands for piece `i`, and the gap in front of it is equal on both sides. */
  ghost predicate PieceAt(before: seq<Line>, after: seq<Line>, ps: seq<Piece>, bs: seq<Block>, i: nat)
    requires i < |ps| == |bs|
  {
    var p, b := ps[i], bs[i];
    && 0 <= OldReach(ps, i) && 0 <= NewReach(ps, i) && 0 <= p.start <= p.end <= |before| && 0 <= p.w <= p.y <= |after|
    && EqualRun(before, OldReach(ps, i), p.start, after, NewReach(ps, i), p.w)
    && b.oldStartLine == p.start + 1
    && OldSide(b.lines) == before[p.start..p.end] && NewSide(b.lines) == after[p.w..p.y]
  }

  ghost predicate InPieces(before: seq<Line>, after: seq<Line>, ps: seq<Piece>, bs: seq<Block>) {
    |ps| == |bs| && forall i :: 0 <= i < |ps| ==> PieceAt(before, after, ps, bs, i)
  }

  /** After `k` blocks the replay has produced the new file up to the end of the piece before. */
  lemma {:induction false} PiecesReach(before: seq<Line>, after: seq<Line>, ps: seq<Piece>, bs: seq<Block>, k: nat)
    requires InPieces(before, after, ps, bs) && k <= |ps|
    ensures 0 <= OldReach(ps, k) <= |before| && 0 <= NewReach(ps, k) <= |after|
    ensures ApplyUpTo(before, bs, k) == Some((after[..NewReach(ps, k)], OldReach(ps, k)))
  {
    if k == 0 {
    } else {
      PiecesReach(before, after, ps, bs, k - 1);
      assert PieceAt(before, after, ps, bs, k - 1);
      var p, v := ps[k-1], NewReach(ps, k - 1);
      OneBlock(before, after, after[..v], OldReach(ps, k - 1), bs[k-1], p.start, p.end, v, p.w, p.y);
    }
  }

  /** One replay step: an equal gap, then the block. */
  lemma {:induction false} OneBlock(before: seq<Line>, after: seq<Line>, out: seq<Line>, pos: nat, b: Block,
                                    start: nat, end: nat, v: nat, w: nat, y: nat)
    requires EqualRun(before, pos, start, after, v, w) && start <= end <= |before| && w <= y <= |after|
    requires out == after[..v] && b.oldStartLine == start + 1
    requires OldSide(b.lines) == before[start..end] && NewSide(b.lines) == after[w..y]
    ensures ApplyBlock(before, out, pos, b) == Some((after[..y], end))
  {
    assert before[pos..start] == after[v..w];
    assert after[..v] + after[v..w] + after[w..y] == after[..y];
  }

  ghost predicate Spans(cs: seq<Change>, hs: seq<Hunk>) {
    forall i :: 0 <= i < |hs| ==> hs[i].first < hs[i].next <= |cs|
  }

  function PieceOf(cs: seq<Change>, h: Hunk): Piece
    requires h.first < h.next <= |cs|
  {
    Piece(h.start, h.end, NewBegin(cs, h), NewFinish(cs, h))
  }

  ghost function PiecesOf(cs: seq<Change>, hs: seq<Hunk>): (ps: seq<Piece>)
    requires Spans(cs, hs)
    ensures |ps| == |hs| && forall i :: 0 <= i < |hs| ==> ps[i] == PieceOf(cs, hs[i])
  {
    seq(|hs|, i requires 0 <= i < |hs| => PieceOf(cs, hs[i]))
  }

  lemma {:induction false} CutPieces(before: seq<Line>, after: seq<Line>, cs: seq<Change>, hs: seq<Hunk>,
                                     bs: seq<Block>)
    requires Cut(before, after, cs, hs, bs)
    ensures Spans(cs, hs) && InPieces(before, after, PiecesOf(cs, hs), bs)
  {
    forall i | 0 <= i < |hs|
      ensures hs[i].first < hs[i].next <= |cs|
    {
      assert CutAt(before, after, cs, hs, bs, i);
    }
    forall i | 0 <= i < |hs|
      ensures PieceAt(before, after, PiecesOf(cs, hs), bs, i)
    {
      GapBefore(before, after, cs, hs, bs, i);
      HunkPiece(before, after, cs, hs, bs, PiecesOf(cs, hs), i);
    }
  }

  lemma {:induction false} HunkPiece(before: seq<Line>, after: seq<Line>, cs: seq<Change>, hs: seq<Hunk>,
                                     bs: seq<Block>, ps: seq<Piece>, i: nat)
    requires i < |hs| == |bs| && Spans(cs, hs) && ps == PiecesOf(cs, hs)
    requires ShowsHunk(before, after, cs, hs[i], bs[i])
    requires i == 0 ==> EqualRun(before, 0, hs[i].start, after, 0, NewBegin(cs, hs[i]))
    requires i > 0 ==> 0 <= NewFinish(cs, hs[i-1])
                       && EqualRun(before, hs[i-1].end, hs[i].start, after, NewFinish(cs, hs[i-1]), NewBegin(cs, hs[i]))
    ensures PieceAt(before, after, ps, bs, i)
  {
  }

  /** After the first `k` blocks the replay has produced the new file up to the end of hunk `k`. */
  lemma {:induction false} ReplayReaches(before: seq<Line>, after: seq<Line>, cs: seq<Change>, hs: seq<Hunk>,
                                         bs: seq<Block>, k: nat)
    requires Cut(before, after, cs, hs, bs) && k < |hs|
    ensures CutAt(before, after, cs, hs, bs, k)
    ensures ApplyUpTo(before, bs, k + 1) == Some((after[..NewFinish(cs, hs[k])], hs[k].end))
  {
    CutPieces(before, after, cs, hs, bs);
    PiecesReach(before, after, PiecesOf(cs, hs), bs, k + 1);
    assert CutAt(before, after, cs, hs, bs, k);
  }

  lemma {:induction false} PiecesRebuild(before: seq<Line>, after: seq<Line>, ps: seq<Piece>, bs: seq<Block>)
    requires InPieces(before, after, ps, bs) && 0 <= OldReach(ps, |ps|) && 0 <= NewReach(ps, |ps|)
    requires EqualRun(before, OldReach(ps, |ps|), |before|, after, NewReach(ps, |ps|), |after|)
    ensures Apply(before, bs) == Some(after)
  {
    var pos, y := OldReach(ps, |ps|), NewReach(ps, |ps|);
    PiecesReach(before, after, ps, bs, |ps|);
    TailRebuilds(before, after, pos, y);
  }

  lemma {:induction false} TailRebuilds(before: seq<Line>, after: seq<Line>, pos: nat, y: nat)
    requires EqualRun(before, pos, |before|, after, y, |after|)
    ensures after[..y] + before[pos..] == after
  {
    assert before[pos..] == after[y..];
  }

  /** The blocks of a change script rebuild the new file. */
  lemma {:induction false} CutRebuilds(before: seq<Line>, after: seq<Line>, cs: seq<Change>, hs: seq<Hunk>,
                                       bs: seq<Block>)
    requires Cut(before, after, cs, hs, bs)
    ensures Apply(before, bs) == Some(after)
  {
    CutPieces(before, after, cs, hs, bs);
    if hs != [] {
      BehindLastHunk(before, after, cs, hs[|hs|-1]);
    }
    PiecesRebuild(before, after, PiecesOf(cs, hs), bs);
  }

  /** Behind the last hunk both files go on alike to their ends. */
  lemma {:induction false} BehindLastHunk(before: seq<Line>, after: seq<Line>, cs: seq<Change>, h: Hunk)
    requires Script(before, after, cs) && InRange(cs, |before|) && Tight(cs, |before|, |cs|, h) && h.next == |cs|
    ensures 0 <= NewFinish(cs, h) && EqualRun(before, h.end, |before|, after, NewFinish(cs, h), |after|)
  {
    HunkEnds(before, after, cs, h);
  }

  /** The single block of a file that had no lines. */
  function NewFileBlock(after: seq<Line>, newHashes: Hashes): Block {
    Block(0, 0, 1, |after|, AddInserts([], after, newHashes, 0, |after|, 0))
  }

  lemma {:induction false} NewFileBlockShows(after: seq<Line>, newHashes: Hashes)
    ensures var b := NewFileBlock(after, newHashes);
            && OldSide(b.lines) == [] && NewSide(b.lines) == after
            && Numbered(b.lines, 0, 0) && b.newCount == |NewSide(b.lines)|
            && Tally(b.lines, 0, |after|)
  {
    AddInsertsShows([], 0, 0, [], [], after, newHashes, 0, |after|);
    AddInsertsTally([], 0, 0, after, newHashes, 0, |after|, 0);
    ExtendIsSlice(after, 0, |after|);
  }

  /** All blocks of a diff. */
  function BlocksOf(before: seq<Line>, after: seq<Line>, oldHashes: Hashes, newHashes: Hashes): seq<Block> {
    if before == [] && after == [] then []
    else if before == [] then [NewFileBlock(after, newHashes)]
    else
      var cs := ChangesOf(before, after);
      HunksOfDiff(before, after);
      BlocksFor(before, after, cs, HunksOf(cs, |before|), oldHashes, newHashes, |HunksOf(cs, |before|)|)
  }

  lemma {:induction false} HunksOfDiff(before: seq<Line>, after: seq<Line>)
    ensures Script(before, after, ChangesOf(before, after)) && InRange(ChangesOf(before, after), |before|)
    ensures Partition(ChangesOf(before, after), |before|, |ChangesOf(before, after)|,
                      HunksOf(ChangesOf(before, after), |before|))
    ensures AllTight(ChangesOf(before, after), |before|, HunksOf(ChangesOf(before, after), |before|))
  {
    ChangesOfIsScript(before, after);
    SoundInRange(before, after, ChangesOf(before, after));
    GroupingPartitions(ChangesOf(before, after), |before|, |ChangesOf(before, after)|);
  }

  lemma {:induction false} BlocksAreCut(before: seq<Line>, after: seq<Line>, oldHashes: Hashes, newHashes: Hashes)
    returns (cs: seq<Change>, hs: seq<Hunk>)
    requires before != []
    ensures cs == ChangesOf(before, after) && InRange(cs, |before|) && hs == HunksOf(cs, |before|)
    ensures Cut(before, after, cs, hs, BlocksOf(before, after, oldHashes, newHashes))
  {
    HunksOfDiff(before, after);
    cs := ChangesOf(before, after);
    hs := HunksOf(cs, |before|);
    var bs := BlocksOf(before, after, oldHashes, newHashes);
    forall i | 0 <= i < |hs|
      ensures CutAt(before, after, cs, hs, bs, i)
    {
      BlocksForAt(before, after, cs, hs, oldHashes, newHashes, |hs|, i);
      HunkBlockShows(before, after, cs, hs[i], oldHashes, newHashes);
    }
  }

  /** Main result: for every pair of files, replaying the blocks over the old lines yields exactly the new lines. */
  lemma {:induction false} PatchRebuildsNewFile(before: seq<Line>, after: seq<Line>, oldHashes: Hashes,
                                                newHashes: Hashes)
    ensures Apply(before, BlocksOf(before, after, oldHashes, newHashes)) == Some(after)
  {
    if before == [] {
      NewFileRebuilds(after, oldHashes, newHashes);
    } else {
      var cs, hs := BlocksAreCut(before, after, oldHashes, newHashes);
      CutRebuilds(before, after, cs, hs, BlocksOf(before, after, oldHashes, newHashes));
    }
  }

  lemma {:induction false} NewFileRebuilds(after: seq<Line>, oldHashes: Hashes, newHashes: Hashes)
    ensures Apply([], BlocksOf([], after, oldHashes, newHashes)) == Some(after)
  {
    var none: seq<Line>, bs := [], BlocksOf([], after, oldHashes, newHashes);
    assert ApplyUpTo(none, bs, 0) == Some(([], 0));
    if after != [] {
      var b := NewFileBlock(after, newHashes);
      NewFileBlockShows(after, newHashes);
      assert none + none[0..0] + NewSide(b.lines) == after;
      assert none[0..0] == OldSide(b.lines);
      assert ApplyUpTo(none, bs, 1) == Some((after, 0));
    }
    assert after + none[0..] == after;
  }

  /** Totals over the blocks, as the summary loop adds them up. */
  function SumDeletes(bs: seq<Block>, k: nat): nat
    requires k <= |bs|
  {
    if k == 0 then 0 else SumDeletes(bs, k-1) + Deletes(bs[k-1].lines, |bs[k-1].lines|)
  }

  function SumInserts(bs: seq<Block>, k: nat): nat
    requires k <= |bs|
  {
    if k == 0 then 0 else SumInserts(bs, k-1) + Inserts(bs[k-1].lines, |bs[k-1].lines|)
  }

  lemma {:induction false} TotalsOfRun(cs: seq<Change>, a: nat, b: nat)
    requires a <= b <= |cs|
    ensures TotalRemoved(cs[..b]) == TotalRemoved(cs[..a]) + TotalRemoved(cs[a..b])
    ensures TotalAdded(cs[..b]) == TotalAdded(cs[..a]) + TotalAdded(cs[a..b])
  {
    if a == b {
      assert cs[a..b] == [];
    } else {
      TotalsOfRun(cs, a, b - 1);
      assert cs[..b][..b-1] == cs[..b-1];
      assert cs[a..b][..b-1-a] == cs[a..b-1];
    }
  }

  /** The block of a hunk counts its changes. */
  lemma {:induction false} HunkTally(before: seq<Line>, after: seq<Line>, cs: seq<Change>, h: Hunk, b: Block)
    requires h.first < h.next <= |cs| && ShowsHunk(before, after, cs, h, b)
    ensures Deletes(b.lines, |b.lines|) == TotalRemoved(cs[..h.next]) - TotalRemoved(cs[..h.first])
    ensures Inserts(b.lines, |b.lines|) == TotalAdded(cs[..h.next]) - TotalAdded(cs[..h.first])
  {
    TotalsOfRun(cs, h.first, h.next);
  }

  /** How many changes the first `k` hunks hold. */
  function ChangesIn(hs: seq<Hunk>, k: nat): nat
    requires k <= |hs|
  {
    if k == 0 then 0 else hs[k-1].next
  }

  lemma {:induction false} HunksRunOn(cs: seq<Change>, m: nat, hs: seq<Hunk>, k: nat)
    requires InRange(cs, m) && Partition(cs, m, |cs|, hs) && k < |hs|
    ensures hs[k].first == ChangesIn(hs, k)
  {
    assert k > 0 ==> Follows(hs, k);
  }

  /** Block `k` counts the changes between those of the hunks before it and those up to its own hunk. */
  ghost predicate CountsAt(cs: seq<Change>, hs: seq<Hunk>, bs: seq<Block>, k: nat)
    requires k < |hs| == |bs|
  {
    var first, next := ChangesIn(hs, k), ChangesIn(hs, k + 1);
    && first <= next <= |cs|
    && Deletes(bs[k].lines, |bs[k].lines|) == TotalRemoved(cs[..next]) - TotalRemoved(cs[..first])
    && Inserts(bs[k].lines, |bs[k].lines|) == TotalAdded(cs[..next]) - TotalAdded(cs[..first])
  }

  lemma {:induction false} SumsFromCounts(cs: seq<Change>, hs: seq<Hunk>, bs: seq<Block>, k: nat)
    requires k <= |hs| == |bs| && forall i :: 0 <= i < |hs| ==> CountsAt(cs, hs, bs, i)
    ensures ChangesIn(hs, k) <= |cs|
    ensures SumDeletes(bs, k) == TotalRemoved(cs[..ChangesIn(hs, k)])
    ensures SumInserts(bs, k) == TotalAdded(cs[..ChangesIn(hs, k)])
  {
    if k == 0 {
      assert cs[..0] == [];
    } else {
      SumsFromCounts(cs, hs, bs, k - 1);
      assert CountsAt(cs, hs, bs, k - 1);
    }
  }

  /** The blocks of the first `k` hunks delete and insert what the changes in them remove and add. */
  lemma {:induction false} SumsOfBlocks(before: seq<Line>, after: seq<Line>, cs: seq<Change>, hs: seq<Hunk>,
                                        bs: seq<Block>, k: nat)
    requires Cut(before, after, cs, hs, bs) && k <= |hs|
    ensures ChangesIn(hs, k) <= |cs|
    ensures SumDeletes(bs, k) == TotalRemoved(cs[..ChangesIn(hs, k)])
    ensures SumInserts(bs, k) == TotalAdded(cs[..ChangesIn(hs, k)])
  {
    forall i | 0 <= i < |hs|
      ensures CountsAt(cs, hs, bs, i)
    {
      assert CutAt(before, after, cs, hs, bs, i);
      HunksRunOn(cs, |before|, hs, i);
      HunkTally(before, after, cs, hs[i], bs[i]);
    }
    SumsFromCounts(cs, hs, bs, k);
  }

  /** The summary counts are the optimal ones: what a longest common subsequence leaves over on each side. */
  lemma {:induction false} SummaryIsOptimal(before: seq<Line>, after: seq<Line>, oldHashes: Hashes, newHashes: Hashes)
    ensures var bs := BlocksOf(before, after, oldHashes, newHashes);
            && SumDeletes(bs, |bs|) == |before| - Len(before, after, |before|, |after|)
            && SumInserts(bs, |bs|) == |after| - Len(before, after, |before|, |after|)
  {
    var bs := BlocksOf(before, after, oldHashes, newHashes);
    if before == [] {
      NewFileBlockShows(after, newHashes);
      assert |bs| <= 1 && SumDeletes(bs, 0) == SumInserts(bs, 0) == 0;
    } else {
      var cs, hs := BlocksAreCut(before, after, oldHashes, newHashes);
      ChangesOfIsScript(before, after);
      SumsOfBlocks(before, after, cs, hs, bs, |hs|);
      assert cs[..|cs|] == cs;
    }
  }

  /** Every block's old numbers are true line numbers and its header counts its own lines. */
  lemma {:induction false} BlocksAreWellNumbered(before: seq<Line>, after: seq<Line>, oldHashes: Hashes,
                                                 newHashes: Hashes, i: nat)
    requires i < |BlocksOf(before, after, oldHashes, newHashes)|
    ensures WellNumbered(before, BlocksOf(before, after, oldHashes, newHashes)[i])
  {
    if before == [] {
      NewFileBlockShows(after, newHashes);
    } else {
      var cs, hs := BlocksAreCut(before, after, oldHashes, newHashes);
      var b := BlocksOf(before, after, oldHashes, newHashes)[i];
      assert CutAt(before, after, cs, hs, BlocksOf(before, after, oldHashes, newHashes), i);
      ShownIsWellNumbered(before, after, cs, hs[i], b);
    }
  }

  ghost predicate WellNumbered(before: seq<Line>, b: Block) {
    var s := Max(0, b.oldStartLine - 1);
    && b.lines != [] && b.oldCount == |OldSide(b.lines)| && b.newCount == |NewSide(b.lines)|
    && s + b.oldCount <= |before| && OldSide(b.lines) == before[s..s + b.oldCount]
    && Numbered(b.lines, s, b.newStartLine - 1)
  }

  lemma {:induction false} ShownIsWellNumbered(before: seq<Line>, after: seq<Line>, cs: seq<Change>, h: Hunk, b: Block)
    requires h.first < h.next <= |cs| && ShowsHunk(before, after, cs, h, b)
    ensures WellNumbered(before, b)
  {
  }
}
