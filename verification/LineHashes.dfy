/** The hashes shown in a diff: which entry of which table stands beside each line. Inserted lines are hashed by their
    true place in the new file, all others by their old number. */
module LineHashes {

  import opened Options
  import opened Lcs
  import opened Changes
  import opened Blocks
  import opened Format
  import opened Patch
  import opened NewNumbers

  /** Line `l` stands at old position `o` and at true new position `w`, and carries the hash that belongs there. */
  predicate HashedAt(l: DiffLine, o: int, w: int, oldHashes: Hashes, newHashes: Hashes) {
    l.hash == if l.kind.Insert? then newHashes(w + 1) else oldHashes(o + 1)
  }

  /** Every line is hashed by its position, counted from `o` in the old file and from `w` in the new one. */
  ghost predicate Hashed(ls: seq<DiffLine>, o: int, w: int, oldHashes: Hashes, newHashes: Hashes) {
    forall i :: 0 <= i < |ls| ==> LineHashed(ls, o, w, oldHashes, newHashes, i)
  }

  ghost predicate LineHashed(ls: seq<DiffLine>, o: int, w: int, oldHashes: Hashes, newHashes: Hashes, i: nat)
    requires i < |ls|
  {
    HashedAt(ls[i], o + OldCount(ls, i), w + NewCount(ls, i), oldHashes, newHashes)
  }

  /** Hashed from `o` and `w`, the lines reach old position `p` and new position `v`. */
  ghost predicate Carries(ls: seq<DiffLine>, o: int, w: int, oldHashes: Hashes, newHashes: Hashes, p: int, v: int) {
    Hashed(ls, o, w, oldHashes, newHashes) && o + OldCount(ls, |ls|) == p && w + NewCount(ls, |ls|) == v
  }

  lemma {:induction false} CarriesSnoc(ls: seq<DiffLine>, l: DiffLine, o: int, w: int, oldHashes: Hashes,
                                       newHashes: Hashes, p: int, v: int)
    requires Carries(ls, o, w, oldHashes, newHashes, p, v) && HashedAt(l, p, v, oldHashes, newHashes)
    ensures Carries(ls + [l], o, w, oldHashes, newHashes, p + (if l.kind.Insert? then 0 else 1),
                    v + (if l.kind.Delete? then 0 else 1))
  {
    var all := ls + [l];
    CountsOfPrefix(ls, l, |ls|);
    forall i | 0 <= i < |all|
      ensures LineHashed(all, o, w, oldHashes, newHashes, i)
    {
      CountsOfPrefix(ls, l, i);
      assert i < |ls| ==> LineHashed(ls, o, w, oldHashes, newHashes, i);
    }
  }

  lemma {:induction false} ContextCarries(ls: seq<DiffLine>, o: int, w: int, oldHashes: Hashes, newHashes: Hashes,
                                          v: int, before: seq<Line>, from: nat, to: nat, n: int)
    requires from <= to <= |before| && Carries(ls, o, w, oldHashes, newHashes, from, v)
    ensures Carries(AddContext(ls, before, oldHashes, from, to, n), o, w, oldHashes, newHashes, to, v + to - from)
  {
    if from == to {
    } else {
      ContextCarries(ls, o, w, oldHashes, newHashes, v, before, from, to - 1, n);
      CarriesSnoc(AddContext(ls, before, oldHashes, from, to - 1, n),
                  ContextLine(before, oldHashes, to - 1, n + to - 1 - from), o, w, oldHashes, newHashes, to - 1,
                  v + to - 1 - from);
    }
  }

  lemma {:induction false} DeletesCarry(ls: seq<DiffLine>, o: int, w: int, oldHashes: Hashes, newHashes: Hashes,
                                        v: int, before: seq<Line>, from: nat, to: nat)
    requires from <= to <= |before| && Carries(ls, o, w, oldHashes, newHashes, from, v)
    ensures Carries(AddDeletes(ls, before, oldHashes, from, to), o, w, oldHashes, newHashes, to, v)
  {
    if from == to {
    } else {
      DeletesCarry(ls, o, w, oldHashes, newHashes, v, before, from, to - 1);
      CarriesSnoc(AddDeletes(ls, before, oldHashes, from, to - 1), DeleteLine(before, oldHashes, to - 1), o, w,
                  oldHashes, newHashes, to - 1, v);
    }
  }

  lemma {:induction false} InsertsCarry(ls: seq<DiffLine>, o: int, w: int, oldHashes: Hashes, newHashes: Hashes,
                                        p: int, after: seq<Line>, from: nat, to: nat, n: int)
    requires from <= to <= |after| && Carries(ls, o, w, oldHashes, newHashes, p, from)
    ensures Carries(AddInserts(ls, after, newHashes, from, to, n), o, w, oldHashes, newHashes, p, to)
  {
    if from == to {
    } else {
      InsertsCarry(ls, o, w, oldHashes, newHashes, p, after, from, to - 1, n);
      CarriesSnoc(AddInserts(ls, after, newHashes, from, to - 1, n),
                  InsertLine(after, newHashes, to - 1, n + to - 1 - from), o, w, oldHashes, newHashes, p, to - 1);
    }
  }

  lemma {:induction false} ChangeCarries(ls: seq<DiffLine>, o: int, w: int, oldHashes: Hashes, newHashes: Hashes,
                                         before: seq<Line>, after: seq<Line>, c: Change, p: nat, v: int, n: int)
    requires p <= c.oldStart <= c.oldEnd <= |before| && c.newStart <= c.newEnd <= |after|
    requires Carries(ls, o, w, oldHashes, newHashes, p, v) && c.newStart - v == c.oldStart - p
    ensures Carries(AddChange(ls, before, after, c, p, n, oldHashes, newHashes), o, w, oldHashes, newHashes, c.oldEnd,
                    c.newEnd)
  {
    var context := AddContext(ls, before, oldHashes, p, c.oldStart, n);
    ContextCarries(ls, o, w, oldHashes, newHashes, v, before, p, c.oldStart, n);
    DeletesCarry(context, o, w, oldHashes, newHashes, c.newStart, before, c.oldStart, c.oldEnd);
    InsertsCarry(AddDeletes(context, before, oldHashes, c.oldStart, c.oldEnd), o, w, oldHashes, newHashes, c.oldEnd,
                 after, c.newStart, c.newEnd, n + c.oldStart - p);
  }

  lemma {:induction false} BodyUpToCarries(before: seq<Line>, after: seq<Line>, rel: seq<Change>, start: nat, end: nat,
                                           w: nat, oldHashes: Hashes, newHashes: Hashes, k: nat)
    requires Formattable(before, after, rel, start, end) && Aligned(before, after, rel, start, w) && k <= |rel|
    ensures Carries(BodyUpTo(before, after, rel, start, end, oldHashes, newHashes, k), start, w, oldHashes, newHashes,
                    Pos(rel, start, k), NewPos(rel, w, k))
  {
    if k == 0 {
    } else {
      BodyUpToCarries(before, after, rel, start, end, w, oldHashes, newHashes, k - 1);
      PositionsAt(before, after, rel, start, end, w, k - 1);
      assert Fits(before, after, rel, start, end, k-1) && (k > 1 ==> Fits(before, after, rel, start, end, k-2));
      assert AlignedAt(before, after, rel, start, w, k-1);
      ChangeCarries(BodyUpTo(before, after, rel, start, end, oldHashes, newHashes, k-1), start, w, oldHashes, newHashes,
                    before, after, rel[k-1], Pos(rel, start, k-1), NewPos(rel, w, k-1), RunningNew(rel, start, k-1));
    }
  }

  /** The block of a hunk is hashed from the hunk's start in the old file and from its true start in the new one. */
  lemma {:induction false} BlockIsHashed(before: seq<Line>, after: seq<Line>, rel: seq<Change>, start: nat, end: nat,
                                         w: nat, oldHashes: Hashes, newHashes: Hashes)
    requires Formattable(before, after, rel, start, end) && Aligned(before, after, rel, start, w)
    ensures Hashed(BlockOf(before, after, rel, start, end, oldHashes, newHashes).lines, start, w, oldHashes, newHashes)
  {
    var k := |rel|;
    assert Fits(before, after, rel, start, end, k-1);
    BodyUpToCarries(before, after, rel, start, end, w, oldHashes, newHashes, k);
    ContextCarries(BodyUpTo(before, after, rel, start, end, oldHashes, newHashes, k), start, w, oldHashes, newHashes,
                   NewPos(rel, w, k), before, Pos(rel, start, k), end, RunningNew(rel, start, k));
  }

  /** Where line `j` of block `i` stands in the new file. */
  function PlaceOf(before: seq<Line>, bs: seq<Block>, i: nat, j: nat): Option<int>
    requires i < |bs| && j < |bs[i].lines|
  {
    match TrueNewStart(before, bs, i)
    case None => None
    case Some(start) => Some(start + NewCount(bs[i].lines, j))
  }

  /** An inserted line carries the hash of its place in the new file, any other that of its old number. */
  ghost predicate HashedInPlace(before: seq<Line>, after: seq<Line>, bs: seq<Block>, oldHashes: Hashes,
                                newHashes: Hashes, i: nat, j: nat)
    requires i < |bs| && j < |bs[i].lines|
  {
    var l, place := bs[i].lines[j], PlaceOf(before, bs, i, j);
    if l.kind.Insert? then
      && place.Some? && 0 <= place.value < |after| && after[place.value] == l.content
      && l.hash == newHashes(place.value + 1)
    else
      && l.oldNumber.Some? && 1 <= l.oldNumber.value <= |before| && before[l.oldNumber.value - 1] == l.content
      && l.hash == oldHashes(l.oldNumber.value)
  }

  /** Main result: in every diff each line carries the hash listed for its own content's place, even in a block that
      prints wrong new numbers. */
  lemma {:induction false} EveryLineIsHashedInPlace(before: seq<Line>, after: seq<Line>, oldHashes: Hashes,
                                                    newHashes: Hashes, i: nat, j: nat)
    requires i < |BlocksOf(before, after, oldHashes, newHashes)|
    requires j < |BlocksOf(before, after, oldHashes, newHashes)[i].lines|
    ensures HashedInPlace(before, after, BlocksOf(before, after, oldHashes, newHashes), oldHashes, newHashes, i, j)
  {
    var bs := BlocksOf(before, after, oldHashes, newHashes);
    OldNumbersAreTrue(before, after, oldHashes, newHashes, i, j);
    if !bs[i].lines[j].kind.Delete? {
      NewNumberIsTrueIff(before, after, oldHashes, newHashes, i, j);
    }
    BlocksAreWellNumbered(before, after, oldHashes, newHashes, i);
    var o, w := BlockHashes(before, after, oldHashes, newHashes, i);
    LineIsHashedInPlace(before, after, bs, oldHashes, newHashes, i, j, o, w);
  }

  lemma {:induction false} LineIsHashedInPlace(before: seq<Line>, after: seq<Line>, bs: seq<Block>, oldHashes: Hashes,
                                               newHashes: Hashes, i: nat, j: nat, o: nat, w: int)
    requires i < |bs| && j < |bs[i].lines| && OldNumberIsTrue(before, bs[i].lines[j])
    requires !bs[i].lines[j].kind.Delete? ==> NumberTrueIff(before, after, bs, i, j)
    requires WellNumbered(before, bs[i]) && o == Max(0, bs[i].oldStartLine - 1)
    requires TrueNewStart(before, bs, i) == Some(w) && Hashed(bs[i].lines, o, w, oldHashes, newHashes)
    ensures HashedInPlace(before, after, bs, oldHashes, newHashes, i, j)
  {
    assert LineNumbered(bs[i].lines, o, bs[i].newStartLine - 1, j);
    assert LineHashed(bs[i].lines, o, w, oldHashes, newHashes, j);
  }

  lemma {:induction false} BlockHashes(before: seq<Line>, after: seq<Line>, oldHashes: Hashes, newHashes: Hashes,
                                       i: nat)
    returns (o: nat, w: int)
    requires i < |BlocksOf(before, after, oldHashes, newHashes)|
    ensures var bs := BlocksOf(before, after, oldHashes, newHashes);
            && o == Max(0, bs[i].oldStartLine - 1) && TrueNewStart(before, bs, i) == Some(w)
            && Hashed(bs[i].lines, o, w, oldHashes, newHashes)
  {
    var bs := BlocksOf(before, after, oldHashes, newHashes);
    if before == [] {
      o, w := 0, 0;
      InsertsCarry([], 0, 0, oldHashes, newHashes, 0, after, 0, |after|, 0);
      assert ApplyUpTo(before, bs, 0) == Some(([], 0));
    } else {
      var cs, hs := BlocksAreCut(before, after, oldHashes, newHashes);
      CutNewStart(before, after, cs, hs, bs, i);
      o, w := hs[i].start, NewBegin(cs, hs[i]);
      HunksOfDiff(before, after);
      BlocksForAt(before, after, cs, hs, oldHashes, newHashes, |hs|, i);
      HunkIsFormattable(before, after, cs, hs[i]);
      BlockIsHashed(before, after, cs[hs[i].first..hs[i].next], hs[i].start, hs[i].end, w, oldHashes, newHashes);
    }
  }
}
