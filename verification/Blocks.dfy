/** One structured block: the lines of a hunk with their numbers and hashes. A block is judged by its two
    sides: the old lines it covers and the new lines it stands for. */
module Blocks {

  import opened Options
  import opened Lcs
  import opened Changes

  datatype Kind = Context | Delete | Insert

  datatype DiffLine = DiffLine(kind: Kind, content: Line, oldNumber: Option<int>, newNumber: Option<int>,
                               hash: Option<string>)

  datatype Block = Block(oldStartLine: int, oldCount: int, newStartLine: int, newCount: int, lines: seq<DiffLine>)

  /** A hash table by its answers; a nil one answers nothing. */
  type Hashes = int -> Option<string>

  /** The old lines a block covers, and the new lines that replace them. */
  function OldSide(ls: seq<DiffLine>): seq<Line> {
    if ls == [] then [] else OldStep(OldSide(ls[..|ls|-1]), ls[|ls|-1])
  }

  function NewSide(ls: seq<DiffLine>): seq<Line> {
    if ls == [] then [] else NewStep(NewSide(ls[..|ls|-1]), ls[|ls|-1])
  }

  function OldStep(side: seq<Line>, l: DiffLine): seq<Line> { if l.kind.Insert? then side else side + [l.content] }

  function NewStep(side: seq<Line>, l: DiffLine): seq<Line> { if l.kind.Delete? then side else side + [l.content] }

  /** How many of the first `i` lines count on the old and on the new side. */
  function OldCount(ls: seq<DiffLine>, i: nat): nat
    requires i <= |ls|
  {
    if i == 0 then 0 else OldCount(ls, i-1) + if ls[i-1].kind.Insert? then 0 else 1
  }

  function NewCount(ls: seq<DiffLine>, i: nat): nat
    requires i <= |ls|
  {
    if i == 0 then 0 else NewCount(ls, i-1) + if ls[i-1].kind.Delete? then 0 else 1
  }

  /** How many of the first `i` lines are deletes, and inserts. */
  function Deletes(ls: seq<DiffLine>, i: nat): nat
    requires i <= |ls|
  {
    if i == 0 then 0 else Deletes(ls, i-1) + if ls[i-1].kind.Delete? then 1 else 0
  }

  function Inserts(ls: seq<DiffLine>, i: nat): nat
    requires i <= |ls|
  {
    if i == 0 then 0 else Inserts(ls, i-1) + if ls[i-1].kind.Insert? then 1 else 0
  }

  lemma {:induction false} CountsBalance(ls: seq<DiffLine>, i: nat)
    requires i <= |ls|
    ensures NewCount(ls, i) - Inserts(ls, i) == OldCount(ls, i) - Deletes(ls, i)
  {
    if i == 0 {
    } else {
      CountsBalance(ls, i - 1);
    }
  }

  /** Line `l` carries the numbers that belong to old position `o` and new position `n`. */
  predicate NumberedAt(l: DiffLine, o: int, n: int) {
    && l.oldNumber == (if l.kind.Insert? then None else Some(o + 1))
    && l.newNumber == (if l.kind.Delete? then None else Some(n + 1))
  }

  /** Old numbers run on from `o` over context and deleted lines, new numbers from `n` over context and
      inserted lines, and no other line carries one. */
  ghost predicate Numbered(ls: seq<DiffLine>, o: int, n: int) {
    forall i :: 0 <= i < |ls| ==> LineNumbered(ls, o, n, i)
  }

  ghost predicate LineNumbered(ls: seq<DiffLine>, o: int, n: int, i: nat)
    requires i < |ls|
  {
    NumberedAt(ls[i], o + OldCount(ls, i), n + NewCount(ls, i))
  }

  lemma {:induction false} CountsOfPrefix(ls: seq<DiffLine>, l: DiffLine, i: nat)
    requires i <= |ls|
    ensures OldCount(ls + [l], i) == OldCount(ls, i) && NewCount(ls + [l], i) == NewCount(ls, i)
    ensures Deletes(ls + [l], i) == Deletes(ls, i) && Inserts(ls + [l], i) == Inserts(ls, i)
  {
    if i == 0 {
    } else {
      CountsOfPrefix(ls, l, i - 1);
    }
  }

  lemma {:induction false} NumberedSnoc(ls: seq<DiffLine>, l: DiffLine, o: int, n: int)
    requires Numbered(ls, o, n)
    requires NumberedAt(l, o + OldCount(ls, |ls|), n + NewCount(ls, |ls|))
    ensures Numbered(ls + [l], o, n)
  {
    var all := ls + [l];
    forall i | 0 <= i < |all|
      ensures LineNumbered(all, o, n, i)
    {
      CountsOfPrefix(ls, l, i);
      assert i < |ls| ==> LineNumbered(ls, o, n, i);
    }
  }

  lemma {:induction false} SidesSnoc(ls: seq<DiffLine>, l: DiffLine)
    ensures OldSide(ls + [l]) == OldStep(OldSide(ls), l) && NewSide(ls + [l]) == NewStep(NewSide(ls), l)
  {
    assert (ls + [l])[..|ls + [l]|-1] == ls;
  }

  /** `ls` covers the old lines `os`, stands for the new lines `ns`, and is numbered from `o` and `n`. */
  ghost predicate Shows(ls: seq<DiffLine>, o: int, n: int, os: seq<Line>, ns: seq<Line>) {
    && OldSide(ls) == os && OldCount(ls, |ls|) == |os|
    && NewSide(ls) == ns && NewCount(ls, |ls|) == |ns|
    && Numbered(ls, o, n)
  }

  lemma {:induction false} ShowsSnoc(ls: seq<DiffLine>, l: DiffLine, o: int, n: int, os: seq<Line>, ns: seq<Line>)
    requires Shows(ls, o, n, os, ns)
    requires NumberedAt(l, o + |os|, n + |ns|)
    ensures Shows(ls + [l], o, n, OldStep(os, l), NewStep(ns, l))
  {
    SidesSnoc(ls, l);
    NumberedSnoc(ls, l, o, n);
    CountsOfPrefix(ls, l, |ls|);
  }

  /** `done` followed by the elements `from .. to` of `s`, one at a time. */
  function Extend<T>(done: seq<T>, s: seq<T>, from: nat, to: nat): (r: seq<T>)
    requires from <= to <= |s|
    ensures |r| == |done| + to - from
  {
    if from == to then done else Extend(done, s, from, to - 1) + [s[to-1]]
  }

  function ContextLine(before: seq<Line>, hashes: Hashes, o: nat, n: int): DiffLine
    requires o < |before|
  {
    DiffLine(Context, before[o], Some(o + 1), Some(n + 1), hashes(o + 1))
  }

  function DeleteLine(before: seq<Line>, hashes: Hashes, o: nat): DiffLine
    requires o < |before|
  {
    DiffLine(Delete, before[o], Some(o + 1), None, hashes(o + 1))
  }

  /** An inserted line is hashed by its true index `w` and numbered from the running position `n`. */
  function InsertLine(after: seq<Line>, hashes: Hashes, w: nat, n: int): DiffLine
    requires w < |after|
  {
    DiffLine(Insert, after[w], None, Some(n + 1), hashes(w + 1))
  }

  /** `ls` followed by context lines, deleted lines or inserted lines. */
  function AddContext(ls: seq<DiffLine>, before: seq<Line>, hashes: Hashes, from: nat, to: nat, n: int): seq<DiffLine>
    requires from <= to <= |before|
  {
    if from == to then ls
    else AddContext(ls, before, hashes, from, to - 1, n) + [ContextLine(before, hashes, to - 1, n + to - 1 - from)]
  }

  function AddDeletes(ls: seq<DiffLine>, before: seq<Line>, hashes: Hashes, from: nat, to: nat): seq<DiffLine>
    requires from <= to <= |before|
  {
    if from == to then ls
    else AddDeletes(ls, before, hashes, from, to - 1) + [DeleteLine(before, hashes, to - 1)]
  }

  function AddInserts(ls: seq<DiffLine>, after: seq<Line>, hashes: Hashes, from: nat, to: nat, n: int): seq<DiffLine>
    requires from <= to <= |after|
  {
    if from == to then ls
    else AddInserts(ls, after, hashes, from, to - 1, n) + [InsertLine(after, hashes, to - 1, n + to - 1 - from)]
  }

  lemma {:induction false} AddContextShows(ls: seq<DiffLine>, o: int, n: int, os: seq<Line>, ns: seq<Line>,
                                           before: seq<Line>, hashes: Hashes, from: nat, to: nat)
    requires from <= to <= |before|
    requires Shows(ls, o, n, os, ns) && o + |os| == from
    ensures Shows(AddContext(ls, before, hashes, from, to, n + |ns|), o, n, Extend(os, before, from, to),
                  Extend(ns, before, from, to))
  {
    if from == to {
    } else {
      AddContextShows(ls, o, n, os, ns, before, hashes, from, to - 1);
      ShowsSnoc(AddContext(ls, before, hashes, from, to - 1, n + |ns|),
                ContextLine(before, hashes, to - 1, n + |ns| + to - 1 - from), o, n,
                Extend(os, before, from, to - 1), Extend(ns, before, from, to - 1));
    }
  }

  lemma {:induction false} AddDeletesShows(ls: seq<DiffLine>, o: int, n: int, os: seq<Line>, ns: seq<Line>,
                                           before: seq<Line>, hashes: Hashes, from: nat, to: nat)
    requires from <= to <= |before|
    requires Shows(ls, o, n, os, ns) && o + |os| == from
    ensures Shows(AddDeletes(ls, before, hashes, from, to), o, n, Extend(os, before, from, to), ns)
  {
    if from == to {
    } else {
      AddDeletesShows(ls, o, n, os, ns, before, hashes, from, to - 1);
      ShowsSnoc(AddDeletes(ls, before, hashes, from, to - 1), DeleteLine(before, hashes, to - 1), o, n,
                Extend(os, before, from, to - 1), ns);
    }
  }

  lemma {:induction false} AddInsertsShows(ls: seq<DiffLine>, o: int, n: int, os: seq<Line>, ns: seq<Line>,
                                           after: seq<Line>, hashes: Hashes, from: nat, to: nat)
    requires from <= to <= |after|
    requires Shows(ls, o, n, os, ns)
    ensures Shows(AddInserts(ls, after, hashes, from, to, n + |ns|), o, n, os, Extend(ns, after, from, to))
  {
    if from == to {
    } else {
      AddInsertsShows(ls, o, n, os, ns, after, hashes, from, to - 1);
      ShowsSnoc(AddInserts(ls, after, hashes, from, to - 1, n + |ns|),
                InsertLine(after, hashes, to - 1, n + |ns| + to - 1 - from), o, n,
                os, Extend(ns, after, from, to - 1));
    }
  }

  /** The changes of one hunk, as the formatting loop needs them: inside the hunk, in order, a context
      line between neighbours. */
  ghost predicate Formattable(before: seq<Line>, after: seq<Line>, rel: seq<Change>, start: nat, end: nat) {
    && start <= end <= |before| && rel != []
    && forall k :: 0 <= k < |rel| ==> Fits(before, after, rel, start, end, k)
  }

  ghost predicate Fits(before: seq<Line>, after: seq<Line>, rel: seq<Change>, start: nat, end: nat, k: nat)
    requires k < |rel|
  {
    && (if k == 0 then start <= rel[k].oldStart else rel[k-1].oldEnd < rel[k].oldStart)
    && rel[k].oldStart <= rel[k].oldEnd <= end
    && rel[k].newStart <= rel[k].newEnd <= |after|
  }

  /** Old position, and running new position, after the first `k` changes of the hunk. */
  function Pos(rel: seq<Change>, start: nat, k: nat): nat
    requires k <= |rel|
  {
    if k == 0 then start else rel[k-1].oldEnd
  }

  function RunningNew(rel: seq<Change>, start: nat, k: nat): int
    requires k <= |rel|
  {
    if k == 0 then start
    else RunningNew(rel, start, k-1) + (rel[k-1].oldStart - Pos(rel, start, k-1)) + rel[k-1].Added()
  }

  /** One change at old position `p` and running new position `n`: context up to it, its deletes, its inserts. */
  function AddChange(ls: seq<DiffLine>, before: seq<Line>, after: seq<Line>, c: Change, p: nat, n: int,
                     oldHashes: Hashes, newHashes: Hashes): seq<DiffLine>
    requires p <= c.oldStart <= c.oldEnd <= |before| && c.newStart <= c.newEnd <= |after|
  {
    AddInserts(AddDeletes(AddContext(ls, before, oldHashes, p, c.oldStart, n), before, oldHashes, c.oldStart, c.oldEnd),
               after, newHashes, c.newStart, c.newEnd, n + c.oldStart - p)
  }

  /** The lines emitted by the time the `k`th change is done. */
  function BodyUpTo(before: seq<Line>, after: seq<Line>, rel: seq<Change>, start: nat, end: nat,
                    oldHashes: Hashes, newHashes: Hashes, k: nat): seq<DiffLine>
    requires Formattable(before, after, rel, start, end) && k <= |rel|
  {
    if k == 0 then []
    else
      var c := rel[k-1];
      assert Fits(before, after, rel, start, end, k-1) && (k > 1 ==> Fits(before, after, rel, start, end, k-2));
      var p, n := Pos(rel, start, k-1), RunningNew(rel, start, k-1);
      var ls := BodyUpTo(before, after, rel, start, end, oldHashes, newHashes, k-1);
      AddChange(ls, before, after, c, p, n, oldHashes, newHashes)
  }

  function Body(before: seq<Line>, after: seq<Line>, rel: seq<Change>, start: nat, end: nat,
                oldHashes: Hashes, newHashes: Hashes): seq<DiffLine>
    requires Formattable(before, after, rel, start, end)
  {
    var k := |rel|;
    assert Fits(before, after, rel, start, end, k-1);
    AddContext(BodyUpTo(before, after, rel, start, end, oldHashes, newHashes, k),
               before, oldHashes, Pos(rel, start, k), end, RunningNew(rel, start, k))
  }

  function BlockOf(before: seq<Line>, after: seq<Line>, rel: seq<Change>, start: nat, end: nat,
                   oldHashes: Hashes, newHashes: Hashes): Block
    requires Formattable(before, after, rel, start, end)
  {
    Block(start + 1, end - start, start + 1, end - start - TotalRemoved(rel) + TotalAdded(rel),
          Body(before, after, rel, start, end, oldHashes, newHashes))
  }

  lemma {:induction false} ExtendInTwo<T>(done: seq<T>, s: seq<T>, a: nat, b: nat, c: nat)
    requires a <= b <= c <= |s|
    ensures Extend(Extend(done, s, a, b), s, b, c) == Extend(done, s, a, c)
  {
    if b == c {
    } else {
      ExtendInTwo(done, s, a, b, c - 1);
    }
  }

  lemma {:induction false} ExtendEqualRun(done: seq<Line>, s: seq<Line>, a: nat, b: nat, t: seq<Line>, c: nat, d: nat)
    requires EqualRun(s, a, b, t, c, d)
    ensures Extend(done, s, a, b) == Extend(done, t, c, d)
  {
    if a == b {
    } else {
      ExtendEqualRun(done, s, a, b - 1, t, c, d - 1);
    }
  }

  lemma {:induction false} ExtendWhole<T>(s: seq<T>, k: nat)
    requires k <= |s|
    ensures Extend([], s, 0, k) == s[..k]
  {
    if k == 0 {
    } else {
      ExtendWhole(s, k - 1);
    }
  }

  /** The true new position after the first `k` changes, when the hunk's first line is new line `w`. */
  function NewPos(rel: seq<Change>, w: nat, k: nat): nat
    requires k <= |rel|
  {
    if k == 0 then w else rel[k-1].newEnd
  }

  /** The lines in front of every change are equal on both sides. */
  ghost predicate Aligned(before: seq<Line>, after: seq<Line>, rel: seq<Change>, start: nat, w: nat) {
    forall k :: 0 <= k < |rel| ==> AlignedAt(before, after, rel, start, w, k)
  }

  ghost predicate AlignedAt(before: seq<Line>, after: seq<Line>, rel: seq<Change>, start: nat, w: nat, k: nat)
    requires k < |rel|
  {
    EqualRun(before, Pos(rel, start, k), rel[k].oldStart, after, NewPos(rel, w, k), rel[k].newStart)
  }

  /** Positions stay in range, and the running new number keeps step with the true new position. */
  lemma {:induction false} PositionsAt(before: seq<Line>, after: seq<Line>, rel: seq<Change>, start: nat, end: nat,
                                       w: nat, k: nat)
    requires Formattable(before, after, rel, start, end) && Aligned(before, after, rel, start, w) && k <= |rel|
    ensures start <= Pos(rel, start, k) <= |before| && w <= NewPos(rel, w, k) <= |after|
    ensures RunningNew(rel, start, k) == start + NewPos(rel, w, k) - w
  {
    assert Fits(before, after, rel, start, end, 0) && AlignedAt(before, after, rel, start, w, 0);
    if k == 0 {
    } else {
      PositionsAt(before, after, rel, start, end, w, k - 1);
      assert Fits(before, after, rel, start, end, k-1) && AlignedAt(before, after, rel, start, w, k-1);
    }
  }

  /** After `k` changes the block covers the old lines from `start` and stands for the new lines from `w`. */
  lemma {:induction false} BodyUpToShows(before: seq<Line>, after: seq<Line>, rel: seq<Change>, start: nat, end: nat,
                                         w: nat,
                                         oldHashes: Hashes, newHashes: Hashes, k: nat)
    requires Formattable(before, after, rel, start, end) && Aligned(before, after, rel, start, w) && k <= |rel|
    requires start <= Pos(rel, start, k) <= |before| && w <= NewPos(rel, w, k) <= |after|
    ensures Shows(BodyUpTo(before, after, rel, start, end, oldHashes, newHashes, k), start, start,
                  Extend([], before, start, Pos(rel, start, k)), Extend([], after, w, NewPos(rel, w, k)))
  {
    if k == 0 {
    } else {
      PositionsAt(before, after, rel, start, end, w, k - 1);
      BodyUpToShows(before, after, rel, start, end, w, oldHashes, newHashes, k - 1);
      NextChangeShows(before, after, rel, start, end, w, oldHashes, newHashes, k - 1,
                      BodyUpTo(before, after, rel, start, end, oldHashes, newHashes, k - 1));
    }
  }

  /** A change behind the old lines `start .. p` and the new lines `w .. y`. */
  lemma {:induction false} ChangeExtends(before: seq<Line>, after: seq<Line>, c: Change, start: nat, w: nat, p: nat,
                                         y: nat, oldHashes: Hashes, newHashes: Hashes, ls: seq<DiffLine>)
    requires start <= p <= c.oldStart <= c.oldEnd <= |before| && w <= y <= c.newStart <= c.newEnd <= |after|
    requires EqualRun(before, p, c.oldStart, after, y, c.newStart)
    requires Shows(ls, start, start, Extend([], before, start, p), Extend([], after, w, y))
    ensures Shows(AddChange(ls, before, after, c, p, start + y - w, oldHashes, newHashes), start, start,
                  Extend([], before, start, c.oldEnd), Extend([], after, w, c.newEnd))
  {
    AddChangeShows(before, after, c, p, y, oldHashes, newHashes, ls, start, Extend([], before, start, p),
                   Extend([], after, w, y));
    ExtendInTwo([], before, start, p, c.oldEnd);
    ExtendInTwo([], after, w, y, c.newEnd);
  }

  /** One more change of the hunk. */
  lemma {:induction false} NextChangeShows(before: seq<Line>, after: seq<Line>, rel: seq<Change>, start: nat, end: nat,
                                           w: nat,
                                           oldHashes: Hashes, newHashes: Hashes, k: nat, ls: seq<DiffLine>)
    requires Formattable(before, after, rel, start, end) && Aligned(before, after, rel, start, w) && k < |rel|
    requires start <= Pos(rel, start, k) <= |before| && w <= NewPos(rel, w, k) <= |after|
    requires start <= Pos(rel, start, k + 1) <= |before| && w <= NewPos(rel, w, k + 1) <= |after|
    requires RunningNew(rel, start, k) == start + NewPos(rel, w, k) - w
    requires Shows(ls, start, start, Extend([], before, start, Pos(rel, start, k)),
                   Extend([], after, w, NewPos(rel, w, k)))
    ensures Fits(before, after, rel, start, end, k)
    ensures Shows(AddChange(ls, before, after, rel[k], Pos(rel, start, k), RunningNew(rel, start, k), oldHashes,
                            newHashes), start, start,
                  Extend([], before, start, Pos(rel, start, k + 1)), Extend([], after, w, NewPos(rel, w, k + 1)))
  {
    assert Fits(before, after, rel, start, end, k) && AlignedAt(before, after, rel, start, w, k);
    ChangeExtends(before, after, rel[k], start, w, Pos(rel, start, k), NewPos(rel, w, k), oldHashes, newHashes, ls);
  }

  lemma {:induction false} ReplacedShows(before: seq<Line>, after: seq<Line>, c: Change, oldHashes: Hashes,
                                         newHashes: Hashes, ls: seq<DiffLine>, start: nat, os: seq<Line>,
                                         ns: seq<Line>)
    requires c.oldStart <= c.oldEnd <= |before| && c.newStart <= c.newEnd <= |after|
    requires Shows(ls, start, start, os, ns) && start + |os| == c.oldStart
    ensures Shows(AddInserts(AddDeletes(ls, before, oldHashes, c.oldStart, c.oldEnd), after, newHashes, c.newStart,
                             c.newEnd, start + |ns|), start, start,
                  Extend(os, before, c.oldStart, c.oldEnd), Extend(ns, after, c.newStart, c.newEnd))
  {
    AddDeletesShows(ls, start, start, os, ns, before, oldHashes, c.oldStart, c.oldEnd);
    AddInsertsShows(AddDeletes(ls, before, oldHashes, c.oldStart, c.oldEnd), start, start,
                    Extend(os, before, c.oldStart, c.oldEnd), ns, after, newHashes, c.newStart, c.newEnd);
  }

  lemma {:induction false} ChangeShows(before: seq<Line>, after: seq<Line>, c: Change, p: nat, oldHashes: Hashes,
                                       newHashes: Hashes,
                    ls: seq<DiffLine>, start: nat, os: seq<Line>, ns: seq<Line>)
    requires p <= c.oldStart <= c.oldEnd <= |before| && c.newStart <= c.newEnd <= |after|
    requires Shows(ls, start, start, os, ns) && start + |os| == p
    ensures Shows(AddChange(ls, before, after, c, p, start + |ns|, oldHashes, newHashes), start, start,
                  Extend(Extend(os, before, p, c.oldStart), before, c.oldStart, c.oldEnd),
                  Extend(Extend(ns, before, p, c.oldStart), after, c.newStart, c.newEnd))
  {
    AddContextShows(ls, start, start, os, ns, before, oldHashes, p, c.oldStart);
    ReplacedShows(before, after, c, oldHashes, newHashes,
                  AddContext(ls, before, oldHashes, p, c.oldStart, start + |ns|), start,
                  Extend(os, before, p, c.oldStart), Extend(ns, before, p, c.oldStart));
  }

  lemma {:induction false} AddChangeShows(before: seq<Line>, after: seq<Line>, c: Change, p: nat, y: nat,
                                          oldHashes: Hashes, newHashes: Hashes,
                       ls: seq<DiffLine>, start: nat, os: seq<Line>, ns: seq<Line>)
    requires p <= c.oldStart <= c.oldEnd <= |before| && y <= c.newStart <= c.newEnd <= |after|
    requires EqualRun(before, p, c.oldStart, after, y, c.newStart)
    requires Shows(ls, start, start, os, ns) && start + |os| == p
    ensures Shows(AddChange(ls, before, after, c, p, start + |ns|, oldHashes, newHashes), start, start,
                  Extend(os, before, p, c.oldEnd), Extend(ns, after, y, c.newEnd))
  {
    ChangeShows(before, after, c, p, oldHashes, newHashes, ls, start, os, ns);
    ExtendEqualRun(ns, before, p, c.oldStart, after, y, c.newStart);
    ExtendInTwo(os, before, p, c.oldStart, c.oldEnd);
    ExtendInTwo(ns, after, y, c.newStart, c.newEnd);
  }

  /** The whole block: old lines `start .. end`, new lines `w .. y`, both numbered from `start`. */
  lemma {:induction false} BodyShows(before: seq<Line>, after: seq<Line>, rel: seq<Change>, start: nat, end: nat,
                                     w: nat, y: nat,
                  oldHashes: Hashes, newHashes: Hashes)
    requires Formattable(before, after, rel, start, end) && Aligned(before, after, rel, start, w)
    requires EqualRun(before, rel[|rel|-1].oldEnd, end, after, rel[|rel|-1].newEnd, y)
    ensures w <= y
    ensures Shows(Body(before, after, rel, start, end, oldHashes, newHashes), start, start,
                  Extend([], before, start, end), Extend([], after, w, y))
  {
    var k := |rel|;
    var p, v := rel[k-1].oldEnd, rel[k-1].newEnd;
    PositionsAt(before, after, rel, start, end, w, k);
    BodyUpToShows(before, after, rel, start, end, w, oldHashes, newHashes, k);
    AddContextShows(BodyUpTo(before, after, rel, start, end, oldHashes, newHashes, k), start, start,
                    Extend([], before, start, p), Extend([], after, w, v), before, oldHashes, p, end);
    ExtendInTwo([], before, start, p, end);
    ExtendEqualRun(Extend([], after, w, v), before, p, end, after, v, y);
    ExtendInTwo([], after, w, v, y);
  }

  /** `ls` holds `d` deletes and `a` inserts. */
  ghost predicate Tally(ls: seq<DiffLine>, d: int, a: int) {
    Deletes(ls, |ls|) == d && Inserts(ls, |ls|) == a
  }

  lemma {:induction false} TallySnoc(ls: seq<DiffLine>, l: DiffLine, d: int, a: int)
    requires Tally(ls, d, a)
    ensures Tally(ls + [l], d + (if l.kind.Delete? then 1 else 0), a + (if l.kind.Insert? then 1 else 0))
  {
    CountsOfPrefix(ls, l, |ls|);
  }

  lemma {:induction false} AddContextTally(ls: seq<DiffLine>, d: int, a: int, before: seq<Line>, hashes: Hashes,
                                           from: nat, to: nat, n: int)
    requires from <= to <= |before| && Tally(ls, d, a)
    ensures Tally(AddContext(ls, before, hashes, from, to, n), d, a)
  {
    if from == to {
    } else {
      AddContextTally(ls, d, a, before, hashes, from, to - 1, n);
      TallySnoc(AddContext(ls, before, hashes, from, to - 1, n), ContextLine(before, hashes, to - 1, n + to - 1 - from),
                d, a);
    }
  }

  lemma {:induction false} AddDeletesTally(ls: seq<DiffLine>, d: int, a: int, before: seq<Line>, hashes: Hashes,
                                           from: nat, to: nat)
    requires from <= to <= |before| && Tally(ls, d, a)
    ensures Tally(AddDeletes(ls, before, hashes, from, to), d + to - from, a)
  {
    if from == to {
    } else {
      AddDeletesTally(ls, d, a, before, hashes, from, to - 1);
      TallySnoc(AddDeletes(ls, before, hashes, from, to - 1), DeleteLine(before, hashes, to - 1), d + to - 1 - from, a);
    }
  }

  lemma {:induction false} AddInsertsTally(ls: seq<DiffLine>, d: int, a: int, after: seq<Line>, hashes: Hashes,
                                           from: nat, to: nat, n: int)
    requires from <= to <= |after| && Tally(ls, d, a)
    ensures Tally(AddInserts(ls, after, hashes, from, to, n), d, a + to - from)
  {
    if from == to {
    } else {
      AddInsertsTally(ls, d, a, after, hashes, from, to - 1, n);
      TallySnoc(AddInserts(ls, after, hashes, from, to - 1, n), InsertLine(after, hashes, to - 1, n + to - 1 - from), d,
                a + to - 1 - from);
    }
  }

  lemma {:induction false} AddChangeTally(ls: seq<DiffLine>, d: int, a: int, before: seq<Line>, after: seq<Line>,
                                          c: Change, p: nat, n: int,
                                          oldHashes: Hashes, newHashes: Hashes)
    requires p <= c.oldStart <= c.oldEnd <= |before| && c.newStart <= c.newEnd <= |after| && Tally(ls, d, a)
    ensures Tally(AddChange(ls, before, after, c, p, n, oldHashes, newHashes), d + c.Removed(), a + c.Added())
  {
    AddContextTally(ls, d, a, before, oldHashes, p, c.oldStart, n);
    var ls1 := AddContext(ls, before, oldHashes, p, c.oldStart, n);
    AddDeletesTally(ls1, d, a, before, oldHashes, c.oldStart, c.oldEnd);
    AddInsertsTally(AddDeletes(ls1, before, oldHashes, c.oldStart, c.oldEnd), d + c.Removed(), a, after, newHashes,
                    c.newStart, c.newEnd, n + c.oldStart - p);
  }

  lemma {:induction false} BodyUpToTally(before: seq<Line>, after: seq<Line>, rel: seq<Change>, start: nat, end: nat,
                                         oldHashes: Hashes, newHashes: Hashes, k: nat)
    requires Formattable(before, after, rel, start, end) && k <= |rel|
    ensures Tally(BodyUpTo(before, after, rel, start, end, oldHashes, newHashes, k), TotalRemoved(rel[..k]),
                  TotalAdded(rel[..k]))
  {
    if k == 0 {
    } else {
      BodyUpToTally(before, after, rel, start, end, oldHashes, newHashes, k - 1);
      assert Fits(before, after, rel, start, end, k-1) && (k > 1 ==> Fits(before, after, rel, start, end, k-2));
      assert rel[..k][..k-1] == rel[..k-1];
      AddChangeTally(BodyUpTo(before, after, rel, start, end, oldHashes, newHashes, k-1), TotalRemoved(rel[..k-1]),
                     TotalAdded(rel[..k-1]),
                     before, after, rel[k-1], Pos(rel, start, k-1), RunningNew(rel, start, k-1), oldHashes, newHashes);
    }
  }

  /** A block deletes and inserts exactly what its changes remove and add. */
  lemma {:induction false} BodyTally(before: seq<Line>, after: seq<Line>, rel: seq<Change>, start: nat, end: nat,
                                     oldHashes: Hashes, newHashes: Hashes)
    requires Formattable(before, after, rel, start, end)
    ensures Tally(Body(before, after, rel, start, end, oldHashes, newHashes), TotalRemoved(rel), TotalAdded(rel))
  {
    BodyUpToTally(before, after, rel, start, end, oldHashes, newHashes, |rel|);
    assert rel[..|rel|] == rel;
    assert Fits(before, after, rel, start, end, |rel|-1);
    AddContextTally(BodyUpTo(before, after, rel, start, end, oldHashes, newHashes, |rel|), TotalRemoved(rel),
                    TotalAdded(rel),
                    before, oldHashes, Pos(rel, start, |rel|), end, RunningNew(rel, start, |rel|));
  }
}
