/** Grouping changes into context hunks, and filtering the change list back to one hunk. The main
    result is that the two agree: every change belongs to exactly one hunk, and the range filter
    recovers exactly that hunk's run of changes. */
module Hunks {

  import opened Lcs
  import opened Changes

  const CONTEXT_LINES := 3

  /** A hunk covers the old lines `start .. end` and the changes `first .. next`. */
  datatype Hunk = Hunk(start: nat, end: nat, first: nat, next: nat)

  /** The range the grouping loop opens around a change. */
  function Open(cs: seq<Change>, m: nat, k: nat): Hunk
    requires k < |cs| && cs[k].oldEnd <= m
  {
    Hunk(Max(0, cs[k].oldStart - CONTEXT_LINES), Min(m, cs[k].oldEnd + CONTEXT_LINES), k, k + 1)
  }

  predicate InRange(cs: seq<Change>, m: nat) {
    forall k :: 0 <= k < |cs| ==> cs[k].oldStart <= cs[k].oldEnd <= m
  }

  /** The hunks after `k` changes; the last one is still open. */
  function HunksUpTo(cs: seq<Change>, m: nat, k: nat): (hs: seq<Hunk>)
    requires k <= |cs| && InRange(cs, m)
    ensures hs == [] <==> k == 0
  {
    if k == 0 then []
    else
      var hs := HunksUpTo(cs, m, k - 1);
      if Joins(cs, k - 1, hs) then hs[..|hs|-1] + [Widen(cs, m, k - 1, hs[|hs|-1])] else hs + [Open(cs, m, k - 1)]
  }

  /** Change `k` starts within three lines of the hunk before it. */
  predicate Joins(cs: seq<Change>, k: nat, hs: seq<Hunk>)
    requires k < |cs|
  {
    hs != [] && cs[k].oldStart - CONTEXT_LINES <= hs[|hs|-1].end
  }

  function Widen(cs: seq<Change>, m: nat, k: nat, h: Hunk): Hunk
    requires k < |cs| && cs[k].oldEnd <= m
  {
    h.(end := Open(cs, m, k).end, next := k + 1)
  }

  function HunksOf(cs: seq<Change>, m: nat): seq<Hunk>
    requires InRange(cs, m)
  {
    HunksUpTo(cs, m, |cs|)
  }

  /** Hunk `h` spans a run of the first `k` changes with its context, clear of the changes on either side. */
  ghost predicate Tight(cs: seq<Change>, m: nat, k: nat, h: Hunk)
    requires k <= |cs| && InRange(cs, m)
  {
    && h.first < h.next <= k
    && h.start == Open(cs, m, h.first).start
    && h.end == Open(cs, m, h.next - 1).end
    && (h.first > 0 ==> cs[h.first-1].oldEnd < h.start)
    && (h.next < k ==> h.end < cs[h.next].oldStart)
  }

  /** The hunks cut the first `k` changes into consecutive runs, and their line ranges are disjoint and ordered. */
  ghost predicate Partition(cs: seq<Change>, m: nat, k: nat, hs: seq<Hunk>)
    requires k <= |cs| && InRange(cs, m)
  {
    && (forall i :: 0 <= i < |hs| ==> Tight(cs, m, k, hs[i]))
    && (forall i :: 0 < i < |hs| ==> Follows(hs, i))
    && (hs == [] ==> k == 0) && (hs != [] ==> hs[0].first == 0 && hs[|hs|-1].next == k)
  }

  predicate Follows(hs: seq<Hunk>, i: nat)
    requires 0 < i < |hs|
  {
    hs[i-1].next == hs[i].first && hs[i-1].end < hs[i].start
  }

  lemma {:induction false} GroupingPartitions(cs: seq<Change>, m: nat, k: nat)
    requires InRange(cs, m) && k <= |cs|
    ensures Partition(cs, m, k, HunksUpTo(cs, m, k))
  {
    if k == 0 {
    } else {
      var hs := HunksUpTo(cs, m, k - 1);
      GroupingPartitions(cs, m, k - 1);
      if Joins(cs, k - 1, hs) {
        WidenKeepsPartition(cs, m, k, hs);
      } else {
        OpenKeepsPartition(cs, m, k, hs);
      }
    }
  }

  lemma {:induction false} StaysTight(cs: seq<Change>, m: nat, k: nat, h: Hunk)
    requires InRange(cs, m) && 0 < k <= |cs| && Tight(cs, m, k - 1, h)
    requires h.next < k - 1 || h.end < cs[k-1].oldStart
    ensures Tight(cs, m, k, h)
  {
  }

  lemma {:induction false} WidenedIsTight(cs: seq<Change>, m: nat, k: nat, h: Hunk)
    requires InRange(cs, m) && 0 < k <= |cs| && Tight(cs, m, k - 1, h) && h.next == k - 1
    ensures Tight(cs, m, k, Widen(cs, m, k - 1, h))
  {
  }

  lemma {:induction false} StaysTightBefore(cs: seq<Change>, m: nat, k: nat, hs: seq<Hunk>, i: nat)
    requires InRange(cs, m) && 0 < k <= |cs| && Partition(cs, m, k - 1, hs) && i < |hs| - 1
    ensures Tight(cs, m, k, hs[i])
  {
    assert Tight(cs, m, k - 1, hs[i]);
    NextIsSmaller(cs, m, k - 1, hs, i);
    StaysTight(cs, m, k, hs[i]);
  }

  lemma {:induction false} WidenKeepsPartition(cs: seq<Change>, m: nat, k: nat, hs: seq<Hunk>)
    requires InRange(cs, m) && 0 < k <= |cs|
    requires Partition(cs, m, k - 1, hs) && Joins(cs, k - 1, hs)
    ensures Partition(cs, m, k, hs[..|hs|-1] + [Widen(cs, m, k - 1, hs[|hs|-1])])
  {
    var n := |hs| - 1;
    var all := hs[..n] + [Widen(cs, m, k - 1, hs[n])];
    assert Tight(cs, m, k - 1, hs[n]);
    WidenedIsTight(cs, m, k, hs[n]);
    forall i | 0 <= i < |all|
      ensures Tight(cs, m, k, all[i])
    {
      if i < n { StaysTightBefore(cs, m, k, hs, i); }
    }
    forall i | 0 < i < |all|
      ensures Follows(all, i)
    {
      assert Follows(hs, i);
    }
  }

  lemma {:induction false} OpenKeepsPartition(cs: seq<Change>, m: nat, k: nat, hs: seq<Hunk>)
    requires InRange(cs, m) && 0 < k <= |cs|
    requires Partition(cs, m, k - 1, hs) && !Joins(cs, k - 1, hs)
    ensures Partition(cs, m, k, hs + [Open(cs, m, k - 1)])
  {
    var all := hs + [Open(cs, m, k - 1)];
    forall i | 0 <= i < |all|
      ensures Tight(cs, m, k, all[i])
    {
      if i < |hs| {
        assert Tight(cs, m, k - 1, hs[i]);
        if i < |hs| - 1 { NextIsSmaller(cs, m, k - 1, hs, i); }
        StaysTight(cs, m, k, hs[i]);
      } else if hs != [] {
        assert Tight(cs, m, k - 1, hs[|hs|-1]);
      }
    }
    forall i | 0 < i < |all|
      ensures Follows(all, i)
    {
      if i < |hs| { assert Follows(hs, i); }
    }
  }

  lemma {:induction false} NextIsSmaller(cs: seq<Change>, m: nat, k: nat, hs: seq<Hunk>, i: nat)
    requires InRange(cs, m) && k <= |cs| && Partition(cs, m, k, hs) && i < |hs| - 1
    ensures hs[i].next < k
  {
    assert Tight(cs, m, k, hs[i+1]) && Follows(hs, i + 1);
  }

  /** Sound changes are ordered and separated. */
  lemma {:induction false} SoundOrder(before: seq<Line>, after: seq<Line>, cs: seq<Change>, i: nat, j: nat)
    requires AllSound(before, after, cs) && i < j < |cs|
    ensures cs[i].oldEnd < cs[j].oldStart && cs[i].newEnd <= cs[j].newStart
  {
    assert Sound(before, after, cs, j) && Sound(before, after, cs, i);
    if i + 1 == j {
    } else {
      assert Sound(before, after, cs, j - 1);
      SoundOrder(before, after, cs, i, j - 1);
    }
  }

  lemma {:induction false} SoundInRange(before: seq<Line>, after: seq<Line>, cs: seq<Change>)
    requires AllSound(before, after, cs)
    ensures InRange(cs, |before|)
  {
    forall k | 0 <= k < |cs|
      ensures cs[k].oldStart <= cs[k].oldEnd <= |before|
    {
      assert Sound(before, after, cs, k);
    }
  }

  predicate Touches(c: Change, start: nat, end: nat) {
    c.oldEnd >= start && c.oldStart <= end
  }

  function Filtered(cs: seq<Change>, start: nat, end: nat): seq<Change> {
    if cs == [] then []
    else
      var c := cs[|cs|-1];
      Filtered(cs[..|cs|-1], start, end) + if Touches(c, start, end) then [c] else []
  }

  /** The range filter of the source. */
  method FilterChangesInRange(cs: seq<Change>, start: nat, end: nat) returns (result: seq<Change>)
    ensures result == Filtered(cs, start, end)
  {
    result := [];
    for i := 0 to |cs|
      invariant result == Filtered(cs[..i], start, end)
    {
      assert cs[..i+1][..i] == cs[..i];
      if cs[i].oldEnd >= start && cs[i].oldStart <= end {
        result := result + [cs[i]];
      }
    }
    assert cs[..|cs|] == cs;
  }

  /** The changes of the hunk among the first `k`. */
  function RunUpTo(cs: seq<Change>, h: Hunk, k: nat): seq<Change>
    requires k <= |cs| && h.first <= h.next <= |cs|
  {
    if k <= h.first then [] else cs[h.first..Min(k, h.next)]
  }

  lemma {:induction false} RunGrows(cs: seq<Change>, h: Hunk, k: nat)
    requires k < |cs| && h.first <= h.next <= |cs|
    ensures RunUpTo(cs, h, k + 1) == RunUpTo(cs, h, k) + if h.first <= k < h.next then [cs[k]] else []
  {
  }

  lemma {:induction false} FilterGrows(cs: seq<Change>, start: nat, end: nat, k: nat)
    requires k < |cs|
    ensures Filtered(cs[..k+1], start, end)
         == Filtered(cs[..k], start, end) + if Touches(cs[k], start, end) then [cs[k]] else []
  {
    assert cs[..k+1][..k] == cs[..k] && cs[..k+1][k] == cs[k];
  }

  lemma {:induction false} FilterOfPrefix(cs: seq<Change>, k: nat, h: Hunk)
    requires k <= |cs| && h.first <= h.next <= |cs|
    requires forall j :: 0 <= j < |cs| ==> (Touches(cs[j], h.start, h.end) <==> h.first <= j < h.next)
    ensures Filtered(cs[..k], h.start, h.end) == RunUpTo(cs, h, k)
  {
    if k > 0 {
      FilterOfPrefix(cs, k - 1, h);
      FilterGrows(cs, h.start, h.end, k - 1);
      RunGrows(cs, h, k - 1);
    }
  }

  lemma {:induction false} TouchesIffInRun(before: seq<Line>, after: seq<Line>, cs: seq<Change>, h: Hunk, j: nat)
    requires AllSound(before, after, cs) && InRange(cs, |before|)
    requires Tight(cs, |before|, |cs|, h) && j < |cs|
    ensures h.first <= j < h.next ==> h.start <= cs[j].oldStart && cs[j].oldEnd <= h.end
    ensures Touches(cs[j], h.start, h.end) <==> h.first <= j < h.next
  {
    assert Sound(before, after, cs, j);
    if j < h.first {
      AtMost(before, after, cs, j, h.first - 1);
    } else if j < h.next {
      AtMost(before, after, cs, h.first, j);
      AtMost(before, after, cs, j, h.next - 1);
    } else {
      AtMost(before, after, cs, h.next, j);
    }
  }

  lemma {:induction false} AtMost(before: seq<Line>, after: seq<Line>, cs: seq<Change>, i: nat, j: nat)
    requires AllSound(before, after, cs) && i <= j < |cs|
    ensures cs[i].oldStart <= cs[j].oldStart && cs[i].oldEnd <= cs[j].oldEnd
  {
    assert Sound(before, after, cs, i) && Sound(before, after, cs, j);
    if i < j { SoundOrder(before, after, cs, i, j); }
  }

  /** The filter picks exactly the changes the grouping put into the hunk. */
  lemma {:induction false} FilterPicksTheGroup(before: seq<Line>, after: seq<Line>, cs: seq<Change>, h: Hunk)
    requires AllSound(before, after, cs) && InRange(cs, |before|)
    requires Tight(cs, |before|, |cs|, h)
    ensures Filtered(cs, h.start, h.end) == cs[h.first..h.next]
    ensures forall j :: h.first <= j < h.next ==> h.start <= cs[j].oldStart && cs[j].oldEnd <= h.end
    ensures forall j :: 0 <= j < |cs| ==> (Touches(cs[j], h.start, h.end) <==> h.first <= j < h.next)
  {
    forall j | 0 <= j < |cs|
      ensures h.first <= j < h.next ==> h.start <= cs[j].oldStart && cs[j].oldEnd <= h.end
      ensures Touches(cs[j], h.start, h.end) <==> h.first <= j < h.next
    {
      TouchesIffInRun(before, after, cs, h, j);
    }
    FilterOfPrefix(cs, |cs|, h);
    assert cs[..|cs|] == cs;
  }

  /** Each change lies in exactly one hunk of the grouping. */
  lemma {:induction false} EachChangeInOneHunk(before: seq<Line>, after: seq<Line>, cs: seq<Change>, j: nat)
    requires AllSound(before, after, cs) && InRange(cs, |before|) && j < |cs|
    ensures exists i :: 0 <= i < |HunksOf(cs, |before|)|
              && Touches(cs[j], HunksOf(cs, |before|)[i].start, HunksOf(cs, |before|)[i].end)
    ensures forall i, i' :: 0 <= i < i' < |HunksOf(cs, |before|)|
              && Touches(cs[j], HunksOf(cs, |before|)[i].start, HunksOf(cs, |before|)[i].end)
              ==> !Touches(cs[j], HunksOf(cs, |before|)[i'].start, HunksOf(cs, |before|)[i'].end)
  {
    var hs := HunksOf(cs, |before|);
    GroupingPartitions(cs, |before|, |cs|);
    var i := FindHunk(cs, |before|, hs, j);
    FilterPicksTheGroup(before, after, cs, hs[i]);
    forall a, b | 0 <= a < b < |hs| && Touches(cs[j], hs[a].start, hs[a].end)
      ensures !Touches(cs[j], hs[b].start, hs[b].end)
    {
      FilterPicksTheGroup(before, after, cs, hs[a]);
      FilterPicksTheGroup(before, after, cs, hs[b]);
      RunsAreOrdered(cs, |before|, hs, a, b);
    }
  }

  lemma {:induction false} RunsAreOrdered(cs: seq<Change>, m: nat, hs: seq<Hunk>, a: nat, b: nat)
    requires InRange(cs, m) && Partition(cs, m, |cs|, hs) && a < b < |hs|
    ensures hs[a].next <= hs[b].first
  {
    assert Follows(hs, b);
    if a + 1 == b {
    } else {
      RunsAreOrdered(cs, m, hs, a, b - 1);
      assert Tight(cs, m, |cs|, hs[b-1]);
    }
  }

  lemma {:induction false} FindHunk(cs: seq<Change>, m: nat, hs: seq<Hunk>, j: nat) returns (i: nat)
    requires InRange(cs, m) && Partition(cs, m, |cs|, hs) && j < |cs|
    ensures i < |hs| && hs[i].first <= j < hs[i].next
  {
    i := 0;
    assert Tight(cs, m, |cs|, hs[0]);
    while hs[i].next <= j
      invariant i < |hs| && hs[i].first <= j
      decreases |hs| - i
    {
      assert i + 1 < |hs| ==> Follows(hs, i + 1);
      i := i + 1;
    }
  }
}
