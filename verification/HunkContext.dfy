/** How much context a hunk shows, and which changes share one. */
module HunkContext {

  import opened Lcs
  import opened Changes
  import opened Hunks

  /** At most six lines lie between change `k` and the one before it. */
  predicate Near(cs: seq<Change>, k: nat)
    requires 0 < k < |cs|
  {
    cs[k].oldStart - cs[k-1].oldEnd <= 6
  }

  /** A hunk reaches three lines to either side of its changes, as far as the file goes; its changes are near each
      other, and far from the hunk before. */
  ghost predicate InContext(cs: seq<Change>, m: nat, h: Hunk) {
    && h.first < h.next <= |cs|
    && h.start == (if cs[h.first].oldStart < 3 then 0 else cs[h.first].oldStart - 3)
    && h.end == (if cs[h.next-1].oldEnd + 3 > m then m else cs[h.next-1].oldEnd + 3)
    && (forall k :: h.first < k < h.next ==> Near(cs, k))
    && (h.first > 0 ==> !Near(cs, h.first))
  }

  ghost predicate AllInContext(cs: seq<Change>, m: nat, hs: seq<Hunk>) {
    forall i :: 0 <= i < |hs| ==> InContext(cs, m, hs[i])
  }

  lemma {:induction false} GroupingInContext(cs: seq<Change>, m: nat, k: nat)
    requires InRange(cs, m) && k <= |cs|
    ensures AllInContext(cs, m, HunksUpTo(cs, m, k))
    ensures k > 0 ==> HunksUpTo(cs, m, k)[|HunksUpTo(cs, m, k)|-1].next == k
  {
    if k > 0 {
      GroupingInContext(cs, m, k - 1);
      NextInContext(cs, m, k - 1, HunksUpTo(cs, m, k - 1));
      NextHunks(cs, m, k - 1);
    }
  }

  lemma {:induction false} NextHunks(cs: seq<Change>, m: nat, k: nat)
    requires InRange(cs, m) && k < |cs|
    ensures var hs, all := HunksUpTo(cs, m, k), HunksUpTo(cs, m, k + 1);
            && all == (if Joins(cs, k, hs) then hs[..|hs|-1] + [Widen(cs, m, k, hs[|hs|-1])] else hs + [Open(cs, m, k)])
            && all[|all|-1].next == k + 1
  {
  }

  lemma {:induction false} OneMoreInContext(cs: seq<Change>, m: nat, hs: seq<Hunk>, n: nat, h: Hunk)
    requires AllInContext(cs, m, hs) && n <= |hs| && InContext(cs, m, h)
    ensures AllInContext(cs, m, hs[..n] + [h])
  {
  }

  lemma {:induction false} NextInContext(cs: seq<Change>, m: nat, k: nat, hs: seq<Hunk>)
    requires InRange(cs, m) && k < |cs| && AllInContext(cs, m, hs) && (hs == [] ==> k == 0)
    requires hs != [] ==> InContext(cs, m, hs[|hs|-1]) && hs[|hs|-1].next == k > 0
    ensures AllInContext(cs, m, if Joins(cs, k, hs) then hs[..|hs|-1] + [Widen(cs, m, k, hs[|hs|-1])]
                                else hs + [Open(cs, m, k)])
  {
    if hs != [] {
      JoinsIfNear(cs, m, k, hs);
    }
    if Joins(cs, k, hs) {
      WidenInContext(cs, m, k, hs[|hs|-1]);
      OneMoreInContext(cs, m, hs, |hs| - 1, Widen(cs, m, k, hs[|hs|-1]));
    } else {
      OpenInContext(cs, m, k);
      OneMoreInContext(cs, m, hs, |hs|, Open(cs, m, k));
      assert hs[..|hs|] == hs;
    }
  }

  lemma {:induction false} JoinsIfNear(cs: seq<Change>, m: nat, k: nat, hs: seq<Hunk>)
    requires InRange(cs, m) && 0 < k < |cs| && hs != [] && InContext(cs, m, hs[|hs|-1]) && hs[|hs|-1].next == k
    ensures Joins(cs, k, hs) <==> Near(cs, k)
  {
  }

  lemma {:induction false} WidenInContext(cs: seq<Change>, m: nat, k: nat, h: Hunk)
    requires InRange(cs, m) && 0 < k < |cs| && InContext(cs, m, h) && h.next == k && Near(cs, k)
    ensures InContext(cs, m, Widen(cs, m, k, h))
  {
  }

  lemma {:induction false} OpenInContext(cs: seq<Change>, m: nat, k: nat)
    requires InRange(cs, m) && k < |cs| && (k > 0 ==> !Near(cs, k))
    ensures InContext(cs, m, Open(cs, m, k))
  {
  }

  /** Change `k` and the one before it are both in this hunk. */
  predicate HoldsBoth(h: Hunk, k: nat) {
    h.first < k < h.next
  }

  lemma {:induction false} BothAreNear(cs: seq<Change>, m: nat, h: Hunk, k: nat)
    requires InContext(cs, m, h) && h.first <= k < h.next && k > 0
    ensures HoldsBoth(h, k) <==> Near(cs, k)
  {
  }

  /** Main result: every hunk of a diff shows three lines around its changes, as far as the file goes, and two changes
      next to each other share a hunk if and only if at most six lines lie between them. */
  lemma {:induction false} SharedIffNear(before: seq<Line>, after: seq<Line>, cs: seq<Change>, k: nat)
    requires AllSound(before, after, cs) && InRange(cs, |before|) && 0 < k < |cs|
    ensures AllInContext(cs, |before|, HunksOf(cs, |before|))
    ensures Near(cs, k) <==> exists h :: h in HunksOf(cs, |before|) && HoldsBoth(h, k)
  {
    var hs := HunksOf(cs, |before|);
    GroupingPartitions(cs, |before|, |cs|);
    GroupingInContext(cs, |before|, |cs|);
    var i := FindHunk(cs, |before|, hs, k);
    assert InContext(cs, |before|, hs[i]) && hs[i] in hs;
    BothAreNear(cs, |before|, hs[i], k);
    if h :| h in hs && HoldsBoth(h, k) {
      BothAreNear(cs, |before|, h, k);
    }
  }
}
