/** Turning the match list into changes. `Script` is the independent meaning of a change list: which
    old and new regions it replaces, and that everything outside it is equal on both sides. */
module Changes {

  import opened Lcs

  datatype Change = Change(oldStart: nat, oldEnd: nat, newStart: nat, newEnd: nat) {
    function Removed(): int { oldEnd - oldStart }

    function Added(): int { newEnd - newStart }
  }

  /** The old and the new position reached after the first `k` changes. */
  function OldAt(cs: seq<Change>, k: nat): nat
    requires k <= |cs|
  {
    if k == 0 then 0 else cs[k-1].oldEnd
  }

  function NewAt(cs: seq<Change>, k: nat): nat
    requires k <= |cs|
  {
    if k == 0 then 0 else cs[k-1].newEnd
  }

  /** The lines `a .. b` of `s` are the lines `c .. d` of `t`. */
  ghost predicate EqualRun(s: seq<Line>, a: nat, b: nat, t: seq<Line>, c: nat, d: nat) {
    && a <= b <= |s| && c <= d <= |t| && b - a == d - c
    && forall i :: a <= i < b ==> s[i] == t[i - a + c]
  }

  /** Change `k` replaces a non-empty pair of regions; the lines between it and its predecessor are equal
      on both sides, and there is at least one of them. */
  ghost predicate Sound(before: seq<Line>, after: seq<Line>, cs: seq<Change>, k: nat)
    requires k < |cs|
  {
    var c, o, w := cs[k], OldAt(cs, k), NewAt(cs, k);
    && o <= c.oldStart <= c.oldEnd <= |before| && w <= c.newStart <= c.newEnd <= |after|
    && (k > 0 ==> o < c.oldStart)
    && (c.oldStart < c.oldEnd || c.newStart < c.newEnd)
    && EqualRun(before, o, c.oldStart, after, w, c.newStart)
  }

  ghost predicate AllSound(before: seq<Line>, after: seq<Line>, cs: seq<Change>) {
    forall k :: 0 <= k < |cs| ==> Sound(before, after, cs, k)
  }

  /** `cs` turns `before` into `after`: sound changes, and equal lines after the last one. */
  ghost predicate Script(before: seq<Line>, after: seq<Line>, cs: seq<Change>) {
    && AllSound(before, after, cs)
    && EqualRun(before, OldAt(cs, |cs|), |before|, after, NewAt(cs, |cs|), |after|)
  }

  function TotalRemoved(cs: seq<Change>): int {
    if cs == [] then 0 else TotalRemoved(cs[..|cs|-1]) + cs[|cs|-1].Removed()
  }

  function TotalAdded(cs: seq<Change>): int {
    if cs == [] then 0 else TotalAdded(cs[..|cs|-1]) + cs[|cs|-1].Added()
  }

  function Gap(oldStart: nat, oldEnd: nat, newStart: nat, newEnd: nat): seq<Change> {
    if oldStart < oldEnd || newStart < newEnd then [Change(oldStart, oldEnd, newStart, newEnd)] else []
  }

  /** The positions just behind the first `k` matches. */
  function OldPast(ms: seq<Match>, k: nat): nat
    requires k <= |ms|
  {
    if k == 0 then 0 else ms[k-1].oldIndex + 1
  }

  function NewPast(ms: seq<Match>, k: nat): nat
    requires k <= |ms|
  {
    if k == 0 then 0 else ms[k-1].newIndex + 1
  }

  /** The changes in front of the first `k` matches. */
  function GapsBefore(ms: seq<Match>, k: nat): seq<Change>
    requires k <= |ms|
  {
    if k == 0 then []
    else GapsBefore(ms, k-1) + Gap(OldPast(ms, k-1), ms[k-1].oldIndex, NewPast(ms, k-1), ms[k-1].newIndex)
  }

  function ChangesOf(before: seq<Line>, after: seq<Line>): seq<Change> {
    var ms := Matches(before, after);
    GapsBefore(ms, |ms|) + Gap(OldPast(ms, |ms|), |before|, NewPast(ms, |ms|), |after|)
  }

  /** The loop of the source, with its own positions. */
  method CollectGaps(before: seq<Line>, after: seq<Line>, lcs: seq<Match>) returns (changes: seq<Change>)
    ensures changes == GapsBefore(lcs, |lcs|) + Gap(OldPast(lcs, |lcs|), |before|, NewPast(lcs, |lcs|), |after|)
  {
    changes := [];
    var oldIndex, newIndex, lcsIndex := 0, 0, 0;
    while lcsIndex < |lcs|
      invariant 0 <= lcsIndex <= |lcs|
      invariant oldIndex == OldPast(lcs, lcsIndex) && newIndex == NewPast(lcs, lcsIndex)
      invariant changes == GapsBefore(lcs, lcsIndex)
    {
      var oldMatch, newMatch := lcs[lcsIndex].oldIndex, lcs[lcsIndex].newIndex;
      if oldIndex < oldMatch || newIndex < newMatch {
        changes := changes + [Change(oldIndex, oldMatch, newIndex, newMatch)];
      }
      oldIndex := oldMatch + 1;
      newIndex := newMatch + 1;
      lcsIndex := lcsIndex + 1;
    }
    if oldIndex < |before| || newIndex < |after| {
      changes := changes + [Change(oldIndex, |before|, newIndex, |after|)];
    }
  }

  method FindChanges(before: seq<Line>, after: seq<Line>) returns (changes: seq<Change>)
    ensures changes == ChangesOf(before, after)
    ensures Script(before, after, changes)
    ensures TotalRemoved(changes) == |before| - Len(before, after, |before|, |after|)
    ensures TotalAdded(changes) == |after| - Len(before, after, |before|, |after|)
  {
    var lcs := ComputeLCS(before, after);
    changes := CollectGaps(before, after, lcs);
    ChangesOfIsScript(before, after);
  }

  /** Sound changes that reach position (o, w) through equal lines, past at least one of them. */
  ghost predicate Reaches(before: seq<Line>, after: seq<Line>, cs: seq<Change>, o: nat, w: nat) {
    && AllSound(before, after, cs)
    && (cs != [] ==> OldAt(cs, |cs|) < o)
    && EqualRun(before, OldAt(cs, |cs|), o, after, NewAt(cs, |cs|), w)
  }

  lemma {:induction false} AppendChange(before: seq<Line>, after: seq<Line>, cs: seq<Change>, o: nat, x: nat, w: nat,
                                        y: nat)
    requires Reaches(before, after, cs, o, w)
    requires o <= x <= |before| && w <= y <= |after| && (o < x || w < y)
    ensures AllSound(before, after, cs + [Change(o, x, w, y)])
    ensures TotalRemoved(cs + [Change(o, x, w, y)]) == TotalRemoved(cs) + x - o
    ensures TotalAdded(cs + [Change(o, x, w, y)]) == TotalAdded(cs) + y - w
  {
    var all := cs + [Change(o, x, w, y)];
    assert all[..|cs|] == cs;
    forall k | 0 <= k < |all|
      ensures Sound(before, after, all, k)
    {
      if k < |cs| {
        assert Sound(before, after, cs, k);
      }
    }
  }

  /** A gap, empty or not, moves the front of the equal run to its end. */
  lemma {:induction false} AppendGap(before: seq<Line>, after: seq<Line>, cs: seq<Change>, o: nat, x: nat, w: nat,
                                     y: nat)
    requires Reaches(before, after, cs, o, w)
    requires o <= x <= |before| && w <= y <= |after|
    ensures var all := cs + Gap(o, x, w, y);
            && AllSound(before, after, all)
            && EqualRun(before, OldAt(all, |all|), x, after, NewAt(all, |all|), y)
            && TotalRemoved(all) == TotalRemoved(cs) + x - o
            && TotalAdded(all) == TotalAdded(cs) + y - w
  {
    if o < x || w < y {
      AppendChange(before, after, cs, o, x, w, y);
    } else {
      assert cs + Gap(o, x, w, y) == cs;
    }
  }

  lemma {:induction false} AppendMatch(before: seq<Line>, after: seq<Line>, cs: seq<Change>, x: nat, y: nat)
    requires AllSound(before, after, cs) && x < |before| && y < |after| && before[x] == after[y]
    requires EqualRun(before, OldAt(cs, |cs|), x, after, NewAt(cs, |cs|), y)
    ensures Reaches(before, after, cs, x + 1, y + 1)
  {
  }

  lemma {:induction false} GapsReach(before: seq<Line>, after: seq<Line>, ms: seq<Match>, k: nat)
    requires IsCommon(before, after, |before|, |after|, ms) && k <= |ms|
    ensures Reaches(before, after, GapsBefore(ms, k), OldPast(ms, k), NewPast(ms, k))
    ensures TotalRemoved(GapsBefore(ms, k)) == OldPast(ms, k) - k
    ensures TotalAdded(GapsBefore(ms, k)) == NewPast(ms, k) - k
  {
    if k == 0 {
    } else {
      GapsReach(before, after, ms, k - 1);
      var cs, o, w, x, y := GapsBefore(ms, k-1), OldPast(ms, k-1), NewPast(ms, k-1), ms[k-1].oldIndex, ms[k-1].newIndex;
      assert k > 1 ==> ms[k-2].oldIndex < x && ms[k-2].newIndex < y;
      AppendGap(before, after, cs, o, x, w, y);
      AppendMatch(before, after, GapsBefore(ms, k), x, y);
    }
  }

  /** The changes are a script, and what they remove and add is exactly what no longest common
      subsequence keeps. */
  lemma {:induction false} ChangesOfIsScript(before: seq<Line>, after: seq<Line>)
    ensures Script(before, after, ChangesOf(before, after))
    ensures TotalRemoved(ChangesOf(before, after)) == |before| - Len(before, after, |before|, |after|)
    ensures TotalAdded(ChangesOf(before, after)) == |after| - Len(before, after, |before|, |after|)
  {
    MatchesAreOptimal(before, after);
    var ms := Matches(before, after);
    var cs, o, w := GapsBefore(ms, |ms|), OldPast(ms, |ms|), NewPast(ms, |ms|);
    GapsReach(before, after, ms, |ms|);
    AppendGap(before, after, cs, o, |before|, w, |after|);
  }

  /** Equal files, and only those, have no changes. */
  lemma {:induction false} NoChangesIffEqual(before: seq<Line>, after: seq<Line>)
    ensures ChangesOf(before, after) == [] <==> before == after
  {
    var cs := ChangesOf(before, after);
    ChangesOfIsScript(before, after);
    if before == after {
      var diagonal := seq(|before|, k requires 0 <= k < |before| => Match(k, k));
      TableIsUpperBound(before, after, |before|, |after|, diagonal);
      TotalsBoundCount(before, after, cs);
    }
  }

  /** Every sound change removes or adds something. */
  lemma {:induction false} TotalsBoundCount(before: seq<Line>, after: seq<Line>, cs: seq<Change>)
    requires AllSound(before, after, cs)
    ensures TotalRemoved(cs) + TotalAdded(cs) >= |cs|
  {
    if cs == [] {
    } else {
      var front := cs[..|cs|-1];
      assert Sound(before, after, cs, |cs|-1);
      forall k | 0 <= k < |front|
        ensures Sound(before, after, front, k)
      {
        assert Sound(before, after, cs, k);
      }
      TotalsBoundCount(before, after, front);
    }
  }
}
