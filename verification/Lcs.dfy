/** The longest-common-subsequence engine of the diff package: a table filled in place, a backtrack
    from the far corner and an in-place reversal, proved optimal against an independent notion of
    common subsequence. */
module Lcs {

  import opened Sequences

  type Line = string

  datatype Match = Match(oldIndex: nat, newIndex: nat)

  /** `ms` pairs equal lines of `before[..i]` and `after[..j]`, with both indices strictly increasing. */
  ghost predicate IsCommon(before: seq<Line>, after: seq<Line>, i: nat, j: nat, ms: seq<Match>)
    requires i <= |before| && j <= |after|
  {
    && (forall k :: 0 <= k < |ms| ==>
          ms[k].oldIndex < i && ms[k].newIndex < j && before[ms[k].oldIndex] == after[ms[k].newIndex])
    && (forall k, l :: 0 <= k < l < |ms| ==>
          ms[k].oldIndex < ms[l].oldIndex && ms[k].newIndex < ms[l].newIndex)
  }

  /** The value that belongs in cell (i, j) of the table. */
  function Len(before: seq<Line>, after: seq<Line>, i: nat, j: nat): nat
    requires i <= |before| && j <= |after|
  {
    if i == 0 || j == 0 then 0
    else if before[i-1] == after[j-1] then Len(before, after, i-1, j-1) + 1
    else Max(Len(before, after, i-1, j), Len(before, after, i, j-1))
  }

  function Max(x: int, y: int): int { if x < y then y else x }

  function Min(x: int, y: int): int { if x < y then x else y }

  /** The matches the backtrack collects from cell (i, j), in forward order. */
  function Trace(before: seq<Line>, after: seq<Line>, i: nat, j: nat): seq<Match>
    requires i <= |before| && j <= |after|
  {
    if i == 0 || j == 0 then []
    else if before[i-1] == after[j-1] then Trace(before, after, i-1, j-1) + [Match(i-1, j-1)]
    else if Len(before, after, i-1, j) > Len(before, after, i, j-1) then Trace(before, after, i-1, j)
    else Trace(before, after, i, j-1)
  }

  function Matches(before: seq<Line>, after: seq<Line>): seq<Match> {
    Trace(before, after, |before|, |after|)
  }

  lemma {:induction false} CommonSnoc(before: seq<Line>, after: seq<Line>, i: nat, j: nat, ms: seq<Match>)
    requires 0 < i <= |before| && 0 < j <= |after| && before[i-1] == after[j-1] && IsCommon(before, after, i-1, j-1, ms)
    ensures IsCommon(before, after, i, j, ms + [Match(i-1, j-1)])
  {
  }

  lemma {:induction false} CommonInLarger(before: seq<Line>, after: seq<Line>, i: nat, j: nat, i': nat, j': nat,
                                          ms: seq<Match>)
    requires i <= i' <= |before| && j <= j' <= |after| && IsCommon(before, after, i, j, ms)
    ensures IsCommon(before, after, i', j', ms)
  {
  }

  /** The backtrack realises the table: a common subsequence of exactly the recorded length. */
  lemma {:induction false} TraceRealisesTable(before: seq<Line>, after: seq<Line>, i: nat, j: nat)
    requires i <= |before| && j <= |after|
    ensures IsCommon(before, after, i, j, Trace(before, after, i, j))
    ensures |Trace(before, after, i, j)| == Len(before, after, i, j)
    decreases i + j
  {
    if i == 0 || j == 0 {
    } else if before[i-1] == after[j-1] {
      TraceRealisesTable(before, after, i-1, j-1);
      CommonSnoc(before, after, i, j, Trace(before, after, i-1, j-1));
    } else if Len(before, after, i-1, j) > Len(before, after, i, j-1) {
      TraceRealisesTable(before, after, i-1, j);
      CommonInLarger(before, after, i-1, j, i, j, Trace(before, after, i-1, j));
    } else {
      TraceRealisesTable(before, after, i, j-1);
      CommonInLarger(before, after, i, j-1, i, j, Trace(before, after, i, j-1));
    }
  }

  /** No common subsequence of the two prefixes is longer than the table says. */
  lemma {:induction false} TableIsUpperBound(before: seq<Line>, after: seq<Line>, i: nat, j: nat, ms: seq<Match>)
    requires i <= |before| && j <= |after|
    requires IsCommon(before, after, i, j, ms)
    ensures |ms| <= Len(before, after, i, j)
    decreases i + j
  {
    if ms == [] {
    } else {
      var front, last := ms[..|ms|-1], ms[|ms|-1];
      if before[i-1] == after[j-1] {
        TableIsUpperBound(before, after, i-1, j-1, front);
      } else if last.oldIndex < i-1 {
        TableIsUpperBound(before, after, i-1, j, ms);
      } else {
        TableIsUpperBound(before, after, i, j-1, ms);
      }
    }
  }

  /** Fills the table, backtracks and reverses, as the source does. */
  method ComputeLCS(before: seq<Line>, after: seq<Line>) returns (result: seq<Match>)
    ensures result == Matches(before, after)
    ensures IsCommon(before, after, |before|, |after|, result)
    ensures forall ms {:trigger IsCommon(before, after, |before|, |after|, ms)} ::
              IsCommon(before, after, |before|, |after|, ms) ==> |ms| <= |result|
  {
    MatchesAreOptimal(before, after);
    if |before| == 0 || |after| == 0 {
      return [];
    }
    var dp := FillTable(before, after);
    result := Backtrack(before, after, dp);
    result := ReverseInPlace(result);
  }

  /** The backtracking loop; the matches come out last first. */
  method Backtrack(before: seq<Line>, after: seq<Line>, dp: array2<nat>) returns (result: seq<Match>)
    requires dp.Length0 == |before| + 1 && dp.Length1 == |after| + 1
    requires Filled(before, after, dp, |before| + 1)
    ensures Reversed(result) == Matches(before, after)
  {
    var i, j := |before|, |after|;
    result := [];
    while i > 0 && j > 0
      invariant 0 <= i <= |before| && 0 <= j <= |after|
      invariant Matches(before, after) == Trace(before, after, i, j) + Reversed(result)
      decreases i + j
    {
      if before[i-1] == after[j-1] {
        ReversedSnoc(result, Match(i-1, j-1));
        result := result + [Match(i-1, j-1)];
        i, j := i - 1, j - 1;
      } else if dp[i-1, j] > dp[i, j-1] {
        i := i - 1;
      } else {
        j := j - 1;
      }
    }
  }

  /** The reference property of the whole engine. */
  lemma {:induction false} MatchesAreOptimal(before: seq<Line>, after: seq<Line>)
    ensures IsCommon(before, after, |before|, |after|, Matches(before, after))
    ensures |Matches(before, after)| == Len(before, after, |before|, |after|)
    ensures forall ms {:trigger IsCommon(before, after, |before|, |after|, ms)} ::
              IsCommon(before, after, |before|, |after|, ms) ==> |ms| <= |Matches(before, after)|
  {
    TraceRealisesTable(before, after, |before|, |after|);
    forall ms | IsCommon(before, after, |before|, |after|, ms)
      ensures |ms| <= |Matches(before, after)|
    {
      TableIsUpperBound(before, after, |before|, |after|, ms);
    }
  }

  /** Rows `0 .. rows` of the table hold the longest length for their pairs of prefixes. */
  ghost predicate Filled(before: seq<Line>, after: seq<Line>, dp: array2<nat>, rows: nat)
    requires dp.Length0 == |before| + 1 && dp.Length1 == |after| + 1 && rows <= dp.Length0
    reads dp
  {
    forall k, l :: 0 <= k < rows && 0 <= l <= |after| ==> dp[k, l] == Len(before, after, k, l)
  }

  /** The outer of the two table loops. */
  method FillTable(before: seq<Line>, after: seq<Line>) returns (dp: array2<nat>)
    ensures fresh(dp) && dp.Length0 == |before| + 1 && dp.Length1 == |after| + 1
    ensures Filled(before, after, dp, |before| + 1)
  {
    var m, n := |before|, |after|;
    dp := new nat[m + 1, n + 1]((_, _) => 0);
    for i := 1 to m + 1
      invariant Filled(before, after, dp, i)
      invariant forall k :: i <= k <= m ==> dp[k, 0] == 0
    {
      FillRow(before, after, dp, i);
    }
  }

  /** The inner of the two table loops: completes row `i` from row `i-1`. */
  method FillRow(before: seq<Line>, after: seq<Line>, dp: array2<nat>, i: nat)
    requires dp.Length0 == |before| + 1 && dp.Length1 == |after| + 1 && 0 < i <= |before|
    requires Filled(before, after, dp, i) && dp[i, 0] == 0
    modifies dp
    ensures Filled(before, after, dp, i + 1)
    ensures forall k, l :: 0 <= k <= |before| && 0 <= l <= |after| && k != i ==> dp[k, l] == old(dp[k, l])
  {
    for j := 1 to |after| + 1
      invariant forall l :: 0 <= l < j ==> dp[i, l] == Len(before, after, i, l)
      invariant forall k, l :: 0 <= k <= |before| && 0 <= l <= |after| && k != i ==> dp[k, l] == old(dp[k, l])
    {
      assert dp[i-1, j-1] == Len(before, after, i-1, j-1) && dp[i-1, j] == Len(before, after, i-1, j);
      if before[i-1] == after[j-1] {
        dp[i, j] := dp[i-1, j-1] + 1;
      } else {
        dp[i, j] := Max(dp[i-1, j], dp[i, j-1]);
      }
    }
  }
}
