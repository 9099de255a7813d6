/** Which of the longest common subsequences the backtrack takes: the one whose matches lie as late in the old file as
    those of any other. */
module LcsTies {

  import opened Lcs

  /** The first `x` matches of one and those from `y` on of another. */
  lemma {:induction false} Splice(before: seq<Line>, after: seq<Line>, i: nat, j: nat, a: seq<Match>, b: seq<Match>,
                                  x: nat, y: nat)
    requires i <= |before| && j <= |after| && x <= |a| && y <= |b|
    requires IsCommon(before, after, i, j, a) && IsCommon(before, after, i, j, b)
    requires x > 0 && y < |b| ==> a[x-1].oldIndex < b[y].oldIndex && a[x-1].newIndex < b[y].newIndex
    ensures IsCommon(before, after, i, j, a[..x] + b[y..])
  {
    var ms := a[..x] + b[y..];
    forall k, l | 0 <= k < l < |ms|
      ensures ms[k].oldIndex < ms[l].oldIndex && ms[k].newIndex < ms[l].newIndex
    {
      if k < x <= l {
        assert k == x - 1 || (a[k].oldIndex < a[x-1].oldIndex && a[k].newIndex < a[x-1].newIndex);
        assert l == x || (b[y].oldIndex < b[y + l - x].oldIndex && b[y].newIndex < b[y + l - x].newIndex);
      }
    }
  }

  /** No match of `ms` lies later in the old file than the same match of `ts`. */
  ghost predicate NotLater(ms: seq<Match>, ts: seq<Match>) {
    |ms| == |ts| && forall k :: 0 <= k < |ms| ==> ms[k].oldIndex <= ts[k].oldIndex
  }

  lemma {:induction false} LastLater(ms: seq<Match>, ts: seq<Match>) returns (x: nat)
    requires |ms| == |ts| && !NotLater(ms, ts)
    ensures x < |ms| && ms[x].oldIndex > ts[x].oldIndex
    ensures forall k :: x < k < |ms| ==> ms[k].oldIndex <= ts[k].oldIndex
  {
    var k :| 0 <= k < |ms| && ms[k].oldIndex > ts[k].oldIndex;
    x := |ms| - 1;
    while ms[x].oldIndex <= ts[x].oldIndex
      invariant k <= x < |ms| && forall l :: x < l < |ms| ==> ms[l].oldIndex <= ts[l].oldIndex
      decreases x
    {
      x := x - 1;
    }
  }

  /** From a cell on, the backtrack's matches are the latest. */
  lemma {:induction false} TraceIsLatest(before: seq<Line>, after: seq<Line>, i: nat, j: nat, ms: seq<Match>)
    requires i <= |before| && j <= |after| && IsCommon(before, after, i, j, ms) && |ms| == Len(before, after, i, j)
    ensures NotLater(ms, Trace(before, after, i, j))
    decreases i + j, 1
  {
    TraceRealisesTable(before, after, i, j);
    if i == 0 || j == 0 {
    } else if before[i-1] == after[j-1] {
      DropLast(before, after, i, j, ms);
      TraceIsLatest(before, after, i - 1, j - 1, ms[..|ms|-1]);
    } else if Len(before, after, i - 1, j) > Len(before, after, i, j - 1) {
      UsesLastNew(before, after, i, j, ms);
      TraceIsLatest(before, after, i - 1, j, ms);
    } else if ms == [] || ms[|ms|-1].newIndex < j - 1 {
      StaysCommon(before, after, i, j, i, j - 1, ms);
      TraceIsLatest(before, after, i, j - 1, ms);
    } else {
      LastNewIsLatest(before, after, i, j, ms);
    }
  }

  lemma {:induction false} LastNewIsLatest(before: seq<Line>, after: seq<Line>, i: nat, j: nat, ms: seq<Match>)
    requires i <= |before| && 0 < j <= |after| && IsCommon(before, after, i, j, ms)
    requires |ms| == Len(before, after, i, j) == Len(before, after, i, j - 1)
    requires ms != [] && ms[|ms|-1].newIndex == j - 1
    ensures NotLater(ms, Trace(before, after, i, j - 1))
    decreases i + j, 0
  {
    var ts := Trace(before, after, i, j - 1);
    TraceRealisesTable(before, after, i, j - 1);
    if !NotLater(ms, ts) {
      var x := LastLater(ms, ts);
      ExchangeBehind(before, after, i, j, ms, ts, x);
      TraceIsLatest(before, after, i, j - 1, Exchanged(ms, ts, x));
    }
  }

  lemma {:induction false} StaysCommon(before: seq<Line>, after: seq<Line>, i: nat, j: nat, i': nat, j': nat,
                                       ms: seq<Match>)
    requires i <= |before| && j <= |after| && IsCommon(before, after, i, j, ms) && i' <= i && j' <= j
    requires ms != [] ==> ms[|ms|-1].oldIndex < i' && ms[|ms|-1].newIndex < j'
    ensures IsCommon(before, after, i', j', ms)
  {
    forall k | 0 <= k < |ms|
      ensures ms[k].oldIndex < i' && ms[k].newIndex < j'
    {
      assert k == |ms| - 1 || (ms[k].oldIndex < ms[|ms|-1].oldIndex && ms[k].newIndex < ms[|ms|-1].newIndex);
    }
  }

  lemma {:induction false} DropLast(before: seq<Line>, after: seq<Line>, i: nat, j: nat, ms: seq<Match>)
    requires 0 < i <= |before| && 0 < j <= |after| && IsCommon(before, after, i, j, ms) && ms != []
    ensures IsCommon(before, after, i - 1, j - 1, ms[..|ms|-1])
  {
    var n := |ms| - 1;
    assert forall k :: 0 <= k < n ==> ms[..n][k] == ms[k] && ms[k].oldIndex < ms[n].oldIndex
                                      && ms[k].newIndex < ms[n].newIndex;
  }

  /** When the cell above holds the larger number, every optimal list stays above. */
  lemma {:induction false} UsesLastNew(before: seq<Line>, after: seq<Line>, i: nat, j: nat, ms: seq<Match>)
    requires 0 < i <= |before| && 0 < j <= |after| && IsCommon(before, after, i, j, ms)
    requires |ms| == Len(before, after, i, j) && before[i-1] != after[j-1]
    requires Len(before, after, i - 1, j) > Len(before, after, i, j - 1)
    ensures IsCommon(before, after, i - 1, j, ms)
  {
    if ms != [] && ms[|ms|-1].oldIndex == i - 1 {
      StaysCommon(before, after, i, j, i, j - 1, ms);
      TableIsUpperBound(before, after, i, j - 1, ms);
    } else {
      StaysCommon(before, after, i, j, i - 1, j, ms);
    }
  }

  /** A match that lies later in the old file than the backtrack's lies earlier in the new one, or there would be a
      longer list. */
  lemma {:induction false} LaterIsEarlier(before: seq<Line>, after: seq<Line>, i: nat, j: nat, ms: seq<Match>,
                                          ts: seq<Match>, x: nat)
    requires i <= |before| && j <= |after| && IsCommon(before, after, i, j, ms) && IsCommon(before, after, i, j, ts)
    requires |ms| == |ts| == Len(before, after, i, j) && x < |ms| && ms[x].oldIndex > ts[x].oldIndex
    ensures ms[x].newIndex <= ts[x].newIndex
  {
    if ts[x].newIndex < ms[x].newIndex {
      Splice(before, after, i, j, ts, ms, x + 1, x);
      TableIsUpperBound(before, after, i, j, ts[..x+1] + ms[x..]);
    }
  }

  /** A list that ends in the last new line and has match `x` later than the backtrack, but none behind it, can be
      exchanged with the backtrack behind `x`. */
  function Exchanged(ms: seq<Match>, ts: seq<Match>, x: nat): seq<Match>
    requires x < |ms| == |ts|
  {
    ms[..x+1] + ts[x+1..]
  }

  lemma {:induction false} ExchangeBehind(before: seq<Line>, after: seq<Line>, i: nat, j: nat, ms: seq<Match>,
                                          ts: seq<Match>, x: nat)
    requires i <= |before| && 0 < j <= |after| && IsCommon(before, after, i, j, ms)
    requires IsCommon(before, after, i, j - 1, ts) && |ms| == |ts| == Len(before, after, i, j)
    requires x < |ms| && ms[x].oldIndex > ts[x].oldIndex && ms[|ms|-1].newIndex == j - 1
    requires forall k :: x < k < |ms| ==> ms[k].oldIndex <= ts[k].oldIndex
    ensures IsCommon(before, after, i, j - 1, Exchanged(ms, ts, x))
  {
    assert IsCommon(before, after, i, j, ts);
    LaterIsEarlier(before, after, i, j, ms, ts, x);
    assert x < |ms| - 1;
    assert ms[x].oldIndex < ms[x+1].oldIndex <= ts[x+1].oldIndex && ts[x].newIndex < ts[x+1].newIndex;
    Splice(before, after, i, j, ms, ts, x + 1, x + 1);
    StaysCommon(before, after, i, j, i, j - 1, Exchanged(ms, ts, x));
  }

  /** Main result: of all longest common subsequences the diff takes the one whose matches lie latest in the old file,
      each of them at least as late as the same match of any other. */
  lemma {:induction false} MatchesAreLatest(before: seq<Line>, after: seq<Line>, ms: seq<Match>, k: nat)
    requires IsCommon(before, after, |before|, |after|, ms) && |ms| == |Matches(before, after)| && k < |ms|
    ensures ms[k].oldIndex <= Matches(before, after)[k].oldIndex
  {
    TraceRealisesTable(before, after, |before|, |after|);
    TraceIsLatest(before, after, |before|, |after|, ms);
  }
}
