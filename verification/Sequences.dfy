/** Reversing a slice in place. */
module Sequences {

  /** The swap loop that turns the collected matches round. */
  method ReverseInPlace<T>(s: seq<T>) returns (result: seq<T>)
    ensures result == Reversed(s)
  {
    result := s;
    var left, right := 0, |result| - 1;
    while left < right
      invariant |result| == |s|
      invariant 0 <= left <= right + 2 && right == |result| - 1 - left
      invariant forall k :: 0 <= k < left || right < k < |result| ==> result[k] == s[|s| - 1 - k]
      invariant forall k :: left <= k <= right ==> result[k] == s[k]
    {
      result := result[left := result[right]][right := result[left]];
      left, right := left + 1, right - 1;
    }
  }

  function Reversed<T>(s: seq<T>): (r: seq<T>)
    ensures |r| == |s| && forall k :: 0 <= k < |s| ==> r[k] == s[|s| - 1 - k]
  {
    seq(|s|, k requires 0 <= k < |s| => s[|s| - 1 - k])
  }

  lemma {:induction false} ReversedSnoc<T>(s: seq<T>, x: T)
    ensures Reversed(s + [x]) == [x] + Reversed(s)
  {
  }
}
