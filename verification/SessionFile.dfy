/** The append-only session file: one encoded message and a newline per append, and a tail read that stops at a
    token budget. */
module SessionFile {

  import opened Options
  import opened Sequences
  import opened TailReader

  /** JSON encoding and decoding of a message, and its token count. */
  datatype Codec<!M> = Codec(encode: M -> Bytes, decode: Bytes -> Option<M>, tokens: M -> int)

  /** The messages among the first `k` lines; a line that does not decode is skipped. */
  function MessagesUpTo<M>(codec: Codec<M>, ls: seq<Bytes>, k: nat): (ms: seq<M>)
    requires k <= |ls|
    ensures |ms| <= k
  {
    if k == 0 then []
    else
      match codec.decode(ls[k-1])
      case None => MessagesUpTo(codec, ls, k-1)
      case Some(m) => MessagesUpTo(codec, ls, k-1) + [m]
  }

  function MessagesOf<M>(codec: Codec<M>, ls: seq<Bytes>): seq<M> {
    MessagesUpTo(codec, ls, |ls|)
  }

  /** Going back from message `n` with `used` tokens already taken: where the tail starts. The newest message is
      always taken. */
  function TailFrom<M>(codec: Codec<M>, ms: seq<M>, n: nat, used: int, budget: int): (s: nat)
    requires n <= |ms|
    ensures s <= n && (n == |ms| && n > 0 ==> s < n)
  {
    if n == 0 then 0
    else if used + codec.tokens(ms[n-1]) > budget && n < |ms| then n
    else TailFrom(codec, ms, n-1, used + codec.tokens(ms[n-1]), budget)
  }

  function Tail<M>(codec: Codec<M>, ms: seq<M>, budget: int): seq<M> {
    ms[TailFrom(codec, ms, |ms|, 0, budget)..]
  }

  /** Tokens of the messages from `n` on. */
  function Sum<M>(codec: Codec<M>, ms: seq<M>, n: nat): int
    requires n <= |ms|
    decreases |ms| - n
  {
    if n == |ms| then 0 else codec.tokens(ms[n]) + Sum(codec, ms, n + 1)
  }

  lemma {:induction false} TailFromFits<M>(codec: Codec<M>, ms: seq<M>, n: nat, budget: int)
    requires n <= |ms|
    ensures var s := TailFrom(codec, ms, n, Sum(codec, ms, n), budget);
            && (s > 0 && s < |ms| ==> Sum(codec, ms, s - 1) > budget)
            && forall t :: s <= t < n && t < |ms| - 1 ==> Sum(codec, ms, t) <= budget
  {
    if n == 0 {
    } else if Sum(codec, ms, n) + codec.tokens(ms[n-1]) > budget && n < |ms| {
    } else {
      TailFromFits(codec, ms, n - 1, budget);
    }
  }

  /** The tail is the longest run of newest messages in which every run of two or more fits the budget. */
  lemma {:induction false} TailIsLongest<M>(codec: Codec<M>, ms: seq<M>, budget: int)
    ensures var s := |ms| - |Tail(codec, ms, budget)|;
            && Tail(codec, ms, budget) == ms[s..] && (ms != [] ==> s < |ms|)
            && (forall t :: s <= t < |ms| - 1 ==> Sum(codec, ms, t) <= budget)
            && (s > 0 ==> Sum(codec, ms, s - 1) > budget)
  {
    TailFromFits(codec, ms, |ms|, budget);
  }

  /** The state of the read when the lines from `k` on have been looked at: the messages among them, newest first,
      all still inside the budget. */
  ghost predicate Collected<M>(codec: Codec<M>, all: seq<Bytes>, k: nat, budget: int, messages: seq<M>, tokensUsed: int)
    requires k <= |all|
  {
    var ms, p := MessagesOf(codec, all), |MessagesUpTo(codec, all, k)|;
    && |messages| == |ms| - p
    && (forall i :: 0 <= i < |messages| ==> messages[i] == ms[|ms| - 1 - i])
    && TailFrom(codec, ms, |ms|, 0, budget) == TailFrom(codec, ms, p, tokensUsed, budget)
  }

  lemma {:induction false} MessagesPrefix<M>(codec: Codec<M>, ls: seq<Bytes>, k: nat, n: nat)
    requires k <= n <= |ls|
    ensures |MessagesUpTo(codec, ls, k)| <= |MessagesUpTo(codec, ls, n)|
    ensures MessagesUpTo(codec, ls, n)[..|MessagesUpTo(codec, ls, k)|] == MessagesUpTo(codec, ls, k)
  {
    if k == n {
    } else {
      MessagesPrefix(codec, ls, k, n - 1);
    }
  }

  /** Looking at one more line. */
  lemma {:induction false} CollectLine<M>(codec: Codec<M>, all: seq<Bytes>, k: nat, budget: int, messages: seq<M>,
                                          tokensUsed: int)
    requires 0 < k <= |all| && Collected(codec, all, k, budget, messages, tokensUsed)
    ensures match codec.decode(all[k-1])
            case None => Collected(codec, all, k - 1, budget, messages, tokensUsed)
            case Some(m) =>
              if tokensUsed + codec.tokens(m) > budget && |messages| > 0
              then Reversed(messages) == Tail(codec, MessagesOf(codec, all), budget)
              else Collected(codec, all, k - 1, budget, messages + [m], tokensUsed + codec.tokens(m))
  {
    var ms, p := MessagesOf(codec, all), |MessagesUpTo(codec, all, k)|;
    MessagesPrefix(codec, all, k, |all|);
    match codec.decode(all[k-1])
    case None =>
    case Some(m) =>
      assert ms[p-1] == ms[..p][p-1] == m;
  }

  lemma {:induction false} CollectedAll<M>(codec: Codec<M>, all: seq<Bytes>, budget: int, messages: seq<M>,
                                           tokensUsed: int)
    requires Collected(codec, all, 0, budget, messages, tokensUsed)
    ensures Reversed(messages) == Tail(codec, MessagesOf(codec, all), budget)
  {
  }

  /** What one block contributes: its lines are the next ones from the end, and the rest is left for later blocks. */
  lemma {:induction false} NextBlock(data: Bytes, c: nat, r: nat, carry: Bytes, all: seq<Bytes>, k: nat, carry': Bytes,
                                     lines: seq<Bytes>)
    requires c >= 1 && 0 < r <= |data| && k <= |all| && BlockLines(data, c, r, carry) == all[..k]
    requires var off, fields := Offset(c, r), Fields(data[Offset(c, r)..r] + carry);
             if off > 0 && |fields| > 0 then carry' == fields[0] && lines == fields[1..]
             else carry' == [] && lines == fields
    ensures |lines| <= k && BlockLines(data, c, Offset(c, r), carry') == all[..k - |lines|]
    ensures forall i :: 0 <= i < |lines| ==> lines[i] == all[k - |lines| + i]
  {
    BlockUnfolds(data, c, r, carry, carry', lines);
    PrefixInTwo(all, k, BlockLines(data, c, Offset(c, r), carry'), lines);
  }

  lemma {:induction false} BlockUnfolds(data: Bytes, c: nat, r: nat, carry: Bytes, carry': Bytes, lines: seq<Bytes>)
    requires c >= 1 && 0 < r <= |data|
    requires var off, fields := Offset(c, r), Fields(data[Offset(c, r)..r] + carry);
             if off > 0 && |fields| > 0 then carry' == fields[0] && lines == fields[1..]
             else carry' == [] && lines == fields
    ensures BlockLines(data, c, r, carry) == BlockLines(data, c, Offset(c, r), carry') + lines
  {
  }

  lemma {:induction false} PrefixInTwo<T>(all: seq<T>, k: nat, front: seq<T>, back: seq<T>)
    requires k <= |all| && all[..k] == front + back
    ensures |back| <= k && front == all[..k - |back|]
    ensures forall i :: 0 <= i < |back| ==> back[i] == all[k - |back| + i]
  {
    assert |all[..k]| == |front| + |back|;
    assert all[..k][..|front|] == front;
    forall i | 0 <= i < |back|
      ensures back[i] == all[k - |back| + i]
    {
      assert all[..k][|front| + i] == back[i];
    }
  }

  class SessionFile<!M(0)> {
    var data: Bytes
    const codec: Codec<M>
    const chunkSize: nat

    constructor (codec: Codec<M>, chunkSize: nat)
      requires chunkSize >= 1
      ensures this.codec == codec && this.chunkSize == chunkSize && data == []
    {
      this.codec, this.chunkSize, this.data := codec, chunkSize, [];
    }

    /** `Append`: one encoded line. */
    method Append(msg: M)
      modifies this
      ensures data == old(data) + codec.encode(msg) + [NEWLINE]
    {
      data := data + codec.encode(msg) + [NEWLINE];
    }

    /** The block loop; it stops as soon as a message no longer fits. */
    method LoadTail(tokenBudget: int) returns (messages: seq<M>)
      requires chunkSize >= 1
      ensures messages == Tail(codec, MessagesOf(codec, BlockLines(data, chunkSize, |data|, [])), tokenBudget)
      ensures BadStarts(data, chunkSize, |data|) == 0 ==>
                messages == Tail(codec, MessagesOf(codec, Fields(data)), tokenBudget)
    {
      if |data| == 0 {
        BlockwiseIffNoBadStart(data, chunkSize);
        return [];
      }
      ghost var all := BlockLines(data, chunkSize, |data|, []);
      ghost var k: nat := |all|;
      messages := [];
      var tokensUsed, remaining: nat, carryover: Bytes := 0, |data|, [];
      var stopped := false;
      assert all[..k] == all;
      while remaining > 0 && !stopped
        invariant Reads(all, k, remaining, carryover, tokenBudget, stopped, messages, tokensUsed)
      {
        k, remaining, carryover, stopped, messages, tokensUsed :=
          TakeBlock(all, k, remaining, carryover, tokenBudget, messages, tokensUsed);
      }
      if !stopped {
        // The source still looks at the carryover here; nothing is ever left in it.
        AllIsRead(all, k, remaining, carryover, tokenBudget, messages, tokensUsed);
      }
      messages := ReverseInPlace(messages);
      BlockwiseIffNoBadStart(data, chunkSize);
    }

    /** The state of the block loop: `all` are the lines it will have seen, the ones from `k` on have been looked at. */
    ghost predicate Reads(all: seq<Bytes>, k: nat, remaining: nat, carryover: Bytes, tokenBudget: int, stopped: bool,
                          messages: seq<M>, tokensUsed: int)
      requires chunkSize >= 1
      reads this
    {
      && remaining <= |data| && (remaining == 0 ==> carryover == [])
      && k <= |all| && BlockLines(data, chunkSize, remaining, carryover) == all[..k]
      && if stopped then Reversed(messages) == Tail(codec, MessagesOf(codec, all), tokenBudget)
         else Collected(codec, all, k, tokenBudget, messages, tokensUsed)
    }

    /** The lines of the block in front of `remaining` are the next ones from the end. */
    method ReadNext(ghost all: seq<Bytes>, ghost k: nat, remaining: nat, carryover: Bytes)
      returns (offset: nat, lines: seq<Bytes>, carried: Bytes)
      requires chunkSize >= 1 && 0 < remaining <= |data| && k <= |all|
      requires BlockLines(data, chunkSize, remaining, carryover) == all[..k]
      ensures offset < remaining && (offset == 0 ==> carried == [])
      ensures |lines| <= k && BlockLines(data, chunkSize, offset, carried) == all[..k - |lines|]
      ensures forall i :: 0 <= i < |lines| ==> lines[i] == all[k - |lines| + i]
    {
      offset, lines, carried := ReadBlock(remaining, carryover);
      NextBlock(data, chunkSize, remaining, carryover, all, k, carried, lines);
    }

    /** One round of the block loop. */
    method TakeBlock(ghost all: seq<Bytes>, ghost k: nat, remaining: nat, carryover: Bytes, tokenBudget: int,
                     messages: seq<M>, tokensUsed: int)
      returns (ghost k': nat, remaining': nat, carryover': Bytes, stopped: bool, messages': seq<M>, tokensUsed': int)
      requires chunkSize >= 1 && remaining > 0
      requires Reads(all, k, remaining, carryover, tokenBudget, false, messages, tokensUsed)
      ensures Reads(all, k', remaining', carryover', tokenBudget, stopped, messages', tokensUsed')
      ensures remaining' < remaining
    {
      var lines;
      remaining', lines, carryover' := ReadNext(all, k, remaining, carryover);
      stopped, messages', tokensUsed' := ReadLines(lines, tokenBudget, messages, tokensUsed, all, k);
      k' := k - |lines|;
    }

    /** When every block has been read, everything has been looked at, the carryover included. */
    lemma {:induction false} AllIsRead(all: seq<Bytes>, k: nat, remaining: nat, carryover: Bytes, tokenBudget: int,
                                       messages: seq<M>, tokensUsed: int)
      requires chunkSize >= 1 && remaining == 0
      requires Reads(all, k, remaining, carryover, tokenBudget, false, messages, tokensUsed)
      ensures carryover == [] && Reversed(messages) == Tail(codec, MessagesOf(codec, all), tokenBudget)
    {
      assert |all[..k]| == 0;
      CollectedAll(codec, all, tokenBudget, messages, tokensUsed);
    }

    /** Reads the block in front of `remaining`, appends the carryover and carries its own first line over. */
    method ReadBlock(remaining: nat, carryover: Bytes) returns (offset: nat, lines: seq<Bytes>, carried: Bytes)
      requires chunkSize >= 1 && 0 < remaining <= |data|
      ensures offset == Offset(chunkSize, remaining)
      ensures var fields := Fields(data[offset..remaining] + carryover);
              if offset > 0 && |fields| > 0 then carried == fields[0] && lines == fields[1..]
              else carried == [] && lines == fields
    {
      var readSize := if chunkSize > remaining then remaining else chunkSize;
      offset := remaining - readSize;
      lines := SplitLines(data[offset..remaining] + carryover);
      carried := [];
      if offset > 0 && |lines| > 0 {
        carried := lines[0];
        lines := lines[1..];
      }
    }

    /** One line: skipped when it does not decode, otherwise taken unless it no longer fits. */
    method TakeLine(line: Bytes, tokenBudget: int, messages: seq<M>, tokensUsed: int, ghost all: seq<Bytes>,
                    ghost k: nat)
      returns (stopped: bool, messages': seq<M>, tokensUsed': int)
      requires 0 < k <= |all| && all[k-1] == line
      requires Collected(codec, all, k, tokenBudget, messages, tokensUsed)
      ensures stopped ==> Reversed(messages') == Tail(codec, MessagesOf(codec, all), tokenBudget)
      ensures !stopped ==> Collected(codec, all, k - 1, tokenBudget, messages', tokensUsed')
    {
      stopped, messages', tokensUsed' := false, messages, tokensUsed;
      CollectLine(codec, all, k, tokenBudget, messages, tokensUsed);
      var decoded := codec.decode(line);
      if decoded.None? {
        return;
      }
      var msg := decoded.value;
      if tokensUsed + codec.tokens(msg) > tokenBudget && |messages| > 0 {
        stopped := true;
        return;
      }
      messages' := messages + [msg];
      tokensUsed' := tokensUsed + codec.tokens(msg);
    }

    /** The loop over the lines of one block, newest first. */
    method ReadLines(lines: seq<Bytes>, tokenBudget: int, messages: seq<M>, tokensUsed: int, ghost all: seq<Bytes>,
                     ghost k: nat)
      returns (stopped: bool, messages': seq<M>, tokensUsed': int)
      requires |lines| <= k <= |all| && forall i :: 0 <= i < |lines| ==> lines[i] == all[k - |lines| + i]
      requires Collected(codec, all, k, tokenBudget, messages, tokensUsed)
      ensures stopped ==> Reversed(messages') == Tail(codec, MessagesOf(codec, all), tokenBudget)
      ensures !stopped ==> Collected(codec, all, k - |lines|, tokenBudget, messages', tokensUsed')
    {
      stopped, messages', tokensUsed' := false, messages, tokensUsed;
      var i: nat := |lines|;
      while i > 0 && !stopped
        invariant i <= |lines|
        invariant stopped ==> Reversed(messages') == Tail(codec, MessagesOf(codec, all), tokenBudget)
        invariant !stopped ==> Collected(codec, all, k - |lines| + i, tokenBudget, messages', tokensUsed')
      {
        i := i - 1;
        stopped, messages', tokensUsed' := TakeLine(lines[i], tokenBudget, messages', tokensUsed', all,
                                                    k - |lines| + i + 1);
      }
    }
  }
}
