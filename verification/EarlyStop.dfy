/** A tail read that stops early: only the blocks it reads matter, so a bad block start further down in the file, or at
    the block where the read stops, does no harm. */
module EarlyStop {

  import opened TailReader
  import opened SessionFile

  /** The lines looked at in the block in front of `r`, and what is carried over from it. */
  function BlockPart(data: Bytes, c: nat, r: nat, carry: Bytes): (p: (seq<Bytes>, Bytes))
    requires c >= 1 && 0 < r <= |data|
  {
    var off := Offset(c, r);
    var fields := Fields(data[off..r] + carry);
    if off > 0 && fields != [] then (fields[1..], fields[0]) else (fields, [])
  }

  /** The lines looked at when blocks are read down to the first one that starts at or in front of `low`. */
  function LinesRead(data: Bytes, c: nat, r: nat, carry: Bytes, low: nat): seq<Bytes>
    requires c >= 1 && r <= |data|
    decreases r
  {
    if r == 0 then []
    else
      var off, part := Offset(c, r), BlockPart(data, c, r, carry);
      if off <= low then part.0 else LinesRead(data, c, off, part.1, low) + part.0
  }

  /** The bad block starts behind `low`. */
  function BadStartsBehind(data: Bytes, c: nat, r: nat, low: nat): nat
    requires c >= 1 && r <= |data|
    decreases r
  {
    if r == 0 then 0
    else
      var off := Offset(c, r);
      if off <= low then 0 else BadStartsBehind(data, c, off, low) + if BadStart(data, off) then 1 else 0
  }

  ghost predicate EndsWith<T>(all: seq<T>, part: seq<T>) {
    |part| <= |all| && all[|all| - |part|..] == part
  }

  lemma {:induction false} EndsWithMore<T>(all: seq<T>, part: seq<T>, more: seq<T>)
    requires EndsWith(all, part)
    ensures EndsWith(all + more, part + more)
  {
  }

  /** What is read is the end of what the blocks hold altogether. */
  lemma {:induction false} ReadIsEndOfBlocks(data: Bytes, c: nat, r: nat, carry: Bytes, low: nat)
    requires c >= 1 && r <= |data|
    ensures EndsWith(BlockLines(data, c, r, carry), LinesRead(data, c, r, carry, low))
    decreases r
  {
    if r == 0 {
    } else {
      var off, part := Offset(c, r), BlockPart(data, c, r, carry);
      BlockUnfolds(data, c, r, carry, part.1, part.0);
      if off > low {
        ReadIsEndOfBlocks(data, c, off, part.1, low);
        EndsWithMore(BlockLines(data, c, off, part.1), LinesRead(data, c, off, part.1, low), part.0);
      }
    }
  }

  /** Whatever stands in front of a text, all its lines but the first are lines of the whole. */
  lemma {:induction false} AllButFirst(front: Bytes, chunk: Bytes)
    requires Fields(chunk) != []
    ensures EndsWith(Fields(front + chunk), Fields(chunk)[1..])
  {
    var i, x, rest := FirstField(chunk);
    SplitBehindFirst(front, chunk, i, x, rest);
    EndsWithBack(Fields(front + chunk), Fields(front + chunk[..i] + x), Fields(rest));
    assert Fields(chunk)[1..] == Fields(rest);
  }

  lemma {:induction false} EndsWithBack<T>(all: seq<T>, front: seq<T>, back: seq<T>)
    requires all == front + back
    ensures EndsWith(all, back)
  {
  }

  lemma {:induction false} SplitBehindFirst(front: Bytes, chunk: Bytes, i: nat, x: Bytes, rest: Bytes)
    requires i <= |chunk| && chunk[i..] == x + rest && (rest == [] || rest[0] == NEWLINE)
    ensures Fields(front + chunk) == Fields(front + chunk[..i] + x) + Fields(rest)
  {
    JoinParts(front, chunk, i, x, rest);
    FieldsExtend(front + chunk[..i] + x, rest);
  }

  lemma {:induction false} JoinParts(front: Bytes, chunk: Bytes, i: nat, x: Bytes, rest: Bytes)
    requires i <= |chunk| && chunk[i..] == x + rest
    ensures front + chunk == front + chunk[..i] + x + rest
  {
    assert chunk == chunk[..i] + chunk[i..];
  }

  /** The lines of one block are lines of the file, even if the block starts badly. */
  lemma {:induction false} PartIsEnd(data: Bytes, c: nat, r: nat, carry: Bytes)
    requires c >= 1 && 0 < r <= |data|
    ensures EndsWith(Fields(data[..r] + carry), BlockPart(data, c, r, carry).0)
  {
    var off := Offset(c, r);
    var chunk := data[off..r] + carry;
    assert data[..r] + carry == data[..off] + chunk;
    if off > 0 && Fields(chunk) != [] {
      AllButFirst(data[..off], chunk);
    } else if off == 0 {
      assert data[..off] + chunk == chunk;
    }
  }

  /** Without bad starts behind `low`, what is read is the end of the file's own lines. */
  lemma {:induction false} ReadIsEndOfFile(data: Bytes, c: nat, r: nat, carry: Bytes, low: nat)
    requires c >= 1 && r <= |data| && CarryFits(data, r, carry) && BadStartsBehind(data, c, r, low) == 0
    ensures EndsWith(Fields(data[..r] + carry), LinesRead(data, c, r, carry, low))
    decreases r
  {
    if r == 0 {
    } else {
      var off, part := Offset(c, r), BlockPart(data, c, r, carry);
      if off <= low {
        PartIsEnd(data, c, r, carry);
      } else {
        GoodBlock(data, c, r, carry);
        ReadIsEndOfFile(data, c, off, part.1, low);
        EndsWithMore(Fields(data[..off] + part.1), LinesRead(data, c, off, part.1, low), part.0);
      }
    }
  }

  lemma {:induction false} GoodBlock(data: Bytes, c: nat, r: nat, carry: Bytes)
    requires c >= 1 && 0 < r <= |data| && Offset(c, r) > 0 && CarryFits(data, r, carry) && !BadStart(data, Offset(c, r))
    ensures var off, part := Offset(c, r), BlockPart(data, c, r, carry);
            CarryFits(data, off, part.1) && Fields(data[..r] + carry) == Fields(data[..off] + part.1) + part.0
  {
    var off := Offset(c, r);
    var i, x, rest := FirstField(data[off..r] + carry);
    if x == [] {
      EmptyBlock(data, off, r, carry);
      GoodStep(data, off, r, carry, [], []);
    } else {
      FullBlock(data, off, r, carry, i, x, rest);
      GoodStep(data, off, r, carry, x, Fields(rest));
      CutFirst(x, Fields(rest), Fields(data[off..r] + carry));
    }
  }

  lemma {:induction false} GoodStep(data: Bytes, off: nat, r: nat, carry: Bytes, next: Bytes, emitted: seq<Bytes>)
    requires 0 < off < r <= |data| && StepCounts(data, off, r, carry, next, emitted) && !BadStart(data, off)
    ensures Fields(data[..r] + carry) == Fields(data[..off] + next) + emitted
  {
  }

  lemma {:induction false} CutFirst<T>(x: T, rest: seq<T>, all: seq<T>)
    requires all == [x] + rest
    ensures all[0] == x && all[1..] == rest
  {
  }

  // ----- the tail of an end

  lemma {:induction false} MessagesOfConcat<M>(codec: Codec<M>, a: seq<Bytes>, b: seq<Bytes>, k: nat)
    requires k <= |b|
    ensures MessagesUpTo(codec, a + b, |a| + k) == MessagesOf(codec, a) + MessagesUpTo(codec, b, k)
  {
    if k == 0 {
      MessagesOfFront(codec, a, a + b, |a|);
      assert MessagesUpTo(codec, b, 0) == [];
    } else {
      MessagesOfConcat(codec, a, b, k - 1);
    }
  }

  lemma {:induction false} MessagesOfFront<M>(codec: Codec<M>, a: seq<Bytes>, all: seq<Bytes>, k: nat)
    requires a <= all && k <= |a|
    ensures MessagesUpTo(codec, all, k) == MessagesUpTo(codec, a, k)
  {
    if k == 0 {
    } else {
      MessagesOfFront(codec, a, all, k - 1);
    }
  }

  /** Going back through the end of a list is like going back through the end alone, as long as it stops there. */
  lemma {:induction false} TailOfEnd<M>(codec: Codec<M>, front: seq<M>, end: seq<M>, n: nat, used: int, budget: int)
    requires n <= |end| && TailFrom(codec, end, n, used, budget) > 0
    ensures TailFrom(codec, front + end, |front| + n, used, budget) == |front| + TailFrom(codec, end, n, used, budget)
  {
    if used + codec.tokens(end[n-1]) > budget && n < |end| {
    } else {
      TailOfEnd(codec, front, end, n - 1, used + codec.tokens(end[n-1]), budget);
    }
  }

  /** The budget is used up within these lines: some message among them no longer fits. */
  ghost predicate StopsWithin<M>(codec: Codec<M>, lines: seq<Bytes>, budget: int) {
    var ms := MessagesOf(codec, lines);
    TailFrom(codec, ms, |ms|, 0, budget) > 0
  }

  lemma {:induction false} TailOfLines<M>(codec: Codec<M>, all: seq<Bytes>, lines: seq<Bytes>, budget: int)
    requires EndsWith(all, lines) && StopsWithin(codec, lines, budget)
    ensures Tail(codec, MessagesOf(codec, all), budget) == Tail(codec, MessagesOf(codec, lines), budget)
  {
    var front := all[..|all| - |lines|];
    assert all == front + lines;
    MessagesOfConcat(codec, front, lines, |lines|);
    var before, ms := MessagesOf(codec, front), MessagesOf(codec, lines);
    TailOfEnd(codec, before, ms, |ms|, 0, budget);
  }

  /** Main result: when the budget is used up by the lines read down to `low`, the tail read gives the greedy tail of
      the whole file whenever no block start behind `low` is a bad one; what the file holds further down does not
      matter. */
  lemma {:induction false} OnlyReadBlocksMatter<M>(codec: Codec<M>, data: Bytes, c: nat, low: nat, budget: int)
    requires c >= 1 && StopsWithin(codec, LinesRead(data, c, |data|, [], low), budget)
    requires BadStartsBehind(data, c, |data|, low) == 0
    ensures Tail(codec, MessagesOf(codec, BlockLines(data, c, |data|, [])), budget)
         == Tail(codec, MessagesOf(codec, Fields(data)), budget)
  {
    var lines := LinesRead(data, c, |data|, [], low);
    ReadIsEndOfBlocks(data, c, |data|, [], low);
    ReadIsEndOfFile(data, c, |data|, [], low);
    assert data[..|data|] + [] == data;
    TailOfLines(codec, BlockLines(data, c, |data|, []), lines, budget);
    TailOfLines(codec, Fields(data), lines, budget);
  }
}
