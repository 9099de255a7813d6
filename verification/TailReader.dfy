/** Reading the newest messages of a session file backwards, block by block. The reference splits the whole file at
    once; the main result is the exact condition under which the blocks make no difference. */
module TailReader {


  newtype byte = x: int | 0 <= x < 256

  const NEWLINE: byte := 10

  /** The block size of the source. */
  const CHUNK_SIZE := 8 * 1024

  type Bytes = seq<byte>

  // ----- splitting

  /** The position behind the last newline among the first `i` bytes. */
  function Start(data: Bytes, i: nat): (s: nat)
    requires i <= |data|
    ensures s <= i
  {
    if i == 0 then 0 else if data[i-1] == NEWLINE then i else Start(data, i-1)
  }

  /** The non-empty lines completed within the first `i` bytes. */
  function Completed(data: Bytes, i: nat): seq<Bytes>
    requires i <= |data|
  {
    if i == 0 then []
    else if data[i-1] == NEWLINE && i - 1 > Start(data, i-1) then Completed(data, i-1) + [data[Start(data, i-1)..i-1]]
    else Completed(data, i-1)
  }

  /** The non-empty lines of `data`. */
  function Fields(data: Bytes): seq<Bytes> {
    var s := Start(data, |data|);
    if s < |data| then Completed(data, |data|) + [data[s..]] else Completed(data, |data|)
  }

  /** `splitLines`, with its running start. */
  method SplitLines(data: Bytes) returns (lines: seq<Bytes>)
    ensures lines == Fields(data)
  {
    lines := [];
    var start := 0;
    for i := 0 to |data|
      invariant start == Start(data, i)
      invariant lines == Completed(data, i)
    {
      if data[i] == NEWLINE {
        if i > start {
          lines := lines + [data[start..i]];
        }
        start := i + 1;
      }
    }
    if start < |data| {
      lines := lines + [data[start..]];
    }
  }

  lemma {:induction false} PrefixCompleted(a: Bytes, s: Bytes, i: nat)
    requires a <= s && i <= |a|
    ensures Start(s, i) == Start(a, i) && Completed(s, i) == Completed(a, i)
  {
    if i == 0 {
    } else {
      PrefixCompleted(a, s, i - 1);
      assert s[Start(a, i-1)..i-1] == a[Start(a, i-1)..i-1];
    }
  }

  lemma {:induction false} CompletedThroughNewline(s: Bytes, a: Bytes)
    requires a < s && s[|a|] == NEWLINE
    ensures Start(s, |a| + 1) == |a| + 1 && Completed(s, |a| + 1) == Fields(a)
  {
    PrefixCompleted(a, s, |a|);
    assert s[Start(a, |a|)..|a|] == a[Start(a, |a|)..];
  }

  /** What follows a newline is split on its own: from place `n` on, `s` reads like `b`. */
  lemma {:induction false} CompletedBehind(s: Bytes, n: nat, b: Bytes, i: nat, done: seq<Bytes>)
    requires n <= |s| && s[n..] == b && i <= |b|
    requires Start(s, n) == n && Completed(s, n) == done
    ensures Start(s, n + i) == n + Start(b, i) && Completed(s, n + i) == done + Completed(b, i)
  {
    if i == 0 {
      assert Completed(b, 0) == [];
    } else {
      CompletedBehind(s, n, b, i - 1, done);
      CompletedStep(s, n, b, i, done);
    }
  }

  lemma {:induction false} CompletedStep(s: Bytes, n: nat, b: Bytes, i: nat, done: seq<Bytes>)
    requires n <= |s| && s[n..] == b && 0 < i <= |b|
    requires Start(s, n + i - 1) == n + Start(b, i - 1) && Completed(s, n + i - 1) == done + Completed(b, i - 1)
    ensures Start(s, n + i) == n + Start(b, i) && Completed(s, n + i) == done + Completed(b, i)
  {
    assert s[n + i - 1] == b[i-1];
    assert s[n + Start(b, i-1)..n + i - 1] == b[Start(b, i-1)..i-1];
  }

  lemma {:induction false} FieldsAround(s: Bytes, a: Bytes, b: Bytes)
    requires a < s && s[|a|] == NEWLINE && s[|a| + 1..] == b
    ensures Fields(s) == Fields(a) + Fields(b)
  {
    CompletedThroughNewline(s, a);
    CompletedBehind(s, |a| + 1, b, |b|, Fields(a));
    FieldsBehind(s, |a| + 1, b, Start(b, |b|), Fields(a), Completed(b, |b|));
  }

  /** The law of splitting. */
  lemma {:induction false} FieldsConcat(a: Bytes, b: Bytes)
    ensures Fields(a + [NEWLINE] + b) == Fields(a) + Fields(b)
  {
    FieldsAround(a + [NEWLINE] + b, a, b);
  }

  lemma {:induction false} FieldsBehind(s: Bytes, n: nat, b: Bytes, p: nat, before: seq<Bytes>, completed: seq<Bytes>)
    requires n <= |s| && s[n..] == b && p <= |b| && Start(b, |b|) == p && Completed(b, |b|) == completed
    requires Start(s, |s|) == n + p && Completed(s, |s|) == before + completed
    ensures Fields(s) == before + Fields(b)
  {
    LastLine(s, n + p, before + completed);
    LastLine(b, p, completed);
    if p < |b| {
      assert s[n + p..] == b[p..];
      assert before + completed + [b[p..]] == before + (completed + [b[p..]]);
    }
  }

  lemma {:induction false} LastLine(s: Bytes, p: nat, completed: seq<Bytes>)
    requires p <= |s| && Start(s, |s|) == p && Completed(s, |s|) == completed
    ensures Fields(s) == if p < |s| then completed + [s[p..]] else completed
  {
  }

  lemma {:induction false} NoNewlineNoStart(x: Bytes, i: nat)
    requires NEWLINE !in x && i <= |x|
    ensures Start(x, i) == 0 && Completed(x, i) == []
  {
    if i == 0 {
    } else {
      assert x[i-1] in x;
      NoNewlineNoStart(x, i - 1);
    }
  }

  /** A stretch without newline is one line, or none when it is empty. */
  lemma {:induction false} FieldsOfStretch(x: Bytes)
    requires NEWLINE !in x
    ensures Fields(x) == if x == [] then [] else [x]
  {
    NoNewlineNoStart(x, |x|);
  }

  lemma {:induction false} FieldsLeadingNewline(t: Bytes)
    ensures Fields([NEWLINE] + t) == Fields(t)
  {
    FieldsAround([NEWLINE] + t, [], t);
    assert Fields([]) == [];
  }

  lemma {:induction false} FieldsExtendLine(a: Bytes, t: Bytes)
    ensures Fields(a + ([NEWLINE] + t)) == Fields(a) + Fields(t)
  {
    FieldsAround(a + ([NEWLINE] + t), a, t);
  }

  /** Extending by bytes that start a new line, or by nothing. */
  lemma {:induction false} FieldsExtend(a: Bytes, rest: Bytes)
    requires rest == [] || rest[0] == NEWLINE
    ensures Fields(a + rest) == Fields(a) + Fields(rest)
  {
    if rest == [] {
      assert a + rest == a;
    } else {
      FieldsExtendLine(a, rest[1..]);
      FieldsLeadingNewline(rest[1..]);
      assert [NEWLINE] + rest[1..] == rest;
    }
  }

  lemma {:induction false} FieldsBehindNewline(data: Bytes, i: nat)
    requires i < |data| && data[i] == NEWLINE
    ensures Fields(data[i..]) == Fields(data[i+1..])
  {
    assert data[i..] == [NEWLINE] + data[i+1..];
    FieldsLeadingNewline(data[i+1..]);
  }

  lemma {:induction false} SkipFrom(data: Bytes, k: nat) returns (i: nat)
    requires k <= |data| && forall j :: 0 <= j < k ==> data[j] == NEWLINE
    ensures i <= |data| && (i < |data| ==> data[i] != NEWLINE)
    ensures forall j :: 0 <= j < i ==> data[j] == NEWLINE
    ensures Fields(data[k..]) == Fields(data[i..])
    decreases |data| - k
  {
    if k == |data| || data[k] != NEWLINE {
      i := k;
    } else {
      FieldsBehindNewline(data, k);
      i := SkipFrom(data, k + 1);
    }
  }

  lemma {:induction false} SkipNewlines(data: Bytes) returns (i: nat)
    ensures i <= |data| && (i < |data| ==> data[i] != NEWLINE)
    ensures forall j :: 0 <= j < i ==> data[j] == NEWLINE
    ensures Fields(data) == Fields(data[i..])
  {
    i := SkipFrom(data, 0);
    assert data[0..] == data;
  }

  lemma {:induction false} NextNewline(data: Bytes) returns (j: nat)
    ensures j <= |data| && (j < |data| ==> data[j] == NEWLINE)
    ensures NEWLINE !in data[..j]
    decreases |data|
  {
    if data == [] || data[0] == NEWLINE {
      j := 0;
    } else {
      var j' := NextNewline(data[1..]);
      j := j' + 1;
      assert data[..j] == [data[0]] + data[1..][..j'];
    }
  }

  /** Where the first non-empty line of `data` lies: behind the leading newlines, up to the next newline. */
  lemma {:induction false} FirstField(data: Bytes) returns (i: nat, x: Bytes, rest: Bytes)
    ensures i <= |data| && data[i..] == x + rest
    ensures forall j :: 0 <= j < i ==> data[j] == NEWLINE
    ensures NEWLINE !in x && (rest == [] || rest[0] == NEWLINE) && (x == [] <==> i == |data|)
    ensures Fields(data) == if x == [] then [] else [x] + Fields(rest)
  {
    i := SkipNewlines(data);
    x, rest := CutField(data[i..]);
  }

  lemma {:induction false} CutField(t: Bytes) returns (x: Bytes, rest: Bytes)
    requires t == [] || t[0] != NEWLINE
    ensures t == x + rest && NEWLINE !in x && (rest == [] || rest[0] == NEWLINE) && (x == [] <==> t == [])
    ensures Fields(t) == if x == [] then [] else [x] + Fields(rest)
  {
    var j := NextNewline(t);
    x, rest := t[..j], t[j..];
    assert x + rest == t;
    FieldsOfStretch(x);
    FieldsExtend(x, rest);
  }

  // ----- reading block by block

  /** The lines the block reader sees, oldest first, when `carry` is the piece carried over from behind `data[..r]`. */
  function BlockLines(data: Bytes, c: nat, r: nat, carry: Bytes): seq<Bytes>
    requires c >= 1 && r <= |data|
    decreases r
  {
    if r == 0 then []
    else
      var off := Offset(c, r);
      var lines := Fields(data[off..r] + carry);
      if off > 0 && lines != [] then BlockLines(data, c, off, lines[0]) + lines[1..]
      else BlockLines(data, c, off, []) + lines
  }

  function Offset(c: nat, r: nat): (off: nat)
    requires c >= 1 && r > 0
    ensures off < r
  {
    if c < r then r - c else 0
  }

  /** A block start that loses a line break: it falls on the newline that ends a non-empty line, with another
      non-empty line somewhere behind it. */
  predicate BadStart(data: Bytes, off: nat)
    requires 0 < off < |data|
  {
    data[off] == NEWLINE && data[off-1] != NEWLINE && HasContent(data, off)
  }

  predicate HasContent(data: Bytes, from: nat)
    requires from <= |data|
  {
    exists j :: from <= j < |data| && data[j] != NEWLINE
  }

  /** How many of the interior block starts in front of `r` lose a line break. */
  function BadStarts(data: Bytes, c: nat, r: nat): nat
    requires c >= 1 && r <= |data|
    decreases r
  {
    if r == 0 then 0
    else
      var off := Offset(c, r);
      if off == 0 then 0 else BadStarts(data, c, off) + if BadStart(data, off) then 1 else 0
  }

  /** What is carried over is never empty once there is content behind the block, and never holds a newline. */
  ghost predicate CarryFits(data: Bytes, r: nat, carry: Bytes)
    requires r <= |data|
  {
    NEWLINE !in carry && (carry == [] <==> !HasContent(data, r))
  }

  /** A block that starts inside a line, or on its first byte: the first line is carried over whole. */
  lemma {:induction false} CarryIsSafe(front: Bytes, x: Bytes, rest: Bytes)
    requires rest == [] || rest[0] == NEWLINE
    ensures Fields(front + (x + rest)) == Fields(front + x) + Fields(rest)
  {
    FieldsExtend(front + x, rest);
    assert front + x + rest == front + (x + rest);
  }

  /** A block that starts on newlines: its first line is complete, and so is the line in front of it. */
  lemma {:induction false} FirstLineIsComplete(front: Bytes, chunk: Bytes, x: Bytes, rest: Bytes, i: nat)
    requires 0 < i <= |chunk| && chunk[i..] == x + rest && NEWLINE !in x && x != []
    requires rest == [] || rest[0] == NEWLINE
    requires forall j :: 0 <= j < i ==> chunk[j] == NEWLINE
    ensures Fields(front + chunk) == Fields(front) + ([x] + Fields(rest))
  {
    SplitAtNewlines(front, chunk, i);
    FieldsExtend(x, rest);
    FieldsOfStretch(x);
  }

  /** Gluing text to an unfinished line does not add a line; behind a newline it does. */
  lemma {:induction false} GlueCount(front: Bytes, x: Bytes)
    requires front != [] && NEWLINE !in x && x != []
    ensures if front[|front|-1] == NEWLINE then Fields(front + x) == Fields(front) + [x]
            else |Fields(front + x)| == |Fields(front)|
  {
    if front[|front|-1] == NEWLINE {
      JoinAtNewline(front, x);
      FieldsOfStretch(x);
    } else {
      Unfinished(front, x, |x|);
      LastLine(front + x, Start(front, |front|), Completed(front, |front|));
      LastLine(front, Start(front, |front|), Completed(front, |front|));
    }
  }

  lemma {:induction false} Unfinished(front: Bytes, x: Bytes, i: nat)
    requires front != [] && front[|front|-1] != NEWLINE && NEWLINE !in x && i <= |x|
    ensures Start(front + x, |front| + i) == Start(front, |front|) < |front|
    ensures Completed(front + x, |front| + i) == Completed(front, |front|)
  {
    if i == 0 {
      PrefixCompleted(front, front + x, |front|);
    } else {
      Unfinished(front, x, i - 1);
      assert x[i-1] in x && (front + x)[|front| + i - 1] == x[i-1];
    }
  }

  /** Text behind a newline starts a line of its own. */
  lemma {:induction false} JoinAtNewline(front: Bytes, x: Bytes)
    requires front == [] || front[|front|-1] == NEWLINE
    ensures Fields(front + x) == Fields(front) + Fields(x)
  {
    if front == [] {
      assert front + x == x;
    } else {
      var f := front[..|front|-1];
      FieldsAround(front + x, f, x);
      FieldsAround(front, f, []);
      assert Fields([]) == [] && Fields(f) + [] == Fields(f);
    }
  }

  lemma {:induction false} SplitAtNewlines(front: Bytes, chunk: Bytes, i: nat)
    requires 0 < i <= |chunk| && forall j :: 0 <= j < i ==> chunk[j] == NEWLINE
    ensures Fields(front + chunk) == Fields(front) + Fields(chunk[i..])
  {
    DropNewlines(chunk[1..], i - 1);
    assert chunk[1..][i-1..] == chunk[i..];
    FrontNewline(front, chunk);
  }

  lemma {:induction false} FrontNewline(front: Bytes, chunk: Bytes)
    requires chunk != [] && chunk[0] == NEWLINE
    ensures Fields(front + chunk) == Fields(front) + Fields(chunk[1..])
  {
    assert chunk == [NEWLINE] + chunk[1..];
    FieldsExtendLine(front, chunk[1..]);
  }

  lemma {:induction false} DropNewlines(t: Bytes, i: nat)
    requires i <= |t| && forall j :: 0 <= j < i ==> t[j] == NEWLINE
    ensures Fields(t) == Fields(t[i..])
  {
    if i == 0 {
      assert t[0..] == t;
    } else {
      FieldsLeadingNewline(t[1..]);
      assert t == [NEWLINE] + t[1..];
      DropNewlines(t[1..], i - 1);
      assert t[1..][i-1..] == t[i..];
    }
  }

  /** One interior block: how many lines its carry costs, and that it costs none at a good start. */
  ghost predicate StepCounts(data: Bytes, off: nat, r: nat, carry: Bytes, next: Bytes, emitted: seq<Bytes>)
    requires 0 < off < r <= |data|
  {
    var whole, kept := Fields(data[..r] + carry), Fields(data[..off] + next) + emitted;
    if BadStart(data, off) then |whole| == |kept| + 1 else whole == kept
  }

  lemma {:induction false} CarryIsTail(block: Bytes, carry: Bytes)
    ensures (forall j :: 0 <= j < |block + carry| ==> (block + carry)[j] == NEWLINE) && NEWLINE !in carry ==>
              carry == []
  {
    assert carry != [] ==> carry[0] in carry && (block + carry)[|block|] == carry[0];
  }

  lemma {:induction false} EmptyBlock(data: Bytes, off: nat, r: nat, carry: Bytes)
    requires 0 < off < r <= |data| && CarryFits(data, r, carry)
    requires forall j :: 0 <= j < |data[off..r] + carry| ==> (data[off..r] + carry)[j] == NEWLINE
    ensures CarryFits(data, off, []) && StepCounts(data, off, r, carry, [], [])
  {
    var front, chunk := data[..off], data[off..r] + carry;
    CarryIsTail(data[off..r], carry);
    assert !HasContent(data, off) by {
      assert forall j :: off <= j < r ==> data[j] == chunk[j - off];
    }
    SplitAtNewlines(front, chunk, |chunk|);
    assert front + chunk == data[..r] + carry && chunk[|chunk|..] == [] && Fields([]) == [];
    assert Fields(front) + [] == Fields(front + []) + [] by { assert front + [] == front; }
  }

  lemma {:induction false} FullBlock(data: Bytes, off: nat, r: nat, carry: Bytes, i: nat, x: Bytes, rest: Bytes)
    requires 0 < off < r <= |data| && CarryFits(data, r, carry)
    requires FieldAt(data[off..r] + carry, i, x, rest)
    ensures CarryFits(data, off, x) && StepCounts(data, off, r, carry, x, Fields(rest))
  {
    var front, chunk := data[..off], data[off..r] + carry;
    ContentInBlock(data, off, r, carry, i, x, rest);
    assert front + chunk == data[..r] + carry;
    assert chunk[0] == data[off] && front[|front|-1] == data[off-1];
    if i == 0 {
      assert chunk == x + rest;
      assert x[0] == chunk[0] && x[0] in x;
      CarryIsSafe(front, x, rest);
    } else {
      GlueStep(front, chunk, i, x, rest);
    }
  }

  /** The first non-empty line of `chunk` is `x`, behind `i` newlines, with `rest` behind it. */
  ghost predicate FieldAt(chunk: Bytes, i: nat, x: Bytes, rest: Bytes) {
    && i < |chunk| && chunk[i..] == x + rest && (forall j :: 0 <= j < i ==> chunk[j] == NEWLINE)
    && NEWLINE !in x && x != [] && (rest == [] || rest[0] == NEWLINE)
  }

  lemma {:induction false} GlueStep(front: Bytes, chunk: Bytes, i: nat, x: Bytes, rest: Bytes)
    requires front != [] && FieldAt(chunk, i, x, rest) && i > 0
    ensures chunk[0] == NEWLINE
    ensures var whole, kept := Fields(front + chunk), Fields(front + x) + Fields(rest);
            if front[|front|-1] != NEWLINE then |whole| == |kept| + 1 else whole == kept
  {
    FirstLineIsComplete(front, chunk, x, rest, i);
    GlueCount(front, x);
    GlueLaw(Fields(front + chunk), Fields(front), x, Fields(rest), Fields(front + x), front[|front|-1] == NEWLINE);
  }

  /** A line put behind a list, or glued to its last line. */
  lemma {:induction false} GlueLaw<T>(whole: seq<T>, front: seq<T>, x: T, rest: seq<T>, glued: seq<T>, apart: bool)
    requires whole == front + ([x] + rest) && if apart then glued == front + [x] else |glued| == |front|
    ensures if apart then whole == glued + rest else |whole| == |glued + rest| + 1
  {
  }

  lemma {:induction false} ContentInBlock(data: Bytes, off: nat, r: nat, carry: Bytes, i: nat, x: Bytes, rest: Bytes)
    requires 0 < off < r <= |data| && CarryFits(data, r, carry)
    requires FieldAt(data[off..r] + carry, i, x, rest)
    ensures HasContent(data, off)
  {
    var chunk := data[off..r] + carry;
    assert chunk[i] == chunk[i..][0] == x[0] && x[0] in x;
    if i < r - off {
      assert data[off + i] == chunk[i];
    } else {
      assert carry != [];
      var j :| r <= j < |data| && data[j] != NEWLINE;
    }
  }

  /** The lines of the blocks in front of `r`, and one lost line for each bad start. */
  ghost predicate LosesOneEach(data: Bytes, c: nat, r: nat, carry: Bytes)
    requires c >= 1 && r <= |data|
  {
    && |BlockLines(data, c, r, carry)| + BadStarts(data, c, r) == |Fields(data[..r] + carry)|
    && (BadStarts(data, c, r) == 0 ==> BlockLines(data, c, r, carry) == Fields(data[..r] + carry))
  }

  lemma {:induction false} FrontBlockLosesNone(data: Bytes, c: nat, r: nat, carry: Bytes)
    requires c >= 1 && 0 < r <= |data| && Offset(c, r) == 0
    ensures LosesOneEach(data, c, r, carry) && BlockLines(data, c, r, carry) == Fields(data[..r] + carry)
  {
    assert BlockLines(data, c, 0, []) == [];
    assert data[0..r] == data[..r];
    assert [] + Fields(data[..r] + carry) == Fields(data[..r] + carry);
  }

  lemma {:induction false} NextBlockLoses(data: Bytes, c: nat, r: nat, carry: Bytes, next: Bytes,
                                          emitted: seq<Bytes>)
    requires c >= 1 && 0 < r <= |data| && Offset(c, r) > 0 && LosesOneEach(data, c, Offset(c, r), next)
    requires StepCounts(data, Offset(c, r), r, carry, next, emitted)
    requires BlockLines(data, c, r, carry) == BlockLines(data, c, Offset(c, r), next) + emitted
    ensures LosesOneEach(data, c, r, carry)
  {
  }

  lemma {:induction false} BlockLinesOf(data: Bytes, c: nat, r: nat, carry: Bytes)
    requires c >= 1 && 0 < r <= |data| && Offset(c, r) > 0
    ensures var off, lines := Offset(c, r), Fields(data[Offset(c, r)..r] + carry);
            BlockLines(data, c, r, carry) == if lines == [] then BlockLines(data, c, off, [])
                                             else BlockLines(data, c, off, lines[0]) + lines[1..]
  {
  }

  /** Each bad block start costs exactly one line; with none, the blocks make no difference. */
  lemma {:induction false} BlocksLoseOneEach(data: Bytes, c: nat, r: nat, carry: Bytes)
    requires c >= 1 && 0 < r <= |data| && CarryFits(data, r, carry)
    ensures LosesOneEach(data, c, r, carry)
    decreases r
  {
    var off := Offset(c, r);
    if off == 0 {
      FrontBlockLosesNone(data, c, r, carry);
    } else {
      var i, x, rest := FirstField(data[off..r] + carry);
      BlockLinesOf(data, c, r, carry);
      if x == [] {
        EmptyBlock(data, off, r, carry);
        BlocksLoseOneEach(data, c, off, []);
        NextBlockLoses(data, c, r, carry, [], []);
      } else {
        FullBlock(data, off, r, carry, i, x, rest);
        BlocksLoseOneEach(data, c, off, x);
        NextBlockLoses(data, c, r, carry, x, Fields(rest));
      }
    }
  }

  /** Main result on lines: for every file and block size, reading block by block sees exactly the lines of the file
      if and only if no interior block start is a bad one. */
  lemma {:induction false} BlockwiseIffNoBadStart(data: Bytes, c: nat)
    requires c >= 1
    ensures BlockLines(data, c, |data|, []) == Fields(data) <==> BadStarts(data, c, |data|) == 0
    ensures |BlockLines(data, c, |data|, [])| + BadStarts(data, c, |data|) == |Fields(data)|
  {
    assert data[..|data|] + [] == data;
    if data == [] {
      assert Fields(data) == [];
    } else {
      BlocksLoseOneEach(data, c, |data|, []);
    }
  }

  /** A small failure: two one-byte lines read in blocks of two bytes come back as one. */
  lemma {:induction false} BlockwiseCanFail()
    ensures Fields([65, 10, 66]) == [[65], [66]]
    ensures BlockLines([65, 10, 66], 2, 3, []) == [[65, 66]]
  {
    var d: Bytes := [65, 10, 66];
    SmallFileLines(d);
    SmallFileLastBlock(d);
    BlockLinesOf(d, 2, 3, []);
    FrontBlockLosesNone(d, 2, 1, [66]);
    FieldsOfStretch([65, 66]);
    assert d[..1] + [66] == [65, 66];
  }

  lemma {:induction false} SmallFileLines(d: Bytes)
    requires d == [65, NEWLINE, 66]
    ensures Fields(d) == [[65], [66]]
  {
    FieldsAround(d, [65], [66]);
    FieldsOfStretch([65]);
    FieldsOfStretch([66]);
  }

  lemma {:induction false} SmallFileLastBlock(d: Bytes)
    requires d == [65, NEWLINE, 66]
    ensures Fields(d[1..3] + []) == [[66]]
  {
    FieldsLeadingNewline([66]);
    FieldsOfStretch([66]);
    assert d[1..3] + [] == [NEWLINE] + [66];
  }

  /** One byte, a newline, and a line that fills a block but for its first byte, and has one byte at least. */
  function GluedFile(c: nat): Bytes
    requires c >= 1
  {
    [65, NEWLINE] + LongLine(c)
  }

  function LongLine(c: nat): (long: Bytes)
    requires c >= 1
    ensures |long| == if c == 1 then 1 else c - 1
    ensures forall j :: 0 <= j < |long| ==> long[j] == 66
  {
    if c == 1 then [66] else seq(c - 1, _ => 66)
  }

  lemma {:induction false} GluedFileHasTwoLines(c: nat)
    requires c >= 1
    ensures Fields(GluedFile(c)) == [[65], LongLine(c)]
  {
    FieldsAround(GluedFile(c), [65], LongLine(c));
    FieldsOfStretch([65]);
    FieldsOfStretch(LongLine(c));
  }

  lemma {:induction false} GluedFileStartsBadly(c: nat)
    requires c >= 1
    ensures BadStarts(GluedFile(c), c, |GluedFile(c)|) == 1
  {
    var d := GluedFile(c);
    assert d[2] == LongLine(c)[0] && BadStart(d, 1);
    assert BadStarts(d, c, 1) == 0;
    if c == 1 {
      assert BadStarts(d, 1, 2) == 1;
    }
  }

  /** Every block size loses a line of some file: a block starts on the newline in front of the long line. */
  lemma {:induction false} EverySizeCanFail(c: nat)
    requires c >= 1
    ensures |Fields(GluedFile(c))| == 2 && BadStarts(GluedFile(c), c, |GluedFile(c)|) == 1
    ensures |BlockLines(GluedFile(c), c, |GluedFile(c)|, [])| == 1
  {
    GluedFileHasTwoLines(c);
    GluedFileStartsBadly(c);
    BlockwiseIffNoBadStart(GluedFile(c), c);
  }

  /** In particular the block size the source uses. */
  lemma {:induction false} ChunkSizeCanFail()
    ensures |Fields(GluedFile(CHUNK_SIZE))| == 2
    ensures |BlockLines(GluedFile(CHUNK_SIZE), CHUNK_SIZE, |GluedFile(CHUNK_SIZE)|, [])| == 1
  {
    EverySizeCanFail(CHUNK_SIZE);
  }

  /** The two readings side by side, with lines standing for themselves: any bad start shows. */
  lemma {:induction false} BadStartShows(data: Bytes, c: nat)
    requires c >= 1 && BadStarts(data, c, |data|) > 0
    ensures |BlockLines(data, c, |data|, [])| < |Fields(data)|
  {
    BlockwiseIffNoBadStart(data, c);
  }
}
