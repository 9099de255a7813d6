/** Hash-anchored edits: their validation, and their bottom-up application in place. */
module Edits {

  import opened Options
  import opened Lcs
  import opened Blocks

  datatype Edit = Edit(operation: string, line: int, hash: string, content: string)

  datatype EditError =
    | NoEditsParameter
    | NotAnArray
    | NotAnObject(index: nat)
    | MissingOperation(index: nat)
    | InvalidOperation(index: nat, name: string)
    | MissingLine(index: nat)
    | MissingHash(index: nat)
    | MissingContent(index: nat, operation: string)
    | NoEdits
    | Duplicate(index: nat, line: int)
    | OutOfRange(index: nat, line: int)
    | HashMismatch(index: nat, line: int, found: string)
    | UnknownOperation(operation: string)
    | TooLarge

  datatype Result<+T> = Ok(value: T) | Err(error: EditError)

  /** `ComputeLineHash`: any deterministic hash of a line. */
  type LineHash = Line -> string

  /** `GenerateHashMap`, by its answers. */
  function HashTable(h: LineHash, lines: seq<Line>): Hashes {
    k => if 1 <= k <= |lines| then Some(h(lines[k-1])) else None
  }

  predicate KnownOperation(name: string) {
    name == "replace" || name == "delete" || name == "insert_after" || name == "insert_before"
  }

  /** What is wrong with edit `i`, in the order the source checks it. */
  function Problem(h: LineHash, edits: seq<Edit>, lines: seq<Line>, i: nat): Option<EditError>
    requires i < |edits|
  {
    var e := edits[i];
    if exists k :: 0 <= k < i && edits[k].line == e.line then Some(Duplicate(i, e.line))
    else if e.line < 1 || e.line > |lines| then Some(OutOfRange(i, e.line))
    else if h(lines[e.line-1]) != e.hash then Some(HashMismatch(i, e.line, h(lines[e.line-1])))
    else None
  }

  /** The first problem among the edits from `i` on. */
  function FirstProblem(h: LineHash, edits: seq<Edit>, lines: seq<Line>, i: nat): Option<EditError>
    requires i <= |edits|
    decreases |edits| - i
  {
    if i == |edits| then None
    else
      match Problem(h, edits, lines, i)
      case Some(err) => Some(err)
      case None => FirstProblem(h, edits, lines, i + 1)
  }

  ghost predicate DistinctLines(edits: seq<Edit>) {
    forall i, j :: 0 <= i < j < |edits| ==> edits[i].line != edits[j].line
  }

  ghost predicate InBounds(edits: seq<Edit>, m: nat) {
    forall i :: 0 <= i < |edits| ==> 1 <= edits[i].line <= m
  }

  /** No two edits on one line, every line exists, every hash is current. */
  ghost predicate ValidEdits(h: LineHash, edits: seq<Edit>, lines: seq<Line>) {
    && DistinctLines(edits) && InBounds(edits, |lines|)
    && forall i :: 0 <= i < |edits| ==> h(lines[edits[i].line - 1]) == edits[i].hash
  }

  lemma {:induction false} NoProblemFrom(h: LineHash, edits: seq<Edit>, lines: seq<Line>, i: nat)
    requires i <= |edits|
    ensures FirstProblem(h, edits, lines, i) == None <==>
            forall k :: i <= k < |edits| ==> Problem(h, edits, lines, k) == None
    decreases |edits| - i
  {
    if i == |edits| {
    } else {
      NoProblemFrom(h, edits, lines, i + 1);
    }
  }

  /** The check accepts exactly the valid edit lists. */
  lemma {:induction false} AcceptedIffValid(h: LineHash, edits: seq<Edit>, lines: seq<Line>)
    ensures FirstProblem(h, edits, lines, 0) == None <==> ValidEdits(h, edits, lines)
  {
    NoProblemFrom(h, edits, lines, 0);
    if FirstProblem(h, edits, lines, 0) == None {
      forall i, j | 0 <= i < j < |edits|
        ensures edits[i].line != edits[j].line
      {
        assert Problem(h, edits, lines, j) == None;
      }
      forall i | 0 <= i < |edits|
        ensures 1 <= edits[i].line <= |lines| && h(lines[edits[i].line - 1]) == edits[i].hash
      {
        assert Problem(h, edits, lines, i) == None;
      }
    }
  }

  predicate LineTaken(edits: seq<Edit>, i: nat)
    requires i < |edits|
  {
    exists k :: 0 <= k < i && edits[k].line == edits[i].line
  }

  /** The error names edit `i` and says what is wrong with it: another edit on its line came first; else its line does
      not exist; else its hash is not that of the line. */
  predicate Blames(err: EditError, h: LineHash, edits: seq<Edit>, lines: seq<Line>, i: nat)
    requires i < |edits|
  {
    var l := edits[i].line;
    match err
    case Duplicate(j, line) => j == i && line == l && LineTaken(edits, i)
    case OutOfRange(j, line) => j == i && line == l && !LineTaken(edits, i) && !(1 <= l <= |lines|)
    case HashMismatch(j, line, found) =>
      && j == i && line == l && !LineTaken(edits, i) && 1 <= l <= |lines|
      && found == h(lines[l-1]) && found != edits[i].hash
    case _ => false
  }

  /** The first problem is that of the first edit that the edits before it do not allow. */
  lemma {:induction false} FirstProblemIsFirst(h: LineHash, edits: seq<Edit>, lines: seq<Line>, i: nat) returns (k: nat)
    requires i <= |edits| && FirstProblem(h, edits, lines, i).Some?
    requires forall j :: 0 <= j < i ==> Problem(h, edits, lines, j) == None
    ensures k < |edits| && Blames(FirstProblem(h, edits, lines, i).value, h, edits, lines, k)
    ensures ValidEdits(h, edits[..k], lines)
    decreases |edits| - i
  {
    if Problem(h, edits, lines, i).Some? {
      k := i;
      forall j | 0 <= j < i
        ensures Problem(h, edits[..i], lines, j) == None
      {
        assert Problem(h, edits, lines, j) == None;
        assert forall x :: 0 <= x <= j ==> edits[..i][x] == edits[x];
      }
      NoProblemFrom(h, edits[..i], lines, 0);
      AcceptedIffValid(h, edits[..i], lines);
    } else {
      k := FirstProblemIsFirst(h, edits, lines, i + 1);
    }
  }

  /** The validation loop, with its set of lines seen. */
  method ValidateEdits(h: LineHash, edits: seq<Edit>, lines: seq<Line>) returns (err: Option<EditError>)
    ensures err == FirstProblem(h, edits, lines, 0)
    ensures err == None <==> ValidEdits(h, edits, lines)
    ensures err.Some? ==>
              exists k :: 0 <= k < |edits| && ValidEdits(h, edits[..k], lines) && Blames(err.value, h, edits, lines, k)
  {
    AcceptedIffValid(h, edits, lines);
    if FirstProblem(h, edits, lines, 0).Some? {
      ghost var first := FirstProblemIsFirst(h, edits, lines, 0);
    }
    var hashMap := HashTable(h, lines);
    var seen: set<int> := {};
    for i := 0 to |edits|
      invariant FirstProblem(h, edits, lines, i) == FirstProblem(h, edits, lines, 0)
      invariant forall l :: l in seen <==> exists k :: 0 <= k < i && edits[k].line == l
    {
      var e := edits[i];
      if e.line in seen {
        return Some(Duplicate(i, e.line));
      }
      seen := seen + {e.line};
      if e.line < 1 || e.line > |lines| {
        return Some(OutOfRange(i, e.line));
      }
      var actualHash := hashMap(e.line);
      if actualHash != Some(e.hash) {
        return Some(HashMismatch(i, e.line, actualHash.value));
      }
    }
    return None;
  }

  /** The edit on line number `l`, if any. */
  function EditOn(edits: seq<Edit>, l: int): Option<Edit> {
    if edits == [] then None
    else if edits[|edits|-1].line == l then Some(edits[|edits|-1])
    else EditOn(edits[..|edits|-1], l)
  }

  /** What becomes of the line at index `i`. */
  function Piece(lines: seq<Line>, edits: seq<Edit>, i: nat): seq<Line>
    requires i < |lines|
  {
    match EditOn(edits, i + 1)
    case None => [lines[i]]
    case Some(e) => Rewritten(lines[i], e)
  }

  function Rewritten(x: Line, e: Edit): seq<Line> {
    if e.operation == "replace" then [e.content]
    else if e.operation == "delete" then []
    else if e.operation == "insert_after" then [x, e.content]
    else [e.content, x]
  }

  /** The reference: line by line, in order, from index `i` on. */
  function RewriteFrom(lines: seq<Line>, edits: seq<Edit>, i: nat): seq<Line>
    requires i <= |lines|
    decreases |lines| - i
  {
    if i == |lines| then [] else Piece(lines, edits, i) + RewriteFrom(lines, edits, i + 1)
  }

  ghost predicate Descending(edits: seq<Edit>) {
    forall i, j :: 0 <= i < j < |edits| ==> edits[i].line >= edits[j].line
  }

  /** The place of an edit in a list that is sorted already. */
  method InsertInOrder(sorted: seq<Edit>, e: Edit) returns (more: seq<Edit>)
    requires Descending(sorted)
    ensures multiset(more) == multiset(sorted) + multiset{e} && Descending(more)
  {
    var k := |sorted|;
    while k > 0 && sorted[k-1].line < e.line
      invariant 0 <= k <= |sorted|
      invariant forall j :: k <= j < |sorted| ==> sorted[j].line < e.line
    {
      k := k - 1;
    }
    InsertKeepsMultiset(sorted, k, e);
    InsertKeepsDescending(sorted, k, e);
    more := sorted[..k] + [e] + sorted[k..];
  }

  /** The library sort, of which only the outcome matters. */
  method SortByLineDescending(edits: seq<Edit>) returns (sorted: seq<Edit>)
    ensures multiset(sorted) == multiset(edits) && Descending(sorted)
  {
    sorted := [];
    for i := 0 to |edits|
      invariant multiset(sorted) == multiset(edits[..i]) && Descending(sorted)
    {
      assert edits[..i+1] == edits[..i] + [edits[i]];
      sorted := InsertInOrder(sorted, edits[i]);
    }
    assert edits[..|edits|] == edits;
  }

  lemma {:induction false} InsertKeepsDescending(s: seq<Edit>, k: nat, e: Edit)
    requires k <= |s| && Descending(s) && (forall j :: k <= j < |s| ==> s[j].line < e.line)
    requires k == 0 || s[k-1].line >= e.line
    ensures Descending(s[..k] + [e] + s[k..])
  {
    forall j | 0 <= j < k
      ensures s[j].line >= e.line
    {
      assert j < k - 1 ==> s[j].line >= s[k-1].line;
    }
  }

  lemma {:induction false} InsertKeepsMultiset(s: seq<Edit>, k: nat, e: Edit)
    requires k <= |s|
    ensures multiset(s[..k] + [e] + s[k..]) == multiset(s) + multiset{e}
  {
    assert s == s[..k] + s[k..];
  }

  // ----- permutations of a list of edits with distinct lines

  lemma {:induction false} DistinctMeansOnce(edits: seq<Edit>, e: Edit)
    requires DistinctLines(edits)
    ensures multiset(edits)[e] <= 1
  {
    if edits == [] {
    } else {
      var front, last := edits[..|edits|-1], edits[|edits|-1];
      assert edits == front + [last];
      DistinctMeansOnce(front, e);
      if e == last {
        assert e !in front;
      }
    }
  }

  lemma {:induction false} TwiceMeansTwo(edits: seq<Edit>, i: nat, j: nat)
    requires i < j < |edits| && edits[i] == edits[j]
    ensures multiset(edits)[edits[i]] >= 2
  {
    assert edits == edits[..j] + [edits[j]] + edits[j+1..];
    assert edits[i] in edits[..j];
  }

  lemma {:induction false} PermutationKeepsDistinct(a: seq<Edit>, b: seq<Edit>)
    requires multiset(a) == multiset(b) && DistinctLines(a)
    ensures DistinctLines(b)
  {
    forall i, j | 0 <= i < j < |b|
      ensures b[i].line != b[j].line
    {
      assert b[i] in multiset(a) && b[j] in multiset(a);
      DistinctMeansOnce(a, b[i]);
      if b[i] == b[j] { TwiceMeansTwo(b, i, j); }
    }
  }

  lemma {:induction false} EditOnFinds(edits: seq<Edit>, l: int)
    ensures EditOn(edits, l).Some? ==> EditOn(edits, l).value in edits && EditOn(edits, l).value.line == l
    ensures EditOn(edits, l) == None ==> forall e :: e in edits ==> e.line != l
  {
    if edits == [] {
    } else {
      EditOnFinds(edits[..|edits|-1], l);
      assert edits == edits[..|edits|-1] + [edits[|edits|-1]];
    }
  }

  lemma {:induction false} EditOnIs(edits: seq<Edit>, e: Edit)
    requires DistinctLines(edits) && e in edits
    ensures EditOn(edits, e.line) == Some(e)
  {
    EditOnFinds(edits, e.line);
  }

  /** The order in which edits are listed does not matter. */
  lemma {:induction false} RewriteIgnoresOrder(lines: seq<Line>, a: seq<Edit>, b: seq<Edit>, i: nat)
    requires multiset(a) == multiset(b) && DistinctLines(a) && i <= |lines|
    ensures RewriteFrom(lines, a, i) == RewriteFrom(lines, b, i)
    decreases |lines| - i
  {
    if i == |lines| {
    } else {
      RewriteIgnoresOrder(lines, a, b, i + 1);
      PermutationKeepsDistinct(a, b);
      EditOnFinds(a, i + 1);
      EditOnFinds(b, i + 1);
      SameMembers(a, b);
    }
  }

  lemma {:induction false} SameMembers(a: seq<Edit>, b: seq<Edit>)
    requires multiset(a) == multiset(b)
    ensures forall e :: e in a <==> e in b
  {
    forall e
      ensures e in a <==> e in b
    {
      assert e in a <==> e in multiset(a);
      assert e in b <==> e in multiset(b);
    }
  }

  // ----- bottom-up application

  function DeleteRange<T>(s: seq<T>, i: nat, j: nat): seq<T>
    requires i <= j <= |s|
  {
    s[..i] + s[j..]
  }

  function InsertAt<T>(s: seq<T>, i: nat, x: T): seq<T>
    requires i <= |s|
  {
    s[..i] + [x] + s[i..]
  }

  /** Lines above every edit still to come, and rewritten lines from `p` on. */
  ghost predicate RewrittenDownTo(result: seq<Line>, lines: seq<Line>, edits: seq<Edit>, p: nat) {
    p <= |lines| && result == lines[..p] + RewriteFrom(lines, edits, p)
  }

  /** A stretch of lines without edits rewrites to itself. */
  lemma {:induction false} SkipUnedited(result: seq<Line>, lines: seq<Line>, edits: seq<Edit>, l: nat, p: nat)
    requires RewrittenDownTo(result, lines, edits, p) && l <= p
    requires forall e :: e in edits ==> !(l < e.line <= p)
    ensures RewrittenDownTo(result, lines, edits, l)
  {
    if l == p {
    } else {
      EditOnFinds(edits, p);
      assert lines[..p] == lines[..p-1] + [lines[p-1]];
      SkipUnedited(result, lines, edits, l, p - 1);
    }
  }

  /** One step of the loop, as the source's switch does it. */
  function ApplyOne(result: seq<Line>, e: Edit): seq<Line>
    requires 1 <= e.line <= |result| && KnownOperation(e.operation)
  {
    if e.operation == "replace" then result[e.line-1 := e.content]
    else if e.operation == "delete" then DeleteRange(result, e.line-1, e.line)
    else if e.operation == "insert_after" then InsertAt(result, e.line, e.content)
    else InsertAt(result, e.line-1, e.content)
  }

  lemma {:induction false} CutAround<T>(head: seq<T>, x: T, rest: seq<T>)
    ensures var s := head + [x] + rest;
            && s[..|head|] == head && s[|head|] == x && s[|head|+1..] == rest
            && s[..|head|+1] == head + [x] && s[|head|..] == [x] + rest
  {
  }

  lemma {:induction false} ApplyOneAt(head: seq<Line>, x: Line, rest: seq<Line>, e: Edit)
    requires e.line == |head| + 1 && KnownOperation(e.operation)
    ensures ApplyOne(head + [x] + rest, e) == head + Rewritten(x, e) + rest
  {
    var s := head + [x] + rest;
    CutAround(head, x, rest);
    if e.operation == "replace" {
      assert s[e.line-1 := e.content] == head + [e.content] + rest;
    } else if e.operation == "delete" {
      assert head + [] + rest == head + rest;
    } else if e.operation == "insert_after" {
      assert head + [x] + [e.content] + rest == head + [x, e.content] + rest;
    } else {
      assert head + [e.content] + ([x] + rest) == head + [e.content, x] + rest;
    }
  }

  lemma {:induction false} ApplyOneRewrites(result: seq<Line>, lines: seq<Line>, edits: seq<Edit>, e: Edit)
    requires 1 <= e.line <= |lines| && KnownOperation(e.operation)
    requires RewrittenDownTo(result, lines, edits, e.line)
    requires EditOn(edits, e.line) == Some(e)
    ensures e.line <= |result| && RewrittenDownTo(ApplyOne(result, e), lines, edits, e.line - 1)
  {
    var l, head, rest := e.line, lines[..e.line-1], RewriteFrom(lines, edits, e.line);
    assert result == head + [lines[l-1]] + rest;
    ApplyOneAt(head, lines[l-1], rest, e);
    assert head + Rewritten(lines[l-1], e) + rest == head + (Rewritten(lines[l-1], e) + rest);
  }

  /** Applies the edits from the bottom of the file upwards, in place. */
  method ApplyEdits(lines: seq<Line>, edits: seq<Edit>) returns (r: Result<seq<Line>>)
    requires DistinctLines(edits) && InBounds(edits, |lines|)
    ensures r.Ok? <==> forall e :: e in edits ==> KnownOperation(e.operation)
    ensures r.Ok? ==> r.value == RewriteFrom(lines, edits, 0)
    ensures r.Ok? ==> exists places :: Placed(r.value, lines, edits, places)
    ensures r.Err? ==>
              exists e :: e in edits && !KnownOperation(e.operation) && r.error == UnknownOperation(e.operation)
  {
    var sorted := SortByLineDescending(edits);
    PermutationKeepsDistinct(edits, sorted);
    SameMembers(edits, sorted);
    var result := lines;
    ghost var p: nat := |lines|;
    forall j | 0 <= j < |sorted|
      ensures sorted[j].line <= p
    {
      assert sorted[j] in edits;
    }
    for k := 0 to |sorted|
      invariant RewrittenDownTo(result, lines, edits, p)
      invariant forall j :: 0 <= j < k ==> sorted[j].line > p && KnownOperation(sorted[j].operation)
      invariant forall j :: k <= j < |sorted| ==> sorted[j].line <= p
    {
      var e := sorted[k];
      assert e in edits;
      if !KnownOperation(e.operation) {
        return Err(UnknownOperation(e.operation));
      }
      StepDown(result, lines, edits, sorted, k, p);
      result := ApplyOne(result, e);
      p := e.line - 1;
    }
    forall e | e in edits
      ensures !(0 < e.line <= p) && KnownOperation(e.operation)
    {
      assert e in sorted;
    }
    SkipUnedited(result, lines, edits, 0, p);
    assert result == RewriteFrom(lines, edits, 0);
    ghost var places := EverythingIsPlaced(lines, edits);
    return Ok(result);
  }

  lemma {:induction false} StepDown(result: seq<Line>, lines: seq<Line>, edits: seq<Edit>, sorted: seq<Edit>, k: nat,
                                    p: nat)
    requires DistinctLines(edits) && InBounds(edits, |lines|) && DistinctLines(sorted) && Descending(sorted)
    requires forall e :: e in edits <==> e in sorted
    requires k < |sorted| && sorted[k].line <= p && KnownOperation(sorted[k].operation)
    requires forall j :: 0 <= j < k ==> sorted[j].line > p
    requires RewrittenDownTo(result, lines, edits, p)
    ensures 1 <= sorted[k].line <= |lines| && sorted[k].line <= |result|
    ensures RewrittenDownTo(ApplyOne(result, sorted[k]), lines, edits, sorted[k].line - 1)
    ensures forall j :: k < j < |sorted| ==> sorted[j].line < sorted[k].line
  {
    var e := sorted[k];
    assert e in sorted;
    EditOnIs(edits, e);
    forall x | x in edits
      ensures !(e.line < x.line <= p)
    {
      assert x in sorted;
      var j :| 0 <= j < |sorted| && sorted[j] == x;
      if j > k { assert sorted[k].line >= sorted[j].line; }
    }
    SkipUnedited(result, lines, edits, e.line, p);
    ApplyOneRewrites(result, lines, edits, e);
  }

  // ----- where everything stands

  /** What the edit makes of line `x` stands at `p` and ends in front of `q`. */
  ghost predicate EditStands(r: seq<Line>, x: Line, e: Edit, p: nat, q: nat) {
    && p <= q <= |r|
    && (e.operation == "replace" ==> q == p + 1 && r[p] == e.content)
    && (e.operation == "delete" ==> q == p)
    && (e.operation == "insert_after" ==> q == p + 2 && r[p] == x && r[p+1] == e.content)
    && (e.operation == "insert_before" ==> q == p + 2 && r[p] == e.content && r[p+1] == x)
  }

  /** Line number `i + 1` stands at its place: itself, or what the edit on it makes of it. */
  ghost predicate LineStands(r: seq<Line>, lines: seq<Line>, edits: seq<Edit>, places: seq<nat>, i: nat)
    requires i < |lines| && |places| == |lines| + 1
  {
    && places[i] <= places[i+1] <= |r|
    && (forall e :: e in edits && e.line == i + 1 ==> EditStands(r, lines[i], e, places[i], places[i+1]))
    && ((forall e :: e in edits ==> e.line != i + 1) ==> places[i+1] == places[i] + 1 && r[places[i]] == lines[i])
  }

  /** `r` is made of what becomes of each line, one after the other: line `i + 1` from `places[i]` on. */
  ghost predicate Placed(r: seq<Line>, lines: seq<Line>, edits: seq<Edit>, places: seq<nat>) {
    && |places| == |lines| + 1 && places[0] == 0 && places[|lines|] == |r|
    && forall i :: 0 <= i < |lines| ==> LineStands(r, lines, edits, places, i)
  }

  lemma {:induction false} EndOfEnd<T>(all: seq<T>, more: seq<T>, front: seq<T>, rest: seq<T>)
    requires |more| <= |all| && all[|all| - |more|..] == more == front + rest
    ensures |rest| <= |all| && all[|all| - |rest|..] == rest
  {
    assert all[|all| - |rest|..] == more[|front|..];
  }

  lemma {:induction false} RestStands(lines: seq<Line>, edits: seq<Edit>, i: nat)
    requires i <= |lines|
    ensures var r, rest := RewriteFrom(lines, edits, 0), RewriteFrom(lines, edits, i);
            |rest| <= |r| && r[|r| - |rest|..] == rest
  {
    if i > 0 {
      RestStands(lines, edits, i - 1);
      var r, more, rest := RewriteFrom(lines, edits, 0), RewriteFrom(lines, edits, i - 1), RewriteFrom(lines, edits, i);
      EndOfEnd(r, more, Piece(lines, edits, i - 1), rest);
    }
  }

  lemma {:induction false} PieceStands(lines: seq<Line>, edits: seq<Edit>, i: nat)
    requires i < |lines|
    ensures var r, p, q := RewriteFrom(lines, edits, 0), StartOf(lines, edits, i), StartOf(lines, edits, i + 1);
            0 <= p <= q <= |r| && r[p..q] == Piece(lines, edits, i)
  {
    RestStands(lines, edits, i);
    RestStands(lines, edits, i + 1);
    var r, p := RewriteFrom(lines, edits, 0), StartOf(lines, edits, i);
    assert r[p..][..|Piece(lines, edits, i)|] == Piece(lines, edits, i);
  }

  ghost function StartOf(lines: seq<Line>, edits: seq<Edit>, i: nat): int
    requires i <= |lines|
  {
    |RewriteFrom(lines, edits, 0)| - |RewriteFrom(lines, edits, i)|
  }

  lemma {:induction false} PieceIs(lines: seq<Line>, edits: seq<Edit>, i: nat, r: seq<Line>, p: nat, q: nat)
    requires DistinctLines(edits) && i < |lines| && p <= q <= |r| && r[p..q] == Piece(lines, edits, i)
    requires forall e :: e in edits ==> KnownOperation(e.operation)
    ensures forall e :: e in edits && e.line == i + 1 ==> EditStands(r, lines[i], e, p, q)
    ensures (forall e :: e in edits ==> e.line != i + 1) ==> q == p + 1 && r[p] == lines[i]
  {
    EditOnFinds(edits, i + 1);
    assert forall k :: p <= k < q ==> r[k] == r[p..q][k - p];
    forall e | e in edits && e.line == i + 1
      ensures EditStands(r, lines[i], e, p, q)
    {
      EditOnIs(edits, e);
    }
  }

  /** Main result: in the edited file every line stands at its own place, in the old order: an unedited line as it is, a
      replaced one as its replacement, a deleted one not at all, and an inserted line right behind or right in front of
      the line it was inserted at. */
  lemma {:induction false} EverythingIsPlaced(lines: seq<Line>, edits: seq<Edit>) returns (places: seq<nat>)
    requires DistinctLines(edits) && forall e :: e in edits ==> KnownOperation(e.operation)
    ensures Placed(RewriteFrom(lines, edits, 0), lines, edits, places)
  {
    var r := RewriteFrom(lines, edits, 0);
    forall i | 0 <= i <= |lines|
      ensures 0 <= StartOf(lines, edits, i)
    {
      RestStands(lines, edits, i);
    }
    places := seq(|lines| + 1, i requires 0 <= i <= |lines| => StartOf(lines, edits, i));
    forall i | 0 <= i < |lines|
      ensures LineStands(r, lines, edits, places, i)
    {
      PieceStands(lines, edits, i);
      PieceIs(lines, edits, i, r, places[i], places[i+1]);
    }
  }

  /** One edit alone: the file around its line stays as it is. */
  lemma {:induction false} SingleEdit(lines: seq<Line>, e: Edit)
    requires 1 <= e.line <= |lines| && KnownOperation(e.operation)
    ensures var r, l := RewriteFrom(lines, [e], 0), e.line;
            && (e.operation == "replace" ==> r == lines[..l-1] + [e.content] + lines[l..])
            && (e.operation == "delete" ==> r == lines[..l-1] + lines[l..])
            && (e.operation == "insert_after" ==> r == lines[..l] + [e.content] + lines[l..])
            && (e.operation == "insert_before" ==> r == lines[..l-1] + [e.content] + lines[l-1..])
  {
    assert lines[..|lines|] + [] == lines;
    SkipUnedited(lines, lines, [e], e.line, |lines|);
    EditOnIs([e], [e][0]);
    ApplyOneRewrites(lines, lines, [e], e);
    SkipUnedited(ApplyOne(lines, e), lines, [e], 0, e.line - 1);
    assert lines[..0] + RewriteFrom(lines, [e], 0) == RewriteFrom(lines, [e], 0);
  }

  // ----- length

  function Growth(e: Edit): int {
    if e.operation == "delete" then -1 else if e.operation == "replace" then 0 else 1
  }

  function TotalGrowth(edits: seq<Edit>): int {
    if edits == [] then 0 else TotalGrowth(edits[..|edits|-1]) + Growth(edits[|edits|-1])
  }

  /** The last edit makes its own line longer, and no other. */
  lemma {:induction false} PieceGrows(lines: seq<Line>, edits: seq<Edit>, i: nat)
    requires edits != [] && DistinctLines(edits) && i < |lines|
    ensures var front, e := edits[..|edits|-1], edits[|edits|-1];
            |Piece(lines, edits, i)| == |Piece(lines, front, i)| + if i + 1 == e.line then Growth(e) else 0
  {
    var front, e := edits[..|edits|-1], edits[|edits|-1];
    if i + 1 == e.line {
      EditOnFinds(front, e.line);
      assert forall x :: x in front ==> x.line != e.line;
    }
  }

  lemma {:induction false} LastEditGrows(lines: seq<Line>, edits: seq<Edit>, i: nat)
    requires edits != [] && DistinctLines(edits) && InBounds(edits, |lines|) && i <= |lines|
    ensures var front, e := edits[..|edits|-1], edits[|edits|-1];
            |RewriteFrom(lines, edits, i)| == |RewriteFrom(lines, front, i)| + if i < e.line then Growth(e) else 0
    decreases |lines| - i
  {
    var front, e := edits[..|edits|-1], edits[|edits|-1];
    if i == |lines| {
    } else {
      LastEditGrows(lines, edits, i + 1);
      PieceGrows(lines, edits, i);
    }
  }

  /** Each insert adds a line, each delete removes one, and a replacement keeps the count. */
  lemma {:induction false} RewriteLength(lines: seq<Line>, edits: seq<Edit>)
    requires DistinctLines(edits) && InBounds(edits, |lines|)
    ensures |RewriteFrom(lines, edits, 0)| == |lines| + TotalGrowth(edits)
  {
    if edits == [] {
      UneditedLength(lines, 0);
    } else {
      var front := edits[..|edits|-1];
      LastEditGrows(lines, edits, 0);
      RewriteLength(lines, front);
      assert edits[|edits|-1].line > 0;
    }
  }

  lemma {:induction false} UneditedLength(lines: seq<Line>, i: nat)
    requires i <= |lines|
    ensures |RewriteFrom(lines, [], i)| == |lines| - i
    decreases |lines| - i
  {
    if i == |lines| {
    } else {
      UneditedLength(lines, i + 1);
    }
  }
}
