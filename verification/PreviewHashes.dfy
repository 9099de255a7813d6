/** The hashes beside the lines of a preview: when they belong to the content they stand beside. */
module PreviewHashes {

  import opened Options
  import opened Lcs
  import opened Changes
  import opened Hunks
  import opened Blocks
  import opened Format
  import opened Patch
  import opened LineHashes
  import opened Lines
  import opened Edits
  import opened EditFile
  import opened EditPreview

  predicate HashBelongs(h: LineHash, l: DiffLine) {
    l.hash == Some(h(l.content))
  }

  /** The plan holds a line with the hash of this content at index `n`. */
  predicate PlannedAs(h: LineHash, planned: seq<Line>, n: int, content: Line) {
    0 <= n < |planned| && h(planned[n]) == h(content)
  }

  /** Line `j` of block `i` stands at this index of the new content; its hash belongs to it unless it is inserted and
      the plan holds another line there, or none. */
  ghost predicate BelongsIff(h: LineHash, before: seq<Line>, planned: seq<Line>, bs: seq<Block>, i: nat, j: nat)
    requires i < |bs| && j < |bs[i].lines|
  {
    var l, place := bs[i].lines[j], PlaceOf(before, bs, i, j);
    && (l.kind.Insert? ==> place.Some?)
    && (HashBelongs(h, l) <==> (l.kind.Insert? ==> PlannedAs(h, planned, place.value, l.content)))
  }

  /** Main result: for every file and edits, the hash beside a line of the preview is the hash of its content if and
      only if the line is not inserted, or the planned line of its place has the same hash. */
  lemma {:induction false} ShownHashBelongsIff(h: LineHash, data: string, edits: seq<Edit>, i: nat, j: nat)
    requires i < |PreviewBlocks(h, data, edits)| && j < |PreviewBlocks(h, data, edits)[i].lines|
    ensures BelongsIff(h, SplitLines(data), RewriteFrom(SplitLines(data), edits, 0), PreviewBlocks(h, data, edits),
                       i, j)
  {
    var before, planned := SplitLines(data), RewriteFrom(SplitLines(data), edits, 0);
    EveryLineIsHashedInPlace(before, SplitLines(NewContent(data, edits)), HashTable(h, before), HashTable(h, planned),
                             i, j);
  }

  /** No edit brings in a newline: then every hash shown belongs to the content beside it. */
  lemma {:induction false} HashesBelongWithoutNewlines(h: LineHash, data: string, edits: seq<Edit>, i: nat, j: nat)
    requires forall e :: e in edits ==> NL !in e.content
    requires i < |PreviewBlocks(h, data, edits)| && j < |PreviewBlocks(h, data, edits)[i].lines|
    ensures HashBelongs(h, PreviewBlocks(h, data, edits)[i].lines[j])
  {
    var bs, before := PreviewBlocks(h, data, edits), SplitLines(data);
    ShownHashBelongsIff(h, data, edits, i, j);
    if bs[i].lines[j].kind.Insert? {
      EveryLineIsHashedInPlace(before, SplitLines(NewContent(data, edits)), HashTable(h, before),
                               HashTable(h, RewriteFrom(before, edits, 0)), i, j);
      WrittenAsPlanned(data, edits, PlaceOf(before, bs, i, j).value);
    }
  }

  lemma {:induction false} WrittenAsPlanned(data: string, edits: seq<Edit>, n: nat)
    requires (forall e :: e in edits ==> NL !in e.content) && n < |SplitLines(NewContent(data, edits))|
    ensures var planned := RewriteFrom(SplitLines(data), edits, 0);
            n < |planned| && planned[n] == SplitLines(NewContent(data, edits))[n]
  {
    WrittenLines(data, edits);
  }

  // ----- an edit that brings in a newline

  /** The only line of the file is replaced by two. */
  function TwoForOne(h: LineHash): Edit {
    Edit("replace", 1, h("a"), "b\nc")
  }

  lemma {:induction false} TwoForOneTexts(h: LineHash)
    ensures SplitLines("a") == ["a"] && RewriteFrom(["a"], [TwoForOne(h)], 0) == ["b\nc"]
    ensures ValidEdits(h, [TwoForOne(h)], SplitLines("a"))
    ensures SplitLines(NewContent("a", [TwoForOne(h)])) == ["b", "c"]
  {
    SplitOfClean("a");
    SplitOfClean("c");
    SplitAtNewline("b", "c");
    assert "b" + [NL] + "c" == "b\nc";
    var e := TwoForOne(h);
    assert EditOn([e], 1) == Some(e);
    assert RewriteFrom(["a"], [e], 1) == [];
  }

  function TwoForOneLines(oldHashes: Hashes, newHashes: Hashes): seq<DiffLine> {
    [DiffLine(Delete, "a", Some(1), None, oldHashes(1)), DiffLine(Insert, "b", None, Some(1), newHashes(1)),
     DiffLine(Insert, "c", None, Some(2), newHashes(2))]
  }

  lemma {:induction false} TwoForOneBody(before: seq<Line>, after: seq<Line>, rel: seq<Change>, oldHashes: Hashes,
                                         newHashes: Hashes)
    requires before == ["a"] && after == ["b", "c"] && rel == [Change(0, 1, 0, 2)]
    requires Formattable(before, after, rel, 0, 1)
    ensures Body(before, after, rel, 0, 1, oldHashes, newHashes) == TwoForOneLines(oldHashes, newHashes)
  {
    var gone := AddDeletes([], before, oldHashes, 0, 1);
    assert AddDeletes([], before, oldHashes, 0, 0) == [];
    assert gone == [DeleteLine(before, oldHashes, 0)];
    assert AddInserts(gone, after, newHashes, 0, 1, 0) == gone + [InsertLine(after, newHashes, 0, 0)];
    assert BodyUpTo(before, after, rel, 0, 1, oldHashes, newHashes, 0) == [];
    assert BodyUpTo(before, after, rel, 0, 1, oldHashes, newHashes, 1) == AddInserts(gone, after, newHashes, 0, 2, 0);
  }

  lemma {:induction false} TwoForOneChanges(before: seq<Line>, after: seq<Line>)
    requires before == ["a"] && after == ["b", "c"]
    ensures ChangesOf(before, after) == [Change(0, 1, 0, 2)]
  {
    TraceRealisesTable(before, after, 1, 2);
    assert Matches(before, after) == [];
  }

  lemma {:induction false} TwoForOneHunks(cs: seq<Change>)
    requires cs == [Change(0, 1, 0, 2)] && InRange(cs, 1)
    ensures HunksOf(cs, 1) == [Hunk(0, 1, 0, 1)]
  {
    assert HunksUpTo(cs, 1, 0) == [];
  }

  lemma {:induction false} TwoForOneBlocks(before: seq<Line>, after: seq<Line>, oldHashes: Hashes, newHashes: Hashes)
    requires before == ["a"] && after == ["b", "c"]
    ensures var bs := BlocksOf(before, after, oldHashes, newHashes);
            |bs| == 1 && bs[0].lines == TwoForOneLines(oldHashes, newHashes)
  {
    HunksOfDiff(before, after);
    TwoForOneChanges(before, after);
    var cs := ChangesOf(before, after);
    TwoForOneHunks(cs);
    TwoForOneBlock(before, after, cs, Hunk(0, 1, 0, 1), oldHashes, newHashes);
    BlocksForAt(before, after, cs, HunksOf(cs, 1), oldHashes, newHashes, 1, 0);
  }

  lemma {:induction false} TwoForOneBlock(before: seq<Line>, after: seq<Line>, cs: seq<Change>, h: Hunk,
                                          oldHashes: Hashes, newHashes: Hashes)
    requires before == ["a"] && after == ["b", "c"] && cs == [Change(0, 1, 0, 2)] && h == Hunk(0, 1, 0, 1)
    requires Script(before, after, cs) && InRange(cs, |before|) && Tight(cs, |before|, |cs|, h)
    ensures HunkBlock(before, after, cs, h, oldHashes, newHashes).lines == TwoForOneLines(oldHashes, newHashes)
  {
    HunkIsFormattable(before, after, cs, h);
    assert cs[0..1] == cs;
    TwoForOneBody(before, after, cs, oldHashes, newHashes);
  }

  /** The failing input: the preview shows the replaced line with the hash of the whole replacement, and its second line
      without a hash. */
  lemma {:induction false} NewlineLosesHash(h: LineHash)
    ensures ValidEdits(h, [TwoForOne(h)], SplitLines("a"))
    ensures var bs := PreviewBlocks(h, "a", [TwoForOne(h)]);
            && |bs| == 1 && |bs[0].lines| == 3
            && bs[0].lines[1].content == "b" && bs[0].lines[1].hash == Some(h("b\nc"))
            && bs[0].lines[2].content == "c" && !HashBelongs(h, bs[0].lines[2])
  {
    TwoForOneTexts(h);
    TwoForOneBlocks(["a"], ["b", "c"], HashTable(h, ["a"]), HashTable(h, ["b\nc"]));
  }
}
