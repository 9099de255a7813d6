/** The edit tool: planning and execution. */
module EditFile {

  import opened Options
  import opened Lcs
  import opened Lines
  import opened Edits
  import opened EditArguments

  datatype EditPlan = EditPlan(oldLines: seq<Line>, newLines: seq<Line>, edits: seq<Edit>, trailingNewline: bool)

  /** The requests that are accepted for a file with this content. */
  ghost predicate Acceptable(h: LineHash, data: string, arguments: Arguments) {
    && arguments.Array? && arguments.edits != [] && AllShaped(arguments.edits)
    && ValidEdits(h, EditsFrom(arguments.edits), SplitLines(data))
  }

  /** The content that results: each line rewritten by its own edit, and the final newline kept. */
  function NewContent(data: string, edits: seq<Edit>): string {
    AssembleContent(RewriteFrom(SplitLines(data), edits, 0), EndsInNewline(data))
  }

  /** The refusals of a request that do not depend on the file. */
  ghost predicate IsRequestError(e: EditError, arguments: Arguments) {
    match arguments
    case Missing => e == NoEditsParameter
    case NoArray => e == NotAnArray
    case Array(raws) =>
      || (raws == [] && e == NoEdits)
      || exists i :: 0 <= i < |raws| && ShapeFault(i, raws[i]) == Some(e) && AllShaped(raws[..i])
  }

  method PrepareEdits(h: LineHash, data: string, arguments: Arguments) returns (r: Result<EditPlan>)
    ensures r.Ok? <==> Acceptable(h, data, arguments)
    ensures r.Err? && !(arguments.Array? && arguments.edits != [] && AllShaped(arguments.edits)) ==>
              IsRequestError(r.error, arguments)
    ensures r.Err? && arguments.Array? && arguments.edits != [] && AllShaped(arguments.edits) ==>
              Some(r.error) == FirstProblem(h, EditsFrom(arguments.edits), SplitLines(data), 0)
    ensures r.Ok? ==> r.value == PlanFor(data, EditsFrom(arguments.edits))
  {
    var parsed := ParseEdits(arguments);
    if parsed.Err? {
      return Err(parsed.error);
    }
    var edits := parsed.value;
    if |edits| == 0 {
      return Err(NoEdits);
    }
    var trailingNewline := |data| > 0 && data[|data|-1] == NL;
    var lines := SplitLines(data);
    var invalid := ValidateEdits(h, edits, lines);
    if invalid.Some? {
      return Err(invalid.value);
    }
    var applied := ApplyEdits(lines, edits);
    // The source passes on an unknown operation here; parsing has already refused every one.
    assert applied.Ok?;
    return Ok(EditPlan(lines, applied.value, edits, trailingNewline));
  }

  function PlanFor(data: string, edits: seq<Edit>): EditPlan {
    EditPlan(SplitLines(data), RewriteFrom(SplitLines(data), edits, 0), edits, EndsInNewline(data))
  }

  lemma {:induction false} NeverTooLarge(h: LineHash, edits: seq<Edit>, lines: seq<Line>, i: nat)
    requires i <= |edits|
    ensures FirstProblem(h, edits, lines, i) != Some(TooLarge)
    decreases |edits| - i
  {
    if i == |edits| {
    } else {
      NeverTooLarge(h, edits, lines, i + 1);
    }
  }

  lemma {:induction false} RequestIsNeverTooLarge(arguments: Arguments)
    ensures !IsRequestError(TooLarge, arguments)
  {
  }

  /** The new content exceeds the configured limit, if there is one. */
  predicate OverLimit(content: string, maxSizeBytes: int) {
    maxSizeBytes > 0 && |content| > maxSizeBytes
  }

  /** The content written; the size limit is the one refusal a preview does not share. */
  method Execute(h: LineHash, data: string, arguments: Arguments, maxSizeBytes: int) returns (r: Result<string>)
    ensures r.Ok? ==> Acceptable(h, data, arguments) && r.value == NewContent(data, EditsFrom(arguments.edits))
                      && !OverLimit(r.value, maxSizeBytes) && (maxSizeBytes <= 0 || |r.value| <= maxSizeBytes)
    ensures r == Err(TooLarge) ==> Acceptable(h, data, arguments)
                                   && 0 < maxSizeBytes < |NewContent(data, EditsFrom(arguments.edits))|
    ensures r.Err? && r != Err(TooLarge) ==> !Acceptable(h, data, arguments)
  {
    var prepared := PrepareEdits(h, data, arguments);
    if prepared.Err? {
      RequestIsNeverTooLarge(arguments);
      if arguments.Array? && AllShaped(arguments.edits) {
        NeverTooLarge(h, EditsFrom(arguments.edits), SplitLines(data), 0);
      }
      return Err(prepared.error);
    }
    var plan := prepared.value;
    var newContent := AssembleContent(plan.newLines, plan.trailingNewline);
    if maxSizeBytes > 0 && |newContent| > maxSizeBytes {
      return Err(TooLarge);
    }
    return Ok(newContent);
  }

  /** When no edit brings in a newline, the written content has exactly the rewritten lines, except that a final
      empty line of a file without final newline is not counted as a line. */
  lemma {:induction false} WrittenLines(data: string, edits: seq<Edit>)
    requires forall e :: e in edits ==> NL !in e.content
    ensures var ls := RewriteFrom(SplitLines(data), edits, 0);
            SplitLines(NewContent(data, edits))
            == if !EndsInNewline(data) && ls != [] && ls[|ls|-1] == "" then ls[..|ls|-1] else ls
  {
    SplitIsClean(data);
    RewriteIsClean(SplitLines(data), edits, 0);
    SplitLinesOfAssembled(RewriteFrom(SplitLines(data), edits, 0), EndsInNewline(data));
  }

  lemma {:induction false} PieceIsClean(lines: seq<Line>, edits: seq<Edit>, i: nat)
    requires Clean(lines) && i < |lines| && forall e :: e in edits ==> NL !in e.content
    ensures Clean(Piece(lines, edits, i))
  {
    EditOnFinds(edits, i + 1);
  }

  lemma {:induction false} RewriteIsClean(lines: seq<Line>, edits: seq<Edit>, i: nat)
    requires Clean(lines) && i <= |lines| && forall e :: e in edits ==> NL !in e.content
    ensures Clean(RewriteFrom(lines, edits, i))
    decreases |lines| - i
  {
    if i == |lines| {
    } else {
      RewriteIsClean(lines, edits, i + 1);
      PieceIsClean(lines, edits, i);
    }
  }
}
