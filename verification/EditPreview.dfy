/** The preview of an edit. */
module EditPreview {

  import opened Options
  import opened Blocks
  import opened Patch
  import opened Preview
  import opened Lines
  import opened Edits
  import opened EditArguments
  import opened EditFile

  /** How many of the first `k` edits have this operation. */
  function HowMany(edits: seq<Edit>, name: string, k: nat): nat
    requires k <= |edits|
  {
    if k == 0 then 0 else HowMany(edits, name, k - 1) + if edits[k-1].operation == name then 1 else 0
  }

  /** The blocks of a preview. The new lines are hashed as planned, before they are joined into a text. */
  function PreviewBlocks(h: LineHash, data: string, edits: seq<Edit>): seq<Block> {
    BlocksOf(SplitLines(data), SplitLines(NewContent(data, edits)), HashTable(h, SplitLines(data)),
             HashTable(h, RewriteFrom(SplitLines(data), edits, 0)))
  }

  /** The preview patches the file into the new content, line by line, and counts these edits. */
  ghost predicate Shows(h: LineHash, preview: DiffPreview, path: string, data: string, edits: seq<Edit>) {
    && preview.blocks == PreviewBlocks(h, data, edits)
    && Apply(SplitLines(data), preview.blocks) == Some(SplitLines(NewContent(data, edits)))
    && preview.summary.totalEdits == |edits| && preview.path == path
    && (forall name :: preview.summary.operations[name] == HowMany(edits, name, |edits|))
    && preview.summary.netChange == |SplitLines(NewContent(data, edits))| - |SplitLines(data)|
  }

  /** Main result: an accepted request shows a diff that turns the lines of the file into exactly the lines of the
      content `Execute` would write, and counts its own edits. */
  method PreviewStructured(h: LineHash, path: string, data: string, arguments: Arguments)
    returns (r: Result<DiffPreview>)
    ensures r.Ok? <==> Acceptable(h, data, arguments)
    ensures r.Ok? ==> Shows(h, r.value, path, data, EditsFrom(arguments.edits))
  {
    var prepared := PrepareEdits(h, data, arguments);
    if prepared.Err? {
      return Err(prepared.error);
    }
    var plan := prepared.value;
    var oldContent := AssembleContent(plan.oldLines, plan.trailingNewline);
    var newContent := AssembleContent(plan.newLines, plan.trailingNewline);
    AssembleInvertsSplit(data);
    var preview := GenerateStructuredDiffWithHashes(path, oldContent, newContent, HashTable(h, plan.oldLines),
                                                    HashTable(h, plan.newLines));
    var opCounts := CountOperations(plan.edits);
    preview := preview.(summary := preview.summary.(operations := opCounts, totalEdits := |plan.edits|));
    return Ok(preview);
  }

  method CountOperations(edits: seq<Edit>) returns (opCounts: multiset<string>)
    ensures forall name :: opCounts[name] == HowMany(edits, name, |edits|)
  {
    opCounts := multiset{};
    for i := 0 to |edits|
      invariant forall name :: opCounts[name] == HowMany(edits, name, i)
    {
      opCounts := opCounts + multiset{edits[i].operation};
    }
  }
}
