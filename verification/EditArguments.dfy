/** Reading the edits out of a tool call's JSON arguments. */
module EditArguments {

  import opened Options
  import opened Edits

  /** One entry of the array. A member is None when it is missing or not of the expected type. */
  datatype RawEdit =
    | Object(operation: Option<string>, line: Option<real>, hash: Option<string>, content: Option<string>)
    | Other

  datatype Arguments = Missing | NoArray | Array(edits: seq<RawEdit>)

  /** The conversion of a number to an integer drops the fraction. */
  function Truncated(x: real): int {
    if x >= 0.0 then x.Floor else -((-x).Floor)
  }

  /** What is wrong with entry `i`, in the order of the checks. */
  function ShapeFault(i: nat, raw: RawEdit): Option<EditError> {
    if raw.Other? then Some(NotAnObject(i))
    else if raw.operation.None? then Some(MissingOperation(i))
    else if !KnownOperation(raw.operation.value) then Some(InvalidOperation(i, raw.operation.value))
    else if raw.line.None? then Some(MissingLine(i))
    else if raw.hash.None? then Some(MissingHash(i))
    else if raw.operation.value != "delete" && raw.content.None? then Some(MissingContent(i, raw.operation.value))
    else None
  }

  /** An object with a known operation, a line, a hash, and content unless it deletes. */
  predicate WellShaped(raw: RawEdit) {
    && raw.Object? && raw.operation.Some? && KnownOperation(raw.operation.value) && raw.line.Some? && raw.hash.Some?
    && (raw.operation.value == "delete" || raw.content.Some?)
  }

  /** The edit an entry stands for; the content of a delete is ignored. */
  function EditFrom(raw: RawEdit): Edit
    requires WellShaped(raw)
  {
    Edit(raw.operation.value, Truncated(raw.line.value), raw.hash.value,
         if raw.operation.value == "delete" then "" else raw.content.value)
  }

  ghost predicate AllShaped(raws: seq<RawEdit>) {
    forall i :: 0 <= i < |raws| ==> WellShaped(raws[i])
  }

  function EditsFrom(raws: seq<RawEdit>): (edits: seq<Edit>)
    requires forall i :: 0 <= i < |raws| ==> WellShaped(raws[i])
    ensures |edits| == |raws|
  {
    seq(|raws|, i requires 0 <= i < |raws| => EditFrom(raws[i]))
  }

  /** The whole number next to `x` on the side of zero. */
  predicate TowardsZero(x: real, n: int) {
    && (x >= 0.0 ==> 0 <= n && n as real <= x < (n + 1) as real)
    && (x < 0.0 ==> n <= 0 && (n - 1) as real < x <= n as real)
  }

  /** The edit holds the members of the object, each in its own place. */
  predicate ReadAs(raw: RawEdit, e: Edit) {
    && raw.Object? && raw.operation == Some(e.operation) && raw.hash == Some(e.hash)
    && raw.line.Some? && TowardsZero(raw.line.value, e.line)
    && (if e.operation == "delete" then e.content == "" else raw.content == Some(e.content))
  }

  ghost predicate AllRead(raws: seq<RawEdit>, edits: seq<Edit>) {
    |edits| == |raws| && forall i :: 0 <= i < |raws| ==> ReadAs(raws[i], edits[i])
  }

  lemma {:induction false} EditIsReadFrom(raw: RawEdit)
    requires WellShaped(raw)
    ensures ReadAs(raw, EditFrom(raw))
  {
  }

  predicate IsOperation(raw: RawEdit) {
    && raw.Object? && raw.operation.Some?
    && raw.operation.value in ["replace", "delete", "insert_after", "insert_before"]
  }

  /** The error says what entry `i` lacks first: being an object, an operation, a known one, a line, a hash, content. */
  predicate ShapeBlames(err: EditError, i: nat, raw: RawEdit) {
    match err
    case NotAnObject(k) => k == i && raw.Other?
    case MissingOperation(k) => k == i && raw.Object? && raw.operation.None?
    case InvalidOperation(k, name) => k == i && raw.Object? && raw.operation == Some(name) && !IsOperation(raw)
    case MissingLine(k) => k == i && IsOperation(raw) && raw.line.None?
    case MissingHash(k) => k == i && IsOperation(raw) && raw.line.Some? && raw.hash.None?
    case MissingContent(k, name) =>
      && k == i && IsOperation(raw) && raw.line.Some? && raw.hash.Some? && raw.content.None?
      && raw.operation == Some(name) && name != "delete"
    case _ => false
  }

  lemma {:induction false} FaultBlames(i: nat, raw: RawEdit)
    requires ShapeFault(i, raw).Some?
    ensures ShapeBlames(ShapeFault(i, raw).value, i, raw)
  {
  }

  /** The loop of `parseEdits`: the edits of a well-shaped array, and otherwise the first fault. */
  method ParseEdits(arguments: Arguments) returns (r: Result<seq<Edit>>)
    ensures r.Ok? <==> arguments.Array? && AllShaped(arguments.edits)
    ensures r.Ok? ==> r.value == EditsFrom(arguments.edits)
    ensures r.Ok? ==> forall i :: 0 <= i < |r.value| ==> KnownOperation(r.value[i].operation)
    ensures r.Ok? ==> AllRead(arguments.edits, r.value)
    ensures r.Err? && arguments.Array? ==>
              exists i :: 0 <= i < |arguments.edits| && ShapeBlames(r.error, i, arguments.edits[i])
                          && AllShaped(arguments.edits[..i])
    ensures arguments.Missing? ==> r == Err(NoEditsParameter)
    ensures arguments.NoArray? ==> r == Err(NotAnArray)
    ensures r.Err? && arguments.Array? ==>
              exists i :: 0 <= i < |arguments.edits| && ShapeFault(i, arguments.edits[i]) == Some(r.error)
                          && AllShaped(arguments.edits[..i])
  {
    if arguments.Missing? {
      return Err(NoEditsParameter);
    }
    if arguments.NoArray? {
      return Err(NotAnArray);
    }
    var raws := arguments.edits;
    var edits: seq<Edit> := [];
    var fault: Option<EditError> := None;
    var i := 0;
    while i < |raws| && fault == None
      invariant i <= |raws|
      invariant fault == None ==> |edits| == i && AllShaped(raws[..i])
      invariant fault == None ==> forall k :: 0 <= k < i ==> edits[k] == EditFrom(raws[..i][k])
      invariant fault.Some? ==> i < |raws| && AllShaped(raws[..i]) && ShapeFault(i, raws[i]) == fault
      decreases |raws| - i, if fault == None then 1 else 0
    {
      var raw := raws[i];
      if raw.Other? {
        fault := Some(NotAnObject(i));
      } else if raw.operation.None? {
        fault := Some(MissingOperation(i));
      } else if !KnownOperation(raw.operation.value) {
        fault := Some(InvalidOperation(i, raw.operation.value));
      } else if raw.line.None? {
        fault := Some(MissingLine(i));
      } else if raw.hash.None? {
        fault := Some(MissingHash(i));
      } else if raw.operation.value != "delete" && raw.content.None? {
        fault := Some(MissingContent(i, raw.operation.value));
      } else {
        var content := if raw.operation.value == "delete" then "" else raw.content.value;
        edits := edits + [Edit(raw.operation.value, Truncated(raw.line.value), raw.hash.value, content)];
        assert AllShaped(raws[..i+1]);
        i := i + 1;
      }
    }
    if fault.Some? {
      assert !WellShaped(raws[i]);
      FaultBlames(i, raws[i]);
      return Err(fault.value);
    }
    assert raws[..i] == raws;
    forall k | 0 <= k < |raws|
      ensures ReadAs(raws[k], edits[k])
    {
      EditIsReadFrom(raws[k]);
    }
    return Ok(edits);
  }
}
