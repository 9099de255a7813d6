/** The role-alternation validator, and exactly which logs it accepts once they have been normalised. */
module Validator {

  import opened Options
  import opened Messages
  import opened Normalize

  datatype ValidationError =
    | FirstNotSystem(role: Role)
    | Consecutive(role: Role, index: nat)
    | UnexpectedToolResult(index: nat)

  predicate IsResult(msg: Message) {
    msg.role == Tool || msg.toolResult.Some?
  }

  /** A tool result may follow this message. */
  predicate Expecting(msg: Message) {
    (msg.role == Assistant && msg.toolCalls != []) || IsResult(msg)
  }

  /** What is wrong with message `i`, in the order of the checks. The system message in front sets neither the
      previous role nor the expectation. */
  function Fault(ms: seq<Message>, useToolRole: bool, i: nat): Option<ValidationError>
    requires 0 < i < |ms|
  {
    var role := EffectiveRole(ms[i], useToolRole);
    if i > 1 && role == EffectiveRole(ms[i-1], useToolRole) && role != Tool then Some(Consecutive(role, i))
    else if IsResult(ms[i]) && !(i > 1 && Expecting(ms[i-1])) then Some(UnexpectedToolResult(i))
    else None
  }

  ghost predicate Accepted(ms: seq<Message>, useToolRole: bool) {
    ms == [] || (ms[0].role == System && forall i :: 0 < i < |ms| ==> Fault(ms, useToolRole, i) == None)
  }

  /** Message `i` goes together with the one before it, as one speaker's; a message of the tool role that carries no
      result never does. */
  predicate RepeatsSpeaker(ms: seq<Message>, useToolRole: bool, i: nat)
    requires 0 < i < |ms|
  {
    i > 1 && GoTogether(ms[i-1], ms[i], useToolRole) && (ms[i].role == Tool ==> ms[i].toolResult.Some?)
  }

  /** Message `i` is a result, and there is neither a result nor an assistant message with calls before it. */
  predicate LacksCall(ms: seq<Message>, i: nat)
    requires 0 < i < |ms|
  {
    && (ms[i].role == Tool || ms[i].toolResult.Some?)
    && (i == 1 || !(ms[i-1].role == Tool || ms[i-1].toolResult.Some?
                    || (ms[i-1].role == Assistant && ms[i-1].toolCalls != [])))
  }

  predicate InOrder(ms: seq<Message>, useToolRole: bool, i: nat)
    requires 0 < i < |ms|
  {
    !RepeatsSpeaker(ms, useToolRole, i) && !LacksCall(ms, i)
  }

  lemma {:induction false} FaultMeans(ms: seq<Message>, useToolRole: bool, i: nat)
    requires 0 < i < |ms|
    ensures Fault(ms, useToolRole, i) == None <==> InOrder(ms, useToolRole, i)
    ensures Fault(ms, useToolRole, i).Some? && RepeatsSpeaker(ms, useToolRole, i) ==>
              Fault(ms, useToolRole, i).value.Consecutive? && Fault(ms, useToolRole, i).value.index == i
    ensures Fault(ms, useToolRole, i).Some? && !RepeatsSpeaker(ms, useToolRole, i) ==>
              Fault(ms, useToolRole, i) == Some(UnexpectedToolResult(i))
  {
  }

  /** A list is accepted if and only if it is empty, or begins with a system message, behind which no speaker speaks
      twice in a row and no result lacks its call. */
  lemma {:induction false} AcceptedIffInOrder(ms: seq<Message>, useToolRole: bool)
    ensures Accepted(ms, useToolRole) <==>
            ms == [] || (ms[0].role == System && forall i :: 0 < i < |ms| ==> InOrder(ms, useToolRole, i))
  {
    forall i | 0 < i < |ms|
      ensures Fault(ms, useToolRole, i) == None <==> InOrder(ms, useToolRole, i)
    {
      FaultMeans(ms, useToolRole, i);
    }
  }

  /** The stateful loop of the source. */
  method ValidateRoleAlternation(messages: seq<Message>, useToolRole: bool) returns (err: Option<ValidationError>)
    ensures err == None <==> Accepted(messages, useToolRole)
    ensures err == None <==>
            messages == []
            || (messages[0].role == System
                && forall i :: 0 < i < |messages| ==> InOrder(messages, useToolRole, i))
    ensures messages != [] && messages[0].role != System ==> err == Some(FirstNotSystem(messages[0].role))
    ensures err.Some? && messages[0].role == System ==>
              exists i :: 0 < i < |messages| && err == Fault(messages, useToolRole, i)
                          && forall k :: 0 < k < i ==> Fault(messages, useToolRole, k) == None
  {
    AcceptedIffInOrder(messages, useToolRole);
    if |messages| == 0 {
      return None;
    }
    if messages[0].role != System {
      return Some(FirstNotSystem(messages[0].role));
    }
    var prevRole: Option<Role> := None;
    var expectingToolResult := false;
    for i := 1 to |messages|
      invariant prevRole == if i == 1 then None else Some(EffectiveRole(messages[i-1], useToolRole))
      invariant expectingToolResult == (i > 1 && Expecting(messages[i-1]))
      invariant forall k :: 0 < k < i ==> Fault(messages, useToolRole, k) == None
    {
      var msg := messages[i];
      var actualRole := EffectiveRole(msg, useToolRole);
      if prevRole == Some(actualRole) && actualRole != Tool {
        assert Fault(messages, useToolRole, i) == Some(Consecutive(actualRole, i));
        return Some(Consecutive(actualRole, i));
      }
      if msg.role == Tool || msg.toolResult.Some? {
        if !expectingToolResult {
          assert Fault(messages, useToolRole, i) == Some(UnexpectedToolResult(i));
          return Some(UnexpectedToolResult(i));
        }
      }
      if msg.role == Assistant && |msg.toolCalls| > 0 {
        expectingToolResult := true;
      } else if msg.role == Tool || msg.toolResult.Some? {
        expectingToolResult := true;
      } else {
        expectingToolResult := false;
      }
      prevRole := Some(actualRole);
    }
    return None;
  }

  // ----- which logs are accepted

  /** Logs as the agent writes them: a system message first, and the tool role exactly on tool results. */
  ghost predicate AgentLog(ms: seq<Message>) {
    && ms != [] && ms[0].role == System
    && forall i :: 0 <= i < |ms| ==> (ms[i].role == Tool <==> ms[i].toolResult.Some?)
  }

  /** Message `j` belongs to a run of assistant messages of which one, up to `j`, has calls. */
  predicate RunHasCalls(ms: seq<Message>, j: nat)
    requires j < |ms|
  {
    ms[j].role == Assistant && (ms[j].toolCalls != [] || (j > 0 && RunHasCalls(ms, j-1)))
  }

  /** Tool result `i` is prepared for: behind another result, behind assistant messages with calls, or, when
      results are sent as user messages, behind a user message. */
  predicate Prepared(ms: seq<Message>, useToolRole: bool, i: nat)
    requires 0 < i < |ms|
  {
    ms[i].toolResult.Some? ==>
      ms[i-1].toolResult.Some? || RunHasCalls(ms, i-1) || (!useToolRole && ms[i-1].role == User)
  }

  /** What the last normalised message keeps of the last message read. */
  ghost predicate LastAgrees(r: seq<Message>, ms: seq<Message>, useToolRole: bool, k: nat)
    requires 0 < k <= |ms| && r != []
  {
    var last := r[|r|-1];
    && (last.role == Tool <==> last.toolResult.Some?)
    && EffectiveRole(last, useToolRole) == EffectiveRole(ms[k-1], useToolRole)
    && (last.role == Assistant ==> (last.toolCalls != [] <==> RunHasCalls(ms, k-1)))
    && r[0].role == System
  }

  /** Normalising the next message keeps the agreement, and adds a fault exactly when that message is a tool result
      that was not prepared for. */
  lemma {:induction false} NextMessage(r: seq<Message>, ms: seq<Message>, useToolRole: bool, k: nat)
    requires AgentLog(ms) && 0 < k < |ms| && r != [] && LastAgrees(r, ms, useToolRole, k)
    ensures var r' := With(r, ms[k], useToolRole);
            && LastAgrees(r', ms, useToolRole, k + 1)
            && (Accepted(r', useToolRole) <==> Accepted(r, useToolRole) && Prepared(ms, useToolRole, k))
  {
    if ShouldMerge(ms[k], r[|r|-1], useToolRole) {
      MergeKeepsFaults(r, ms[k], useToolRole);
    } else {
      AppendAddsFault(r, ms[k], useToolRole);
      assert (r + [ms[k]])[|r|] == ms[k];
    }
  }

  lemma {:induction false} MergeKeepsFaults(r: seq<Message>, m: Message, useToolRole: bool)
    requires r != []
    ensures Accepted(r[..|r|-1] + [Merged(r[|r|-1], m)], useToolRole) <==> Accepted(r, useToolRole)
  {
    var r' := r[..|r|-1] + [Merged(r[|r|-1], m)];
    forall i | 0 < i < |r|
      ensures Fault(r', useToolRole, i) == Fault(r, useToolRole, i)
    {
      assert r'[i-1] == r[i-1];
    }
  }

  lemma {:induction false} AppendAddsFault(r: seq<Message>, m: Message, useToolRole: bool)
    requires r != []
    ensures Accepted(r + [m], useToolRole) <==> Accepted(r, useToolRole) && Fault(r + [m], useToolRole, |r|) == None
  {
    var r' := r + [m];
    forall i | 0 < i < |r|
      ensures Fault(r', useToolRole, i) == Fault(r, useToolRole, i)
    {
      assert r'[i-1] == r[i-1] && r'[i] == r[i];
    }
  }

  lemma {:induction false} AcceptedUpTo(ms: seq<Message>, useToolRole: bool, k: nat)
    requires AgentLog(ms) && 0 < k <= |ms|
    ensures LastAgrees(NormalizedUpTo(ms, useToolRole, k), ms, useToolRole, k)
    ensures Accepted(NormalizedUpTo(ms, useToolRole, k), useToolRole) <==> AllPrepared(ms, useToolRole, k)
  {
    if k == 1 {
      FirstMessage(ms, useToolRole);
    } else {
      AcceptedUpTo(ms, useToolRole, k - 1);
      NextMessage(NormalizedUpTo(ms, useToolRole, k - 1), ms, useToolRole, k - 1);
      PreparedOneMore(ms, useToolRole, k - 1);
    }
  }

  /** Every tool result among the first `k` messages is prepared for. */
  ghost predicate AllPrepared(ms: seq<Message>, useToolRole: bool, k: nat)
    requires k <= |ms|
  {
    forall i :: 0 < i < k ==> Prepared(ms, useToolRole, i)
  }

  lemma {:induction false} PreparedOneMore(ms: seq<Message>, useToolRole: bool, k: nat)
    requires 0 < k < |ms|
    ensures AllPrepared(ms, useToolRole, k + 1) <==> AllPrepared(ms, useToolRole, k) && Prepared(ms, useToolRole, k)
  {
  }

  lemma {:induction false} FirstMessage(ms: seq<Message>, useToolRole: bool)
    requires AgentLog(ms)
    ensures NormalizedUpTo(ms, useToolRole, 1) == [ms[0]] && Accepted([ms[0]], useToolRole)
    ensures LastAgrees([ms[0]], ms, useToolRole, 1)
  {
    assert NormalizedUpTo(ms, useToolRole, 0) == [];
  }

  /** Main result: in either mode, a normalised agent log is accepted if and only if every tool result in it was
      prepared for. */
  lemma {:induction false} AcceptedIffPrepared(ms: seq<Message>, useToolRole: bool)
    requires AgentLog(ms)
    ensures Accepted(Normalized(ms, useToolRole), useToolRole) <==>
            forall i :: 0 < i < |ms| ==> Prepared(ms, useToolRole, i)
  {
    AcceptedUpTo(ms, useToolRole, |ms|);
  }

  /** In particular, logs whose results directly follow a result or an assistant message with calls pass in both
      modes. */
  lemma {:induction false} WellFormedLogsPass(ms: seq<Message>, useToolRole: bool)
    requires AgentLog(ms)
    requires forall i :: 0 < i < |ms| && ms[i].toolResult.Some? ==>
               ms[i-1].toolResult.Some? || (ms[i-1].role == Assistant && ms[i-1].toolCalls != [])
    ensures Accepted(Normalized(ms, useToolRole), useToolRole)
  {
    AcceptedIffPrepared(ms, useToolRole);
  }

  /** Skill content injected between a call and its result is a user message: it passes only while results travel as
      user messages. */
  lemma {:induction false} InjectionNeedsUserMode(ms: seq<Message>, useToolRole: bool, i: nat)
    requires AgentLog(ms) && 0 < i < |ms| && ms[i].toolResult.Some? && ms[i-1].role == User
    ensures useToolRole ==> !Accepted(Normalized(ms, useToolRole), useToolRole)
    ensures Prepared(ms, useToolRole, i) <==> !useToolRole
  {
    AcceptedIffPrepared(ms, useToolRole);
    assert Prepared(ms, useToolRole, i) <==> !useToolRole;
  }

  /** A history cut in the middle of a batch starts with a result right behind the system message: never accepted. */
  lemma {:induction false} CutBatchIsRejected(ms: seq<Message>, useToolRole: bool)
    requires AgentLog(ms) && |ms| > 1 && ms[1].toolResult.Some?
    ensures !Accepted(Normalized(ms, useToolRole), useToolRole)
  {
    AcceptedIffPrepared(ms, useToolRole);
    assert !Prepared(ms, useToolRole, 1);
  }
}
