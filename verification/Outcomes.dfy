/** What a run tells about its own inputs: the model's replies, the calls in them, how the tools ended, and why calls
    were denied; act by act, in the words of the inputs. */
module Outcomes {

  import opened Options
  import opened Messages
  import opened Approvals
  import opened AgentSteps
  import opened AgentTrace

  // ----- counting

  predicate EndsTool(act: Act) {
    act.Emit? && (act.event.ToolCompleted? || act.event.ToolFailed?)
  }

  /** How many tool executions have ended in the first `k` acts. */
  function ToolsEnded(acts: seq<Act>, k: nat): nat
    requires k <= |acts|
  {
    if k == 0 then 0 else ToolsEnded(acts, k - 1) + if EndsTool(acts[k-1]) then 1 else 0
  }

  /** How often the model was prompted in the first `k` acts. */
  function Prompts(acts: seq<Act>, k: nat): nat
    requires k <= |acts|
  {
    if k == 0 then 0 else Prompts(acts, k - 1) + if acts[k-1].Prompt? then 1 else 0
  }

  lemma {:induction false} CountsOn(input: Input, p: Position, act: Act)
    requires Next(input, p, act).Some?
    ensures var q := Next(input, p, act).value;
            && q.executed == p.executed + (if EndsTool(act) then 1 else 0)
            && q.turns == p.turns + (if act.Prompt? then 1 else 0)
  {
  }

  lemma {:induction false} Counted(input: Input, run: Run, k: nat)
    requires Legal(input, run) && k <= |run.acts|
    ensures run.at[k].executed == ToolsEnded(run.acts, k) && run.at[k].turns == Prompts(run.acts, k)
  {
    if k == 0 {
    } else {
      Counted(input, run, k - 1);
      assert StepAt(input, run, k - 1);
      CountsOn(input, run.at[k-1], run.acts[k-1]);
    }
  }

  // ----- how tools end

  lemma {:induction false} FinishesTool(input: Input, p: Position, e: Event)
    requires AfterEvent(input, p, e).Some? && (e.ToolCompleted? || e.ToolFailed?)
    ensures p.stage.Executing? && p.stage.activity == Running(e.callId)
    ensures e.ToolCompleted? ==> input.outcomes(p.executed) == Output(e.output)
    ensures e.ToolFailed? ==> input.outcomes(p.executed) == Failure(e.error)
  {
  }

  /** Main result: the `n`-th execution is announced as completed with the very output it had, and as failed with the
      very error. */
  lemma {:induction false} OutcomeIsTold(input: Input, run: Run, i: nat)
    requires Legal(input, run) && IsEvent(run, i)
    ensures run.acts[i].event.ToolCompleted? ==>
              input.outcomes(ToolsEnded(run.acts, i)) == Output(run.acts[i].event.output)
    ensures run.acts[i].event.ToolFailed? ==>
              input.outcomes(ToolsEnded(run.acts, i)) == Failure(run.acts[i].event.error)
  {
    Counted(input, run, i);
    assert StepAt(input, run, i);
    if EndsTool(run.acts[i]) {
      FinishesTool(input, run.at[i], run.acts[i].event);
    }
  }

  lemma {:induction false} RunsOn(input: Input, p: Position, act: Act, id: string)
    requires Next(input, p, act).Some? && Next(input, p, act).value.stage.Executing?
    requires Next(input, p, act).value.stage.activity == Running(id)
    ensures if act.Execute? then act.call.id == id
            else act.Record? && p.stage.Executing? && p.stage.activity == Running(id)
  {
  }

  /** The call a tool is running, and the act that handed it over; since then it has only added messages. */
  lemma {:induction false} FindExecution(input: Input, run: Run, k: nat, id: string) returns (x: nat)
    requires Legal(input, run) && k <= |run.acts| && run.at[k].stage.Executing?
    requires run.at[k].stage.activity == Running(id)
    ensures x < k && run.acts[x].Execute? && run.acts[x].call.id == id
    ensures forall j :: x < j < k ==> run.acts[j].Record?
  {
    assert StepAt(input, run, k - 1);
    RunsOn(input, run.at[k-1], run.acts[k-1], id);
    if run.acts[k-1].Execute? {
      x := k - 1;
    } else {
      x := FindExecution(input, run, k - 1, id);
    }
  }

  /** What is announced as ended was handed to a tool, and nothing but messages came in between. */
  lemma {:induction false} EndedWasExecuted(input: Input, run: Run, i: nat) returns (x: nat)
    requires Legal(input, run) && i < |run.acts| && EndsTool(run.acts[i])
    ensures x < i && run.acts[x].Execute? && run.acts[x].call.id == run.acts[i].event.callId
    ensures forall j :: x < j < i ==> run.acts[j].Record?
  {
    assert StepAt(input, run, i);
    FinishesTool(input, run.at[i], run.acts[i].event);
    x := FindExecution(input, run, i, run.acts[i].event.callId);
  }

  // ----- the calls of the model

  lemma {:induction false} ReplyIsAsked(input: Input, p: Position, act: Act, response: Response)
    requires Next(input, p, act).Some?
    requires var stage := Next(input, p, act).value.stage;
             stage == Asked(Replied(response)) || (stage.Recorded? && stage.response == response)
    ensures act.Prompt? || (act.Record? && p.stage == Asked(Replied(response)))
    ensures act.Prompt? ==> p.turns < |input.replies| && input.replies[p.turns] == Replied(response)
  {
  }

  /** Whose reply it is that waits to be recorded or announced. */
  lemma {:induction false} ReplyOfTurn(input: Input, run: Run, k: nat, response: Response)
    requires Legal(input, run) && k <= |run.acts|
    requires run.at[k].stage == Asked(Replied(response))
             || (run.at[k].stage.Recorded? && run.at[k].stage.response == response)
    ensures 0 < run.at[k].turns <= |input.replies| && input.replies[run.at[k].turns - 1] == Replied(response)
  {
    assert StepAt(input, run, k - 1);
    ReplyIsAsked(input, run.at[k-1], run.acts[k-1], response);
    CountsOn(input, run.at[k-1], run.acts[k-1]);
    if !run.acts[k-1].Prompt? {
      ReplyOfTurn(input, run, k - 1, response);
    }
  }

  lemma {:induction false} AnnouncesReply(input: Input, p: Position, e: Event)
    requires AfterEvent(input, p, e).Some? && e.TurnCompleted?
    ensures p.stage == Asked(Replied(e.response)) || (p.stage.Recorded? && p.stage.response == e.response)
  {
  }

  /** What is announced as the turn of the model is its reply to the latest prompt. */
  lemma {:induction false} TurnIsReply(input: Input, run: Run, i: nat)
    requires Legal(input, run) && IsEvent(run, i) && run.acts[i].event.TurnCompleted?
    ensures 0 < Prompts(run.acts, i) <= |input.replies|
    ensures input.replies[Prompts(run.acts, i) - 1] == Replied(run.acts[i].event.response)
  {
    Counted(input, run, i);
    assert StepAt(input, run, i);
    AnnouncesReply(input, run.at[i], run.acts[i].event);
    ReplyOfTurn(input, run, i, run.acts[i].event.response);
  }

  /** Call `m` of the reply to prompt `t` is the last of its id, and this is its id, its name and its arguments. */
  ghost predicate IsCallOf(input: Input, t: nat, m: nat, id: string, name: string, arguments: string) {
    && t < |input.replies| && input.replies[t].Replied?
    && var calls := input.replies[t].response.toolCalls;
       LastOfKey(calls, input.newId(t), |calls|, id, m) && name == calls[m].name && arguments == calls[m].arguments
  }

  /** Main result: every proposed call is a call of the latest reply, with the name and arguments the model gave it. */
  lemma {:induction false} ProposedAsReplied(input: Input, run: Run, i: nat, n: nat) returns (m: nat)
    requires Legal(input, run) && IsEvent(run, i) && run.acts[i].event.ToolsProposed? && n < |run.acts[i].event.calls|
    ensures Prompts(run.acts, i) > 0
    ensures var call := run.acts[i].event.calls[n];
            IsCallOf(input, Prompts(run.acts, i) - 1, m, call.callId, call.name, call.arguments)
  {
    ProposedAsRecorded(input, run, i);
    TurnIsReply(input, run, i - 1);
    Counted(input, run, i);
    var call, calls := run.acts[i].event.calls[n], run.acts[i-1].event.response.toolCalls;
    assert ProposedFrom(call, calls, input.newId(run.at[i].turns - 1));
    m :| LastOfKey(calls, input.newId(run.at[i].turns - 1), |calls|, call.callId, m)
         && call.name == calls[m].name && call.arguments == calls[m].arguments;
  }

  /** A batch is settled right behind its proposal. */
  lemma {:induction false} SettledBehindProposal(input: Input, run: Run, s: nat)
    requires Legal(input, run) && s < |run.acts| && run.acts[s].Settle?
    ensures s > 0 && IsEvent(run, s - 1) && run.acts[s-1].event.ToolsProposed?
    ensures run.at[s].proposed == run.acts[s-1].event.calls
  {
    assert StepAt(input, run, s);
    assert run.at[s].stage.Proposed?;
    assert StepAt(input, run, s - 1);
    ProposedBy(input, run.at[s-1], run.acts[s-1]);
  }

  /** Main result: whatever is handed to a tool is a call that the model made, in its reply to an earlier prompt, with
      the name and the arguments it gave there. */
  lemma {:induction false} ExecutedAsReplied(input: Input, run: Run, i: nat) returns (t: nat, m: nat)
    requires Legal(input, run) && i < |run.acts| && run.acts[i].Execute?
    ensures t < Prompts(run.acts, i)
    ensures IsCallOf(input, t, m, run.acts[i].call.id, run.acts[i].call.name, run.acts[i].call.arguments)
  {
    var s := ExecutedAsProposed(input, run, i);
    SettledBehindProposal(input, run, s);
    var n :| 0 <= n < |run.at[s].proposed| && ShownAs(run.at[s].proposed[n], run.acts[i].call);
    m := ProposedAsReplied(input, run, s - 1, n);
    t := Prompts(run.acts, s - 1) - 1;
    PromptsGrow(run.acts, s - 1, i);
  }

  lemma {:induction false} PromptsGrow(acts: seq<Act>, j: nat, k: nat)
    requires j <= k <= |acts|
    ensures Prompts(acts, j) <= Prompts(acts, k)
  {
    if j < k {
      PromptsGrow(acts, j, k - 1);
    }
  }

  lemma {:induction false} Fails(input: Input, p: Position, e: Event)
    requires AfterEvent(input, p, e).Some? && e.RunFailed?
    ensures || ((p.stage == Opened || p.stage == Ready) && p.turns < |input.replies|
                && input.replies[p.turns] == ContextFailed(e.error))
            || p.stage == Asked(GenerationFailed(e.error))
            || (p.stage.Executing? && (p.stage.activity.Ran? || (p.stage.activity == Idle && p.stage.denied != {})))
  {
  }

  lemma {:induction false} AskedByPrompt(input: Input, p: Position, act: Act, reply: Reply)
    requires Next(input, p, act).Some? && Next(input, p, act).value.stage == Asked(reply)
    ensures act.Prompt? && p.turns < |input.replies| && input.replies[p.turns] == reply
  {
  }

  /** A run fails with the error of the context that could not be built or of the generation that failed; or while a
      result is due that cannot be recorded. */
  lemma {:induction false} FailureIsTold(input: Input, run: Run, i: nat)
    requires Legal(input, run) && IsEvent(run, i) && run.acts[i].event.RunFailed?
    ensures var n, error := Prompts(run.acts, i), run.acts[i].event.error;
            || (n < |input.replies| && input.replies[n] == ContextFailed(error))
            || (0 < n <= |input.replies| && input.replies[n-1] == GenerationFailed(error) && run.acts[i-1].Prompt?)
            || run.at[i].stage.Executing?
  {
    Counted(input, run, i);
    assert StepAt(input, run, i);
    Fails(input, run.at[i], run.acts[i].event);
    if run.at[i].stage.Asked? {
      assert StepAt(input, run, i - 1);
      AskedByPrompt(input, run.at[i-1], run.acts[i-1], run.at[i].stage.reply);
      CountsOn(input, run.at[i-1], run.acts[i-1]);
    }
  }

  // ----- what is recorded

  lemma {:induction false} RanBy(input: Input, p: Position, act: Act, id: string, output: string, isError: bool)
    requires Next(input, p, act).Some? && Next(input, p, act).value.stage.Executing?
    requires Next(input, p, act).value.stage.activity == Ran(id, output, isError)
    ensures act == Emit(if isError then ToolFailed(id, output) else ToolCompleted(id, output))
  {
  }

  /** The result answers act `k - 1`, which announced that the call ended, with the text announced there. */
  ghost predicate AnswersEnd(run: Run, k: nat, r: ToolResult)
    requires k <= |run.acts|
  {
    && k > 0
    && run.acts[k-1] == Emit(if r.isError then ToolFailed(r.callId, r.output) else ToolCompleted(r.callId, r.output))
  }

  /** The result answers a call that act `s` settled as denied, with the reason given in the first decision on it. */
  ghost predicate AnswersDenial(input: Input, run: Run, s: nat, r: ToolResult)
    requires |run.at| == |run.acts| + 1
  {
    && s < |run.acts| && run.acts[s].Settle? && r.callId in run.acts[s].denied && r.isError
    && exists j: nat, reason :: FirstDecision(input.commands, run.at[s].read, run.acts[s].stop, r.callId, j)
         && input.commands[j] == Deny(r.callId, reason)
         && r.output == "denied: " + (if reason == "" then "user denied" else reason)
  }

  lemma {:induction false} RecordsResult(input: Input, p: Position, msg: Message)
    requires AfterRecord(input, p, msg).Some? && msg.toolResult.Some?
    ensures p.stage.Executing? && msg.role == Tool && msg.content == msg.toolResult.value.output
    ensures msg.tokens == input.countTokens(msg.content) && msg.toolCalls == [] && msg.agentName == ""
    ensures exists i :: 0 <= i < |p.proposed| && NamedAs(p.proposed[i], msg.toolResult.value.callId,
                                                         msg.toolResult.value.name)
    ensures var r := msg.toolResult.value;
            || p.stage.activity == Ran(r.callId, r.output, r.isError)
            || (p.stage.activity == Idle && r.callId in p.stage.denied && r.isError
                && IsDenial(input, p, r.callId, r.output))
  {
  }

  /** Main result: every recorded result tells how its call ended. A call that ran has the text just announced, and is
      an error exactly when the call failed; any other was denied, and has the client's own reason. */
  lemma {:induction false} ResultTellsOutcome(input: Input, run: Run, k: nat)
    requires Legal(input, run) && k < |run.acts| && run.acts[k].Record? && run.acts[k].msg.toolResult.Some?
    ensures var msg := run.acts[k].msg;
            && msg.role == Tool && msg.content == msg.toolResult.value.output
            && msg.tokens == input.countTokens(msg.content)
    ensures var r := run.acts[k].msg.toolResult.value;
            AnswersEnd(run, k, r) || exists s :: 0 <= s < k && AnswersDenial(input, run, s, r)
  {
    var msg, p := run.acts[k].msg, run.at[k];
    var r := msg.toolResult.value;
    assert StepAt(input, run, k);
    RecordsResult(input, p, msg);
    if p.stage.activity == Idle {
      var s := FindSettle(input, run, k);
      assert AnswersDenial(input, run, s, r);
    } else {
      assert StepAt(input, run, k - 1);
      RanBy(input, run.at[k-1], run.acts[k-1], r.callId, r.output, r.isError);
    }
  }

  lemma {:induction false} RecordsOther(input: Input, p: Position, msg: Message)
    requires AfterRecord(input, p, msg).Some? && msg.toolResult.None?
    ensures msg.role == Assistant ==> p.stage.Asked? && p.stage.reply.Replied?
    ensures msg.role == Assistant ==>
              msg.content == p.stage.reply.response.content && msg.agentName == input.agentName
              && (msg.toolCalls == [] <==> p.stage.reply.response.toolCalls == [])
    ensures msg.role == Assistant ==>
              (p.stage.reply.response.completionTokens == Some(msg.tokens))
              || (p.stage.reply.response.completionTokens == None && msg.tokens == 0)
    ensures msg.role == Assistant || msg.role == User
    ensures msg.role == User ==> msg.toolCalls == [] && msg.agentName == ""
    ensures msg.role == User && p.stage == Opened ==>
              msg.content == input.prompt && msg.tokens == input.countTokens(input.prompt)
    ensures msg.role == User && p.stage != Opened ==> IntoBatch(p.stage) && msg.tokens == 0
  {
  }

  /** Main result: every other recorded message is the model's latest reply, with its text and its size; or the user's
      prompt, before the first prompt of the model; or a text that the tool just running adds. */
  lemma {:induction false} MessageTellsInput(input: Input, run: Run, k: nat)
    requires Legal(input, run) && k < |run.acts| && run.acts[k].Record? && run.acts[k].msg.toolResult.None?
    ensures run.acts[k].msg.role == Assistant || run.acts[k].msg.role == User
    ensures run.acts[k].msg.role == Assistant ==>
              && 0 < Prompts(run.acts, k) <= |input.replies| && input.replies[Prompts(run.acts, k) - 1].Replied?
              && var msg, response := run.acts[k].msg, input.replies[Prompts(run.acts, k) - 1].response;
                 && msg.content == response.content && msg.agentName == input.agentName
                 && Some(msg.tokens) == if response.completionTokens.None? then Some(0) else response.completionTokens
    ensures run.acts[k].msg.role == User && !IntoBatch(run.at[k].stage) ==>
              && k == 1 && run.acts[k].msg.content == input.prompt
              && run.acts[k].msg.tokens == input.countTokens(input.prompt)
  {
    var msg, p := run.acts[k].msg, run.at[k];
    Counted(input, run, k);
    assert StepAt(input, run, k);
    RecordsOther(input, p, msg);
    if msg.role == Assistant {
      ReplyOfTurn(input, run, k, p.stage.reply.response);
    } else if p.stage == Opened {
      assert StepAt(input, run, k - 1);
      OpenedBy(input, run.at[k-1], run.acts[k-1]);
      StartsOnce(input, run, k - 1);
    }
  }

  lemma {:induction false} OpenedBy(input: Input, p: Position, act: Act)
    requires Next(input, p, act).Some? && Next(input, p, act).value.stage == Opened
    ensures act.Emit? && act.event.RunStarted?
  {
  }

  /** The calls recorded with a reply are the proposed ones, with their names and arguments. */
  lemma {:induction false} RecordedAsProposed(input: Input, run: Run, i: nat, j: nat)
    requires Legal(input, run) && IsEvent(run, i) && run.acts[i].event.ToolsProposed? && i >= 2
    requires run.acts[i-2].Record? && j < |run.acts[i-2].msg.toolCalls|
    ensures exists n :: 0 <= n < |run.acts[i].event.calls|
                        && ShownAs(run.acts[i].event.calls[n], run.acts[i-2].msg.toolCalls[j])
  {
    ProposedAsRecorded(input, run, i);
    assert Shown(run.acts[i].event.calls, run.acts[i-2].msg.toolCalls[j]);
  }
}
