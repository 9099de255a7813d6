/** From run to run of one session: what the log of a session lets the next run see, and what the run leaves behind. */
module Sessions {

  import opened Messages
  import opened Normalize
  import opened Validator
  import opened AgentSteps
  import opened AgentTrace
  import opened SessionFile
  import opened Window

  predicate IsSystem(m: Message) {
    m.role == System && m.toolResult.None?
  }

  /** A cut through a well-formed log is well formed behind the system message unless it falls in front of a result. */
  lemma {:induction false} CutIsWellFormedIff(sys: Message, log: seq<Message>, n: nat)
    requires IsSystem(sys) && WellFormed([sys] + log) && n <= |log|
    ensures WellFormed([sys] + log[n..]) <==> n == |log| || log[n].toolResult.None?
  {
    var whole, cut := [sys] + log, [sys] + log[n..];
    forall i | 0 <= i < |cut|
      ensures cut[i].role == Tool <==> cut[i].toolResult.Some?
    {
      assert i > 0 ==> cut[i] == whole[n + i];
    }
    forall i | 1 < i < |cut|
      ensures FollowsUp(cut, i)
    {
      assert FollowsUp(whole, n + i) && cut[i] == whole[n + i] && cut[i-1] == whole[n + i - 1];
    }
    if n < |log| {
      assert cut[1] == log[n];
      assert FollowsUp(cut, 1) <==> log[n].toolResult.None?;
    }
  }

  /** What the first turn of a run is handed: the system message, the loaded history, and the user's prompt, if there
      is one. */
  ghost predicate IsFirstContext(ms: seq<Message>, sys: Message, history: seq<Message>, prompt: string) {
    if prompt == "" then ms == [sys] + history
    else
      && |ms| == |history| + 2 && ms[..|history| + 1] == [sys] + history
      && IsPlain(ms[|history| + 1], User) && ms[|history| + 1].content == prompt
  }

  lemma {:induction false} FirstContextIsWellFormed(ms: seq<Message>, sys: Message, history: seq<Message>,
                                                    prompt: string)
    requires IsFirstContext(ms, sys, history, prompt) && WellFormed([sys] + history)
    ensures WellFormed(ms)
  {
    if prompt != "" {
      var user := ms[|history| + 1];
      assert ms == [sys] + history + [user];
      WellFormedSnoc([sys] + history, user);
    }
  }

  lemma {:induction false} FirstContextIsAgentLog(ms: seq<Message>, sys: Message, history: seq<Message>, prompt: string)
    requires IsFirstContext(ms, sys, history, prompt) && AgentLog([sys] + history)
    ensures AgentLog(ms)
    ensures history != [] ==> |ms| > 1 && ms[1] == history[0]
  {
    forall i | 0 <= i < |ms|
      ensures ms[i].role == Tool <==> ms[i].toolResult.Some?
    {
      assert i <= |history| ==> ms[i] == ([sys] + history)[i];
    }
    assert ms[0] == ([sys] + history)[0];
    assert history != [] ==> ms[1] == ([sys] + history)[1];
  }

  /** Main result, across the session file, the agent and the validator: the first context of the next run, with the
      user's prompt or without, is accepted in both modes if and only if the loaded history is empty or does not begin
      with a tool result. */
  lemma {:induction false} NextContextPassesIff(codec: Codec<Message>, log: seq<Message>, params: BudgetParams,
                                                sys: Message, prompt: string, ms: seq<Message>, useToolRole: bool)
    requires Lawful(codec) && IsSystem(sys) && WellFormed([sys] + log)
    requires IsFirstContext(ms, sys, Tail(codec, log, HistoryBudget(params)), prompt)
    ensures var history := Tail(codec, log, HistoryBudget(params));
            && (WellFormed([sys] + history) <==> history == [] || history[0].toolResult.None?)
            && (Accepted(Normalized(ms, useToolRole), useToolRole) <==> history == [] || history[0].toolResult.None?)
  {
    var history := Tail(codec, log, HistoryBudget(params));
    LogTail(codec, log, HistoryBudget(params));
    var n := |log| - |history|;
    assert history == log[n..];
    CutIsWellFormedIff(sys, log, n);
    if history == [] || history[0].toolResult.None? {
      FirstContextIsWellFormed(ms, sys, history, prompt);
      WellFormedIsAccepted(ms, useToolRole);
    } else {
      CutIsAgentLog(sys, log, n);
      FirstContextIsAgentLog(ms, sys, history, prompt);
      CutBatchIsRejected(ms, useToolRole);
    }
  }

  lemma {:induction false} CutIsAgentLog(sys: Message, log: seq<Message>, n: nat)
    requires IsSystem(sys) && WellFormed([sys] + log) && n <= |log|
    ensures AgentLog([sys] + log[n..])
  {
    var whole, cut := [sys] + log, [sys] + log[n..];
    forall i | 0 <= i < |cut|
      ensures cut[i].role == Tool <==> cut[i].toolResult.Some?
    {
      assert i > 0 ==> cut[i] == whole[n + i];
    }
  }

  // ----- the first prompt

  /** Nothing but the user's prompt has been recorded. */
  ghost predicate BeforeFirstPrompt(input: Input, p: Position) {
    match p.stage
    case Begin => p.log == input.base
    case Opened => p.log == input.base
    case Ready =>
      && |p.log| == |input.base| + 1 && p.log[..|input.base|] == input.base && input.prompt != ""
      && IsPlain(p.log[|input.base|], User) && p.log[|input.base|].content == input.prompt
    case _ => p.stage == Ended
  }

  lemma {:induction false} StaysBeforeFirstPrompt(input: Input, p: Position, act: Act)
    requires BeforeFirstPrompt(input, p) && Next(input, p, act).Some? && !act.Prompt?
    ensures BeforeFirstPrompt(input, Next(input, p, act).value)
  {
  }

  lemma {:induction false} NoPromptYet(input: Input, run: Run, k: nat)
    requires Legal(input, run) && k <= |run.acts| && forall j :: 0 <= j < k ==> !run.acts[j].Prompt?
    ensures BeforeFirstPrompt(input, run.at[k])
  {
    if k == 0 {
    } else {
      NoPromptYet(input, run, k - 1);
      assert StepAt(input, run, k - 1);
      StaysBeforeFirstPrompt(input, run.at[k-1], run.acts[k-1]);
    }
  }

  lemma {:induction false} PromptedFirst(input: Input, p: Position, act: Act, sys: Message, history: seq<Message>)
    requires act.Prompt? && Next(input, p, act).Some? && Next(input, p, act).value.clean
    requires BeforeFirstPrompt(input, p) && input.base == [sys] + history
    ensures IsFirstContext(act.context, sys, history, input.prompt)
  {
    assert |input.base| == |history| + 1;
  }

  /** A clean run hands the model, first of all, the context it was started with and its own prompt. */
  lemma {:induction false} FirstPromptIsFirstContext(input: Input, run: Run, i: nat, sys: Message,
                                                     history: seq<Message>)
    requires Legal(input, run) && Last(run).clean && input.base == [sys] + history
    requires i < |run.acts| && run.acts[i].Prompt? && forall j :: 0 <= j < i ==> !run.acts[j].Prompt?
    ensures IsFirstContext(run.acts[i].context, sys, history, input.prompt)
  {
    NoPromptYet(input, run, i);
    CleanBefore(input, run, i + 1, |run.acts|);
    assert StepAt(input, run, i);
    PromptedFirst(input, run.at[i], run.acts[i], sys, history);
  }

  // ----- what a run leaves behind

  lemma {:induction false} LogExtendsBase(input: Input, run: Run, k: nat)
    requires Legal(input, run) && k <= |run.acts|
    ensures input.base <= run.at[k].log
  {
    if k == 0 {
    } else {
      LogExtendsBase(input, run, k - 1);
      assert StepAt(input, run, k - 1);
      LogOnlyGrows(input, run.at[k-1], run.acts[k-1]);
    }
  }

  lemma {:induction false} LogOnlyGrows(input: Input, p: Position, act: Act)
    requires Next(input, p, act).Some?
    ensures p.log <= Next(input, p, act).value.log
  {
  }

  /** What a run recorded may follow the whole log as well as the part of it that the run saw. */
  lemma {:induction false} RecordedFollowsLog(sys: Message, log: seq<Message>, n: nat, recorded: seq<Message>)
    requires IsSystem(sys) && WellFormed([sys] + log) && n <= |log| && WellFormed([sys] + log[n..] + recorded)
    ensures WellFormed([sys] + log + recorded)
  {
    var seen, all, before := [sys] + log[n..] + recorded, [sys] + log + recorded, [sys] + log;
    forall i | 0 <= i < |all|
      ensures all[i].role == Tool <==> all[i].toolResult.Some?
    {
      assert if i <= |log| then all[i] == before[i] else all[i] == seen[i - n];
    }
    forall i | 0 < i < |all|
      ensures FollowsUp(all, i)
    {
      if i <= |log| {
        assert FollowsUp(before, i) && all[i] == before[i] && all[i-1] == before[i-1];
      } else {
        assert FollowsUp(seen, i - n) && all[i] == seen[i - n];
        assert i - n > 1 ==> all[i-1] == seen[i - n - 1];
      }
    }
  }

  /** Main result, run after run: a clean run on a context that passes keeps the log of its session well formed. */
  lemma {:induction false} CleanRunKeepsSession(input: Input, run: Run, sys: Message, log: seq<Message>,
                                                history: seq<Message>)
    returns (recorded: seq<Message>)
    requires Legal(input, run) && Last(run).clean && input.base == [sys] + history && IsSystem(sys)
    requires WellFormed([sys] + log) && IsSuffix(history, log) && (history == [] || history[0].toolResult.None?)
    ensures Last(run).log == input.base + recorded && WellFormed([sys] + log + recorded)
  {
    var n := |log| - |history|;
    assert history == log[n..];
    CutIsWellFormedIff(sys, log, n);
    LogExtendsBase(input, run, |run.acts|);
    recorded := Last(run).log[|input.base|..];
    CleanLogIsWellFormed(input, run, |run.acts|);
    assert [sys] + log[n..] + recorded == Last(run).log;
    RecordedFollowsLog(sys, log, n, recorded);
  }

  // ----- every prompt of a run

  lemma {:induction false} StaysAgentLog(input: Input, p: Position, act: Act)
    requires Next(input, p, act).Some? && AgentLog(p.log)
    ensures AgentLog(Next(input, p, act).value.log)
  {
    if act.Record? {
      RecordsOwnRole(input, p, act.msg);
      AgentLogSnoc(p.log, act.msg);
    }
  }

  lemma {:induction false} RecordsOwnRole(input: Input, p: Position, msg: Message)
    requires Next(input, p, Record(msg)).Some?
    ensures Next(input, p, Record(msg)).value.log == p.log + [msg] && (msg.role == Tool <==> msg.toolResult.Some?)
  {
  }

  lemma {:induction false} AgentLogSnoc(ms: seq<Message>, m: Message)
    requires AgentLog(ms) && (m.role == Tool <==> m.toolResult.Some?)
    ensures AgentLog(ms + [m])
  {
  }

  lemma {:induction false} LogIsAgentLog(input: Input, run: Run, k: nat)
    requires Legal(input, run) && k <= |run.acts| && AgentLog(input.base)
    ensures AgentLog(run.at[k].log)
  {
    if k == 0 {
    } else {
      LogIsAgentLog(input, run, k - 1);
      assert StepAt(input, run, k - 1);
      StaysAgentLog(input, run.at[k-1], run.acts[k-1]);
    }
  }

  /** A run that starts behind a cut batch hands the model only contexts that are refused. */
  lemma {:induction false} CutBatchSpoilsAll(input: Input, run: Run, i: nat, useToolRole: bool)
    requires Legal(input, run) && AgentLog(input.base) && |input.base| > 1 && input.base[1].toolResult.Some?
    requires i < |run.acts| && run.acts[i].Prompt?
    ensures !Accepted(Normalized(run.acts[i].context, useToolRole), useToolRole)
  {
    LogIsAgentLog(input, run, i);
    LogExtendsBase(input, run, i);
    assert StepAt(input, run, i);
    PromptsItsLog(input, run.at[i], run.acts[i]);
    CutBatchIsRejected(run.acts[i].context, useToolRole);
  }

  /** Main result, across the session file, the agent, the normaliser and the validator: every context that a clean run
      on a part of a well-formed log hands to the model is accepted, in either mode, if and only if that part does not
      begin with a tool result. */
  lemma {:induction false} EveryContextPassesIff(input: Input, run: Run, i: nat, useToolRole: bool, sys: Message,
                                                 log: seq<Message>, history: seq<Message>)
    requires Legal(input, run) && Last(run).clean && input.base == [sys] + history && IsSystem(sys)
    requires WellFormed([sys] + log) && IsSuffix(history, log) && i < |run.acts| && run.acts[i].Prompt?
    ensures Accepted(Normalized(run.acts[i].context, useToolRole), useToolRole)
            <==> history == [] || history[0].toolResult.None?
  {
    var n := |log| - |history|;
    assert history == log[n..];
    CutIsWellFormedIff(sys, log, n);
    CutIsAgentLog(sys, log, n);
    if history == [] || history[0].toolResult.None? {
      EveryContextPasses(input, run, i, useToolRole);
    } else {
      assert input.base[1] == history[0];
      CutBatchSpoilsAll(input, run, i, useToolRole);
    }
  }
}
