/** One run of the agent on the context window of its session, from loading the history to clearing the memory. */
module Conversation {

  import opened Options
  import opened Messages
  import opened Normalize
  import opened Validator
  import opened SessionFile
  import opened Window
  import opened AgentSteps
  import opened AgentTrace
  import opened AgentLoop
  import opened Sessions

  function SystemMessage(params: BudgetParams): Message {
    Message(System, params.systemContent, [], None, "", 0)
  }

  /** Run and recorded messages belong together: what the run recorded follows the context it started with. */
  ghost predicate Records(input: Input, run: Run, recorded: seq<Message>) {
    Legal(input, run) && Last(run).log == input.base + recorded
  }

  /** What a run starts with: the history the window loads or, if loading fails, what it showed before. */
  ghost function BaseOf(window: Window, params: BudgetParams, loadFails: bool): seq<Message>
    requires window.Valid()
    reads window, window.sessionFile
  {
    [SystemMessage(params)] + if loadFails then window.history + window.memory
                              else Tail(window.sessionFile.codec, window.SeenMessages(), HistoryBudget(params))
  }

  /** The window loads its history and builds the first context. */
  method Load(window: Window, params: BudgetParams, loadFails: bool) returns (base: seq<Message>)
    requires window.Valid()
    modifies window
    ensures window.Valid() && window.log == old(window.log)
    ensures base == window.Context() == old(BaseOf(window, params, loadFails))
  {
    ghost var history, memory := window.history, window.memory;
    var ok := window.StartRun(params, loadFails);
    base := window.BuildContext();
    assert ok ==> window.history + window.memory == window.history;
    assert base == [SystemMessage(params)] + (window.history + window.memory);
  }

  /** The agent starts with what the window then shows. */
  method Begin(window: Window, params: BudgetParams, loadFails: bool, world: World, given: Input)
    returns (agent: Agent)
    requires window.Valid()
    modifies window
    ensures fresh(agent) && agent.Valid() && agent.trace == [] && agent.position.stage == Stage.Begin
    ensures agent.window == window && agent.world == world && agent.before == window.log == old(window.log)
    ensures agent.input == given.(base := old(BaseOf(window, params, loadFails)))
  {
    var base := Load(window, params, loadFails);
    agent := new Agent(world, given.(base := base), window);
  }

  /** The agent runs; the memory is cleared when the run is over. */
  method RunToEnd(agent: Agent) returns (over: bool, ghost recorded: seq<Message>)
    requires agent.Valid() && agent.trace == [] && agent.position.stage == Stage.Begin
    modifies agent, agent.window, agent.window.sessionFile
    ensures agent.window.Valid() && agent.window.log == agent.before + recorded
    ensures Records(agent.input, Run(agent.trace, agent.at), recorded)
    ensures Smooth(agent.world) ==> Last(Run(agent.trace, agent.at)).clean
    ensures over <==> Last(Run(agent.trace, agent.at)).stage == Ended
    ensures over ==> agent.window.memory == []
  {
    agent.Loop();
    recorded := agent.position.log[|agent.input.base|..];
    GrewByTheSame(agent.before, agent.window.log, agent.input.base, agent.position.log);
    over := agent.IsOver();
    if over {
      agent.window.CompleteRun();
    }
  }

  /** A whole run on the window of its session: every message it records is added there and to the log, and every
      context it hands to the model is built there. */
  method RunOnWindow(window: Window, params: BudgetParams, loadFails: bool, world: World, given: Input)
    returns (agent: Agent, over: bool, ghost recorded: seq<Message>)
    requires window.Valid()
    modifies window, window.sessionFile
    ensures window.Valid() && fresh(agent)
    ensures Records(agent.input, Run(agent.trace, agent.at), recorded) && window.log == old(window.log) + recorded
    ensures agent.input == given.(base := old(BaseOf(window, params, loadFails)))
    ensures Smooth(world) ==> Last(Run(agent.trace, agent.at)).clean
    ensures over <==> Last(Run(agent.trace, agent.at)).stage == Ended
    ensures over ==> window.memory == []
  {
    agent := Begin(window, params, loadFails, world, given);
    over, recorded := RunToEnd(agent);
  }

  // ----- run after run

  /** A session's log is well formed behind a system message, whichever that is. */
  ghost predicate GoodLog(log: seq<Message>) {
    forall sys :: IsSystem(sys) ==> WellFormed([sys] + log)
  }

  lemma {:induction false} AnySystemMessage(sys: Message, other: Message, log: seq<Message>)
    requires IsSystem(sys) && IsSystem(other) && WellFormed([sys] + log)
    ensures WellFormed([other] + log)
  {
    var ms, os := [sys] + log, [other] + log;
    forall i | 0 <= i < |os|
      ensures os[i].role == Tool <==> os[i].toolResult.Some?
    {
      assert i > 0 ==> os[i] == ms[i];
    }
    forall i | 0 < i < |os|
      ensures FollowsUp(os, i)
    {
      assert FollowsUp(ms, i) && os[i] == ms[i] && (i > 1 ==> os[i-1] == ms[i-1]);
    }
  }

  predicate BeginsWithResult(history: seq<Message>) {
    history != [] && history[0].toolResult.Some?
  }

  /** Act `i`, if it hands a context to the model, hands over one that passes, in either mode, exactly if `good`. */
  ghost predicate PassesIff(run: Run, i: nat, good: bool)
    requires i < |run.acts|
  {
    run.acts[i].Prompt? ==>
      forall useToolRole :: Accepted(Normalized(run.acts[i].context, useToolRole), useToolRole) <==> good
  }

  ghost predicate EachPassesIff(run: Run, good: bool) {
    forall i :: 0 <= i < |run.acts| ==> PassesIff(run, i, good)
  }

  /** A clean run on the end of a good log hands the model contexts that pass, unless that end begins with a result,
      and then none of them does; otherwise the log is good behind the run as well. */
  lemma {:induction false} CleanRunOnGoodLog(input: Input, run: Run, log: seq<Message>, history: seq<Message>,
                                             recorded: seq<Message>)
    requires Records(input, run, recorded) && Last(run).clean && GoodLog(log) && IsSuffix(history, log)
    requires input.base != [] && IsSystem(input.base[0]) && input.base == [input.base[0]] + history
    ensures EachPassesIff(run, !BeginsWithResult(history))
    ensures !BeginsWithResult(history) ==> GoodLog(log + recorded)
  {
    var sys, good := input.base[0], !BeginsWithResult(history);
    forall i | 0 <= i < |run.acts|
      ensures PassesIff(run, i, good)
    {
      if run.acts[i].Prompt? {
        EveryContextPassesIff(input, run, i, true, sys, log, history);
        EveryContextPassesIff(input, run, i, false, sys, log, history);
      }
    }
    if good {
      var r := CleanRunKeepsSession(input, run, sys, log, history);
      assert r == (input.base + r)[|input.base|..] == (input.base + recorded)[|input.base|..] == recorded;
      assert [sys] + log + recorded == [sys] + (log + recorded);
      forall other | IsSystem(other)
        ensures WellFormed([other] + (log + recorded))
      {
        AnySystemMessage(sys, other, log + recorded);
      }
    }
  }

  /** The session file takes every message, no tool injects one, the log is good, and the reader sees enough of it. */
  ghost predicate StartsWell(window: Window, params: BudgetParams, world: World)
    requires window.Valid()
    reads window, window.sessionFile
  {
    && Smooth(world) && GoodLog(window.log)
    && SeesEnough(window.sessionFile.codec, window.sessionFile.data, window.sessionFile.chunkSize,
                  HistoryBudget(params))
  }

  /** Main result, for the agent on a real window: a run that starts well is legal and hands the model contexts that the
      validator accepts, in either mode, if and only if the loaded history does not begin with a tool result; then it
      leaves a good log behind. */
  method RunInSession(window: Window, params: BudgetParams, world: World, given: Input)
    returns (agent: Agent, over: bool, ghost history: seq<Message>)
    requires window.Valid()
    modifies window, window.sessionFile
    ensures window.Valid() && fresh(agent) && Legal(agent.input, Run(agent.trace, agent.at))
    ensures history == Tail(window.sessionFile.codec, old(window.log), HistoryBudget(params))
    ensures old(StartsWell(window, params, world)) ==>
              && agent.input == given.(base := [SystemMessage(params)] + history)
              && EachPassesIff(Run(agent.trace, agent.at), !BeginsWithResult(history))
              && (!BeginsWithResult(history) ==> GoodLog(window.log))
  {
    ghost var codec, log, budget := window.sessionFile.codec, window.log, HistoryBudget(params);
    ghost var startsWell := StartsWell(window, params, world);
    history := Tail(codec, log, budget);
    if startsWell {
      SeenTail(codec, log, window.sessionFile.chunkSize, budget);
    }
    ghost var recorded;
    agent, over, recorded := RunOnWindow(window, params, false, world, given);
    if startsWell {
      CleanRunOnGoodLog(agent.input, Run(agent.trace, agent.at), log, history, recorded);
    }
  }
}
