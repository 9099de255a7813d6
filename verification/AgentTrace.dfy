/** Runs of the agent and what holds of every one of them. The agent's loop is proved to produce legal runs only. */
module AgentTrace {

  import opened Options
  import opened Messages
  import opened Normalize
  import opened Validator
  import opened Approvals
  import opened AgentSteps

  /** What was done, and the position before each act and after the last. */
  datatype Run = Run(acts: seq<Act>, at: seq<Position>)

  ghost predicate StepAt(input: Input, run: Run, k: nat)
    requires k < |run.acts| && |run.at| == |run.acts| + 1
  {
    Next(input, run.at[k], run.acts[k]) == Some(run.at[k+1])
  }

  ghost predicate Legal(input: Input, run: Run) {
    && |run.at| == |run.acts| + 1 && run.at[0] == FirstPosition(input)
    && forall k :: 0 <= k < |run.acts| ==> StepAt(input, run, k)
  }

  function Last(run: Run): Position
    requires |run.at| == |run.acts| + 1
  {
    run.at[|run.acts|]
  }

  lemma {:induction false} OneMoreAct(input: Input, run: Run, act: Act, p: Position)
    requires Legal(input, run) && Next(input, Last(run), act) == Some(p)
    ensures Legal(input, Run(run.acts + [act], run.at + [p]))
  {
    var more := Run(run.acts + [act], run.at + [p]);
    forall k | 0 <= k < |more.acts|
      ensures StepAt(input, more, k)
    {
      assert k < |run.acts| ==> StepAt(input, run, k);
    }
  }

  /** Act `i` emits an event. */
  predicate IsEvent(run: Run, i: nat) {
    i < |run.acts| && run.acts[i].Emit?
  }

  // ----- the start and the end of a run

  /** A run starts with its start event, which comes once. */
  lemma {:induction false} StartsOnce(input: Input, run: Run, i: nat)
    requires Legal(input, run) && i < |run.acts|
    ensures IsEvent(run, i) && run.acts[i].event.RunStarted? <==> i == 0
  {
    assert StepAt(input, run, i);
    StartsAtBegin(input, run.at[i], run.acts[i]);
    if i > 0 {
      assert StepAt(input, run, i - 1);
      NeverBeginsAgain(input, run.at[i-1], run.acts[i-1]);
    }
  }

  lemma {:induction false} StartsAtBegin(input: Input, p: Position, act: Act)
    requires Next(input, p, act).Some?
    ensures act.Emit? && act.event.RunStarted? <==> p.stage == Begin
  {
  }

  lemma {:induction false} NeverBeginsAgain(input: Input, p: Position, act: Act)
    requires Next(input, p, act).Some?
    ensures Next(input, p, act).value.stage != Begin
  {
  }

  lemma {:induction false} TerminalEnds(input: Input, p: Position, e: Event)
    requires AfterEvent(input, p, e).Some?
    ensures AfterEvent(input, p, e).value == Ended <==> Terminal(e)
  {
  }

  lemma {:induction false} NothingAfterEnd(input: Input, p: Position, act: Act)
    requires p.stage == Ended
    ensures Next(input, p, act) == None
  {
  }

  /** Main result: a run emits one terminal event at most, and does nothing after it. */
  lemma {:induction false} EndsOnce(input: Input, run: Run, i: nat)
    requires Legal(input, run) && IsEvent(run, i) && Terminal(run.acts[i].event)
    ensures i == |run.acts| - 1 && Last(run).stage == Ended
  {
    assert StepAt(input, run, i);
    TerminalEnds(input, run.at[i], run.acts[i].event);
    if i + 1 < |run.acts| {
      assert StepAt(input, run, i + 1);
      NothingAfterEnd(input, run.at[i+1], run.acts[i+1]);
    }
  }

  /** The run is over exactly when its last act is a terminal event. */
  lemma {:induction false} EndedByTerminal(input: Input, run: Run)
    requires Legal(input, run)
    ensures Last(run).stage == Ended <==>
            run.acts != [] && IsEvent(run, |run.acts| - 1) && Terminal(run.acts[|run.acts|-1].event)
  {
    if run.acts != [] {
      var i := |run.acts| - 1;
      assert StepAt(input, run, i);
      OnlyTerminalsEnd(input, run.at[i], run.acts[i]);
    }
  }

  lemma {:induction false} OnlyTerminalsEnd(input: Input, p: Position, act: Act)
    requires Next(input, p, act).Some?
    ensures Next(input, p, act).value.stage == Ended <==> act.Emit? && Terminal(act.event)
  {
  }

  // ----- denials

  ghost predicate Doomed(stage: Stage) {
    (stage.Executing? && (stage.refused || stage.denied != {})) || stage == Closing || stage == Ended
  }

  lemma {:induction false} DoomedStays(input: Input, p: Position, act: Act)
    requires Doomed(p.stage) && Next(input, p, act).Some?
    ensures Doomed(Next(input, p, act).value.stage) && !act.Prompt?
  {
  }

  lemma {:induction false} DoomedForGood(input: Input, run: Run, i: nat, k: nat)
    requires Legal(input, run) && i <= k <= |run.acts| && Doomed(run.at[i].stage)
    ensures Doomed(run.at[k].stage)
    ensures forall j :: i <= j < k ==> !run.acts[j].Prompt?
  {
    if i == k {
    } else {
      DoomedForGood(input, run, i, k - 1);
      assert StepAt(input, run, k - 1);
      DoomedStays(input, run.at[k-1], run.acts[k-1]);
    }
  }

  /** Main result: once a batch with a denied call is settled, the model is never prompted again. */
  lemma {:induction false} NoPromptAfterDenial(input: Input, run: Run, i: nat, j: nat)
    requires Legal(input, run) && i < j < |run.acts|
    requires run.acts[i].Settle? && run.acts[i].denied != {}
    ensures !run.acts[j].Prompt?
  {
    assert StepAt(input, run, i);
    DoomedForGood(input, run, i + 1, |run.acts|);
  }

  // ----- approvals

  /** The act that settled the batch being executed, and what it granted. */
  lemma {:induction false} FindSettle(input: Input, run: Run, k: nat) returns (s: nat)
    requires Legal(input, run) && k <= |run.acts| && run.at[k].stage.Executing?
    ensures s < k && run.acts[s].Settle? && run.at[k].stage.granted <= run.acts[s].granted
    ensures MaySettle(input.commands, run.at[s], run.acts[s].granted, run.acts[s].denied, run.acts[s].stop)
    ensures run.at[k].read == run.acts[s].stop && run.at[k].proposed == run.at[s].proposed
    ensures run.at[k].since == run.at[s].read && run.at[k].stage.denied <= run.acts[s].denied
    ensures forall j :: s < j < k ==> !run.acts[j].Settle? && run.acts[j] != Emit(ToolsCompleted)
  {
    assert StepAt(input, run, k - 1);
    EntersBySettling(input, run.at[k-1], run.acts[k-1]);
    if run.acts[k-1].Settle? {
      s := k - 1;
    } else {
      s := FindSettle(input, run, k - 1);
    }
  }

  lemma {:induction false} EntersBySettling(input: Input, p: Position, act: Act)
    requires Next(input, p, act).Some? && Next(input, p, act).value.stage.Executing?
    ensures var q := Next(input, p, act).value;
            && q.proposed == p.proposed
            && if act.Settle? then
              && MaySettle(input.commands, p, act.granted, act.denied, act.stop)
              && q.stage.granted == act.granted && q.stage.denied == act.denied
              && q.read == act.stop && q.since == p.read
            else
              && p.stage.Executing? && act != Emit(ToolsCompleted)
              && q.stage.granted <= p.stage.granted && q.stage.denied <= p.stage.denied
              && q.read == p.read && q.since == p.since
  {
  }

  lemma {:induction false} StartNeedsGrant(input: Input, p: Position, e: Event)
    requires AfterEvent(input, p, e).Some? && e.ToolStarted?
    ensures p.stage.Executing? && e.callId in p.stage.granted
  {
  }

  /** Main result: a tool call starts only after its own batch was settled, in which the client's first decision on it
      was an approval. */
  lemma {:induction false} StartedWasApproved(input: Input, run: Run, i: nat) returns (s: nat)
    requires Legal(input, run) && IsEvent(run, i) && run.acts[i].event.ToolStarted?
    ensures s < i && run.acts[s].Settle? && run.acts[i].event.callId in run.acts[s].granted
    ensures Approved(input.commands, run.at[s].read, run.acts[s].stop, run.acts[i].event.callId)
    ensures forall j :: s < j < i ==> !run.acts[j].Settle? && run.acts[j] != Emit(ToolsCompleted)
  {
    assert StepAt(input, run, i);
    StartNeedsGrant(input, run.at[i], run.acts[i].event);
    s := FindSettle(input, run, i);
  }

  /** Main result: what is handed to a tool is a call that was just announced, as it was proposed. */
  lemma {:induction false} ExecutedAsProposed(input: Input, run: Run, i: nat) returns (s: nat)
    requires Legal(input, run) && i < |run.acts| && run.acts[i].Execute?
    ensures i > 0 && run.acts[i-1] == Emit(ToolStarted(run.acts[i].call.id))
    ensures s < i - 1 && run.acts[s].Settle? && run.acts[i].call.id in run.acts[s].granted
    ensures Shown(run.at[s].proposed, run.acts[i].call)
    ensures forall j :: s < j < i ==> !run.acts[j].Settle? && run.acts[j] != Emit(ToolsCompleted)
  {
    assert StepAt(input, run, i);
    ExecutesAnnounced(input, run.at[i], run.acts[i]);
    assert StepAt(input, run, i - 1);
    AnnouncedBy(input, run.at[i-1], run.acts[i-1]);
    assert run.acts[i-1].event.callId == run.acts[i].call.id;
    StartNeedsGrant(input, run.at[i-1], run.acts[i-1].event);
    s := FindSettle(input, run, i - 1);
  }

  lemma {:induction false} ExecutesAnnounced(input: Input, p: Position, act: Act)
    requires act.Execute? && Next(input, p, act).Some?
    ensures p.stage.Executing? && p.stage.activity == Announced(act.call.id) && Shown(p.proposed, act.call)
  {
  }

  lemma {:induction false} AnnouncedBy(input: Input, p: Position, act: Act)
    requires Next(input, p, act).Some? && Next(input, p, act).value.stage.Executing?
    requires Next(input, p, act).value.stage.activity.Announced?
    ensures act == Emit(ToolStarted(Next(input, p, act).value.stage.activity.callId))
    ensures Next(input, p, act).value.proposed == p.proposed
  {
  }

  // ----- cancellation

  /** A batch waits for its decisions right after it was proposed. */
  lemma {:induction false} ProposedBy(input: Input, p: Position, act: Act)
    requires Next(input, p, act).Some? && Next(input, p, act).value.stage.Proposed?
    ensures act.Emit? && act.event.ToolsProposed? && Next(input, p, act).value.read == p.read
    ensures Next(input, p, act).value.stage.ids == IdSet(ProposedIds(act.event.calls))
  {
  }

  lemma {:induction false} AfterProposal(input: Input, p: Position, act: Act)
    requires p.stage.Proposed? && Next(input, p, act).Some?
    ensures act == Emit(RunCancelled) || act.Settle?
    ensures act == Emit(RunCancelled) ==> CancelledFirst(input.commands, input.closed, p.stage.ids, p.read)
    ensures act.Settle? ==> p.stage.ids == act.granted + act.denied
    ensures act.Settle? ==> MaySettle(input.commands, p, act.granted, act.denied, act.stop)
  {
  }

  lemma {:induction false} LaterIsDecided(commands: seq<Command>, id: string, lo: nat, mid: nat, hi: nat)
    requires mid <= hi && Undecided(commands, lo, hi, id)
    ensures Undecided(commands, lo, mid, id)
  {
  }

  lemma {:induction false} SettledIsDecided(commands: seq<Command>, p: Position, granted: set<string>,
                                            denied: set<string>,
                                            stop: nat, id: string)
    requires MaySettle(commands, p, granted, denied, stop) && id in granted + denied
    ensures exists j :: p.read <= j < stop && Decides(commands[j], id)
  {
    assert Approved(commands, p.read, stop, id) || Refused(commands, p.read, stop, id);
    var j: nat :| FirstDecision(commands, p.read, stop, id, j);
  }

  /** A batch that is cancelled first cannot be settled. */
  lemma {:induction false} CancelledIsNotSettled(input: Input, p: Position, granted: set<string>, denied: set<string>,
                                                 stop: nat)
    requires MaySettle(input.commands, p, granted, denied, stop)
    ensures !CancelledFirst(input.commands, input.closed, granted + denied, p.read)
  {
    if CancelledFirst(input.commands, input.closed, granted + denied, p.read) {
      var c: nat :| CancelledAt(input.commands, input.closed, granted + denied, p.read, c);
      assert c < stop ==> OpenAt(input.commands, granted + denied, p.read, c);
      var id :| id in granted + denied && Undecided(input.commands, p.read, c, id);
      if c >= stop {
        SettledIsDecided(input.commands, p, granted, denied, stop, id);
      }
    }
  }

  lemma {:induction false} ProposalProposes(input: Input, p: Position, e: Event)
    requires AfterEvent(input, p, e).Some? && e.ToolsProposed?
    ensures AfterEvent(input, p, e) == Some(Proposed(IdSet(ProposedIds(e.calls))))
  {
  }

  /** The batch proposed by act `i`. */
  function BatchOf(run: Run, i: nat): set<string>
    requires IsEvent(run, i) && run.acts[i].event.ToolsProposed?
  {
    IdSet(ProposedIds(run.acts[i].event.calls))
  }

  lemma {:induction false} Proposes(input: Input, run: Run, i: nat)
    requires Legal(input, run) && IsEvent(run, i) && run.acts[i].event.ToolsProposed?
    ensures run.at[i+1].stage == Proposed(BatchOf(run, i)) && run.at[i+1].read == run.at[i].read
  {
    assert StepAt(input, run, i);
    ProposalProposes(input, run.at[i], run.acts[i].event);
  }

  /** Main result: what follows a proposal is the cancellation of the run if and only if a cancellation, or the end of
      the closed channel, is read before every call of the batch is decided. */
  lemma {:induction false} CancelledIff(input: Input, run: Run, i: nat)
    requires Legal(input, run) && IsEvent(run, i) && run.acts[i].event.ToolsProposed? && i + 1 < |run.acts|
    ensures run.acts[i+1] == Emit(RunCancelled) <==>
            CancelledFirst(input.commands, input.closed, BatchOf(run, i), run.at[i].read)
    ensures run.acts[i+1] == Emit(RunCancelled) || run.acts[i+1].Settle?
  {
    Proposes(input, run, i);
    assert StepAt(input, run, i + 1);
    var p, act := run.at[i+1], run.acts[i+1];
    AfterProposal(input, p, act);
    if act.Settle? {
      CancelledIsNotSettled(input, p, act.granted, act.denied, act.stop);
    }
  }

  /** Main result: a cancellation read while a call of the batch is undecided starts no tool; the run does nothing more
      than end as cancelled. */
  lemma {:induction false} CancelledStartsNothing(input: Input, run: Run, i: nat, c: nat, j: nat)
    requires Legal(input, run) && IsEvent(run, i) && run.acts[i].event.ToolsProposed? && i < j < |run.acts|
    requires run.at[i].read <= c < |input.commands| && input.commands[c] == Cancel
    requires Open(input.commands, BatchOf(run, i), run.at[i].read, c)
    ensures j == i + 1 == |run.acts| - 1 && run.acts[j] == Emit(RunCancelled)
  {
    FirstCancel(input.commands, input.closed, BatchOf(run, i), run.at[i].read, c);
    CancelledIff(input, run, i);
    EndsOnce(input, run, i + 1);
  }

  lemma {:induction false} FirstCancel(commands: seq<Command>, closed: bool, ids: set<string>, lo: nat, c: nat)
    requires lo <= c < |commands| && commands[c] == Cancel && Open(commands, ids, lo, c)
    ensures CancelledFirst(commands, closed, ids, lo)
    decreases c
  {
    var id :| id in ids && Undecided(commands, lo, c, id);
    if k :| lo <= k < c && commands[k] == Cancel {
      LaterIsDecided(commands, id, lo, k, c);
      FirstCancel(commands, closed, ids, lo, k);
    } else {
      forall k | lo <= k < c
        ensures commands[k] != Cancel && Open(commands, ids, lo, k)
      {
        LaterIsDecided(commands, id, lo, k, c);
      }
      assert CancelledAt(commands, closed, ids, lo, c);
    }
  }

  // ----- results

  /** The ids of the results recorded by the acts from `i` up to `k`. */
  function ResultIds(acts: seq<Act>, i: nat, k: nat): seq<string>
    requires k <= |acts|
  {
    if k <= i then []
    else if acts[k-1].Record? && acts[k-1].msg.toolResult.Some?
    then ResultIds(acts, i, k-1) + [acts[k-1].msg.toolResult.value.callId]
    else ResultIds(acts, i, k-1)
  }

  /** The calls of a batch that have no result yet. */
  ghost function Outstanding(stage: Stage): set<string>
    requires stage.Executing?
  {
    stage.granted + stage.denied + (if stage.activity.Idle? then {} else {stage.activity.callId})
  }

  /** In the middle of a batch: the results so far answer, once each, the calls that are no longer outstanding. */
  ghost predicate BatchInv(stage: Stage, ids: set<string>, results: seq<string>) {
    match stage
    case Proposed(all) => all == ids && results == []
    case Executing(granted, denied, _, activity) =>
      && granted !! denied && (activity.Idle? || activity.callId !in granted + denied)
      && Outstanding(stage) <= ids && ListsOnce(results, ids - Outstanding(stage))
    case _ => stage == Ended
  }

  lemma {:induction false} BatchStep(input: Input, p: Position, act: Act, ids: set<string>, results: seq<string>)
    requires BatchInv(p.stage, ids, results) && Next(input, p, act).Some? && act != Emit(ToolsCompleted)
    ensures BatchInv(Next(input, p, act).value.stage, ids,
                     if act.Record? && act.msg.toolResult.Some? then results + [act.msg.toolResult.value.callId]
                     else results)
  {
    var stage' := Next(input, p, act).value.stage;
    if act.Record? && act.msg.toolResult.Some? {
      ListsOneMore(results, ids - Outstanding(p.stage), act.msg.toolResult.value.callId);
      assert ids - Outstanding(stage') == ids - Outstanding(p.stage) + {act.msg.toolResult.value.callId};
    } else if act.Emit? && act.event.ToolStarted? {
      assert Outstanding(stage') == Outstanding(p.stage);
    }
  }

  lemma {:induction false} BatchProgress(input: Input, run: Run, i: nat, k: nat)
    requires Legal(input, run) && IsEvent(run, i) && run.acts[i].event.ToolsProposed? && i < k <= |run.acts|
    requires forall j :: i < j < k ==> run.acts[j] != Emit(ToolsCompleted)
    ensures BatchInv(run.at[k].stage, BatchOf(run, i), ResultIds(run.acts, i, k))
  {
    if k == i + 1 {
      Proposes(input, run, i);
      assert ResultIds(run.acts, i, i) == [];
    } else {
      BatchProgress(input, run, i, k - 1);
      assert StepAt(input, run, k - 1);
      BatchStep(input, run.at[k-1], run.acts[k-1], BatchOf(run, i), ResultIds(run.acts, i, k-1));
    }
  }

  lemma {:induction false} CompletedNeedsAll(input: Input, p: Position)
    requires AfterEvent(input, p, ToolsCompleted).Some?
    ensures p.stage.Executing? && Outstanding(p.stage) == {}
  {
  }

  /** Main result: when a batch is completed, the results recorded since it was proposed answer every proposed call
      exactly once. */
  lemma {:induction false} OneResultPerCall(input: Input, run: Run, i: nat, j: nat)
    requires Legal(input, run) && IsEvent(run, i) && run.acts[i].event.ToolsProposed?
    requires i < j < |run.acts| && run.acts[j] == Emit(ToolsCompleted)
    requires forall k :: i < k < j ==> run.acts[k] != Emit(ToolsCompleted)
    ensures ListsOnce(ResultIds(run.acts, i, j), BatchOf(run, i))
  {
    BatchProgress(input, run, i, j);
    assert StepAt(input, run, j);
    CompletedNeedsAll(input, run.at[j]);
    assert BatchOf(run, i) - {} == BatchOf(run, i);
  }

  /** The calls recorded with the reply are the ones proposed; the reply's own ids are among them, and each proposed
      call has the name and the arguments that the model gave the last call of its id. */
  lemma {:induction false} ProposedAsRecorded(input: Input, run: Run, i: nat)
    requires Legal(input, run) && IsEvent(run, i) && run.acts[i].event.ToolsProposed?
    ensures i >= 2 && run.acts[i-1].Emit? && run.acts[i-1].event.TurnCompleted?
    ensures ProposesAll(run.acts[i].event.calls, run.acts[i-1].event.response.toolCalls)
    ensures run.at[i].turns > 0
    ensures ProposesReply(run.acts[i].event.calls, run.acts[i-1].event.response.toolCalls,
                          input.newId(run.at[i].turns - 1))
    ensures run.acts[i-2].Record? ==> RecordsProposed(run.acts[i-2].msg.toolCalls, run.acts[i].event.calls)
    ensures run.acts[i-2].Record? ==> ListsOnce(CallIds(run.acts[i-2].msg.toolCalls), BatchOf(run, i))
  {
    assert StepAt(input, run, i);
    ProposalFollowsTurn(input, run.at[i], run.acts[i].event);
    assert StepAt(input, run, i - 1);
    TurnedBy(input, run.at[i-1], run.acts[i-1]);
    assert StepAt(input, run, i - 2);
    if run.acts[i-2].Record? {
      RecordedBy(input, run.at[i-2], run.acts[i-2].msg);
    }
  }

  lemma {:induction false} ProposalFollowsTurn(input: Input, p: Position, e: Event)
    requires AfterEvent(input, p, e).Some? && e.ToolsProposed?
    ensures p.stage.Turned? && p.turns > 0
    ensures ProposesReply(e.calls, p.stage.response.toolCalls, input.newId(p.turns - 1))
    ensures p.stage.recorded.Some? ==> RecordsProposed(p.stage.recorded.value.toolCalls, e.calls)
  {
  }

  lemma {:induction false} TurnedBy(input: Input, p: Position, act: Act)
    requires Next(input, p, act).Some? && Next(input, p, act).value.stage.Turned?
    ensures act == Emit(TurnCompleted(Next(input, p, act).value.stage.response))
    ensures Next(input, p, act).value.stage.recorded == if p.stage.Recorded? then Some(p.stage.msg) else None
    ensures p.stage.Recorded? || p.stage.Asked?
  {
  }

  lemma {:induction false} RecordedBy(input: Input, p: Position, msg: Message)
    requires AfterRecord(input, p, msg).Some?
    ensures var stage := AfterRecord(input, p, msg).value;
            stage == Ready || stage.Executing? || (stage.Recorded? && stage.msg == msg)
  {
  }

  /** A tool that was started reports its own end before any other event. */
  lemma {:induction false} StartedThenFinished(input: Input, run: Run, i: nat, k: nat)
    requires Legal(input, run) && IsEvent(run, i) && run.acts[i].event.ToolStarted?
    requires i < k && IsEvent(run, k) && forall j :: i < j < k ==> !run.acts[j].Emit?
    ensures run.acts[k].event.ToolCompleted? || run.acts[k].event.ToolFailed?
    ensures run.acts[k].event.callId == run.acts[i].event.callId
  {
    StillRunning(input, run, i, k);
    assert StepAt(input, run, k);
  }

  predicate InHand(activity: Activity, id: string) {
    activity == Announced(id) || activity == Running(id)
  }

  lemma {:induction false} StillRunning(input: Input, run: Run, i: nat, k: nat)
    requires Legal(input, run) && IsEvent(run, i) && run.acts[i].event.ToolStarted? && i < k <= |run.acts|
    requires forall j :: i < j < k ==> !run.acts[j].Emit?
    ensures run.at[k].stage.Executing? && InHand(run.at[k].stage.activity, run.acts[i].event.callId)
  {
    if k > i + 1 {
      StillRunning(input, run, i, k - 1);
    }
    assert StepAt(input, run, k - 1);
  }

  // ----- the conversation

  /** Message `i`, if it is a tool result, directly follows a result or an assistant message with calls. */
  predicate FollowsUp(ms: seq<Message>, i: nat)
    requires 0 < i < |ms|
  {
    ms[i].toolResult.Some? ==> ms[i-1].toolResult.Some? || (ms[i-1].role == Assistant && ms[i-1].toolCalls != [])
  }

  /** A log as the validator wants it: a system message first, the tool role on results only, and results where they
      belong. */
  ghost predicate WellFormed(ms: seq<Message>) {
    AgentLog(ms) && forall i :: 0 < i < |ms| ==> FollowsUp(ms, i)
  }

  predicate OpensBatch(m: Message) {
    m.toolResult.Some? || (m.role == Assistant && m.toolCalls != [])
  }

  lemma {:induction false} WellFormedSnoc(ms: seq<Message>, m: Message)
    requires WellFormed(ms) && (m.role == Tool <==> m.toolResult.Some?)
    requires m.toolResult.Some? ==> OpensBatch(ms[|ms|-1])
    ensures WellFormed(ms + [m])
  {
    forall i | 0 < i < |ms| + 1
      ensures FollowsUp(ms + [m], i)
    {
      assert i < |ms| ==> FollowsUp(ms, i);
    }
  }

  /** While a run is clean its log is well formed, and during a batch the last message lets a result follow. */
  ghost predicate LogInv(p: Position) {
    && WellFormed(p.log)
    && (p.stage.Recorded? && p.stage.response.toolCalls != [] ==> OpensBatch(p.log[|p.log|-1]))
    && (p.stage.Turned? && p.stage.response.toolCalls != [] ==> OpensBatch(p.log[|p.log|-1]))
    && (p.stage.Proposed? || p.stage.Executing? ==> OpensBatch(p.log[|p.log|-1]))
  }

  lemma {:induction false} LogStep(input: Input, p: Position, act: Act)
    requires LogInv(p) && p.clean && Next(input, p, act).Some? && Next(input, p, act).value.clean
    ensures LogInv(Next(input, p, act).value)
  {
    if act.Record? {
      WellFormedSnoc(p.log, act.msg);
    }
  }

  lemma {:induction false} CleanBefore(input: Input, run: Run, i: nat, k: nat)
    requires Legal(input, run) && i <= k <= |run.acts| && run.at[k].clean
    ensures run.at[i].clean
  {
    if i == k {
    } else {
      assert StepAt(input, run, k - 1);
      StaysUnclean(input, run.at[k-1], run.acts[k-1]);
      CleanBefore(input, run, i, k - 1);
    }
  }

  lemma {:induction false} StaysUnclean(input: Input, p: Position, act: Act)
    requires Next(input, p, act).Some? && Next(input, p, act).value.clean
    ensures p.clean
  {
  }

  lemma {:induction false} CleanLogIsWellFormed(input: Input, run: Run, k: nat)
    requires Legal(input, run) && WellFormed(input.base) && k <= |run.acts| && run.at[k].clean
    ensures LogInv(run.at[k])
  {
    if k == 0 {
    } else {
      CleanBefore(input, run, k - 1, k);
      CleanLogIsWellFormed(input, run, k - 1);
      assert StepAt(input, run, k - 1);
      LogStep(input, run.at[k-1], run.acts[k-1]);
    }
  }

  /** Main result, across the agent, the normaliser and the validator: started on a well-formed context, a run that
      records every reply and injects nothing hands the model only contexts that the validator accepts once they are
      normalised, in either mode. */
  lemma {:induction false} EveryContextPasses(input: Input, run: Run, i: nat, useToolRole: bool)
    requires Legal(input, run) && WellFormed(input.base) && Last(run).clean
    requires i < |run.acts| && run.acts[i].Prompt?
    ensures Accepted(Normalized(run.acts[i].context, useToolRole), useToolRole)
  {
    CleanBefore(input, run, i, |run.acts|);
    CleanLogIsWellFormed(input, run, i);
    assert StepAt(input, run, i);
    PromptsItsLog(input, run.at[i], run.acts[i]);
    WellFormedIsAccepted(run.acts[i].context, useToolRole);
  }

  lemma {:induction false} PromptsItsLog(input: Input, p: Position, act: Act)
    requires act.Prompt? && Next(input, p, act).Some?
    ensures act.context == p.log
  {
  }

  lemma {:induction false} WellFormedIsAccepted(ms: seq<Message>, useToolRole: bool)
    requires WellFormed(ms)
    ensures Accepted(Normalized(ms, useToolRole), useToolRole)
  {
    forall j | 0 < j < |ms| && ms[j].toolResult.Some?
      ensures ms[j-1].toolResult.Some? || (ms[j-1].role == Assistant && ms[j-1].toolCalls != [])
    {
      assert FollowsUp(ms, j);
    }
    WellFormedLogsPass(ms, useToolRole);
  }
}
