/** What a client sees of a run, as a law on its events alone: a start, rounds of a turn, a proposal, the tools started
    and ended one after the other, and a completion, and at most one terminal event at the end. */
module Rounds {

  import opened Approvals
  import opened AgentSteps
  import opened AgentTrace
  import opened Runner

  /** The calls of the latest proposal. */
  function LatestCalls(events: seq<Event>): seq<ProposedCall> {
    if events == [] then []
    else if events[|events|-1].ToolsProposed? then events[|events|-1].calls
    else LatestCalls(events[..|events|-1])
  }

  function LatestIds(events: seq<Event>): set<string> {
    IdSet(ProposedIds(LatestCalls(events)))
  }

  /** The calls started since the latest proposal. */
  function StartedSince(events: seq<Event>): set<string> {
    if events == [] then {}
    else
      match events[|events|-1]
      case ToolsProposed(_) => {}
      case ToolStarted(id) => StartedSince(events[..|events|-1]) + {id}
      case _ => StartedSince(events[..|events|-1])
  }

  /** Within a round: a proposed call not yet started is started, or the round is completed, or the run fails. */
  ghost predicate MayGoOn(before: seq<Event>, e: Event) {
    || e.ToolsCompleted? || e.RunFailed?
    || (e.ToolStarted? && e.callId in LatestIds(before) && e.callId !in StartedSince(before))
  }

  predicate Ends(e: Event, id: string) {
    (e.ToolCompleted? || e.ToolFailed?) && e.callId == id
  }

  /** Whether event `e` may come next. After a completed round there is another turn exactly when every call of the
      round was started; when one was denied the run completes. */
  ghost predicate MayFollow(before: seq<Event>, e: Event) {
    if before == [] then e.RunStarted?
    else
      match before[|before|-1]
      case RunStarted(_, _) => e.TurnCompleted? || e.RunFailed?
      case TurnCompleted(response) =>
        if response.toolCalls == [] then e.RunCompleted?
        else e.ToolsProposed? && ProposesAll(e.calls, response.toolCalls)
      case ToolsProposed(_) => e.RunCancelled? || MayGoOn(before, e)
      case ToolStarted(id) => Ends(e, id)
      case ToolCompleted(_, _) => MayGoOn(before, e)
      case ToolFailed(_, _) => MayGoOn(before, e)
      case ToolsCompleted =>
        if StartedSince(before) == LatestIds(before) then e.TurnCompleted? || e.RunFailed? else e.RunCompleted?
      case _ => false
  }

  ghost predicate FollowsAt(events: seq<Event>, k: nat)
    requires k < |events|
  {
    MayFollow(events[..k], events[k])
  }

  ghost predicate InRounds(events: seq<Event>) {
    forall k :: 0 <= k < |events| ==> FollowsAt(events, k)
  }

  // ----- the law holds of every run

  predicate MayTurn(events: seq<Event>) {
    && events != []
    && var last := events[|events|-1];
       last.RunStarted? || (last.ToolsCompleted? && StartedSince(events) == LatestIds(events))
  }

  /** During a batch: the calls started and those still to be dealt with are calls of the round, and all of them will
      have been started unless one was denied. */
  ghost predicate RoundInv(stage: Stage, events: seq<Event>)
    requires stage.Executing?
  {
    var started, ids := StartedSince(events), LatestIds(events);
    && stage.granted !! stage.denied && started !! stage.granted + stage.denied
    && started + stage.granted + stage.denied <= ids
    && (stage.refused || stage.denied != {} <==> started + stage.granted != ids)
  }

  ghost predicate ActivityInv(activity: Activity, events: seq<Event>) {
    && events != []
    && var last := events[|events|-1];
       match activity
       case Announced(id) => last == ToolStarted(id)
       case Running(id) => last == ToolStarted(id)
       case _ => last.ToolsProposed? || last.ToolCompleted? || last.ToolFailed?
  }

  /** The stage of a run goes with the events so far. */
  ghost predicate EventInv(stage: Stage, events: seq<Event>) {
    match stage
    case Begin => events == []
    case Opened => events != [] && events[|events|-1].RunStarted?
    case Ready => MayTurn(events)
    case Asked(_) => MayTurn(events)
    case Recorded(_, _) => MayTurn(events)
    case Turned(_, response) => events != [] && events[|events|-1] == TurnCompleted(response)
    case Proposed(ids) => events != [] && events[|events|-1].ToolsProposed? && ids == LatestIds(events)
    case Executing(_, _, _, activity) => RoundInv(stage, events) && ActivityInv(activity, events)
    case Closing =>
      events != [] && events[|events|-1].ToolsCompleted? && StartedSince(events) != LatestIds(events)
    case Ended => events != [] && Terminal(events[|events|-1])
  }

  lemma {:induction false} OneMoreEvent(events: seq<Event>, e: Event)
    ensures LatestCalls(events + [e]) == if e.ToolsProposed? then e.calls else LatestCalls(events)
    ensures StartedSince(events + [e]) == if e.ToolsProposed? then {}
                                          else if e.ToolStarted? then StartedSince(events) + {e.callId}
                                          else StartedSince(events)
  {
    assert (events + [e])[..|events|] == events;
  }

  lemma {:induction false} EventFollows(input: Input, p: Position, e: Event, events: seq<Event>)
    requires EventInv(p.stage, events) && AfterEvent(input, p, e).Some?
    ensures MayFollow(events, e)
  {
  }

  lemma {:induction false} EventKeepsInv(input: Input, p: Position, e: Event, events: seq<Event>)
    requires EventInv(p.stage, events) && AfterEvent(input, p, e).Some?
    ensures EventInv(AfterEvent(input, p, e).value, events + [e])
  {
    if p.stage.Executing? {
      BatchEventKeepsInv(p.stage, input.outcomes(p.executed), e, events);
    } else {
      OneMoreEvent(events, e);
    }
  }

  lemma {:induction false} BatchEventKeepsInv(stage: Stage, outcome: Outcome, e: Event, events: seq<Event>)
    requires stage.Executing? && EventInv(stage, events) && DuringBatch(stage, outcome, e).Some?
    ensures EventInv(DuringBatch(stage, outcome, e).value, events + [e])
  {
    OneMoreEvent(events, e);
    if e.ToolStarted? {
      StartKeepsRound(stage, events, e.callId);
    }
  }

  lemma {:induction false} StartKeepsRound(stage: Stage, events: seq<Event>, id: string)
    requires stage.Executing? && RoundInv(stage, events) && id in stage.granted
    ensures RoundInv(stage.(granted := stage.granted - {id}, activity := Announced(id)), events + [ToolStarted(id)])
  {
    OneMoreEvent(events, ToolStarted(id));
    assert StartedSince(events) + {id} + (stage.granted - {id}) == StartedSince(events) + stage.granted;
  }

  lemma {:induction false} OtherActKeepsInv(input: Input, p: Position, act: Act, events: seq<Event>)
    requires EventInv(p.stage, events) && !act.Emit? && Next(input, p, act).Some?
    ensures EventInv(Next(input, p, act).value.stage, events)
  {
  }

  lemma {:induction false} InRoundsSnoc(events: seq<Event>, e: Event)
    requires InRounds(events) && MayFollow(events, e)
    ensures InRounds(events + [e])
  {
    var all := events + [e];
    forall k | 0 <= k < |all|
      ensures FollowsAt(all, k)
    {
      assert all[..k] == events[..k];
      assert k < |events| ==> FollowsAt(events, k);
      assert events[..|events|] == events;
    }
  }

  lemma {:induction false} EventsInRounds(input: Input, run: Run, k: nat)
    requires Legal(input, run) && k <= |run.acts|
    ensures InRounds(EventsOf(run.acts, k)) && EventInv(run.at[k].stage, EventsOf(run.acts, k))
  {
    if k == 0 {
    } else {
      EventsInRounds(input, run, k - 1);
      assert StepAt(input, run, k - 1);
      var events, act := EventsOf(run.acts, k-1), run.acts[k-1];
      if act.Emit? {
        EventFollows(input, run.at[k-1], act.event, events);
        EventKeepsInv(input, run.at[k-1], act.event, events);
        InRoundsSnoc(events, act.event);
      } else {
        OtherActKeepsInv(input, run.at[k-1], act, events);
      }
    }
  }

  /** Main result: the events of every run come in rounds. */
  lemma {:induction false} EveryRunComesInRounds(input: Input, run: Run)
    requires Legal(input, run)
    ensures InRounds(AllEvents(run))
  {
    EventsInRounds(input, run, |run.acts|);
  }

  /** The same for what the runner forwards: labels do not break the rounds. */
  lemma {:induction false} ForwardedInRounds(input: Input, run: Run, out: seq<Event>, sessionId: string,
                                             agentName: string)
    requires Legal(input, run) && Forwards(out, AllEvents(run), |AllEvents(run)|, sessionId, agentName)
    ensures InRounds(out)
  {
    EveryRunComesInRounds(input, run);
    forall k | 0 <= k < |out|
      ensures FollowsAt(out, k)
    {
      assert FollowsAt(AllEvents(run), k);
      LabelsKeepRounds(out, AllEvents(run), k, sessionId, agentName);
      assert out[k] == Label(AllEvents(run)[k], sessionId, agentName);
    }
  }

  lemma {:induction false} LabelsKeepRounds(out: seq<Event>, events: seq<Event>, k: nat, sessionId: string,
                                            agentName: string)
    requires Forwards(out, events, |events|, sessionId, agentName) && k <= |out|
    ensures LatestCalls(out[..k]) == LatestCalls(events[..k]) && StartedSince(out[..k]) == StartedSince(events[..k])
  {
    if k == 0 {
    } else {
      LabelsKeepRounds(out, events, k - 1, sessionId, agentName);
      assert out[k-1] == Label(events[k-1], sessionId, agentName);
      assert out[..k] == out[..k-1] + [out[k-1]] && events[..k] == events[..k-1] + [events[k-1]];
      OneMoreEvent(out[..k-1], out[k-1]);
      OneMoreEvent(events[..k-1], events[k-1]);
    }
  }
}
