/** A whole prompt without a cancellation: the agent, the event loop and the command channel between them. However they
    take turns, the event loop never hangs and every event of the run is handled. */
module PromptChannel {

  import opened Options
  import opened Approvals
  import opened AgentSteps
  import opened AgentTrace
  import opened Runner
  import opened Server
  import opened Permissions

  /** How many acts of its run the agent has done, how many events the event loop has handled to the end, and how many
      commands have been sent and taken. */
  datatype State = State(acts: nat, handled: nat, sent: nat, taken: nat)

  datatype Step = AgentActs | EventHandled | VerdictSent | CommandTaken

  const START := State(0, 0, 0, 0)

  /** Nobody cancels, and the channel is never closed. */
  ghost predicate Uncancelled(input: Input, run: Run, answers: nat -> Answer) {
    && Legal(input, run) && CommandsCome(input.commands, Sent(run, answers)) && !input.closed
    && forall k :: 0 <= k < |input.commands| ==> input.commands[k] != Cancel
  }

  /** The agent waits for decisions, and what it has taken does not decide its batch. */
  ghost predicate StillReads(run: Run, answers: nat -> Answer, s: State)
    requires |run.at| == |run.acts| + 1 && s.acts <= |run.acts|
  {
    var p := run.at[s.acts];
    p.stage.Proposed? && Open(Sent(run, answers), p.stage.ids, p.read, s.taken)
  }

  /** The event loop is at event `handled`, which the agent has emitted. */
  ghost predicate HasEvent(run: Run, s: State) {
    s.acts <= |run.acts| && s.handled < EventNumber(run, s.acts) && s.handled < |AllEvents(run)|
  }

  ghost predicate Enabled(run: Run, answers: nat -> Answer, capacity: nat, s: State, step: Step)
    requires |run.at| == |run.acts| + 1 && s.acts <= |run.acts|
  {
    match step
    case AgentActs => s.acts < |run.acts| && (run.acts[s.acts].Settle? ==> s.taken == run.acts[s.acts].stop)
    case EventHandled => HasEvent(run, s) && s.sent == Requests(AllEvents(run), s.handled + 1)
    case VerdictSent =>
      HasEvent(run, s) && s.sent < Requests(AllEvents(run), s.handled + 1) && s.sent < s.taken + capacity
    case CommandTaken => s.taken < s.sent && StillReads(run, answers, s)
  }

  function Apply(s: State, step: Step): State {
    match step
    case AgentActs => s.(acts := s.acts + 1)
    case EventHandled => s.(handled := s.handled + 1)
    case VerdictSent => s.(sent := s.sent + 1)
    case CommandTaken => s.(taken := s.taken + 1)
  }

  /** The state after some steps; none when one of them was not possible. */
  ghost function After(run: Run, answers: nat -> Answer, capacity: nat, steps: seq<Step>): (t: Option<State>)
    requires |run.at| == |run.acts| + 1
    ensures t.Some? ==> t.value.acts <= |run.acts|
  {
    if steps == [] then Some(START)
    else
      match After(run, answers, capacity, steps[..|steps|-1])
      case None => None
      case Some(s) =>
        if Enabled(run, answers, capacity, s, steps[|steps|-1]) then Some(Apply(s, steps[|steps|-1])) else None
  }

  ghost predicate AtRest(run: Run, answers: nat -> Answer, capacity: nat, s: State)
    requires |run.at| == |run.acts| + 1 && s.acts <= |run.acts|
  {
    forall step :: !Enabled(run, answers, capacity, s, step)
  }

  // ----- agent and server in step, to the end of the run

  lemma {:induction false} NeverCancelledFirst(input: Input, ids: set<string>, lo: nat)
    requires !input.closed && forall k :: 0 <= k < |input.commands| ==> input.commands[k] != Cancel
    ensures !CancelledFirst(input.commands, input.closed, ids, lo)
  {
  }

  /** What the agent has read, with the calls it still owes, is what its events ask for. */
  lemma {:induction false} Balance(input: Input, run: Run, answers: nat -> Answer, k: nat)
    requires Uncancelled(input, run, answers) && k <= |run.acts|
    ensures EventNumber(run, k) <= |AllEvents(run)|
    ensures run.at[k].read + Owed(run, k) == Requests(AllEvents(run), EventNumber(run, k))
  {
    InStep(input, run, answers, k);
    if run.at[k].stage == Ended {
      assert StepAt(input, run, k - 1);
      InStep(input, run, answers, k - 1);
      OnlyTerminalsEnd(input, run.at[k-1], run.acts[k-1]);
      ReadsOnlyToSettle(input, run.at[k-1], run.acts[k-1]);
      OwesNothing(input, run, answers, k - 1);
      EventOf(run, k - 1);
    }
  }

  /** Only a settlement follows a proposal. */
  lemma {:induction false} OwesNothing(input: Input, run: Run, answers: nat -> Answer, k: nat)
    requires Uncancelled(input, run, answers) && k < |run.acts| && !run.acts[k].Settle?
    ensures Owed(run, k) == 0
  {
    if Owed(run, k) > 0 {
      Proposes(input, run, k - 1);
      assert StepAt(input, run, k);
      AfterProposal(input, run.at[k], run.acts[k]);
      NeverCancelledFirst(input, run.at[k].stage.ids, run.at[k].read);
    }
  }

  // ----- what every step keeps

  ghost predicate Inv(run: Run, capacity: nat, s: State)
    requires |run.at| == |run.acts| + 1
  {
    var events := AllEvents(run);
    && s.acts <= |run.acts| && s.handled <= EventNumber(run, s.acts) <= |events|
    && Requests(events, s.handled) <= s.sent
    && (if s.handled < EventNumber(run, s.acts) then s.sent <= Requests(events, s.handled + 1)
        else s.sent == Requests(events, s.handled))
    && s.taken <= s.sent <= s.taken + capacity
    && run.at[s.acts].read <= s.taken <= run.at[s.acts].read + Owed(run, s.acts)
  }

  lemma {:induction false} StartKeepsInv(input: Input, run: Run, answers: nat -> Answer, capacity: nat)
    requires Uncancelled(input, run, answers)
    ensures Inv(run, capacity, START)
  {
    Balance(input, run, answers, 0);
  }

  lemma {:induction false} ActKeepsInv(input: Input, run: Run, answers: nat -> Answer, capacity: nat, s: State)
    requires Uncancelled(input, run, answers) && Inv(run, capacity, s)
    requires Enabled(run, answers, capacity, s, AgentActs)
    ensures Inv(run, capacity, Apply(s, AgentActs))
  {
    var k := s.acts;
    Balance(input, run, answers, k + 1);
    EventsGrow(run.acts, k, k + 1);
    assert StepAt(input, run, k);
    if run.acts[k].Settle? {
      SettleReads(input, run.at[k], run.acts[k]);
    } else {
      ReadsOnlyToSettle(input, run.at[k], run.acts[k]);
      OwesNothing(input, run, answers, k);
    }
    if s.handled < EventNumber(run, k + 1) {
      RequestsGrow(AllEvents(run), s.handled, s.handled + 1);
    }
  }

  lemma {:induction false} HandledKeepsInv(run: Run, answers: nat -> Answer, capacity: nat, s: State)
    requires |run.at| == |run.acts| + 1 && Inv(run, capacity, s) && Enabled(run, answers, capacity, s, EventHandled)
    ensures Inv(run, capacity, Apply(s, EventHandled))
  {
    if s.handled + 1 < EventNumber(run, s.acts) {
      RequestsGrow(AllEvents(run), s.handled + 1, s.handled + 2);
    }
  }

  lemma {:induction false} TakenKeepsInv(input: Input, run: Run, answers: nat -> Answer, capacity: nat, s: State)
    requires Uncancelled(input, run, answers) && Inv(run, capacity, s)
    requires Enabled(run, answers, capacity, s, CommandTaken)
    ensures Inv(run, capacity, Apply(s, CommandTaken))
  {
    SentIsOwed(input, run, answers, capacity, s);
  }

  /** No more is sent than the events of the agent ask for. */
  lemma {:induction false} SentIsOwed(input: Input, run: Run, answers: nat -> Answer, capacity: nat, s: State)
    requires Uncancelled(input, run, answers) && Inv(run, capacity, s)
    ensures s.sent <= run.at[s.acts].read + Owed(run, s.acts)
    ensures HasEvent(run, s) ==> Requests(AllEvents(run), s.handled + 1) <= run.at[s.acts].read + Owed(run, s.acts)
    ensures !HasEvent(run, s) ==> s.sent == run.at[s.acts].read + Owed(run, s.acts)
  {
    Balance(input, run, answers, s.acts);
    if s.handled < EventNumber(run, s.acts) {
      RequestsGrow(AllEvents(run), s.handled + 1, EventNumber(run, s.acts));
    }
  }

  lemma {:induction false} StepKeepsInv(input: Input, run: Run, answers: nat -> Answer, capacity: nat, s: State,
                                        step: Step)
    requires Uncancelled(input, run, answers) && Inv(run, capacity, s) && Enabled(run, answers, capacity, s, step)
    ensures Inv(run, capacity, Apply(s, step))
  {
    match step
    case AgentActs => ActKeepsInv(input, run, answers, capacity, s);
    case EventHandled => HandledKeepsInv(run, answers, capacity, s);
    case VerdictSent =>
    case CommandTaken => TakenKeepsInv(input, run, answers, capacity, s);
  }

  lemma {:induction false} RunKeepsInv(input: Input, run: Run, answers: nat -> Answer, capacity: nat, steps: seq<Step>)
    requires Uncancelled(input, run, answers) && After(run, answers, capacity, steps).Some?
    ensures Inv(run, capacity, After(run, answers, capacity, steps).value)
  {
    if steps == [] {
      StartKeepsInv(input, run, answers, capacity);
    } else {
      var front := steps[..|steps|-1];
      RunKeepsInv(input, run, answers, capacity, front);
      StepKeepsInv(input, run, answers, capacity, After(run, answers, capacity, front).value, steps[|steps|-1]);
    }
  }

  // ----- nothing hangs

  /** The server's own commands hold no cancellation. */
  lemma {:induction false} SentIsClean(run: Run, answers: nat -> Answer)
    ensures CommandsCome(Sent(run, answers), Sent(run, answers))
    ensures forall j :: 0 <= j < |Sent(run, answers)| ==> Sent(run, answers)[j] != Cancel
    ensures |Sent(run, answers)| == Requests(AllEvents(run), |AllEvents(run)|)
  {
    var events := AllEvents(run);
    var all := Stream(events, answers, |events|);
    SentSoFar(run, answers, all, |events|);
    StreamCancelsNothing(events, answers, |events|);
    NoCancelCommands(all, |all|);
    CommandsMatchRequests(events, answers, |events|);
  }

  /** The agent's last act proposed the batch whose verdicts are missing, and those are what comes next. */
  lemma {:induction false} OwedComesNext(input: Input, run: Run, answers: nat -> Answer, k: nat, hi: nat)
    requires Uncancelled(input, run, answers) && k <= |run.acts| && Owed(run, k) > 0 && hi <= |Sent(run, answers)|
    ensures k > 0 && IsEvent(run, k - 1) && run.acts[k-1].event.ToolsProposed?
    ensures VerdictsFrom(Sent(run, answers), run.at[k].read, hi, ProposedIds(run.acts[k-1].event.calls), answers)
  {
    EventOf(run, k - 1);
    SentIsClean(run, answers);
    Balance(input, run, answers, k);
    ReadsVerdicts(input.(commands := Sent(run, answers)), run, answers, k - 1, hi);
  }

  lemma {:induction false} ProposalWaits(input: Input, run: Run, k: nat)
    requires Legal(input, run) && 0 < k <= |run.acts| && IsEvent(run, k - 1) && run.acts[k-1].event.ToolsProposed?
    ensures var ids := ProposedIds(run.acts[k-1].event.calls);
            run.at[k].stage == Proposed(IdSet(ids)) && ListsOnce(ids, IdSet(ids))
  {
    Proposes(input, run, k - 1);
    ProposedAsRecorded(input, run, k - 1);
  }

  /** As long as a verdict on its batch is missing, the agent reads. */
  lemma {:induction false} ReadsOn(input: Input, run: Run, answers: nat -> Answer, capacity: nat, s: State)
    requires Uncancelled(input, run, answers) && Inv(run, capacity, s)
    requires s.taken < run.at[s.acts].read + Owed(run, s.acts)
    ensures StillReads(run, answers, s)
  {
    SentFits(input, run, answers, capacity, s);
    OwedComesNext(input, run, answers, s.acts, s.taken);
    ProposalWaits(input, run, s.acts);
    ShortIsOpen(Sent(run, answers), run.at[s.acts].read, s.taken, ProposedIds(run.acts[s.acts-1].event.calls), answers);
  }

  /** No more is sent than the whole run asks for. */
  lemma {:induction false} SentFits(input: Input, run: Run, answers: nat -> Answer, capacity: nat, s: State)
    requires Uncancelled(input, run, answers) && Inv(run, capacity, s)
    ensures s.taken <= s.sent <= |Sent(run, answers)|
  {
    SentIsOwed(input, run, answers, capacity, s);
    Balance(input, run, answers, s.acts);
    SentIsClean(run, answers);
    RequestsGrow(AllEvents(run), EventNumber(run, s.acts), |AllEvents(run)|);
  }

  /** Main result: in a prompt that nobody cancels, whenever the event loop has a verdict to send, there is room for it
      or the agent takes a command. */
  lemma {:induction false} UncancelledNeverHangs(input: Input, run: Run, answers: nat -> Answer, capacity: nat,
                                                 steps: seq<Step>, s: State)
    requires Uncancelled(input, run, answers) && capacity > 0 && After(run, answers, capacity, steps) == Some(s)
    requires HasEvent(run, s) && s.sent < Requests(AllEvents(run), s.handled + 1)
    ensures Enabled(run, answers, capacity, s, VerdictSent) || Enabled(run, answers, capacity, s, CommandTaken)
  {
    RunKeepsInv(input, run, answers, capacity, steps);
    SentIsOwed(input, run, answers, capacity, s);
    if s.sent >= s.taken + capacity {
      ReadsOn(input, run, answers, capacity, s);
    }
  }

  /** When the agent can settle its batch, or what is missing for it. */
  lemma {:induction false} SettlesWhenRead(input: Input, run: Run, answers: nat -> Answer, capacity: nat, s: State)
    requires Uncancelled(input, run, answers) && Inv(run, capacity, s) && !HasEvent(run, s) && s.acts < |run.acts|
    ensures Enabled(run, answers, capacity, s, AgentActs) || Enabled(run, answers, capacity, s, CommandTaken)
  {
    SentIsOwed(input, run, answers, capacity, s);
    if run.acts[s.acts].Settle? {
      SettledByItsVerdicts(input, run, answers, s.acts);
      if s.taken < run.acts[s.acts].stop {
        ReadsOn(input, run, answers, capacity, s);
      }
    }
  }

  /** Main result: a prompt that nobody cancels stops only when the run is over and every event of it is handled; every
      verdict has been sent and taken then. */
  lemma {:induction false} RestsOnlyWhenDone(input: Input, run: Run, answers: nat -> Answer, capacity: nat,
                                             steps: seq<Step>, t: State)
    requires Uncancelled(input, run, answers) && capacity > 0 && After(run, answers, capacity, steps) == Some(t)
    requires AtRest(run, answers, capacity, t)
    ensures t.acts == |run.acts| && t.handled == |AllEvents(run)| && t.sent == t.taken == |Sent(run, answers)|
  {
    RunKeepsInv(input, run, answers, capacity, steps);
    assert !Enabled(run, answers, capacity, t, EventHandled) && !Enabled(run, answers, capacity, t, CommandTaken);
    if HasEvent(run, t) {
      UncancelledNeverHangs(input, run, answers, capacity, steps, t);
    } else if t.acts < |run.acts| {
      SettlesWhenRead(input, run, answers, capacity, t);
    }
    SentIsOwed(input, run, answers, capacity, t);
    SentIsClean(run, answers);
    if t.taken < t.sent {
      ReadsOn(input, run, answers, capacity, t);
    }
  }

  /** It does stop: no run takes more steps than there are acts, events, and commands to send and to take. */
  lemma {:induction false} StopsInTime(input: Input, run: Run, answers: nat -> Answer, capacity: nat, steps: seq<Step>)
    requires Uncancelled(input, run, answers) && After(run, answers, capacity, steps).Some?
    ensures |steps| <= |run.acts| + |AllEvents(run)| + 2 * |Sent(run, answers)|
  {
    var t := After(run, answers, capacity, steps).value;
    StepsAddUp(run, answers, capacity, steps);
    RunKeepsInv(input, run, answers, capacity, steps);
    SentFits(input, run, answers, capacity, t);
  }

  lemma {:induction false} StepsAddUp(run: Run, answers: nat -> Answer, capacity: nat, steps: seq<Step>)
    requires |run.at| == |run.acts| + 1 && After(run, answers, capacity, steps).Some?
    ensures var t := After(run, answers, capacity, steps).value; |steps| == t.acts + t.handled + t.sent + t.taken
  {
    if steps == [] {
    } else {
      StepsAddUp(run, answers, capacity, steps[..|steps|-1]);
    }
  }

  // ----- the prompt over its channel

  /** Main result for a whole prompt: behind its runner and over a command channel of this capacity, an event loop that
      nothing disturbs does not hang, handles every event of the run, sends every verdict on it, and answers the prompt
      exactly when the run is over. `steps` are the turns that agent and event loop take, up to where neither can go on;
      the room for commands is what the agent has taken by then and the capacity. */
  method ServeUncancelled(ghost input: Input, run: Run, sessionId: string, agentName: string, handler: Handler,
                          interrupted: nat -> bool, ghost capacity: nat, ghost steps: seq<Step>, ghost t: State)
    returns (result: Option<PromptResult>)
    requires Uncancelled(input, run, handler.answers) && capacity > 0 && Undisturbed(interrupted)
    requires After(run, handler.answers, capacity, steps) == Some(t) && AtRest(run, handler.answers, capacity, t)
    requires handler.Valid() && handler.out == [] && handler.asked == 0 && handler.room == t.taken + capacity
    modifies handler
    ensures CommandsOf(handler.out, |handler.out|) == Sent(run, handler.answers)
    ensures |Sent(run, handler.answers)| == t.taken && t.handled == |AllEvents(run)|
    ensures result.Some? <==> Last(run).stage == Ended
    ensures Last(run).stage == Ended ==> AllEvents(run) != [] && EndsAs(result, AllEvents(run)[|AllEvents(run)|-1])
  {
    var n, hung;
    RestsOnlyWhenDone(input, run, handler.answers, capacity, steps, t);
    TerminalComesLast(input, run);
    result, n, hung := ServeRun(input, run, sessionId, agentName, handler, interrupted);
  }
}
