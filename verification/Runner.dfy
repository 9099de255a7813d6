/** The goroutine that forwards an agent's events to its caller. */
module Runner {

  import opened AgentSteps
  import opened AgentTrace

  /** The start event leaves the agent without its session and agent name; the runner fills them in. */
  function Label(e: Event, sessionId: string, agentName: string): Event {
    if e.RunStarted? then RunStarted(sessionId, agentName) else e
  }

  /** `out` is what a caller that knows the session sees of the first `n` events. */
  ghost predicate Forwards(out: seq<Event>, events: seq<Event>, n: nat, sessionId: string, agentName: string)
    requires n <= |events|
  {
    |out| == n && forall i :: 0 <= i < n ==> out[i] == Label(events[i], sessionId, agentName)
  }

  /** How many turns of the model the first `n` events announce. */
  function TurnsIn(events: seq<Event>, n: nat): nat
    requires n <= |events|
  {
    if n == 0 then 0 else TurnsIn(events, n - 1) + if events[n-1].TurnCompleted? then 1 else 0
  }

  /** Forwards up to the first terminal event, then closes; stays open when none comes. */
  method Forward(events: seq<Event>, sessionId: string, agentName: string)
    returns (out: seq<Event>, closed: bool, turnCounter: nat)
    ensures |out| <= |events| && Forwards(out, events, |out|, sessionId, agentName)
    ensures forall i :: 0 <= i < |out| ==>
              out[i] == if events[i].RunStarted? then RunStarted(sessionId, agentName) else events[i]
    ensures turnCounter == TurnsIn(events, |out|)
    ensures forall i :: 0 <= i < |out| && Terminal(events[i]) ==> i == |out| - 1 && closed
    ensures closed ==> |out| > 0 && Terminal(events[|out|-1])
    ensures !closed ==> |out| == |events|
  {
    out, closed, turnCounter := [], false, 0;
    var k := 0;
    while k < |events| && !closed
      invariant k <= |events| && Forwards(out, events, k, sessionId, agentName) && turnCounter == TurnsIn(events, k)
      invariant forall i :: 0 <= i < k && Terminal(events[i]) ==> i == k - 1 && closed
      invariant closed ==> k > 0 && Terminal(events[k-1])
    {
      var event := events[k];
      if event.RunStarted? {
        event := RunStarted(sessionId, agentName);
      }
      if event.TurnCompleted? {
        turnCounter := turnCounter + 1;
      }
      out := out + [event];
      closed := event.RunCompleted? || event.RunCancelled? || event.RunFailed?;
      k := k + 1;
    }
  }

  /** The events among the first `k` acts of a trace: what the agent put into its channel. */
  function EventsOf(trace: seq<Act>, k: nat): seq<Event>
    requires k <= |trace|
  {
    if k == 0 then []
    else if trace[k-1].Emit? then EventsOf(trace, k-1) + [trace[k-1].event] else EventsOf(trace, k-1)
  }

  /** Where event `i` stands in the trace. */
  lemma {:induction false} EventStands(trace: seq<Act>, k: nat, i: nat) returns (p: nat)
    requires k <= |trace| && i < |EventsOf(trace, k)|
    ensures p < k && trace[p] == Emit(EventsOf(trace, k)[i]) && |EventsOf(trace, p)| == i
  {
    if trace[k-1].Emit? && i == |EventsOf(trace, k-1)| {
      p := k - 1;
    } else {
      p := EventStands(trace, k - 1, i);
    }
  }

  /** What the agent put into its channel over a whole run. */
  function AllEvents(run: Run): seq<Event> {
    EventsOf(run.acts, |run.acts|)
  }

  /** A run of the agent has a terminal event in its channel exactly when it is over, and then as the last one. */
  lemma {:induction false} TerminalComesLast(input: Input, run: Run)
    requires Legal(input, run)
    ensures forall i :: 0 <= i < |AllEvents(run)| && Terminal(AllEvents(run)[i]) ==> i == |AllEvents(run)| - 1
    ensures Last(run).stage == Ended <==> exists i :: 0 <= i < |AllEvents(run)| && Terminal(AllEvents(run)[i])
  {
    var events := AllEvents(run);
    forall i | 0 <= i < |events| && Terminal(events[i])
      ensures i == |events| - 1 && Last(run).stage == Ended
    {
      var p := EventStands(run.acts, |run.acts|, i);
      EndsOnce(input, run, p);
    }
    EndedByTerminal(input, run);
    if Last(run).stage == Ended {
      assert events[|events|-1] == run.acts[|run.acts|-1].event;
    }
  }

  /** Main result: whatever the runner forwards of a run is the whole run, in order, and it closes its channel exactly
      when the run is over, right after the terminal event. */
  lemma {:induction false} WholeRunIsForwarded(input: Input, run: Run, out: seq<Event>, closed: bool,
                                               sessionId: string, agentName: string)
    requires Legal(input, run)
    requires var events := AllEvents(run);
             && |out| <= |events| && Forwards(out, events, |out|, sessionId, agentName)
             && (forall i :: 0 <= i < |out| && Terminal(events[i]) ==> i == |out| - 1 && closed)
             && (closed ==> |out| > 0 && Terminal(events[|out|-1]))
             && (!closed ==> |out| == |events|)
    ensures Forwards(out, AllEvents(run), |AllEvents(run)|, sessionId, agentName)
    ensures closed <==> Last(run).stage == Ended
  {
    TerminalComesLast(input, run);
  }

  /** The runner behind the agent. */
  method ForwardRun(ghost input: Input, run: Run, sessionId: string, agentName: string)
    returns (out: seq<Event>, closed: bool)
    requires Legal(input, run)
    ensures Forwards(out, AllEvents(run), |AllEvents(run)|, sessionId, agentName)
    ensures closed <==> Last(run).stage == Ended
  {
    var turns;
    out, closed, turns := Forward(AllEvents(run), sessionId, agentName);
    WholeRunIsForwarded(input, run, out, closed, sessionId, agentName);
  }
}
