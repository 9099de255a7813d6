/** What a client may conclude from what it is told: every update comes from the one event it speaks of, and a call that
    is reported as ended was asked about before, allowed, executed in that form, and ended with that text. */
module ClientView {

  import opened Approvals
  import opened AgentSteps
  import opened AgentTrace
  import opened Runner
  import opened Server
  import opened Permissions
  import opened Outcomes

  /** The event whose part of the stream holds place `q`. */
  lemma {:induction false} EventOfPlace(events: seq<Event>, answers: nat -> Answer, k: nat, q: nat) returns (e: nat)
    requires k <= |events| && q < |Stream(events, answers, k)|
    ensures e < k && |Stream(events, answers, e)| <= q < |Stream(events, answers, e + 1)|
  {
    if k > 0 && q < |Stream(events, answers, k - 1)| {
      e := EventOfPlace(events, answers, k - 1, q);
    } else {
      e := k - 1;
    }
  }

  /** The update speaks of this event. */
  ghost predicate SpeaksOf(u: Update, e: Event) {
    match u
    case Thought(text) => e.TurnCompleted? && e.response.reasoning == text != ""
    case Chunk(text) => e.TurnCompleted? && e.response.content == text != ""
    case CallAnnounced(id, name) => e.ToolsProposed? && exists i :: 0 <= i < |e.calls| && NamedAs(e.calls[i], id, name)
    case CallInProgress(id) => e == ToolStarted(id)
    case CallCompleted(id, output) => e == ToolCompleted(id, output)
    case CallFailed(id, error) => e == ToolFailed(id, error)
  }

  lemma {:induction false} CallSpeaks(out: seq<Outgoing>, at: nat, calls: seq<ProposedCall>, answers: nat -> Answer,
                                      first: nat, q: nat)
    requires CallsTold(out, at, calls, answers, first, |calls|) && at <= q < |out| && out[q].Notify?
    ensures out[q].update.CallAnnounced?
    ensures exists i :: 0 <= i < |calls| && NamedAs(calls[i], out[q].update.callId, out[q].update.name)
  {
    var i := (q - at) / 3;
    assert q - at == 3 * i + (q - at) % 3;
    assert CallTold(out, at + 3 * i, calls[i], answers(first + i));
    assert NamedAs(calls[i], out[q].update.callId, out[q].update.name);
  }

  lemma {:induction false} EventSpeaks(e: Event, out: seq<Outgoing>, at: nat, answers: nat -> Answer, first: nat,
                                       q: nat)
    requires Tells(e, out, at, answers, first) && at <= q < |out| && out[q].Notify?
    ensures SpeaksOf(out[q].update, e)
  {
    assert out[q] == out[at..][q - at];
    if e.ToolsProposed? {
      CallSpeaks(out, at, e.calls, answers, first, q);
    }
  }

  /** Main result: every update the client gets speaks of an event of the run, and stands in that event's part of the
      stream. */
  lemma {:induction false} UpdateSpeaks(events: seq<Event>, answers: nat -> Answer, q: nat) returns (e: nat)
    requires q < |Stream(events, answers, |events|)| && Stream(events, answers, |events|)[q].Notify?
    ensures e < |events| && |Stream(events, answers, e)| <= q < |Stream(events, answers, e + 1)|
    ensures SpeaksOf(Stream(events, answers, |events|)[q].update, events[e])
  {
    e := EventOfPlace(events, answers, |events|, q);
    var before, next := Stream(events, answers, e), Stream(events, answers, e + 1);
    EventTells(before, events[e], answers, Requests(events, e));
    StreamGrows(events, answers, e + 1, |events|);
    assert next[q] == Stream(events, answers, |events|)[q];
    EventSpeaks(events[e], next, |before|, answers, Requests(events, e), q);
  }

  /** Conversely every event is told, by just the updates that speak of it. */
  lemma {:induction false} EventIsTold(events: seq<Event>, answers: nat -> Answer, e: nat)
    requires e < |events|
    ensures Stream(events, answers, e) <= Stream(events, answers, e + 1) <= Stream(events, answers, |events|)
    ensures Tells(events[e], Stream(events, answers, e + 1), |Stream(events, answers, e)|, answers, Requests(events, e))
  {
    EventTells(Stream(events, answers, e), events[e], answers, Requests(events, e));
    StreamGrows(events, answers, e + 1, |events|);
  }

  // ----- calls that ended

  /** Act `i` announced that a call ended, which was handed over by act `x` and asked about at place `a` of the stream,
      before place `q`, and allowed there with this name and these arguments. */
  ghost predicate EndedAllowed(run: Run, answers: nat -> Answer, i: nat, x: nat, a: nat, q: nat) {
    var out := Stream(AllEvents(run), answers, |AllEvents(run)|);
    && x < i < |run.acts| && EndsTool(run.acts[i]) && run.acts[x].Execute?
    && run.acts[x].call.id == run.acts[i].event.callId
    && a < q < |out| && out[a].Ask? && out[a].answer == Selected("allow") && ShownAs(out[a].call, run.acts[x].call)
  }

  /** Main result, from the client back to the tool: when the client is told that a call ended, it has been asked about
      that call before and allowed it; the call was executed with the name and arguments it was asked about, and what it
      is told is how that execution ended. */
  lemma {:induction false} ToldEndWasAllowed(input: Input, run: Run, answers: nat -> Answer, q: nat)
    returns (i: nat, x: nat, a: nat)
    requires Legal(input, run) && CommandsCome(input.commands, Sent(run, answers))
    requires q < |Stream(AllEvents(run), answers, |AllEvents(run)|)|
    requires var told := Stream(AllEvents(run), answers, |AllEvents(run)|)[q];
             told.Notify? && (told.update.CallCompleted? || told.update.CallFailed?)
    ensures EndedAllowed(run, answers, i, x, a, q)
    ensures var told := Stream(AllEvents(run), answers, |AllEvents(run)|)[q].update;
            && told.callId == run.acts[i].event.callId
            && input.outcomes(ToolsEnded(run.acts, i)) ==
               if told.CallCompleted? then Output(told.output) else Failure(told.error)
  {
    var e := UpdateSpeaks(AllEvents(run), answers, q);
    i := EventStands(run.acts, |run.acts|, e);
    OutcomeIsTold(input, run, i);
    x := EndedWasExecuted(input, run, i);
    a := AskedBefore(input, run, answers, x, i);
    StreamGrows(AllEvents(run), answers, EventNumber(run, x), e);
  }

  lemma {:induction false} NumbersGrow(run: Run, s: nat, x: nat, i: nat)
    requires 0 < s <= x <= i <= |run.acts| && IsEvent(run, s - 1)
    ensures EventNumber(run, s - 1) + 1 <= EventNumber(run, x) <= EventNumber(run, i) <= |AllEvents(run)|
  {
    EventOf(run, s - 1);
    EventsGrow(run.acts, s, x);
    EventsGrow(run.acts, x, i);
    EventsGrow(run.acts, i, |run.acts|);
  }

  /** Where the client was asked about a call that is executed. */
  lemma {:induction false} AskedBefore(input: Input, run: Run, answers: nat -> Answer, x: nat, i: nat) returns (a: nat)
    requires Legal(input, run) && CommandsCome(input.commands, Sent(run, answers))
    requires x < i < |run.acts| && run.acts[x].Execute?
    ensures EventNumber(run, x) <= EventNumber(run, i) <= |AllEvents(run)|
    ensures AskedInFront(run, answers, x, a)
  {
    var s, m;
    s, m, a := NoToolWithoutPermission(input, run, answers, x);
    NumbersGrow(run, s, x, i);
    AskStands(run, answers, s, m, x, a);
  }

  /** Place `a`, in front of whatever is told after act `x`, asks about the call of act `x`, and it is allowed. */
  ghost predicate AskedInFront(run: Run, answers: nat -> Answer, x: nat, a: nat) {
    var out := Stream(AllEvents(run), answers, |AllEvents(run)|);
    && x < |run.acts| && run.acts[x].Execute? && EventNumber(run, x) <= |AllEvents(run)|
    && a < |Stream(AllEvents(run), answers, EventNumber(run, x))| <= |out|
    && out[a].Ask? && out[a].answer == Selected("allow") && ShownAs(out[a].call, run.acts[x].call)
  }

  lemma {:induction false} AskStands(run: Run, answers: nat -> Answer, s: nat, m: nat, x: nat, a: nat)
    requires 0 < s <= x < |run.acts| && IsEvent(run, s - 1) && run.acts[s-1].event.ToolsProposed?
    requires EventNumber(run, s - 1) + 1 <= EventNumber(run, x) <= |AllEvents(run)|
    requires AllEvents(run)[EventNumber(run, s - 1)] == run.acts[s-1].event && m < |run.acts[s-1].event.calls|
    requires AskedAt(AllEvents(run), answers, EventNumber(run, s - 1), m, a)
    requires var out := Stream(AllEvents(run), answers, |AllEvents(run)|);
             out[a] == Ask(run.acts[s-1].event.calls[m], Selected("allow"))
    requires run.acts[x].Execute? && ShownAs(run.acts[s-1].event.calls[m], run.acts[x].call)
    ensures AskedInFront(run, answers, x, a)
  {
    StreamGrows(AllEvents(run), answers, EventNumber(run, s - 1) + 1, EventNumber(run, x));
    StreamGrows(AllEvents(run), answers, EventNumber(run, x), |AllEvents(run)|);
  }
}
