/** One end of a JSON-RPC connection as a transition system, one step per critical section or channel operation.
    `Request` goroutines, the read loop and its drain interleave freely. */
module Connection {

  import opened Options

  /** A response object: a result, or an error with its code. */
  datatype Reply = Result(value: string) | Error(code: int, message: string)

  /** What the drain sends to every request that is still pending. */
  const CLOSED_REPLY := Error(-32603, "connection closed")

  datatype Outcome = Answered(reply: Reply) | Cancelled | WriteFailed | ConnectionClosed

  /** Where one `Request` stands. `Leaving` is about to take the lock and forget its id. */
  datatype Phase = Registered | Waiting | Leaving(why: Outcome) | Returned(outcome: Outcome)

  /** One `Request` with its id's entry in the pending map and its channel of capacity one. `begun` is how many
      responses had been read when it was registered, `late` whether the drain was over by then. */
  datatype Call = Call(phase: Phase, pending: bool, buffer: seq<Reply>, sends: nat, begun: nat, late: bool)

  /** The read loop: reading, holding a reply it has taken an entry for, draining under the lock, past the drain,
      and with `done` closed. */
  datatype Reader = Reading | Sending(id: nat, reply: Reply) | Draining | Drained | Done

  datatype Response = Response(id: int, reply: Reply)

  /** Call number `id` has index `id - 1`; `nextID` is the number of calls. `inbox` lists the responses read. */
  datatype State = State(calls: seq<Call>, reader: Reader, inbox: seq<Response>)

  datatype Step =
    | Begin
    | Write(id: nat)
    | FailWrite(id: nat)
    | Receive(id: nat)
    | Cancel(id: nat)
    | SeeDone(id: nat)
    | Forget(id: nat)
    | ReadResponse(response: Response)
    | Send
    | EndOfInput
    | DrainOne(id: nat)
    | FinishDrain
    | CloseDone

  const INITIAL := State([], Reading, [])

  predicate HasCall(s: State, id: int) {
    1 <= id <= |s.calls|
  }

  /** The mutex is free: only the drain holds it across steps. */
  predicate LockFree(s: State) {
    s.reader != Draining
  }

  predicate HasRoom(c: Call) {
    |c.buffer| < 1
  }

  predicate Enabled(s: State, step: Step) {
    match step
    case Begin => LockFree(s)
    case Write(id) => HasCall(s, id) && s.calls[id-1].phase == Registered && LockFree(s)
    case FailWrite(id) => HasCall(s, id) && s.calls[id-1].phase == Registered
    case Receive(id) => HasCall(s, id) && s.calls[id-1].phase == Waiting && s.calls[id-1].buffer != []
    case Cancel(id) => HasCall(s, id) && s.calls[id-1].phase == Waiting
    case SeeDone(id) => HasCall(s, id) && s.calls[id-1].phase == Waiting && s.reader == Done
    case Forget(id) => HasCall(s, id) && s.calls[id-1].phase.Leaving? && LockFree(s)
    case ReadResponse(_) => s.reader == Reading
    case Send => s.reader.Sending? && HasCall(s, s.reader.id) && HasRoom(s.calls[s.reader.id-1])
    case EndOfInput => s.reader == Reading
    case DrainOne(id) => s.reader == Draining && HasCall(s, id) && s.calls[id-1].pending && HasRoom(s.calls[id-1])
    case FinishDrain => s.reader == Draining && forall i :: 0 <= i < |s.calls| ==> !s.calls[i].pending
    case CloseDone => s.reader == Drained
  }

  function Update(s: State, id: nat, c: Call): State
    requires HasCall(s, id)
  {
    s.(calls := s.calls[id-1 := c])
  }

  function Push(c: Call, reply: Reply): Call {
    c.(buffer := c.buffer + [reply], sends := c.sends + 1)
  }

  function Apply(s: State, step: Step): State
    requires Enabled(s, step)
  {
    match step
    case Begin => s.(calls := s.calls + [Call(Registered, true, [], 0, |s.inbox|,
                                              s.reader == Drained || s.reader == Done)])
    case Write(id) => Update(s, id, s.calls[id-1].(phase := Waiting))
    case FailWrite(id) => Update(s, id, s.calls[id-1].(phase := Leaving(WriteFailed)))
    case Receive(id) =>
      var c := s.calls[id-1];
      Update(s, id, c.(phase := Returned(Answered(c.buffer[0])), buffer := c.buffer[1..]))
    case Cancel(id) => Update(s, id, s.calls[id-1].(phase := Leaving(Cancelled)))
    case SeeDone(id) => Update(s, id, s.calls[id-1].(phase := Returned(ConnectionClosed)))
    case Forget(id) =>
      var c := s.calls[id-1];
      Update(s, id, c.(phase := Returned(c.phase.why), pending := false))
    case ReadResponse(response) =>
      var s' := s.(inbox := s.inbox + [response]);
      if HasCall(s, response.id) && s.calls[response.id-1].pending
      then Update(s', response.id, s.calls[response.id-1].(pending := false)).(reader := Sending(response.id,
                                                                                                 response.reply))
      else s'
    case Send => Update(s, s.reader.id, Push(s.calls[s.reader.id-1], s.reader.reply)).(reader := Reading)
    case EndOfInput => s.(reader := Draining)
    case DrainOne(id) => Update(s, id, Push(s.calls[id-1], CLOSED_REPLY).(pending := false))
    case FinishDrain => s.(reader := Drained)
    case CloseDone => s.(reader := Done)
  }

  /** `reply` is the first response with this id read since the call was registered. */
  ghost predicate FirstSince(inbox: seq<Response>, begun: nat, id: nat, reply: Reply) {
    exists j :: begun <= j < |inbox| && inbox[j] == Response(id, reply) && NoneBetween(inbox, begun, j, id)
  }

  ghost predicate NoneBetween(inbox: seq<Response>, from: nat, to: nat, id: nat) {
    forall k :: from <= k < to && k < |inbox| ==> inbox[k].id != id
  }

  predicate PastInput(r: Reader) {
    r == Draining || r == Drained || r == Done
  }

  /** A reply that may reach call `id`: its own first response, or the drain's. */
  ghost predicate Genuine(s: State, id: nat, reply: Reply)
    requires HasCall(s, id)
  {
    FirstSince(s.inbox, s.calls[id-1].begun, id, reply) || (reply == CLOSED_REPLY && PastInput(s.reader))
  }

  ghost predicate InFlight(s: State, id: nat) {
    s.reader.Sending? && s.reader.id == id
  }

  /** What every interleaving keeps true of every call. */
  ghost predicate CallInv(s: State, id: nat)
    requires HasCall(s, id)
  {
    var c := s.calls[id-1];
    && c.begun <= |s.inbox|
    // one send at most, and never into a full channel
    && c.sends <= 1 && |c.buffer| <= c.sends
    && (c.pending ==> c.sends == 0 && !InFlight(s, id) && NoneBetween(s.inbox, c.begun, |s.inbox|, id))
    && (InFlight(s, id) ==> c.sends == 0 && FirstSince(s.inbox, c.begun, id, s.reader.reply))
    // replies are genuine
    && (c.buffer != [] ==> Genuine(s, id, c.buffer[0]))
    && (c.phase.Returned? && c.phase.outcome.Answered? ==> Genuine(s, id, c.phase.outcome.reply))
    && (c.phase.Leaving? ==> c.phase.why == Cancelled || c.phase.why == WriteFailed)
    // nobody is forgotten, nothing is left behind
    && (c.phase == Registered || c.phase == Waiting ==> c.pending || c.buffer != [] || InFlight(s, id))
    && (c.phase.Returned? && c.pending ==> c.phase.outcome == ConnectionClosed && s.reader == Done)
    && (c.pending && (s.reader == Drained || s.reader == Done) ==> c.late)
    && (c.late ==> s.reader == Drained || s.reader == Done)
    && (c.late ==> LateInv(c))
  }

  /** A call registered after the drain is never answered, and only forgetting it takes its entry out. */
  predicate LateInv(c: Call) {
    && c.buffer == [] && !(c.phase.Returned? && c.phase.outcome.Answered?)
    && (c.pending <==> !(c.phase.Returned? && (c.phase.outcome == Cancelled || c.phase.outcome == WriteFailed)))
  }

  ghost predicate Inv(s: State) {
    && (forall id :: HasCall(s, id) ==> CallInv(s, id))
    && (s.reader.Sending? ==> HasCall(s, s.reader.id))
  }

  lemma {:induction false} FirstSinceGrows(inbox: seq<Response>, more: Response, begun: nat, id: nat, reply: Reply)
    requires FirstSince(inbox, begun, id, reply)
    ensures FirstSince(inbox + [more], begun, id, reply)
  {
    var j :| begun <= j < |inbox| && inbox[j] == Response(id, reply) && NoneBetween(inbox, begun, j, id);
    assert (inbox + [more])[j] == inbox[j] && NoneBetween(inbox + [more], begun, j, id);
  }

  lemma {:induction false} FirstSinceNow(inbox: seq<Response>, begun: nat, id: nat, reply: Reply)
    requires begun <= |inbox| && NoneBetween(inbox, begun, |inbox|, id)
    ensures FirstSince(inbox + [Response(id, reply)], begun, id, reply)
  {
    var all := inbox + [Response(id, reply)];
    assert all[|inbox|] == Response(id, reply) && NoneBetween(all, begun, |inbox|, id);
  }

  /** Every step of every participant keeps the invariant. */
  lemma {:induction false} StepKeepsInv(s: State, step: Step)
    requires Inv(s) && Enabled(s, step)
    ensures Inv(Apply(s, step))
  {
    var s' := Apply(s, step);
    forall id | HasCall(s', id)
      ensures CallInv(s', id)
    {
      if HasCall(s, id) {
        assert CallInv(s, id);
        StepKeepsCall(s, step, id);
      }
    }
  }

  lemma {:induction false} StepKeepsCall(s: State, step: Step, id: nat)
    requires Inv(s) && Enabled(s, step) && HasCall(s, id) && CallInv(s, id)
    ensures HasCall(Apply(s, step), id) && CallInv(Apply(s, step), id)
  {
    match step
    case ReadResponse(response) => ReadKeepsCall(s, response, id);
    case Send => SendKeepsCall(s, id);
    case DrainOne(_) =>
    case EndOfInput =>
    case FinishDrain =>
    case CloseDone =>
    case Begin => BeginKeepsCall(s, id);
    case Receive(_) => ReceiveKeepsCall(s, step, id);
    case Forget(_) => ForgetKeepsCall(s, step, id);
    case Write(_) => WriteKeepsCall(s, step, id);
    case FailWrite(_) => WriteKeepsCall(s, step, id);
    case Cancel(_) => GiveUpKeepsCall(s, step, id);
    case SeeDone(_) => GiveUpKeepsCall(s, step, id);
  }

  lemma {:induction false} SendKeepsCall(s: State, id: nat)
    requires Inv(s) && Enabled(s, Send) && HasCall(s, id) && CallInv(s, id)
    ensures HasCall(Apply(s, Send), id) && CallInv(Apply(s, Send), id)
  {
  }

  lemma {:induction false} BeginKeepsCall(s: State, id: nat)
    requires Inv(s) && Enabled(s, Begin) && HasCall(s, id) && CallInv(s, id)
    ensures HasCall(Apply(s, Begin), id) && CallInv(Apply(s, Begin), id)
  {
  }

  lemma {:induction false} ReceiveKeepsCall(s: State, step: Step, id: nat)
    requires Inv(s) && step.Receive? && Enabled(s, step) && HasCall(s, id) && CallInv(s, id)
    ensures HasCall(Apply(s, step), id) && CallInv(Apply(s, step), id)
  {
  }

  lemma {:induction false} ForgetKeepsCall(s: State, step: Step, id: nat)
    requires Inv(s) && step.Forget? && Enabled(s, step) && HasCall(s, id) && CallInv(s, id)
    ensures HasCall(Apply(s, step), id) && CallInv(Apply(s, step), id)
  {
  }

  /** The steps of a request that only move it to another phase. */
  lemma {:induction false} WriteKeepsCall(s: State, step: Step, id: nat)
    requires Inv(s) && Enabled(s, step) && HasCall(s, id) && CallInv(s, id) && (step.Write? || step.FailWrite?)
    ensures HasCall(Apply(s, step), id) && CallInv(Apply(s, step), id)
  {
  }

  lemma {:induction false} GiveUpKeepsCall(s: State, step: Step, id: nat)
    requires Inv(s) && Enabled(s, step) && HasCall(s, id) && CallInv(s, id) && (step.Cancel? || step.SeeDone?)
    ensures HasCall(Apply(s, step), id) && CallInv(Apply(s, step), id)
  {
  }

  lemma {:induction false} ReadKeepsCall(s: State, response: Response, id: nat)
    requires s.reader == Reading && HasCall(s, id) && CallInv(s, id)
    ensures HasCall(Apply(s, ReadResponse(response)), id) && CallInv(Apply(s, ReadResponse(response)), id)
  {
    var c := s.calls[id-1];
    if c.pending && response.id == id {
      FirstSinceNow(s.inbox, c.begun, id, response.reply);
    }
    forall reply | FirstSince(s.inbox, c.begun, id, reply)
      ensures FirstSince(s.inbox + [response], c.begun, id, reply)
    {
      FirstSinceGrows(s.inbox, response, c.begun, id, reply);
    }
  }

  // ----- runs

  /** The state an interleaving leads to, if every step of it was possible. */
  function StateAfter(steps: seq<Step>): Option<State> {
    if steps == [] then Some(INITIAL)
    else
      match StateAfter(steps[..|steps|-1])
      case None => None
      case Some(p) => if Enabled(p, steps[|steps|-1]) then Some(Apply(p, steps[|steps|-1])) else None
  }

  /** `s` is reached from the initial state by the interleaving `steps`. */
  predicate Run(steps: seq<Step>, s: State) {
    StateAfter(steps) == Some(s)
  }

  lemma {:induction false} RunKeepsInv(steps: seq<Step>, s: State)
    requires Run(steps, s)
    ensures Inv(s)
  {
    if steps == [] {
    } else {
      var p := StateAfter(steps[..|steps|-1]).value;
      RunKeepsInv(steps[..|steps|-1], p);
      StepKeepsInv(p, steps[|steps|-1]);
    }
  }

  /** Main result, safety of the channels: no send ever blocks, neither a delivery nor the drain's under the lock, and
      no channel is sent to twice. */
  lemma {:induction false} NoSendBlocks(steps: seq<Step>, s: State)
    requires Run(steps, s)
    ensures s.reader.Sending? ==> Enabled(s, Send)
    ensures s.reader == Draining ==> forall id :: HasCall(s, id) && s.calls[id-1].pending ==> Enabled(s, DrainOne(id))
    ensures forall id :: HasCall(s, id) ==> s.calls[id-1].sends <= 1
  {
    RunKeepsInv(steps, s);
    assert s.reader.Sending? ==> CallInv(s, s.reader.id);
    forall id | HasCall(s, id)
      ensures s.calls[id-1].sends <= 1 && (s.calls[id-1].pending ==> HasRoom(s.calls[id-1]))
    {
      assert CallInv(s, id);
    }
  }

  /** Main result, correlation: a request that returns a result returns the first response with its own id that was
      read after it was registered. */
  lemma {:induction false} ResultIsOwn(steps: seq<Step>, s: State, id: nat)
    requires Run(steps, s) && HasCall(s, id)
    requires s.calls[id-1].phase.Returned? && s.calls[id-1].phase.outcome.Answered?
    ensures var reply := s.calls[id-1].phase.outcome.reply;
            FirstSince(s.inbox, s.calls[id-1].begun, id, reply)
            || (reply == Error(-32603, "connection closed") && PastInput(s.reader))
    ensures s.calls[id-1].phase.outcome.reply.Result? ==>
              FirstSince(s.inbox, s.calls[id-1].begun, id, s.calls[id-1].phase.outcome.reply)
  {
    RunKeepsInv(steps, s);
    assert CallInv(s, id);
  }

  /** Main result, bookkeeping: a returned request still has its pending entry if and only if it was registered after
      the drain and gave up because the connection was closed. */
  lemma {:induction false} ReturnedIsForgotten(steps: seq<Step>, s: State, id: nat)
    requires Run(steps, s) && HasCall(s, id) && s.calls[id-1].phase.Returned?
    ensures s.calls[id-1].pending <==> s.calls[id-1].late && s.calls[id-1].phase.outcome == ConnectionClosed
    ensures s.calls[id-1].pending ==> s.reader == Done
  {
    RunKeepsInv(steps, s);
    assert CallInv(s, id);
  }

  /** Main result, progress: a waiting request is either still in the pending map, or its reply is in its channel or
      in the read loop's hands; and once `done` is closed it can always return. */
  lemma {:induction false} WaitingIsServed(steps: seq<Step>, s: State, id: nat)
    requires Run(steps, s) && HasCall(s, id) && s.calls[id-1].phase == Waiting
    ensures s.calls[id-1].pending || Enabled(s, Receive(id)) || (s.reader.Sending? && s.reader.id == id)
    ensures s.reader == Done ==> Enabled(s, SeeDone(id))
    ensures s.reader == Drained && !s.calls[id-1].late ==> Enabled(s, Receive(id))
  {
    RunKeepsInv(steps, s);
    assert CallInv(s, id);
  }

  /** The lost entry can happen: a request begun after the drain, refused because `done` is closed, stays in the map. */
  lemma {:induction false} LateRequestStaysPending() returns (steps: seq<Step>, s: State)
    ensures Run(steps, s) && HasCall(s, 1) && s.calls[0].phase == Returned(ConnectionClosed) && s.calls[0].pending
  {
    steps, s := BeginAfterDrain();
    steps, s := WriteAfterDrain(steps, s);
    steps, s := OneMore(steps, s, SeeDone(1));
  }

  lemma {:induction false} WriteAfterDrain(steps: seq<Step>, s: State) returns (steps': seq<Step>, s': State)
    requires Run(steps, s) && s == State([Call(Registered, true, [], 0, 0, true)], Done, [])
    ensures Run(steps', s') && s' == State([Call(Waiting, true, [], 0, 0, true)], Done, [])
  {
    steps', s' := OneMore(steps, s, Write(1));
  }

  lemma {:induction false} BeginAfterDrain() returns (steps: seq<Step>, s: State)
    ensures Run(steps, s) && s == State([Call(Registered, true, [], 0, 0, true)], Done, [])
  {
    steps, s := [], INITIAL;
    steps, s := OneMore(steps, s, EndOfInput);
    steps, s := OneMore(steps, s, FinishDrain);
    steps, s := OneMore(steps, s, CloseDone);
    steps, s := OneMore(steps, s, Begin);
  }

  lemma {:induction false} OneMore(steps: seq<Step>, s: State, step: Step) returns (steps': seq<Step>, s': State)
    requires Run(steps, s) && Enabled(s, step)
    ensures Run(steps', s') && s' == Apply(s, step)
  {
    steps', s' := steps + [step], Apply(s, step);
    assert steps'[..|steps|] == steps;
  }

  /** The request has returned this outcome, or is about to. */
  ghost predicate HasOutcome(s: State, id: nat, outcome: Outcome) {
    HasCall(s, id) && (s.calls[id-1].phase == Leaving(outcome) || s.calls[id-1].phase == Returned(outcome))
  }

  /** The step that makes a request end like this. */
  predicate Causes(step: Step, id: nat, outcome: Outcome) {
    match outcome
    case Answered(_) => step == Receive(id)
    case Cancelled => step == Cancel(id)
    case WriteFailed => step == FailWrite(id)
    case ConnectionClosed => step == SeeDone(id)
  }

  lemma {:induction false} StepCauses(s: State, step: Step, id: nat, outcome: Outcome)
    requires Enabled(s, step) && HasOutcome(Apply(s, step), id, outcome)
    ensures Causes(step, id, outcome) || HasOutcome(s, id, outcome)
  {
  }

  /** Main result: a request ends as cancelled only after it was cancelled, as not written only after its write failed,
      as closed only after it saw the connection closed, and answered only after it received its answer. */
  lemma {:induction false} OutcomeHasCause(steps: seq<Step>, s: State, id: nat, outcome: Outcome) returns (k: nat)
    requires Run(steps, s) && HasOutcome(s, id, outcome)
    ensures k < |steps| && Causes(steps[k], id, outcome)
  {
    var p := StateAfter(steps[..|steps|-1]).value;
    StepCauses(p, steps[|steps|-1], id, outcome);
    if Causes(steps[|steps|-1], id, outcome) {
      k := |steps| - 1;
    } else {
      k := OutcomeHasCause(steps[..|steps|-1], p, id, outcome);
    }
  }

  /** A request returns once: nothing changes an outcome. */
  lemma {:induction false} OutcomeIsFinal(s: State, step: Step, id: nat)
    requires Enabled(s, step) && HasCall(s, id) && s.calls[id-1].phase.Returned?
    ensures HasCall(Apply(s, step), id) && Apply(s, step).calls[id-1].phase == s.calls[id-1].phase
  {
  }
}
