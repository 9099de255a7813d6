/** The event loop of one prompt: what the server tells the client, what it asks, and which commands it sends back to
    the agent. Writing to the client is assumed to succeed. */
module Server {

  import opened Options
  import opened Approvals
  import opened AgentSteps
  import opened Runner

  datatype OptionKind = AllowOnce | AllowAlways | RejectOnce | RejectAlways

  datatype PermissionOption = PermissionOption(optionId: string, kind: OptionKind)

  /** The client's answer to a permission request; `NoAnswer` when the request failed. */
  datatype Answer = Selected(optionId: string) | Dismissed | OtherAnswer | NoAnswer

  datatype Update =
    | Thought(text: string)
    | Chunk(text: string)
    | CallAnnounced(callId: string, name: string)
    | CallInProgress(callId: string)
    | CallCompleted(callId: string, output: string)
    | CallFailed(callId: string, error: string)

  datatype StopReason = EndTurn | StopCancelled

  datatype PromptResult = Stopped(reason: StopReason) | PromptFailed(error: string)

  /** What leaves the event loop: updates and permission requests (with the answer that came back) to the client, and
      commands to the agent. A request shows the call's id, name, arguments and preview. */
  datatype Outgoing = Notify(update: Update) | Ask(call: ProposedCall, answer: Answer) | Send(command: Command)

  const OPTIONS := [PermissionOption("allow", AllowOnce), PermissionOption("reject", RejectOnce)]

  predicate IsAllow(kind: OptionKind) {
    kind == AllowOnce || kind == AllowAlways
  }

  /** The first option that carries the selected id is of an allow kind. */
  ghost predicate Allows(answer: Answer, options: seq<PermissionOption>) {
    && answer.Selected?
    && exists i :: 0 <= i < |options| && options[i].optionId == answer.optionId && IsAllow(options[i].kind)
                   && forall k :: 0 <= k < i ==> options[k].optionId != answer.optionId
  }

  method OutcomeIsAllowed(answer: Answer, options: seq<PermissionOption>) returns (allowed: bool)
    ensures allowed <==> Allows(answer, options)
  {
    if !answer.Selected? {
      return false;
    }
    var k := 0;
    while k < |options| && options[k].optionId != answer.optionId
      invariant k <= |options| && forall j :: 0 <= j < k ==> options[j].optionId != answer.optionId
    {
      k := k + 1;
    }
    allowed := k < |options| && IsAllow(options[k].kind);
  }

  /** Of the two options the server offers, only selecting "allow" allows. */
  lemma {:induction false} OnlyAllowAllows(answer: Answer)
    ensures Allows(answer, OPTIONS) <==> answer == Selected("allow")
  {
    assert OPTIONS[0].optionId == "allow" && OPTIONS[1].optionId == "reject";
    assert "allow"[0] != "reject"[0];
  }

  ghost function CommandFor(callId: string, answer: Answer): Command {
    if answer == NoAnswer then Deny(callId, "permission request failed")
    else if Allows(answer, OPTIONS) then Approve(callId)
    else Deny(callId, if answer == Dismissed then "cancelled" else "denied by user")
  }

  function ResultFor(e: Event): Option<PromptResult> {
    match e
    case RunCompleted => Some(Stopped(EndTurn))
    case RunCancelled => Some(Stopped(StopCancelled))
    case RunFailed(error) => Some(PromptFailed(error))
    case _ => None
  }

  /** How a prompt ends whose run ends with this event. */
  predicate EndsAs(result: Option<PromptResult>, e: Event) {
    && (e.RunCompleted? ==> result == Some(Stopped(EndTurn)))
    && (e.RunCancelled? ==> result == Some(Stopped(StopCancelled)))
    && (e.RunFailed? ==> result == Some(PromptFailed(e.error)))
  }

  /** What the last of the first `n` events says about the end of the prompt. */
  function LastResult(events: seq<Event>, n: nat): (r: Option<PromptResult>)
    requires n <= |events|
    ensures r.Some? <==> n > 0 && Terminal(events[n-1])
  {
    if n == 0 then None else ResultFor(events[n-1])
  }

  /** One proposed call is announced, asked about, and answered with one command. */
  ghost function CallAfter(done: seq<Outgoing>, call: ProposedCall, answer: Answer): seq<Outgoing> {
    done + [Notify(CallAnnounced(call.callId, call.name)), Ask(call, answer), Send(CommandFor(call.callId, answer))]
  }

  /** `done` followed by what the first `k` calls of a proposal cause, when `asked` requests were answered before. */
  ghost function ProposalAfter(done: seq<Outgoing>, calls: seq<ProposedCall>, answers: nat -> Answer, asked: nat,
                               k: nat): seq<Outgoing>
    requires k <= |calls|
  {
    if k == 0 then done
    else CallAfter(ProposalAfter(done, calls, answers, asked, k-1), calls[k-1], answers(asked + k - 1))
  }

  /** `done` followed by what an event causes. */
  ghost function EventAfter(done: seq<Outgoing>, e: Event, answers: nat -> Answer, asked: nat): seq<Outgoing> {
    match e
    case TurnCompleted(response) =>
      var thought := if response.reasoning != "" then done + [Notify(Thought(response.reasoning))] else done;
      if response.content != "" then thought + [Notify(Chunk(response.content))] else thought
    case ToolsProposed(calls) => ProposalAfter(done, calls, answers, asked, |calls|)
    case ToolStarted(id) => done + [Notify(CallInProgress(id))]
    case ToolCompleted(id, output) => done + [Notify(CallCompleted(id, output))]
    case ToolFailed(id, error) => done + [Notify(CallFailed(id, error))]
    case _ => done
  }

  /** How many permission requests the first `k` events cause. */
  function Requests(events: seq<Event>, k: nat): nat
    requires k <= |events|
  {
    if k == 0 then 0 else Requests(events, k-1) + if events[k-1].ToolsProposed? then |events[k-1].calls| else 0
  }

  /** `done` followed by what the first `k` events cause, one after the other. */
  ghost function OutAfter(done: seq<Outgoing>, events: seq<Event>, answers: nat -> Answer, asked: nat,
                          k: nat): seq<Outgoing>
    requires k <= |events|
  {
    if k == 0 then done
    else EventAfter(OutAfter(done, events, answers, asked, k-1), events[k-1], answers, asked + Requests(events, k-1))
  }

  // ----- what each event tells, thing by thing

  /** The command that an answer stands for. */
  predicate IsVerdict(command: Command, callId: string, answer: Answer) {
    if answer == Selected("allow") then command == Approve(callId)
    else if answer == NoAnswer then command == Deny(callId, "permission request failed")
    else if answer == Dismissed then command == Deny(callId, "cancelled")
    else command == Deny(callId, "denied by user")
  }

  /** From place `at` on, this call is announced, asked about, and answered to the agent. */
  predicate CallTold(out: seq<Outgoing>, at: nat, call: ProposedCall, answer: Answer) {
    && at + 3 <= |out| && out[at] == Notify(CallAnnounced(call.callId, call.name)) && out[at+1] == Ask(call, answer)
    && out[at+2].Send? && IsVerdict(out[at+2].command, call.callId, answer)
  }

  /** From place `at` on, the first `k` calls of a proposal are told, one after the other, and nothing else. */
  ghost predicate CallsTold(out: seq<Outgoing>, at: nat, calls: seq<ProposedCall>, answers: nat -> Answer, first: nat,
                            k: nat)
    requires k <= |calls|
  {
    |out| == at + 3 * k && forall i :: 0 <= i < k ==> CallTold(out, at + 3 * i, calls[i], answers(first + i))
  }

  /** What has left from place `at` on is just what this event causes, after `first` requests. */
  ghost predicate Tells(e: Event, out: seq<Outgoing>, at: nat, answers: nat -> Answer, first: nat) {
    && at <= |out|
    && match e
       case TurnCompleted(r) =>
         out[at..] == (if r.reasoning == "" then [] else [Notify(Thought(r.reasoning))])
                      + (if r.content == "" then [] else [Notify(Chunk(r.content))])
       case ToolsProposed(calls) =>
         CallsTold(out, at, calls, answers, first, |calls|)
       case ToolStarted(id) => out[at..] == [Notify(CallInProgress(id))]
       case ToolCompleted(id, output) => out[at..] == [Notify(CallCompleted(id, output))]
       case ToolFailed(id, error) => out[at..] == [Notify(CallFailed(id, error))]
       case _ => |out| == at
  }

  lemma {:induction false} VerdictIs(callId: string, answer: Answer)
    ensures IsVerdict(CommandFor(callId, answer), callId, answer)
  {
    OnlyAllowAllows(answer);
  }

  lemma {:induction false} CallIsTold(done: seq<Outgoing>, call: ProposedCall, answer: Answer)
    ensures done <= CallAfter(done, call, answer) && |CallAfter(done, call, answer)| == |done| + 3
    ensures CallTold(CallAfter(done, call, answer), |done|, call, answer)
  {
    VerdictIs(call.callId, answer);
  }

  lemma {:induction false} StaysTold(out: seq<Outgoing>, more: seq<Outgoing>, at: nat, call: ProposedCall,
                                     answer: Answer)
    requires out <= more && CallTold(out, at, call, answer)
    ensures CallTold(more, at, call, answer)
  {
  }

  lemma {:induction false} OneMoreTold(front: seq<Outgoing>, next: seq<Outgoing>, at: nat,
                                       calls: seq<ProposedCall>, answers: nat -> Answer, first: nat, k: nat)
    requires k < |calls| && CallsTold(front, at, calls, answers, first, k)
    requires next == CallAfter(front, calls[k], answers(first + k))
    ensures CallsTold(next, at, calls, answers, first, k + 1)
  {
    CallIsTold(front, calls[k], answers(first + k));
    forall i | 0 <= i < k + 1
      ensures CallTold(next, at + 3 * i, calls[i], answers(first + i))
    {
      if i < k { StaysTold(front, next, at + 3 * i, calls[i], answers(first + i)); }
    }
  }

  lemma {:induction false} NextCall(done: seq<Outgoing>, calls: seq<ProposedCall>, answers: nat -> Answer, asked: nat,
                                    k: nat, front: seq<Outgoing>)
    requires k < |calls| && front == ProposalAfter(done, calls, answers, asked, k)
    ensures ProposalAfter(done, calls, answers, asked, k + 1) == CallAfter(front, calls[k], answers(asked + k))
  {
  }

  lemma {:induction false} ProposalIsTold(done: seq<Outgoing>, calls: seq<ProposedCall>, answers: nat -> Answer,
                                          asked: nat, k: nat)
    requires k <= |calls|
    ensures CallsTold(ProposalAfter(done, calls, answers, asked, k), |done|, calls, answers, asked, k)
  {
    if k > 0 {
      ProposalIsTold(done, calls, answers, asked, k - 1);
      NextIsTold(done, calls, answers, asked, k - 1);
    }
  }

  lemma {:induction false} NextIsTold(done: seq<Outgoing>, calls: seq<ProposedCall>, answers: nat -> Answer,
                                      asked: nat, k: nat)
    requires k < |calls|
    requires CallsTold(ProposalAfter(done, calls, answers, asked, k), |done|, calls, answers, asked, k)
    ensures CallsTold(ProposalAfter(done, calls, answers, asked, k + 1), |done|, calls, answers, asked, k + 1)
  {
    var front := ProposalAfter(done, calls, answers, asked, k);
    NextCall(done, calls, answers, asked, k, front);
    OneMoreTold(front, ProposalAfter(done, calls, answers, asked, k + 1), |done|, calls, answers, asked, k);
  }

  /** Every event tells what it should, behind what was told before. */
  lemma {:induction false} EventTells(done: seq<Outgoing>, e: Event, answers: nat -> Answer, asked: nat)
    ensures done <= EventAfter(done, e, answers, asked)
    ensures Tells(e, EventAfter(done, e, answers, asked), |done|, answers, asked)
  {
    if e.ToolsProposed? {
      ProposalCommands(done, e.calls, answers, asked, |e.calls|);
      ProposalIsTold(done, e.calls, answers, asked, |e.calls|);
    }
  }

  // ----- the commands a stream of events sends the agent

  /** The commands among the first `k` things that leave the event loop. */
  function CommandsOf(out: seq<Outgoing>, k: nat): seq<Command>
    requires k <= |out|
  {
    if k == 0 then [] else if out[k-1].Send? then CommandsOf(out, k-1) + [out[k-1].command] else CommandsOf(out, k-1)
  }

  lemma {:induction false} CommandsOfLonger(a: seq<Outgoing>, b: seq<Outgoing>, k: nat)
    requires a <= b && k <= |a|
    ensures CommandsOf(b, k) == CommandsOf(a, k)
  {
    if k == 0 {
    } else {
      CommandsOfLonger(a, b, k - 1);
    }
  }

  lemma {:induction false} CommandsGrow(out: seq<Outgoing>, j: nat, k: nat)
    requires j <= k <= |out|
    ensures CommandsOf(out, j) <= CommandsOf(out, k)
  {
    if j < k {
      CommandsGrow(out, j, k - 1);
    }
  }

  lemma {:induction false} CommandsOfCall(done: seq<Outgoing>, call: ProposedCall, answer: Answer)
    ensures var all := CallAfter(done, call, answer);
            && done <= all && |all| == |done| + 3 && all[|done| + 1] == Ask(call, answer)
            && CommandsOf(all, |done| + 2) == CommandsOf(done, |done|)
            && CommandsOf(all, |all|) == CommandsOf(done, |done|) + [CommandFor(call.callId, answer)]
  {
    var all := CallAfter(done, call, answer);
    CommandsOfLonger(done, all, |done|);
    assert CommandsOf(all, |done| + 1) == CommandsOf(all, |done|);
    assert CommandsOf(all, |done| + 2) == CommandsOf(all, |done| + 1);
  }

  /** The first `k` calls of a proposal send `k` commands. */
  lemma {:induction false} ProposalCommands(done: seq<Outgoing>, calls: seq<ProposedCall>, answers: nat -> Answer,
                                            asked: nat, k: nat)
    requires k <= |calls|
    ensures done <= ProposalAfter(done, calls, answers, asked, k)
    ensures |Commands(ProposalAfter(done, calls, answers, asked, k))| == |Commands(done)| + k
  {
    if k == 0 {
    } else {
      var front := ProposalAfter(done, calls, answers, asked, k - 1);
      ProposalCommands(done, calls, answers, asked, k - 1);
      CallSendsOne(front, calls[k-1], answers(asked + (k - 1)));
      NextCall(done, calls, answers, asked, k - 1, front);
    }
  }

  /** All commands that have left. */
  function Commands(out: seq<Outgoing>): seq<Command> {
    CommandsOf(out, |out|)
  }

  lemma {:induction false} CallSendsOne(done: seq<Outgoing>, call: ProposedCall, answer: Answer)
    ensures done <= CallAfter(done, call, answer)
    ensures |Commands(CallAfter(done, call, answer))| == |Commands(done)| + 1
  {
    CommandsOfCall(done, call, answer);
  }

  lemma {:induction false} ProposalGrows(done: seq<Outgoing>, calls: seq<ProposedCall>, answers: nat -> Answer,
                                         asked: nat, j: nat, k: nat)
    requires j <= k <= |calls|
    ensures ProposalAfter(done, calls, answers, asked, j) <= ProposalAfter(done, calls, answers, asked, k)
  {
    if j < k {
      ProposalGrows(done, calls, answers, asked, j, k - 1);
    }
  }

  /** An event other than a proposal sends the agent nothing. */
  lemma {:induction false} OtherEventCommands(done: seq<Outgoing>, e: Event, answers: nat -> Answer, asked: nat)
    requires !e.ToolsProposed?
    ensures var out := EventAfter(done, e, answers, asked);
            done <= out && CommandsOf(out, |out|) == CommandsOf(done, |done|)
  {
    var out := EventAfter(done, e, answers, asked);
    CommandsOfLonger(done, out, |done|);
    if |out| > |done| + 1 {
      assert CommandsOf(out, |done| + 1) == CommandsOf(out, |done|);
    }
  }

  /** Everything the loop means to let out when it handles `n` events and is then interrupted or not. */
  ghost function Meant(done: seq<Outgoing>, events: seq<Event>, answers: nat -> Answer, asked: nat, n: nat,
                       interrupted: bool): seq<Outgoing>
    requires n <= |events|
  {
    var all := OutAfter(done, events, answers, asked, n);
    if LastResult(events, n).None? && interrupted then all + [Send(Cancel)] else all
  }

  /** The event loop of one prompt. The channel to the agent has room for `room` commands in all: those the agent reads
      while the loop runs, and its capacity. A send that finds no room never returns. */
  class Handler {

    /** The client's answers, in the order of the requests. */
    const answers: nat -> Answer
    const room: nat
    var asked: nat
    var sent: nat
    var out: seq<Outgoing>

    ghost predicate Valid()
      reads this
    {
      sent == |CommandsOf(out, |out|)| <= room
    }

    constructor (answers: nat -> Answer, room: nat)
      ensures Valid() && out == [] && asked == 0 && this.answers == answers && this.room == room
    {
      this.answers, this.room := answers, room;
      out, asked, sent := [], 0, 0;
    }

    /** Of `all`, everything has left, or everything in front of the first command that finds no room. */
    ghost predicate Leaves(ok: bool, all: seq<Outgoing>)
      reads this
    {
      if ok then out == all else sent == room && |out| < |all| && out == all[..|out|] && all[|out|].Send?
    }

    method Notification(update: Update)
      requires Valid()
      modifies this`out
      ensures Valid() && out == old(out) + [Notify(update)]
    {
      CommandsOfLonger(out, out + [Notify(update)], |out|);
      out := out + [Notify(update)];
    }

    method Request(call: ProposedCall) returns (answer: Answer)
      requires Valid()
      modifies this`out, this`asked
      ensures Valid() && asked == old(asked) + 1
      ensures answer == answers(old(asked)) && out == old(out) + [Ask(call, answer)]
    {
      answer := answers(asked);
      asked := asked + 1;
      CommandsOfLonger(out, out + [Ask(call, answer)], |out|);
      out := out + [Ask(call, answer)];
    }

    /** `sendCommand`, while the loop runs. */
    method SendCommand(command: Command) returns (ok: bool)
      requires Valid()
      modifies this`out, this`sent
      ensures Valid() && Leaves(ok, old(out) + [Send(command)])
    {
      ok := sent < room;
      assert (out + [Send(command)])[..|out|] == out;
      if ok {
        CommandsOfLonger(out, out + [Send(command)], |out|);
        out := out + [Send(command)];
        sent := sent + 1;
      }
    }

    /** Announces one proposed call, asks for permission, and passes the verdict on. */
    method AskPermission(call: ProposedCall, ghost answer: Answer) returns (ok: bool)
      requires Valid() && answer == answers(asked)
      modifies this`out, this`asked, this`sent
      ensures Valid() && asked == old(asked) + 1
      ensures Leaves(ok, CallAfter(old(out), call, answer))
    {
      Notification(CallAnnounced(call.callId, call.name));
      var outcome := Request(call);
      ok := SendVerdict(call, outcome);
    }

    method SendVerdict(call: ProposedCall, answer: Answer) returns (ok: bool)
      requires Valid()
      modifies this`out, this`sent
      ensures Valid() && Leaves(ok, old(out) + [Send(CommandFor(call.callId, answer))])
    {
      if answer == NoAnswer {
        ok := SendCommand(Deny(call.callId, "permission request failed"));
      } else {
        var allowed := OutcomeIsAllowed(answer, OPTIONS);
        if allowed {
          ok := SendCommand(Approve(call.callId));
        } else {
          ok := SendCommand(Deny(call.callId, if answer == Dismissed then "cancelled" else "denied by user"));
        }
      }
    }

    lemma {:induction false} StuckInLonger(all: seq<Outgoing>, longer: seq<Outgoing>)
      requires Leaves(false, all) && all <= longer
      ensures Leaves(false, longer)
    {
    }

    /** Since the proposal began with `done` sent, `n` of its calls were asked about, the last perhaps not answered. */
    ghost predicate Proposing(done: seq<Outgoing>, calls: seq<ProposedCall>, first: nat, n: nat, ok: bool)
      reads this
    {
      && Valid() && n <= |calls| && (ok ==> asked == first + n)
      && Leaves(ok, ProposalAfter(done, calls, answers, first, n))
    }

    method AskNext(calls: seq<ProposedCall>, n: nat, ghost done: seq<Outgoing>, ghost first: nat) returns (ok: bool)
      requires n < |calls| && Proposing(done, calls, first, n, true)
      modifies this`out, this`asked, this`sent
      ensures Proposing(done, calls, first, n + 1, ok)
    {
      assert Leaves(true, ProposalAfter(done, calls, answers, first, n));
      ghost var next := ProposalAfter(done, calls, answers, first, n + 1);
      NextCall(done, calls, answers, first, n, out);
      ok := AskPermission(calls[n], answers(first + n));
      assert Leaves(ok, next);
    }

    method AskPermissions(calls: seq<ProposedCall>) returns (ok: bool)
      requires Valid()
      modifies this`out, this`asked, this`sent
      ensures Valid() && (ok ==> asked == old(asked) + |calls|)
      ensures Leaves(ok, ProposalAfter(old(out), calls, answers, old(asked), |calls|))
    {
      ok := true;
      var n := 0;
      while ok && n < |calls|
        invariant Proposing(old(out), calls, old(asked), n, ok)
      {
        ok := AskNext(calls, n, old(out), old(asked));
        n := n + 1;
      }
      if !ok {
        ProposalGrows(old(out), calls, answers, old(asked), n, |calls|);
        StuckInLonger(ProposalAfter(old(out), calls, answers, old(asked), n),
                      ProposalAfter(old(out), calls, answers, old(asked), |calls|));
      }
    }

    /** `processEvent`: only terminal events end the prompt, with their own reason, and only a proposal sends the agent
        commands, and so is the only event it may hang in. */
    method ProcessEvent(e: Event) returns (done: Option<PromptResult>, ok: bool)
      requires Valid()
      modifies this`out, this`asked, this`sent
      ensures Valid() && (done.Some? <==> Terminal(e))
      ensures done == ResultFor(e)
      ensures EndsAs(done, e)
      ensures Leaves(ok, EventAfter(old(out), e, answers, old(asked)))
      ensures ok ==> old(out) <= out && Tells(e, out, |old(out)|, answers, old(asked))
      ensures ok ==> asked == old(asked) + if e.ToolsProposed? then |e.calls| else 0
      ensures !e.ToolsProposed? ==> ok && forall k :: |old(out)| <= k < |out| ==> out[k].Notify?
    {
      done, ok := None, true;
      EventTells(out, e, answers, asked);
      match e
      case RunStarted(_, _) =>
      case TurnCompleted(response) =>
        if response.reasoning != "" {
          Notification(Thought(response.reasoning));
        }
        if response.content != "" {
          Notification(Chunk(response.content));
        }
      case ToolsProposed(calls) => ok := AskPermissions(calls);
      case ToolStarted(id) => Notification(CallInProgress(id));
      case ToolCompleted(id, output) => Notification(CallCompleted(id, output));
      case ToolFailed(id, error) => Notification(CallFailed(id, error));
      case ToolsCompleted =>
      case RunCompleted => done := Some(Stopped(EndTurn));
      case RunCancelled => done := Some(Stopped(StopCancelled));
      case RunFailed(error) => done := Some(PromptFailed(error));
    }

    /** Since the loop began with `done` sent and `first` requests answered, `n` events were handled, the last of them
        perhaps not to its end. */
    ghost predicate Streams(done: seq<Outgoing>, events: seq<Event>, first: nat, n: nat, ok: bool)
      requires n <= |events|
      reads this
    {
      Valid() && Leaves(ok, OutAfter(done, events, answers, first, n)) && (ok ==> asked == first + Requests(events, n))
    }

    method ProcessNext(events: seq<Event>, n: nat, ghost done: seq<Outgoing>, ghost first: nat)
      returns (result: Option<PromptResult>, ok: bool)
      requires n < |events| && Streams(done, events, first, n, true)
      modifies this`out, this`asked, this`sent
      ensures Streams(done, events, first, n + 1, ok) && result == LastResult(events, n + 1)
      ensures !ok ==> result == None
    {
      result, ok := ProcessEvent(events[n]);
    }

    /** The first `n` events were handled without an interruption, and only the last of them may be terminal. */
    ghost predicate Began(events: seq<Event>, interrupted: nat -> bool, n: nat) {
      n <= |events| && forall k :: 0 <= k < n ==> BeganAt(events, interrupted, n, k)
    }

    ghost predicate BeganAt(events: seq<Event>, interrupted: nat -> bool, n: nat, k: nat)
      requires k < n <= |events|
    {
      !interrupted(k) && (Terminal(events[k]) ==> k == n - 1)
    }

    lemma {:induction false} BeginsOneMore(events: seq<Event>, interrupted: nat -> bool, n: nat)
      requires Began(events, interrupted, n) && n < |events| && !interrupted(n) && LastResult(events, n).None?
      ensures Began(events, interrupted, n + 1)
    {
      var m := n + 1;
      forall k | 0 <= k < m
        ensures BeganAt(events, interrupted, m, k)
      {
        assert k < n ==> BeganAt(events, interrupted, n, k);
      }
    }

    /** The loop over the event channel. */
    method HandleEvents(events: seq<Event>, interrupted: nat -> bool)
      returns (result: Option<PromptResult>, n: nat, ok: bool)
      requires Valid()
      modifies this
      ensures Began(events, interrupted, n)
      ensures result == LastResult(events, n) && (!ok ==> result == None)
      ensures !ok || result.Some? || interrupted(n) || n == |events|
      ensures Streams(old(out), events, old(asked), n, ok)
    {
      n, result, ok := 0, None, true;
      while ok && result == None && n < |events| && !interrupted(n)
        invariant Began(events, interrupted, n)
        invariant result == LastResult(events, n) && (!ok ==> result == None)
        invariant Streams(old(out), events, old(asked), n, ok)
      {
        BeginsOneMore(events, interrupted, n);
        result, ok := ProcessNext(events, n, old(out), old(asked));
        n := n + 1;
      }
    }

    /** `forwardEvents`: handles events until one ends the run, the channel closes, or the connection or the request
        is gone; unless a command finds no room, for then it hangs. `interrupted(k)` says whether the end of the
        connection or the request is noticed instead of event `k`; `n` is how many events were begun. No result and
        not hung: the channel is empty but open. */
    method ForwardEvents(events: seq<Event>, closed: bool, interrupted: nat -> bool)
      returns (result: Option<PromptResult>, n: nat, hung: bool)
      requires Valid()
      modifies this
      ensures Valid() && Began(events, interrupted, n)
      ensures !hung ==> LastResult(events, n).Some? || interrupted(n) || n == |events|
      ensures result == if hung then None
                        else if LastResult(events, n).Some? then LastResult(events, n)
                        else if interrupted(n) then Some(Stopped(StopCancelled))
                        else if closed then Some(Stopped(EndTurn)) else None
      ensures !hung && n > 0 ==> EndsAs(result, events[n-1])
      ensures Leaves(!hung, Meant(old(out), events, answers, old(asked), n, interrupted(n)))
      ensures hung <==> |CommandsOf(Meant(old(out), events, answers, old(asked), n, interrupted(n)),
                                    |Meant(old(out), events, answers, old(asked), n, interrupted(n))|)| > room
    {
      var ok;
      result, n, ok := HandleEvents(events, interrupted);
      if ok && result == None {
        if interrupted(n) {
          ok := SendCommand(Cancel);
          result := if ok then Some(Stopped(StopCancelled)) else None;
        } else if closed {
          result := Some(Stopped(EndTurn));
        }
      } else if !ok && interrupted(n) {
        StuckInLonger(OutAfter(old(out), events, answers, old(asked), n),
                      Meant(old(out), events, answers, old(asked), n, true));
      }
      hung := !ok;
      if hung {
        StuckSendsMore(Meant(old(out), events, answers, old(asked), n, interrupted(n)));
      }
    }

    lemma {:induction false} StuckSendsMore(all: seq<Outgoing>)
      requires Valid() && Leaves(false, all)
      ensures |CommandsOf(all, |all|)| > room
    {
      CommandsOfLonger(out, all, |out|);
      CommandsGrow(all, |out| + 1, |all|);
    }
  }

  lemma {:induction false} LabelsRequestNothing(seen: seq<Event>, events: seq<Event>, sessionId: string,
                                                agentName: string, k: nat)
    requires Forwards(seen, events, |events|, sessionId, agentName) && k <= |events|
    ensures Requests(seen, k) == Requests(events, k)
  {
    if k == 0 {
    } else {
      LabelsRequestNothing(seen, events, sessionId, agentName, k - 1);
      assert seen[k-1] == Label(events[k-1], sessionId, agentName);
    }
  }

  /** The labels the runner puts on a start event make no difference to the event loop. */
  lemma {:induction false} LabelsDoNotMatter(seen: seq<Event>, events: seq<Event>, sessionId: string, agentName: string,
                                             done: seq<Outgoing>, answers: nat -> Answer, asked: nat, k: nat)
    requires Forwards(seen, events, |events|, sessionId, agentName) && k <= |events|
    ensures Requests(seen, k) == Requests(events, k)
    ensures OutAfter(done, seen, answers, asked, k) == OutAfter(done, events, answers, asked, k)
  {
    LabelsRequestNothing(seen, events, sessionId, agentName, k);
    if k > 0 {
      LabelsDoNotMatter(seen, events, sessionId, agentName, done, answers, asked, k - 1);
      OneMoreLabelled(seen, events, sessionId, agentName, done, answers, asked, k - 1);
    }
  }

  lemma {:induction false} OneMoreLabelled(seen: seq<Event>, events: seq<Event>, sessionId: string, agentName: string,
                                           done: seq<Outgoing>, answers: nat -> Answer, asked: nat, k: nat)
    requires Forwards(seen, events, |events|, sessionId, agentName) && k < |events|
    requires Requests(seen, k) == Requests(events, k)
    requires OutAfter(done, seen, answers, asked, k) == OutAfter(done, events, answers, asked, k)
    ensures OutAfter(done, seen, answers, asked, k + 1) == OutAfter(done, events, answers, asked, k + 1)
  {
    var front, first := OutAfter(done, events, answers, asked, k), asked + Requests(events, k);
    LabelCausesNothing(seen, events, sessionId, agentName, k, front, answers, first);
    OneMoreHandled(done, seen, answers, asked, k, front, first);
    OneMoreHandled(done, events, answers, asked, k, front, first);
  }

  lemma {:induction false} OneMoreHandled(done: seq<Outgoing>, events: seq<Event>, answers: nat -> Answer, asked: nat,
                                          k: nat, front: seq<Outgoing>, first: nat)
    requires k < |events| && front == OutAfter(done, events, answers, asked, k)
    requires first == asked + Requests(events, k)
    ensures OutAfter(done, events, answers, asked, k + 1) == EventAfter(front, events[k], answers, first)
  {
  }

  lemma {:induction false} LabelCausesNothing(seen: seq<Event>, events: seq<Event>, sessionId: string,
                                              agentName: string, k: nat, done: seq<Outgoing>,
                                              answers: nat -> Answer, asked: nat)
    requires Forwards(seen, events, |events|, sessionId, agentName) && k < |events|
    ensures EventAfter(done, seen[k], answers, asked) == EventAfter(done, events[k], answers, asked)
    ensures seen[k].ToolsProposed? <==> events[k].ToolsProposed?
    ensures events[k].ToolsProposed? ==> seen[k].calls == events[k].calls
  {
    if events[k].RunStarted? {
      StartCausesNothing(done, events[k], answers, asked);
      StartCausesNothing(done, seen[k], answers, asked);
    } else {
      assert seen[k] == events[k];
    }
  }

  lemma {:induction false} StartCausesNothing(done: seq<Outgoing>, e: Event, answers: nat -> Answer, asked: nat)
    requires e.RunStarted?
    ensures EventAfter(done, e, answers, asked) == done
  {
  }

  // ----- over whole runs

  /** What leaves the event loop of one prompt for the first `k` events. */
  ghost function Stream(events: seq<Event>, answers: nat -> Answer, k: nat): seq<Outgoing>
    requires k <= |events|
  {
    OutAfter([], events, answers, 0, k)
  }

  /** Every request is answered to the agent with one command. */
  lemma {:induction false} CommandsMatchRequests(events: seq<Event>, answers: nat -> Answer, k: nat)
    requires k <= |events|
    ensures |CommandsOf(Stream(events, answers, k), |Stream(events, answers, k)|)| == Requests(events, k)
  {
    if k == 0 {
    } else {
      CommandsMatchRequests(events, answers, k - 1);
      var done, e := Stream(events, answers, k-1), events[k-1];
      if e.ToolsProposed? {
        ProposalCommands(done, e.calls, answers, Requests(events, k-1), |e.calls|);
      } else {
        OtherEventCommands(done, e, answers, Requests(events, k-1));
      }
    }
  }

  lemma {:induction false} StreamGrows(events: seq<Event>, answers: nat -> Answer, j: nat, k: nat)
    requires j <= k <= |events|
    ensures Stream(events, answers, j) <= Stream(events, answers, k)
  {
    if j < k {
      StreamGrows(events, answers, j, k - 1);
      var done, e := Stream(events, answers, k-1), events[k-1];
      if e.ToolsProposed? {
        ProposalCommands(done, e.calls, answers, Requests(events, k-1), |e.calls|);
      } else {
        OtherEventCommands(done, e, answers, Requests(events, k-1));
      }
    }
  }

  /** Where call `i` of the proposal at event `e` is asked about: with `q` the place of the request, its verdict is
      command number `Requests(events, e) + i` of the whole stream, and leaves right behind the answer. */
  ghost predicate AskedAt(events: seq<Event>, answers: nat -> Answer, e: nat, i: nat, q: nat)
    requires e < |events| && events[e].ToolsProposed? && i < |events[e].calls|
  {
    var out, n := Stream(events, answers, |events|), Requests(events, e) + i;
    var call, answer := events[e].calls[i], answers(n);
    && |Stream(events, answers, e)| <= q && q + 1 < |Stream(events, answers, e + 1)| <= |out|
    && out[q] == Ask(call, answer) && out[q+1] == Send(CommandFor(call.callId, answer))
    && |CommandsOf(out, q + 1)| == n < |CommandsOf(out, |out|)|
    && CommandsOf(out, |out|)[n] == CommandFor(call.callId, answer)
  }

  lemma {:induction false} CallStands(events: seq<Event>, answers: nat -> Answer, e: nat, i: nat)
    returns (front: seq<Outgoing>)
    requires e < |events| && events[e].ToolsProposed? && i < |events[e].calls|
    ensures |CommandsOf(front, |front|)| == Requests(events, e) + i && |Stream(events, answers, e)| <= |front|
    ensures CallAfter(front, events[e].calls[i], answers(Requests(events, e) + i)) <= Stream(events, answers, e + 1)
  {
    var before, calls, n := Stream(events, answers, e), events[e].calls, Requests(events, e);
    front := ProposalAfter(before, calls, answers, n, i);
    CommandsMatchRequests(events, answers, e);
    ProposalCommands(before, calls, answers, n, i);
    ProposalGrows(before, calls, answers, n, i + 1, |calls|);
  }

  lemma {:induction false} CallInside(out: seq<Outgoing>, front: seq<Outgoing>, call: ProposedCall, answer: Answer)
    requires CallAfter(front, call, answer) <= out
    ensures |front| + 2 < |out| && out[|front| + 1] == Ask(call, answer)
    ensures out[|front| + 2] == Send(CommandFor(call.callId, answer))
    ensures |CommandsOf(out, |front| + 2)| == |CommandsOf(front, |front|)| < |CommandsOf(out, |out|)|
    ensures CommandsOf(out, |out|)[|CommandsOf(front, |front|)|] == CommandFor(call.callId, answer)
  {
    var all := CallAfter(front, call, answer);
    CommandsOfCall(front, call, answer);
    CommandsOfLonger(all, out, |all|);
    CommandsOfLonger(all, out, |front| + 2);
    CommandsGrow(out, |all|, |out|);
  }

  /** Main result: every proposed call is asked about in its own proposal, and answered to the agent right after, with
      a command that stands in the stream where the call stands among all requests. */
  lemma {:induction false} CallIsAsked(events: seq<Event>, answers: nat -> Answer, e: nat, i: nat) returns (q: nat)
    requires e < |events| && events[e].ToolsProposed? && i < |events[e].calls|
    ensures AskedAt(events, answers, e, i, q)
  {
    var front := CallStands(events, answers, e, i);
    StreamGrows(events, answers, e + 1, |events|);
    CallInside(Stream(events, answers, |events|), front, events[e].calls[i], answers(Requests(events, e) + i));
    q := |front| + 1;
  }

  // ----- server and agent in step

  /** The commands from `lo` on are the verdicts on a proposal, one per call and in its order. */
  ghost predicate Verdicts(commands: seq<Command>, lo: nat, ids: seq<string>, answers: seq<Answer>) {
    && |answers| == |ids| && lo + |ids| <= |commands|
    && forall i :: 0 <= i < |ids| ==> commands[lo + i] == CommandFor(ids[i], answers[i])
  }

  lemma {:induction false} VerdictIsFirst(commands: seq<Command>, lo: nat, ids: seq<string>, keys: set<string>,
                                          answers: seq<Answer>, i: nat, hi: nat)
    requires Verdicts(commands, lo, ids, answers) && ListsOnce(ids, keys) && i < |ids| && lo <= hi <= lo + |ids|
    ensures hi > lo + i ==> FirstDecision(commands, lo, hi, ids[i], lo + i)
    ensures hi <= lo + i ==> Undecided(commands, lo, hi, ids[i])
  {
    forall k | lo <= k < lo + |ids| && k != lo + i
      ensures !Decides(commands[k], ids[i])
    {
      var j := k - lo;
      assert commands[lo + j] == CommandFor(ids[j], answers[j]);
      assert if j < i then Differ(ids, j, i) else Differ(ids, i, j);
    }
  }

  /** A proposed call is pending until its own verdict is read, and granted if and only if that verdict allowed it. */
  lemma {:induction false} VerdictSettles(call: PendingCall, commands: seq<Command>, lo: nat, ids: seq<string>,
                                          keys: set<string>,
                                          answers: seq<Answer>, i: nat, hi: nat)
    requires Verdicts(commands, lo, ids, answers) && ListsOnce(ids, keys) && i < |ids| && lo <= hi <= lo + |ids|
    requires call.id == ids[i] && call.approval == Pending
    ensures AfterCommands(call, commands, lo, hi).approval == Pending <==> hi <= lo + i
    ensures AfterCommands(call, commands, lo, hi).approval == Granted <==>
            hi > lo + i && answers[i] == Selected("allow")
  {
    VerdictIsFirst(commands, lo, ids, keys, answers, i, hi);
    FirstDecisionCounts(call, commands, lo, hi);
    OnlyAllowAllows(answers[i]);
    assert commands[lo + i] == CommandFor(ids[i], answers[i]);
  }

  /** Main result: the verdicts on a proposal decide its batch, and each call is granted if and only if the client
      selected "allow" for it. */
  lemma {:induction false} VerdictsDecideBatch(before: map<string, PendingCall>, commands: seq<Command>, lo: nat,
                                               ids: seq<string>, answers: seq<Answer>)
    requires Verdicts(commands, lo, ids, answers) && ListsOnce(ids, before.Keys)
    requires forall id :: id in before ==> before[id].approval == Pending && before[id].id == id
    ensures AllDecidedAt(before, commands, lo, lo + |ids|)
    ensures forall i :: 0 <= i < |ids| ==>
              (Grants(before, commands, lo, lo + |ids|, ids[i]) <==> answers[i] == Selected("allow"))
  {
    forall id | id in before
      ensures AfterCommands(before[id], commands, lo, lo + |ids|).approval != Pending
    {
      var i :| 0 <= i < |ids| && ids[i] == id;
      VerdictSettles(before[id], commands, lo, ids, before.Keys, answers, i, lo + |ids|);
    }
    forall i | 0 <= i < |ids|
      ensures Grants(before, commands, lo, lo + |ids|, ids[i]) <==> answers[i] == Selected("allow")
    {
      VerdictSettles(before[ids[i]], commands, lo, ids, before.Keys, answers, i, lo + |ids|);
    }
  }

  ghost predicate Grants(before: map<string, PendingCall>, commands: seq<Command>, lo: nat, hi: nat, id: string)
    requires lo <= hi <= |commands|
  {
    id in before && AfterCommands(before[id], commands, lo, hi).approval == Granted
  }

  /** Main result, server and agent stay in step: the batch is decided exactly when the last verdict is read, so that
      none is left over for a later batch. */
  lemma {:induction false} NoVerdictIsLeftOver(before: map<string, PendingCall>, commands: seq<Command>, lo: nat,
                                               ids: seq<string>, answers: seq<Answer>)
    requires Verdicts(commands, lo, ids, answers) && ListsOnce(ids, before.Keys)
    requires forall id :: id in before ==> before[id].approval == Pending && before[id].id == id
    ensures StillWaiting(before, commands, lo, lo + |ids|)
  {
    forall hi | lo <= hi < lo + |ids|
      ensures commands[hi] != Cancel && !AllDecidedAt(before, commands, lo, hi)
    {
      NotBeforeTheLast(before, commands, lo, ids, answers, hi);
    }
  }

  lemma {:induction false} NotBeforeTheLast(before: map<string, PendingCall>, commands: seq<Command>, lo: nat,
                                            ids: seq<string>, answers: seq<Answer>, hi: nat)
    requires Verdicts(commands, lo, ids, answers) && ListsOnce(ids, before.Keys) && lo <= hi < lo + |ids|
    requires forall id :: id in before ==> before[id].approval == Pending && before[id].id == id
    ensures commands[hi] != Cancel && !AllDecidedAt(before, commands, lo, hi)
  {
    var i := hi - lo;
    assert commands[lo + i] == CommandFor(ids[i], answers[i]);
    VerdictSettles(before[ids[i]], commands, lo, ids, before.Keys, answers, i, hi);
  }
}
