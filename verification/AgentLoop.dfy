/** The agent's run loop and its tool execution, in an arbitrary world: any model replies, any tools, any commands, and
    a conversation that may refuse any message. Every run is proved to be a legal run. */
module AgentLoop {

  import opened Options
  import opened Messages
  import opened Approvals
  import opened AgentSteps
  import opened AgentTrace
  import opened Window

  /** Everything the loop does not decide itself, besides its input. `injects(n)` are the user messages that tool
      execution `n` adds to the conversation, `accepts(n)` says whether the conversation takes the `n`-th message
      offered, and `preview` is what a tool shows of a call. */
  datatype World = World(
    injects: nat -> seq<string>,
    accepts: nat -> bool,
    preview: (string, string) -> Option<string>)

  /** The conversation takes every message, and no tool injects one. */
  ghost predicate Smooth(world: World) {
    (forall n :: world.accepts(n)) && forall n :: world.injects(n) == []
  }

  // ----- the batch as sets of ids

  function IdsWith(calls: seq<PendingCall>, approval: Approval, k: nat): set<string> {
    set i | k <= i < |calls| && calls[i].approval == approval :: calls[i].id
  }

  ghost predicate DistinctIds(calls: seq<PendingCall>) {
    forall i, j :: 0 <= i < j < |calls| ==> calls[i].id != calls[j].id
  }

  ghost predicate AllSettled(calls: seq<PendingCall>) {
    forall i :: 0 <= i < |calls| ==> calls[i].approval != Pending
  }

  ghost predicate AnyDenied(calls: seq<PendingCall>, k: nat) {
    exists i :: 0 <= i < k && i < |calls| && calls[i].approval == Denied
  }

  /** The batch when the first `k` decisions have been carried out. */
  ghost function Remaining(calls: seq<PendingCall>, k: nat): Stage {
    Executing(IdsWith(calls, Granted, k), IdsWith(calls, Denied, k), AnyDenied(calls, k), Idle)
  }

  /** The batch without a call that has been answered. */
  ghost function Without(stage: Stage, call: PendingCall): Stage
    requires stage.Executing?
  {
    if call.approval == Denied then stage.(denied := stage.denied - {call.id}, refused := true)
    else stage.(granted := stage.granted - {call.id})
  }

  lemma {:induction false} OneLess(calls: seq<PendingCall>, k: nat)
    requires k < |calls| && DistinctIds(calls) && AllSettled(calls)
    ensures Without(Remaining(calls, k), calls[k]) == Remaining(calls, k + 1)
    ensures calls[k].id in IdsWith(calls, calls[k].approval, k)
  {
    OneIdLess(calls, Granted, k);
    OneIdLess(calls, Denied, k);
  }

  lemma {:induction false} OneIdLess(calls: seq<PendingCall>, approval: Approval, k: nat)
    requires k < |calls| && DistinctIds(calls)
    ensures calls[k].approval == approval ==>
              IdsWith(calls, approval, k) - {calls[k].id} == IdsWith(calls, approval, k + 1)
    ensures calls[k].approval == approval ==> calls[k].id in IdsWith(calls, approval, k)
    ensures calls[k].approval != approval ==> IdsWith(calls, approval, k) == IdsWith(calls, approval, k + 1)
  {
  }

  /** The batch being executed is the same. */
  ghost predicate SameBatch(p: Position, q: Position) {
    p.proposed == q.proposed && p.since == q.since && p.read == q.read
  }

  /** Every denied call was denied for its reason by the first command on it. */
  ghost predicate AllReasoned(commands: seq<Command>, lo: nat, hi: nat, calls: seq<PendingCall>) {
    forall i :: 0 <= i < |calls| ==> Reasoned(commands, lo, hi, calls[i])
  }

  ghost predicate Reasoned(commands: seq<Command>, lo: nat, hi: nat, call: PendingCall) {
    call.approval == Denied ==> DeniedFor(commands, lo, hi, call.id, call.reason)
  }

  lemma {:induction false} DenialIsDue(input: Input, p: Position, call: PendingCall)
    requires call.approval == Denied && Reasoned(input.commands, p.since, p.read, call)
    ensures IsDenial(input, p, call.id, "denied: " + (if call.reason == "" then "user denied" else call.reason))
  {
    assert DeniedFor(input.commands, p.since, p.read, call.id, call.reason);
  }

  lemma {:induction false} ShownIsNamed(ps: seq<ProposedCall>, call: PendingCall)
    requires Shown(ps, AsCall(call))
    ensures exists i :: 0 <= i < |ps| && NamedAs(ps[i], call.id, call.name)
  {
    var i :| 0 <= i < |ps| && ShownAs(ps[i], AsCall(call));
    assert NamedAs(ps[i], call.id, call.name);
  }

  /** The result of this call is what the run has to record next. */
  ghost predicate IsDue(input: Input, p: Position, call: PendingCall, output: string, isError: bool) {
    && p.stage.Executing? && Shown(p.proposed, AsCall(call))
    && if call.approval == Denied
       then p.stage.activity == Idle && call.id in p.stage.denied && isError && IsDenial(input, p, call.id, output)
       else p.stage.activity == Ran(call.id, output, isError)
  }

  lemma {:induction false} DueIsRecorded(input: Input, p: Position, call: PendingCall, output: string, isError: bool)
    requires IsDue(input, p, call, output, isError)
    ensures var msg := Message(Tool, output, [], Some(ToolResult(call.id, call.name, output, isError)), "",
                               input.countTokens(output));
            AfterRecord(input, p, msg) ==
            Some(if call.approval == Denied then Without(p.stage, call) else p.stage.(activity := Idle))
  {
    ShownIsNamed(p.proposed, call);
  }

  /** A result of this stage could not be recorded. */
  ghost predicate MayFail(stage: Stage) {
    stage.Executing? && (stage.activity.Ran? || (stage.activity.Idle? && stage.denied != {}))
  }

  /** What was collected from the commands may be settled. */
  lemma {:induction false} CollectedMaySettle(before: map<string, PendingCall>, after: map<string, PendingCall>,
                                              ds: seq<PendingCall>, commands: seq<Command>, p: Position, stop: nat)
    requires p.read <= stop <= |commands| && Follows(after, before, commands, p.read, stop)
    requires forall id :: id in before ==> before[id].approval == Pending && before[id].id == id
    requires AllDecidedAt(before, commands, p.read, stop) && StillWaiting(before, commands, p.read, stop)
    requires p.stage == Proposed(before.Keys)
    requires ListsOnce(DecisionIds(ds), before.Keys)
    requires forall i :: 0 <= i < |ds| ==> ds[i].id in after && ds[i] == after[ds[i].id]
    ensures DistinctIds(ds) && AllSettled(ds)
    ensures MaySettle(commands, p, IdsWith(ds, Granted, 0), IdsWith(ds, Denied, 0), stop)
  {
    var ids := DecisionIds(ds);
    var granted, denied := IdsWith(ds, Granted, 0), IdsWith(ds, Denied, 0);
    forall i, j | 0 <= i < j < |ds|
      ensures ds[i].id != ds[j].id
    {
      assert Differ(ids, i, j) && ids[i] == ds[i].id && ids[j] == ds[j].id;
    }
    forall i | 0 <= i < |ds|
      ensures ds[i].approval != Pending && ds[i].id in before.Keys
    {
      assert ids[i] == ds[i].id;
    }
    forall id | id in before.Keys
      ensures id in granted + denied
    {
      var i :| 0 <= i < |ids| && ids[i] == id;
      assert ds[i].id == id;
    }
    assert granted + denied == before.Keys;
    WaitingIsOpen(before, commands, p.read, stop);
    forall id | id in before.Keys
      ensures after[id].approval == Granted ==> Approved(commands, p.read, stop, id)
      ensures after[id].approval == Denied ==> Refused(commands, p.read, stop, id)
    {
      SettledByFirst(before[id], commands, p.read, stop);
    }
  }

  /** While the batch is not decided, some call of it has had no decision. */
  lemma {:induction false} UndecidedIsOpen(before: map<string, PendingCall>, commands: seq<Command>, lo: nat, hi: nat)
    requires lo <= hi <= |commands| && !AllDecidedAt(before, commands, lo, hi)
    requires forall id :: id in before ==> before[id].approval == Pending && before[id].id == id
    ensures Open(commands, before.Keys, lo, hi)
  {
    var id :| id in before && AfterCommands(before[id], commands, lo, hi).approval == Pending;
    FirstDecisionCounts(before[id], commands, lo, hi);
  }

  lemma {:induction false} WaitingIsOpen(before: map<string, PendingCall>, commands: seq<Command>, lo: nat, hi: nat)
    requires lo <= hi <= |commands| && StillWaiting(before, commands, lo, hi)
    requires forall id :: id in before ==> before[id].approval == Pending && before[id].id == id
    ensures OpenUntil(commands, before.Keys, lo, hi)
  {
    forall k | lo <= k < hi
      ensures commands[k] != Cancel && Open(commands, before.Keys, lo, k)
    {
      UndecidedIsOpen(before, commands, lo, k);
    }
  }

  /** The commands neither decide the batch nor cancel it. */
  ghost predicate Waits(commands: seq<Command>, closed: bool, ids: set<string>, lo: nat) {
    lo <= |commands| && !closed && OpenUntil(commands, ids, lo, |commands|) && Open(commands, ids, lo, |commands|)
  }

  /** Reading on, the batch is decided before anything cancels it. */
  ghost predicate Settles(commands: seq<Command>, closed: bool, ids: set<string>, lo: nat) {
    !Waits(commands, closed, ids, lo) && !CancelledFirst(commands, closed, ids, lo)
  }

  lemma {:induction false} NoCancelPassed(commands: seq<Command>, ids: set<string>, lo: nat, k: nat)
    requires lo <= k < |commands| && OpenUntil(commands, ids, lo, |commands|)
    ensures commands[k] != Cancel
  {
    assert OpenAt(commands, ids, lo, k);
  }

  lemma {:induction false} WaitingIsNotOver(input: Input, p: Position)
    requires p.stage.Proposed?
    ensures !(Waits(input.commands, input.closed, p.stage.ids, p.read)
              && CancelledFirst(input.commands, input.closed, p.stage.ids, p.read))
  {
    var commands, ids := input.commands, p.stage.ids;
    if Waits(commands, input.closed, ids, p.read) && CancelledFirst(commands, input.closed, ids, p.read) {
      var stop: nat :| CancelledAt(commands, input.closed, ids, p.read, stop);
      if stop < |commands| {
        NoCancelPassed(commands, ids, p.read, stop);
      }
    }
  }

  lemma {:induction false} SettlingIsNeither(input: Input, p: Position, granted: set<string>, denied: set<string>,
                                             stop: nat)
    requires MaySettle(input.commands, p, granted, denied, stop)
    ensures Settles(input.commands, input.closed, granted + denied, p.read)
  {
    CancelledIsNotSettled(input, p, granted, denied, stop);
    if Waits(input.commands, input.closed, granted + denied, p.read) {
      var id :| id in granted + denied && Undecided(input.commands, p.read, |input.commands|, id);
      SettledIsDecided(input.commands, p, granted, denied, stop, id);
    }
  }

  lemma {:induction false} SettledByFirst(call: PendingCall, commands: seq<Command>, lo: nat, hi: nat)
    requires lo <= hi <= |commands| && call.approval == Pending
    requires AfterCommands(call, commands, lo, hi).approval != Pending
    ensures AfterCommands(call, commands, lo, hi).approval == Granted ==> Approved(commands, lo, hi, call.id)
    ensures AfterCommands(call, commands, lo, hi).approval == Denied ==> Refused(commands, lo, hi, call.id)
  {
    FirstDecisionCounts(call, commands, lo, hi);
    var j: nat :| FirstDecision(commands, lo, hi, call.id, j);
  }

  lemma {:induction false} ListsSameSet(ids: seq<string>, keys: set<string>)
    requires ListsOnce(ids, keys)
    ensures IdSet(ids) == keys
  {
  }

  lemma {:induction false} EveryCallIsProposed(m: map<string, PendingCall>, calls: seq<ToolCall>,
                                               newId: nat -> string, ps: seq<ProposedCall>)
    requires Represents(m, calls, newId, |calls|) && ListsOnce(ProposedIds(ps), m.Keys)
    ensures IdSet(ProposedIds(ps)) == m.Keys && ProposesAll(ps, calls)
    ensures forall i :: 0 <= i < |calls| ==> IsProposed(ps, calls, newId, i)
  {
    ListsSameSet(ProposedIds(ps), m.Keys);
    forall i | 0 <= i < |calls|
      ensures (if calls[i].id == "" then newId(i) else calls[i].id) in m
    {
      assert Key(calls, newId, i) in m;
    }
  }

  /** The proposal is the reply's calls, the last of each id, with their names and arguments. */
  lemma {:induction false} ProposalIsReply(m: map<string, PendingCall>, calls: seq<ToolCall>, newId: nat -> string,
                                           ps: seq<ProposedCall>, preview: (string, string) -> Option<string>)
    requires Represents(m, calls, newId, |calls|) && ListsOnce(ProposedIds(ps), m.Keys)
    requires forall i :: 0 <= i < |ps| ==> ps[i].callId in m && ps[i] == AsProposal(m[ps[i].callId], preview)
    ensures ProposesReply(ps, calls, newId) && IdSet(ProposedIds(ps)) == m.Keys
  {
    EveryCallIsProposed(m, calls, newId, ps);
    forall i | 0 <= i < |ps|
      ensures ProposedFrom(ps[i], calls, newId)
    {
      assert HasSource(m, calls, newId, |calls|, ps[i].callId);
      var k: nat :| ComesFrom(m, calls, newId, |calls|, ps[i].callId, k);
      assert LastOfKey(calls, newId, |calls|, ps[i].callId, k);
    }
  }

  lemma {:induction false} RecordIsProposal(m: map<string, PendingCall>, ps: seq<ProposedCall>, recorded: seq<ToolCall>)
    requires BatchShown(ps, m) && IdSet(ProposedIds(ps)) == m.Keys && ListsOnce(CallIds(recorded), m.Keys)
    requires forall i :: 0 <= i < |recorded| ==> recorded[i].id in m && recorded[i] == AsCall(m[recorded[i].id])
    ensures RecordsProposed(recorded, ps)
  {
  }

  /** Each call is shown with the preview its tool gives of it, if any. */
  ghost predicate Previewed(ps: seq<ProposedCall>, preview: (string, string) -> Option<string>) {
    forall i :: 0 <= i < |ps| ==> PreviewedAs(ps[i], preview(ps[i].name, ps[i].arguments))
  }

  predicate PreviewedAs(p: ProposedCall, text: Option<string>) {
    (text.Some? ==> p.preview == text.value) && (text.None? ==> p.preview == "")
  }

  // ----- the calls as they were proposed

  /** Every call, should it be executed, is executed as it was proposed. */
  ghost predicate AllShown(proposed: seq<ProposedCall>, calls: seq<PendingCall>) {
    forall i :: 0 <= i < |calls| ==> Shown(proposed, AsCall(calls[i]))
  }

  ghost predicate BatchShown(proposed: seq<ProposedCall>, calls: map<string, PendingCall>) {
    forall id :: id in calls ==> Shown(proposed, AsCall(calls[id]))
  }

  lemma {:induction false} ProposalShows(m: map<string, PendingCall>, ps: seq<ProposedCall>,
                                         preview: (string, string) -> Option<string>)
    requires ListsOnce(ProposedIds(ps), m.Keys) && forall id :: id in m ==> m[id].id == id
    requires forall i :: 0 <= i < |ps| ==> ps[i].callId in m && ps[i] == AsProposal(m[ps[i].callId], preview)
    ensures BatchShown(ps, m)
  {
    forall id | id in m
      ensures Shown(ps, AsCall(m[id]))
    {
      var i :| 0 <= i < |ps| && ProposedIds(ps)[i] == id;
      assert ShownAs(ps[i], AsCall(m[id]));
    }
  }

  lemma {:induction false} DecisionsAreShown(before: map<string, PendingCall>, after: map<string, PendingCall>,
                                             ds: seq<PendingCall>, proposed: seq<ProposedCall>, commands: seq<Command>,
                                             lo: nat, hi: nat)
    requires lo <= hi <= |commands| && Follows(after, before, commands, lo, hi) && BatchShown(proposed, before)
    requires forall i :: 0 <= i < |ds| ==> ds[i].id in after && ds[i] == after[ds[i].id]
    ensures AllShown(proposed, ds)
  {
    forall i | 0 <= i < |ds|
      ensures Shown(proposed, AsCall(ds[i]))
    {
      assert AsCall(ds[i]) == AsCall(before[ds[i].id]);
    }
  }

  /** Since they were `before` and `base`, the same messages have been added to a log and to a context. */
  ghost predicate GrewAlike(before: seq<Message>, log: seq<Message>, base: seq<Message>, context: seq<Message>) {
    && before <= log && base <= context && |log| - |before| == |context| - |base|
    && forall k :: 0 <= k < |log| - |before| ==> SameAdded(before, log, base, context, k)
  }

  ghost predicate SameAdded(before: seq<Message>, log: seq<Message>, base: seq<Message>, context: seq<Message>, k: nat)
    requires k < |log| - |before| && k < |context| - |base|
  {
    log[|before| + k] == context[|base| + k]
  }

  lemma {:induction false} GrowAlike(before: seq<Message>, log: seq<Message>, base: seq<Message>,
                                     context: seq<Message>, msg: Message)
    requires GrewAlike(before, log, base, context)
    ensures GrewAlike(before, log + [msg], base, context + [msg])
  {
    forall k | 0 <= k < |log| + 1 - |before|
      ensures SameAdded(before, log + [msg], base, context + [msg], k)
    {
      assert k < |log| - |before| ==> SameAdded(before, log, base, context, k);
    }
  }

  lemma {:induction false} GrewByTheSame(before: seq<Message>, log: seq<Message>, base: seq<Message>,
                                         context: seq<Message>)
    requires GrewAlike(before, log, base, context)
    ensures context == base + context[|base|..] && log == before + context[|base|..]
  {
    forall i | |before| <= i < |log|
      ensures log[i] == (before + context[|base|..])[i]
    {
      assert SameAdded(before, log, base, context, i - |before|);
    }
  }

  lemma {:induction false} RecordAdds(input: Input, p: Position, msg: Message)
    requires Next(input, p, Record(msg)).Some?
    ensures var q := Next(input, p, Record(msg)).value;
            && q.log == p.log + [msg] && q.read == p.read && q.executed == p.executed && q.turns == p.turns
            && q.proposed == p.proposed && (q.clean <==> p.clean && !IntoBatch(p.stage))
  {
  }

  lemma {:induction false} DecisionsAreReasoned(before: map<string, PendingCall>, after: map<string, PendingCall>,
                                                ds: seq<PendingCall>, commands: seq<Command>, lo: nat, hi: nat)
    requires lo <= hi <= |commands| && Follows(after, before, commands, lo, hi)
    requires forall id :: id in before ==> before[id].approval == Pending && before[id].id == id
    requires forall i :: 0 <= i < |ds| ==> ds[i].id in after && ds[i] == after[ds[i].id]
    ensures AllReasoned(commands, lo, hi, ds)
  {
    forall i | 0 <= i < |ds|
      ensures Reasoned(commands, lo, hi, ds[i])
    {
      if ds[i].approval == Denied {
        var j := DeniedWithReason(before[ds[i].id], commands, lo, hi);
      }
    }
  }

  lemma {:induction false} PromptAsks(input: Input, p: Position, context: seq<Message>)
    requires MayPrompt(input, p, context)
    ensures Next(input, p, Prompt(context)) ==
            Some(p.(stage := Asked(input.replies[p.turns]), turns := p.turns + 1,
                    clean := p.clean && !UserMessageMissing(input, p.stage)))
  {
  }

  lemma {:induction false} ProposalIsNext(input: Input, p: Position, ps: seq<ProposedCall>)
    requires p.stage.Turned? && p.stage.response.toolCalls != [] && p.turns > 0
    requires ProposesReply(ps, p.stage.response.toolCalls, input.newId(p.turns - 1))
    requires p.stage.recorded.Some? ==> RecordsProposed(p.stage.recorded.value.toolCalls, ps)
    ensures AfterEvent(input, p, ToolsProposed(ps)) == Some(Proposed(IdSet(ProposedIds(ps))))
  {
  }

  /** A batch that represents the reply, listed as a proposal and for the record. */
  lemma {:induction false} BatchIsListed(m: map<string, PendingCall>, calls: seq<ToolCall>, newId: nat -> string,
                                         ps: seq<ProposedCall>, recorded: seq<ToolCall>,
                                         preview: (string, string) -> Option<string>)
    requires Represents(m, calls, newId, |calls|) && m != map[] && forall id :: id in m ==> m[id].id == id
    requires ListsOnce(ProposedIds(ps), m.Keys) && ListsOnce(CallIds(recorded), m.Keys)
    requires forall i :: 0 <= i < |ps| ==> ps[i].callId in m && ps[i] == AsProposal(m[ps[i].callId], preview)
    requires forall i :: 0 <= i < |recorded| ==> recorded[i].id in m && recorded[i] == AsCall(m[recorded[i].id])
    ensures recorded != [] && IdSet(ProposedIds(ps)) == m.Keys && BatchShown(ps, m)
    ensures ProposesReply(ps, calls, newId) && RecordsProposed(recorded, ps) && Previewed(ps, preview)
  {
    ProposalIsReply(m, calls, newId, ps, preview);
    ProposalShows(m, ps, preview);
    RecordIsProposal(m, ps, recorded);
    SomethingListed(CallIds(recorded), m.Keys);
  }

  class Agent {

    const world: World
    const input: Input

    const window: Window

    /** The session's log when the run began. */
    ghost const before: seq<Message>

    var trace: seq<Act>
    ghost var position: Position
    ghost var at: seq<Position>

    var turns: nat
    var executed: nat
    var offered: nat
    var taken: nat

    ghost predicate Valid()
      reads this, window, window.sessionFile
    {
      && Legal(input, Run(trace, at)) && position == at[|trace|]
      && KeepsLog() && taken == position.read && taken <= |input.commands|
      && executed == position.executed && turns == position.turns <= |input.replies|
      && (Smooth(world) ==> position.clean)
    }

    /** The window shows the conversation of the run, and the session's log has grown by what the run recorded. */
    ghost predicate KeepsLogOf(context: seq<Message>)
      reads this, window, window.sessionFile
    {
      window.Valid() && window.Context() == context && GrewAlike(before, window.log, input.base, context)
    }

    ghost predicate KeepsLog()
      reads this, window, window.sessionFile
    {
      KeepsLogOf(position.log)
    }

    /** A run starts with what the window shows. */
    constructor (world: World, input: Input, window: Window)
      requires window.Valid() && input.base == window.Context()
      ensures Valid() && trace == [] && position.stage == Begin && before == window.log
      ensures this.world == world && this.input == input && this.window == window
    {
      this.world, this.input, this.window, before := world, input, window, window.log;
      trace, position, at := [], FirstPosition(input), [FirstPosition(input)];
      turns, executed, offered, taken := 0, 0, 0, 0;
    }

    /** One more act, which must be in order. */
    ghost method Advance(was: seq<Act>, act: Act)
      requires Legal(input, Run(was, at)) && position == at[|was|] && trace == was + [act]
      requires Next(input, position, act).Some?
      modifies this`position, this`at
      ensures Legal(input, Run(trace, at)) && position == at[|trace|]
      ensures Some(position) == Next(input, old(position), act)
    {
      OneMoreAct(input, Run(was, at), act, Next(input, position, act).value);
      position := Next(input, position, act).value;
      at := at + [position];
    }

    method Send(e: Event)
      requires Valid() && AfterEvent(input, position, e).Some? && !e.ToolCompleted? && !e.ToolFailed?
      requires Smooth(world) ==> !Unrecorded(position.stage, e)
      modifies this`trace, this`position, this`at
      ensures Valid() && trace == old(trace) + [Emit(e)] && Some(position) == Next(input, old(position), Emit(e))
    {
      trace := trace + [Emit(e)];
      Advance(old(trace), Emit(e));
    }

    /** `AddMessage` of the context window. */
    method AddMessage(msg: Message) returns (ok: bool)
      requires Valid() && AfterRecord(input, position, msg).Some?
      requires Smooth(world) ==> !IntoBatch(position.stage)
      modifies this`trace, this`position, this`at, this`offered, window, window.sessionFile
      ensures Valid() && offered == old(offered) + 1 && ok == world.accepts(old(offered))
      ensures ok ==> trace == old(trace) + [Record(msg)] && Some(position) == Next(input, old(position), Record(msg))
      ensures !ok ==> trace == old(trace) && position == old(position)
    {
      ok := Offer(msg);
      if ok {
        RecordAdds(input, position, msg);
        trace := trace + [Record(msg)];
        Advance(old(trace), Record(msg));
      }
    }

    /** The window takes a message or refuses it. */
    method Offer(msg: Message) returns (ok: bool)
      requires KeepsLog()
      modifies this`offered, window, window.sessionFile
      ensures offered == old(offered) + 1 && ok == world.accepts(old(offered))
      ensures if ok then KeepsLogOf(position.log + [msg]) else KeepsLog()
    {
      ok := window.AddMessage(msg, !world.accepts(offered));
      offered := offered + 1;
      if ok {
        GrowAlike(before, old(window.log), input.base, position.log, msg);
      }
    }

    /** `BuildContext` and the call of the model. */
    method Ask()
      requires Valid() && MayPrompt(input, position, position.log)
      requires Smooth(world) ==> !UserMessageMissing(input, position.stage)
      modifies this`trace, this`position, this`at, this`turns
      ensures Valid() && turns == old(turns) + 1
      ensures trace == old(trace) + [Prompt(old(window.Context()))]
      ensures position.stage == Asked(input.replies[old(turns)])
    {
      var context := window.BuildContext();
      assert context == position.log;
      PromptAsks(input, position, context);
      trace := trace + [Prompt(context)];
      turns := turns + 1;
      Advance(old(trace), Prompt(context));
    }

    method SettleBatch(ds: seq<PendingCall>, stop: nat)
      requires Valid() && MaySettle(input.commands, position, IdsWith(ds, Granted, 0), IdsWith(ds, Denied, 0), stop)
      modifies this`trace, this`position, this`at, this`taken
      ensures Valid() && position.proposed == old(position).proposed
      ensures position.since == old(position).read && position.read == stop
      ensures trace == old(trace) + [Settle(IdsWith(ds, Granted, 0), IdsWith(ds, Denied, 0), stop)]
      ensures position.stage == Executing(IdsWith(ds, Granted, 0), IdsWith(ds, Denied, 0), false, Idle)
    {
      var act := Settle(IdsWith(ds, Granted, 0), IdsWith(ds, Denied, 0), stop);
      trace := trace + [act];
      taken := stop;
      Advance(old(trace), act);
    }

    /** The messages a tool injects while it runs. */
    method Inject(contents: seq<string>)
      requires Valid() && IntoBatch(position.stage) && (Smooth(world) ==> contents == [])
      modifies this`trace, this`position, this`at, this`offered, window, window.sessionFile
      ensures Valid() && position.stage == old(position).stage && position.executed == old(position).executed
      ensures old(trace) <= trace && SameBatch(position, old(position))
    {
      for k := 0 to |contents|
        invariant Valid() && position.stage == old(position).stage && position.executed == old(position).executed
        invariant old(trace) <= trace && SameBatch(position, old(position))
      {
        InjectOne(contents[k]);
      }
    }

    method InjectOne(content: string)
      requires Valid() && IntoBatch(position.stage) && !Smooth(world)
      modifies this`trace, this`position, this`at, this`offered, window, window.sessionFile
      ensures Valid() && position.stage == old(position).stage && position.executed == old(position).executed
      ensures old(trace) <= trace && SameBatch(position, old(position))
    {
      var _ := AddMessage(Message(User, content, [], None, "", 0));
    }

    /** A granted call is announced. */
    method AnnounceStart(id: string)
      requires Valid() && position.stage.Executing? && position.stage.activity == Idle && id in position.stage.granted
      modifies this`trace, this`position, this`at
      ensures Valid() && trace == old(trace) + [Emit(ToolStarted(id))] && SameBatch(position, old(position))
      ensures position.stage == old(position).stage.(granted := old(position).stage.granted - {id},
                                                     activity := Announced(id))
    {
      Send(ToolStarted(id));
    }

    /** The call is handed to its tool. */
    method Start(call: ToolCall)
      requires Valid() && MayExecute(position, call)
      modifies this`trace, this`position, this`at
      ensures Valid() && trace == old(trace) + [Execute(call)] && SameBatch(position, old(position))
      ensures position.stage == old(position).stage.(activity := Running(call.id))
    {
      trace := trace + [Execute(call)];
      Advance(old(trace), Execute(call));
    }

    /** `executeToolCall`: a denied call is answered without running anything, any other is announced and executed as
        it was proposed. */
    method ExecuteToolCall(call: PendingCall) returns (output: string, isError: bool)
      requires Valid() && position.stage.Executing? && position.stage.activity == Idle
      requires call.approval == Denied || (call.id in position.stage.granted && Shown(position.proposed, AsCall(call)))
      modifies this`trace, this`position, this`at, this`offered, window, window.sessionFile, this`executed
      ensures Valid() && SameBatch(position, old(position))
      ensures call.approval == Denied ==>
                position == old(position) && trace == old(trace) && isError
      ensures call.approval == Denied ==>
                output == "denied: " + (if call.reason == "" then "user denied" else call.reason)
      ensures call.approval != Denied ==>
                position.stage == old(position).stage.(granted := old(position).stage.granted - {call.id},
                                                       activity := Ran(call.id, output, isError))
      ensures call.approval != Denied ==>
                RanSince(old(trace), AsCall(call), input.outcomes(old(executed)), output, isError)
    {
      if call.approval == Denied {
        var reason := call.reason;
        if reason == "" {
          reason := "user denied";
        }
        return "denied: " + reason, true;
      }
      output, isError := RunTool(AsCall(call));
    }

    /** Since `was` this call was announced, handed to its tool, and announced as ended, the way it ended: as completed
        with its output, or as failed with its error. */
    ghost predicate RanSince(was: seq<Act>, call: ToolCall, outcome: Outcome, output: string, isError: bool)
      reads this
    {
      && was + [Emit(ToolStarted(call.id)), Execute(call)] <= trace
      && match outcome
         case Output(text) => !isError && output == text && trace[|trace|-1] == Emit(ToolCompleted(call.id, text))
         case Failure(error) => isError && output == error && trace[|trace|-1] == Emit(ToolFailed(call.id, error))
    }

    /** A granted call is announced, executed as it was proposed, and reported as it ended. */
    method RunTool(call: ToolCall) returns (output: string, isError: bool)
      requires Valid() && position.stage.Executing? && position.stage.activity == Idle
      requires call.id in position.stage.granted && Shown(position.proposed, call)
      modifies this`trace, this`position, this`at, this`offered, window, window.sessionFile, this`executed
      ensures Valid() && SameBatch(position, old(position))
      ensures position.stage == old(position).stage.(granted := old(position).stage.granted - {call.id},
                                                     activity := Ran(call.id, output, isError))
      ensures RanSince(old(trace), call, input.outcomes(old(executed)), output, isError)
    {
      StartCall(call);
      Inject(world.injects(executed));
      output, isError := Finish(call.id);
    }

    /** A granted call is announced and handed to its tool. */
    method StartCall(call: ToolCall)
      requires Valid() && position.stage.Executing? && position.stage.activity == Idle
      requires call.id in position.stage.granted && Shown(position.proposed, call)
      modifies this`trace, this`position, this`at
      ensures Valid() && trace == old(trace) + [Emit(ToolStarted(call.id)), Execute(call)]
      ensures SameBatch(position, old(position))
      ensures position.stage == old(position).stage.(granted := old(position).stage.granted - {call.id},
                                                     activity := Running(call.id))
    {
      AnnounceStart(call.id);
      Start(call);
    }

    /** Announces how the running tool ended. */
    method Finish(id: string) returns (output: string, isError: bool)
      requires Valid() && position.stage.Executing? && position.stage.activity == Running(id)
      modifies this`trace, this`position, this`at, this`executed
      ensures Valid() && old(trace) <= trace && SameBatch(position, old(position))
      ensures position.stage == old(position).stage.(activity := Ran(id, output, isError))
      ensures input.outcomes(old(executed)) == if isError then Failure(output) else Output(output)
      ensures trace == old(trace) + [Emit(if isError then ToolFailed(id, output) else ToolCompleted(id, output))]
    {
      var outcome := input.outcomes(executed);
      var e: Event;
      match outcome {
        case Output(text) => output, isError, e := text, false, ToolCompleted(id, text);
        case Failure(error) => output, isError, e := error, true, ToolFailed(id, error);
      }
      executed := executed + 1;
      trace := trace + [Emit(e)];
      Advance(old(trace), Emit(e));
    }

    /** One round of the loop of `executeTools`. */
    method ExecuteAndRecord(call: PendingCall) returns (ok: bool)
      requires Valid() && position.stage.Executing? && position.stage.activity == Idle
      requires Shown(position.proposed, AsCall(call))
      requires Reasoned(input.commands, position.since, position.read, call)
      requires call.id in if call.approval == Denied then position.stage.denied else position.stage.granted
      modifies this`trace, this`position, this`at, this`offered, window, window.sessionFile, this`executed
      ensures Valid() && old(trace) <= trace && SameBatch(position, old(position))
      ensures ok ==> position.stage == Without(old(position).stage, call)
      ensures ok && call.approval == Denied ==> Answered(old(trace), call, DenialText(call), true)
      ensures !ok ==> MayFail(position.stage)
    {
      if call.approval == Denied {
        DenialIsDue(input, position, call);
      }
      var output, isError := ExecuteToolCall(call);
      ok := RecordResult(call, output, isError);
    }

    /** What a denied call is answered with. */
    ghost function DenialText(call: PendingCall): string {
      "denied: " + (if call.reason == "" then "user denied" else call.reason)
    }

    /** Since `was` the result of this call has been recorded, and nothing else done. */
    ghost predicate Answered(was: seq<Act>, call: PendingCall, output: string, isError: bool)
      reads this
    {
      trace == was + [Record(Message(Tool, output, [], Some(ToolResult(call.id, call.name, output, isError)), "",
                                     input.countTokens(output)))]
    }

    /** The result of a call is recorded; `MayFail` when the conversation refuses it. */
    method RecordResult(call: PendingCall, output: string, isError: bool) returns (ok: bool)
      requires Valid() && IsDue(input, position, call, output, isError)
      modifies this`trace, this`position, this`at, this`offered, window, window.sessionFile
      ensures Valid() && old(trace) <= trace && SameBatch(position, old(position))
      ensures ok ==> position.stage == if call.approval == Denied then Without(old(position).stage, call)
                                       else old(position).stage.(activity := Idle)
      ensures ok ==> Answered(old(trace), call, output, isError)
      ensures !ok ==> MayFail(position.stage)
    {
      DueIsRecorded(input, position, call, output, isError);
      var result := ToolResult(call.id, call.name, output, isError);
      ok := AddMessage(Message(Tool, output, [], Some(result), "", input.countTokens(output)));
    }

    /** `executeTools`: one result per call, in the order of the decisions. It fails when a result is not taken. */
    method ExecuteTools(calls: seq<PendingCall>) returns (ok: bool)
      requires Valid() && DistinctIds(calls) && AllSettled(calls) && position.stage == Remaining(calls, 0)
      requires AllShown(position.proposed, calls)
      requires AllReasoned(input.commands, position.since, position.read, calls)
      modifies this`trace, this`position, this`at, this`offered, window, window.sessionFile, this`executed
      ensures Valid() && old(trace) <= trace
      ensures ok ==> position.stage == if AnyDenied(calls, |calls|) then Closing else Ready
      ensures !ok ==> MayFail(position.stage)
    {
      ok := true;
      var k := 0;
      while ok && k < |calls|
        invariant Valid() && k <= |calls| && old(trace) <= trace && SameBatch(position, old(position))
        invariant ok ==> position.stage == Remaining(calls, k)
        invariant !ok ==> MayFail(position.stage)
      {
        OneLess(calls, k);
        ok := ExecuteAndRecord(calls[k]);
        k := k + 1;
      }
      if ok {
        CompleteTools(calls);
      }
    }

    method CompleteTools(calls: seq<PendingCall>)
      requires Valid() && position.stage == Remaining(calls, |calls|)
      modifies this`trace, this`position, this`at
      ensures Valid() && old(trace) <= trace && position.stage == if AnyDenied(calls, |calls|) then Closing else Ready
    {
      Send(ToolsCompleted);
    }

    /** The run ends because a result was refused. */
    method FailTools(error: string)
      requires Valid() && MayFail(position.stage)
      modifies this`trace, this`position, this`at
      ensures Valid() && old(trace) <= trace && position.stage == Ended
    {
      Send(RunFailed(error));
    }

    /** The run ends behind a batch with a denied call. */
    method Close()
      requires Valid() && position.stage == Closing
      modifies this`trace, this`position, this`at
      ensures Valid() && old(trace) <= trace && position.stage == Ended
    {
      Send(RunCompleted);
    }

    /** The run ends as cancelled. */
    method Abandon()
      requires Valid() && position.stage.Proposed?
      requires CancelledFirst(input.commands, input.closed, position.stage.ids, position.read)
      modifies this`trace, this`position, this`at
      ensures Valid() && trace == old(trace) + [Emit(RunCancelled)] && position.stage == Ended
    {
      Send(RunCancelled);
    }

    /** The turn fails: the context could not be built, or the model did not reply. */
    method FailTurn(error: string)
      requires Valid() && turns <= |input.replies|
      requires || position.stage == Asked(GenerationFailed(error))
               || ((position.stage == Opened || position.stage == Ready) && turns < |input.replies|
                   && input.replies[turns] == ContextFailed(error))
      modifies this`trace, this`position, this`at
      ensures Valid() && position.stage == Ended
    {
      Send(RunFailed(error));
    }

    /** A reply is recorded, if the conversation takes it, and announced. */
    method RecordReply(response: Response, calls: seq<ToolCall>)
      requires Valid() && position.stage == Asked(Replied(response)) && (calls == [] <==> response.toolCalls == [])
      modifies this`trace, this`position, this`at, this`offered, window, window.sessionFile
      ensures Valid() && position.stage.Turned? && position.stage.response == response
      ensures position.stage.recorded.Some? ==> position.stage.recorded.value.toolCalls == calls
      ensures position.read == old(position).read
    {
      var msg := Message(Assistant, response.content, calls, None, input.agentName, CompletionTokens(response));
      AddReply(msg, response);
      Send(TurnCompleted(response));
    }

    method AddReply(msg: Message, response: Response)
      requires Valid() && position.stage == Asked(Replied(response)) && AfterRecord(input, position, msg).Some?
      modifies this`trace, this`position, this`at, this`offered, window, window.sessionFile
      ensures Valid() && position.read == old(position).read
      ensures position.stage == Recorded(msg, response) || (!Smooth(world) && position.stage == old(position).stage)
    {
      var ok := AddMessage(msg);
    }

    /** A reply without calls ends the run. */
    method Answer(response: Response)
      requires Valid() && position.stage == Asked(Replied(response)) && response.toolCalls == [] && turns > 0
      modifies this`trace, this`position, this`at, this`offered, window, window.sessionFile
      ensures Valid() && position.stage == Ended
    {
      RecordReply(response, []);
      Send(RunCompleted);
    }

    function CompletionTokens(response: Response): int {
      if response.completionTokens.Some? then response.completionTokens.value else 0
    }

    /** Records a reply with calls, announces it, and proposes its batch. */
    method Announce(response: Response, ghost newId: nat -> string, recorded: seq<ToolCall>,
                    proposed: seq<ProposedCall>)
      requires Valid() && position.stage == Asked(Replied(response)) && response.toolCalls != [] && recorded != []
      requires turns > 0 && newId == input.newId(turns - 1) && ProposesReply(proposed, response.toolCalls, newId)
      requires RecordsProposed(recorded, proposed)
      modifies this`trace, this`position, this`at, this`offered, window, window.sessionFile
      ensures Valid() && position.stage == Proposed(IdSet(ProposedIds(proposed))) && position.read == old(position).read
      ensures position.proposed == proposed
    {
      RecordReply(response, recorded);
      ProposalIsNext(input, position, proposed);
      Send(ToolsProposed(proposed));
    }

    /** Builds the batch, and lists it twice: for the conversation and for the client. */
    method Build(response: Response, newId: nat -> string)
      returns (batch: PendingBatch, recorded: seq<ToolCall>, proposed: seq<ProposedCall>)
      requires response.toolCalls != []
      ensures fresh(batch) && batch.Valid()
      ensures Represents(batch.calls, response.toolCalls, newId, |response.toolCalls|)
      ensures forall id :: id in batch.calls ==> batch.calls[id].approval == Pending
      ensures recorded != [] && IdSet(ProposedIds(proposed)) == batch.calls.Keys
      ensures ProposesReply(proposed, response.toolCalls, newId)
      ensures RecordsProposed(recorded, proposed) && Previewed(proposed, world.preview)
      ensures BatchShown(proposed, batch.calls)
    {
      batch := new PendingBatch(response.toolCalls, newId);
      recorded := batch.AsToolCalls();
      proposed := batch.AsProposed(world.preview);
      BatchIsListed(batch.calls, response.toolCalls, newId, proposed, recorded, world.preview);
    }

    method Propose(response: Response, newId: nat -> string)
      returns (batch: PendingBatch, proposed: seq<ProposedCall>)
      requires Valid() && position.stage == Asked(Replied(response)) && response.toolCalls != []
      requires turns > 0 && newId == input.newId(turns - 1)
      modifies this`trace, this`position, this`at, this`offered, window, window.sessionFile
      ensures Valid() && fresh(batch) && batch.Valid() && position.stage == Proposed(batch.calls.Keys)
      ensures position.read == old(position).read && position.proposed == proposed && BatchShown(proposed, batch.calls)
      ensures ProposesReply(proposed, response.toolCalls, newId) && Previewed(proposed, world.preview)
      ensures Represents(batch.calls, response.toolCalls, newId, |response.toolCalls|)
      ensures forall id :: id in batch.calls ==> batch.calls[id].approval == Pending
    {
      var recorded;
      batch, recorded, proposed := Build(response, newId);
      ghost var calls := batch.calls;
      Announce(response, newId, recorded, proposed);
      assert batch.calls == calls;
    }

    /** Carries out the decisions on a batch. */
    method CarryOut(decisions: seq<PendingCall>, stop: nat) returns (more: bool)
      requires Valid() && DistinctIds(decisions) && AllSettled(decisions) && AllShown(position.proposed, decisions)
      requires MaySettle(input.commands, position, IdsWith(decisions, Granted, 0), IdsWith(decisions, Denied, 0), stop)
      requires AllReasoned(input.commands, position.read, stop, decisions)
      modifies this`trace, this`position, this`at, this`offered, window, window.sessionFile, this`executed, this`taken
      ensures Valid() && (more ==> position.stage == Ready) && (!more ==> position.stage == Ended)
      ensures old(trace) + [Settle(IdsWith(decisions, Granted, 0), IdsWith(decisions, Denied, 0), stop)] <= trace
    {
      SettleBatch(decisions, stop);
      more := false;
      var ok := ExecuteTools(decisions);
      if !ok {
        FailTools("the result could not be added to the conversation");
      } else {
        var denied := AnyWasDenied(decisions);
        assert denied <==> AnyDenied(decisions, |decisions|);
        if denied {
          Close();
        } else {
          more := true;
        }
      }
    }

    /** Reads the decisions on a batch. */
    method Collect(batch: PendingBatch) returns (r: Collected, stop: nat, decisions: seq<PendingCall>)
      requires Valid() && batch.Valid() && position.stage == Proposed(batch.calls.Keys)
      requires BatchShown(position.proposed, batch.calls)
      requires forall id :: id in batch.calls ==> batch.calls[id].approval == Pending
      modifies batch
      ensures r == Decided ==>
                DistinctIds(decisions) && AllSettled(decisions) && AllShown(position.proposed, decisions)
      ensures r == Decided ==>
                MaySettle(input.commands, position, IdsWith(decisions, Granted, 0), IdsWith(decisions, Denied, 0), stop)
      ensures r == Decided ==> AllReasoned(input.commands, taken, stop, decisions)
      ensures r == Waiting ==> Waits(input.commands, input.closed, old(batch.calls).Keys, taken)
      ensures r == Cancelled || r == ChannelClosed ==>
                CancelledFirst(input.commands, input.closed, old(batch.calls).Keys, taken)
    {
      ghost var before := batch.calls;
      decisions := [];
      r, stop := batch.CollectApprovals(input.commands, taken, input.closed);
      if r == Decided {
        decisions := batch.CollectDecisions();
        CollectedMaySettle(before, batch.calls, decisions, input.commands, position, stop);
        DecisionsAreShown(before, batch.calls, decisions, position.proposed, input.commands, taken, stop);
        DecisionsAreReasoned(before, batch.calls, decisions, input.commands, taken, stop);
      } else {
        WaitingIsOpen(before, input.commands, taken, stop);
        UndecidedIsOpen(before, input.commands, taken, stop);
        assert r != Waiting ==> CancelledAt(input.commands, input.closed, before.Keys, taken, stop);
      }
    }

    /** Collects the decisions on a batch and carries them out. A cancellation or a closed channel before every call is
        decided cancels the run and nothing else; an open channel that decides nothing leaves it waiting; otherwise the
        batch is settled. `more` when the loop goes on. */
    method Decide(batch: PendingBatch) returns (more: bool)
      requires Valid() && batch.Valid() && position.stage == Proposed(batch.calls.Keys)
      requires BatchShown(position.proposed, batch.calls)
      requires forall id :: id in batch.calls ==> batch.calls[id].approval == Pending
      modifies this`trace, this`position, this`at, this`offered, window, window.sessionFile, this`executed
      modifies this`taken, batch
      ensures Valid()
      ensures more ==> position.stage == Ready
      ensures !more ==> position.stage == Ended || (position.stage.Proposed? && !input.closed)
      ensures CancelledFirst(input.commands, input.closed, old(batch.calls).Keys, old(taken)) ==>
                trace == old(trace) + [Emit(RunCancelled)] && position.stage == Ended
      ensures Waits(input.commands, input.closed, old(batch.calls).Keys, old(taken)) ==>
                trace == old(trace) && position == old(position)
      ensures Settles(input.commands, input.closed, old(batch.calls).Keys, old(taken)) ==>
                old(trace) < trace && trace[|old(trace)|].Settle?
    {
      var r, stop, decisions := Collect(batch);
      more := false;
      if r == Decided {
        SettlingIsNeither(input, position, IdsWith(decisions, Granted, 0), IdsWith(decisions, Denied, 0), stop);
        more := CarryOut(decisions, stop);
      } else if r != Waiting {
        WaitingIsNotOver(input, position);
        Abandon();
      } else {
        WaitingIsNotOver(input, position);
      }
    }

    /** One turn of the loop. */
    method Turn() returns (more: bool)
      requires Valid() && (position.stage == Opened || position.stage == Ready) && turns < |input.replies|
      requires Smooth(world) ==> !UserMessageMissing(input, position.stage)
      modifies this, window, window.sessionFile
      ensures Valid() && (more ==> position.stage == Ready && turns == old(turns) + 1)
      ensures !more ==> position.stage == Ended || (position.stage.Proposed? && !input.closed)
    {
      more := false;
      match input.replies[turns]
      case ContextFailed(error) => FailTurn(error);
      case GenerationFailed(error) =>
        Ask();
        FailTurn(error);
      case Replied(response) =>
        Ask();
        more := HandleReply(response);
    }

    /** A reply without calls is the answer; the calls of any other are proposed, and carried out once decided. */
    method HandleReply(response: Response) returns (more: bool)
      requires Valid() && position.stage == Asked(Replied(response)) && turns > 0
      modifies this`trace, this`position, this`at, this`offered, window, window.sessionFile, this`executed, this`taken
      ensures Valid() && (more ==> position.stage == Ready)
      ensures !more ==> position.stage == Ended || (position.stage.Proposed? && !input.closed)
    {
      more := false;
      if |response.toolCalls| == 0 {
        Answer(response);
      } else {
        var batch, _ := Propose(response, input.newId(turns - 1));
        more := Decide(batch);
      }
    }

    /** The start event, and the user's prompt if there is one. */
    method Open()
      requires Valid() && trace == [] && position.stage == Begin
      modifies this`trace, this`position, this`at, this`offered, window, window.sessionFile
      ensures Valid() && trace != [] && (position.stage == Opened || position.stage == Ready)
      ensures Smooth(world) ==> !UserMessageMissing(input, position.stage)
    {
      Send(RunStarted("", ""));
      if input.prompt != "" {
        var ok := AddMessage(Message(User, input.prompt, [], None, "", input.countTokens(input.prompt)));
      }
    }

    method IsOver() returns (over: bool)
      requires Valid() && trace != []
      ensures over <==> position.stage == Ended
    {
      EndedByTerminal(input, Run(trace, at));
      over := trace[|trace|-1].Emit? && Terminal(trace[|trace|-1].event);
    }

    /** `loop`. Whatever the world does, the run is legal; the run ends unless the model has no further reply or the
        client leaves a batch undecided. When the conversation takes every message and no tool injects one, the run
        is clean. */
    method Loop()
      requires Valid() && trace == [] && position.stage == Begin
      modifies this, window, window.sessionFile
      ensures Valid() && Legal(input, Run(trace, at)) && trace != []
      ensures position == at[|trace|] && (Smooth(world) ==> position.clean)
      ensures position.stage != Ended ==> turns == |input.replies| || (position.stage.Proposed? && !input.closed)
    {
      Open();
      var more := true;
      while more && turns < |input.replies|
        invariant Valid() && trace != []
        invariant more ==> position.stage == Opened || position.stage == Ready
        invariant more && Smooth(world) ==> !UserMessageMissing(input, position.stage)
        invariant !more ==> position.stage == Ended || (position.stage.Proposed? && !input.closed)
        decreases more, |input.replies| - turns
      {
        more := Turn();
      }
    }
  }

  lemma {:induction false} SomethingListed(ids: seq<string>, keys: set<string>)
    requires ListsOnce(ids, keys) && keys != {}
    ensures ids != []
  {
    var id :| id in keys;
    assert id in ids;
  }
}
