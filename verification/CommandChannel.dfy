/** The command channel between the event loop and the agent holds only so many commands. While a proposal is decided,
    the event loop sends one verdict for each call, anyone may send a cancellation, and the agent takes commands until
    the batch is decided or cancelled. The main results say exactly when the event loop hangs in a send. */
module CommandChannel {

  import opened Options
  import opened Approvals
  import opened AgentSteps
  import opened Server

  /** The capacity in the source. */
  const COMMAND_CAPACITY: nat := 16

  /** The calls of a proposal, the verdicts on them, and how many commands the channel holds. */
  datatype Setting = Setting(ids: seq<string>, verdicts: seq<Command>, capacity: nat)

  ghost predicate Proper(u: Setting) {
    && u.capacity > 0 && ListsOnce(u.ids, IdSet(u.ids)) && |u.verdicts| == |u.ids|
    && forall i :: 0 <= i < |u.ids| ==> Decides(u.verdicts[i], u.ids[i])
  }

  /** `put` is what was put into the channel, in order: `sent` verdicts and `cancels` cancellations; the agent has taken
      the first `taken` of it. */
  datatype State = State(sent: nat, cancels: nat, put: seq<Command>, taken: nat)

  datatype Step = SendVerdict | SendCancel | Take

  predicate HasRoom(u: Setting, s: State) {
    |s.put| < s.taken + u.capacity
  }

  /** The batch is neither decided nor cancelled by what the agent has taken. */
  ghost predicate Reading(u: Setting, s: State) {
    && s.taken <= |s.put| && (forall k :: 0 <= k < s.taken ==> s.put[k] != Cancel)
    && Open(s.put, IdSet(u.ids), 0, s.taken)
  }

  ghost function Next(u: Setting, s: State, step: Step): Option<State> {
    match step
    case SendVerdict =>
      if s.sent < |u.verdicts| && HasRoom(u, s)
      then Some(s.(sent := s.sent + 1, put := s.put + [u.verdicts[s.sent]])) else None
    case SendCancel =>
      if HasRoom(u, s) then Some(s.(cancels := s.cancels + 1, put := s.put + [Cancel])) else None
    case Take =>
      if Reading(u, s) && s.taken < |s.put| then Some(s.(taken := s.taken + 1)) else None
  }

  /** The state after some steps; none when one of them was not possible. */
  ghost function After(u: Setting, s: State, steps: seq<Step>): Option<State> {
    if steps == [] then Some(s)
    else
      match After(u, s, steps[..|steps|-1])
      case None => None
      case Some(t) => Next(u, t, steps[|steps|-1])
  }

  /** The proposal has just been made. Cancellations too late for an earlier batch may be left over, but no verdicts. */
  ghost predicate IsStart(u: Setting, s: State) {
    && s.sent == 0 && s.taken == 0 && |s.put| == s.cancels <= u.capacity
    && forall k :: 0 <= k < |s.put| ==> s.put[k] == Cancel
  }

  /** The event loop cannot send its next verdict now, or has none left, and the agent takes nothing. */
  ghost predicate AtRest(u: Setting, s: State) {
    Next(u, s, SendVerdict) == None && Next(u, s, Take) == None
  }

  // ----- what every step keeps

  /** The verdicts pass through in order, each once, and nothing is taken behind a cancellation. */
  ghost predicate Inv(u: Setting, s: State) {
    && Proper(u) && s.sent <= |u.ids| && s.taken <= |s.put| <= s.taken + u.capacity
    && |s.put| == s.sent + s.cancels && WithoutCancels(s.put, |s.put|) == u.verdicts[..s.sent]
    && NothingTakenBehindCancel(s.put, s.taken)
  }

  ghost predicate NothingTakenBehindCancel(put: seq<Command>, taken: nat) {
    forall k :: 0 <= k < taken - 1 && k < |put| ==> put[k] != Cancel
  }

  lemma {:induction false} StepKeepsInv(u: Setting, s: State, step: Step)
    requires Inv(u, s) && Next(u, s, step).Some?
    ensures Inv(u, Next(u, s, step).value)
  {
    match step
    case SendVerdict => PutOne(s.put, u.verdicts[s.sent], s.taken);
    case SendCancel => PutOne(s.put, Cancel, s.taken);
    case Take =>
  }

  lemma {:induction false} PutOne(put: seq<Command>, c: Command, taken: nat)
    requires NothingTakenBehindCancel(put, taken) && taken <= |put|
    ensures NothingTakenBehindCancel(put + [c], taken)
    ensures WithoutCancels(put + [c], |put + [c]|)
         == if c == Cancel then WithoutCancels(put, |put|) else WithoutCancels(put, |put|) + [c]
  {
    OneMorePut(put, c, |put|);
  }

  lemma {:induction false} StartKeepsInv(u: Setting, s: State)
    requires Proper(u) && IsStart(u, s)
    ensures Inv(u, s)
  {
    OnlyCancels(s.put, |s.put|);
  }

  lemma {:induction false} OnlyCancels(put: seq<Command>, k: nat)
    requires k <= |put| && forall j :: 0 <= j < |put| ==> put[j] == Cancel
    ensures WithoutCancels(put, k) == []
  {
    if k == 0 {
    } else {
      OnlyCancels(put, k - 1);
    }
  }

  lemma {:induction false} RunKeepsInv(u: Setting, s: State, steps: seq<Step>)
    requires Inv(u, s) && After(u, s, steps).Some?
    ensures Inv(u, After(u, s, steps).value)
  {
    if steps == [] {
    } else {
      RunKeepsInv(u, s, steps[..|steps|-1]);
      StepKeepsInv(u, After(u, s, steps[..|steps|-1]).value, steps[|steps|-1]);
    }
  }

  // ----- when the loop hangs

  /** As long as no cancellation is taken, what the agent takes are the first verdicts. */
  lemma {:induction false} TakesVerdicts(u: Setting, s: State, j: nat)
    requires Inv(u, s) && j < s.taken && forall k :: 0 <= k < s.taken ==> s.put[k] != Cancel
    ensures s.taken <= s.sent && s.put[j] == u.verdicts[j]
  {
    NoCancelsYet(s.put, s.taken);
    WithoutCancelsGrows(s.put, s.taken, |s.put|);
    assert s.put[..s.taken][j] == s.put[j] && |s.put[..s.taken]| == s.taken;
    assert u.verdicts[..s.sent][j] == u.verdicts[j];
  }

  /** The agent takes commands until it has read every verdict, unless one of them is a cancellation. */
  lemma {:induction false} ReadsOn(u: Setting, s: State)
    requires Inv(u, s) && s.taken < |u.ids|
    requires forall k :: 0 <= k < s.taken ==> s.put[k] != Cancel
    ensures Reading(u, s)
  {
    var id := u.ids[s.taken];
    forall k | 0 <= k < s.taken
      ensures !Decides(s.put[k], id)
    {
      TakesVerdicts(u, s, k);
      assert Differ(u.ids, k, s.taken);
    }
    assert id in IdSet(u.ids) && Undecided(s.put, 0, s.taken, id);
  }

  /** Main result: the event loop can always go on, by a send or by the agent taking a command, until the agent takes a
      cancellation. */
  lemma {:induction false} OnlyACancellationHangs(u: Setting, s: State)
    requires Inv(u, s) && AtRest(u, s) && s.sent < |u.ids|
    ensures s.taken > 0 && s.put[s.taken - 1] == Cancel
  {
    if forall k :: 0 <= k < s.taken ==> s.put[k] != Cancel {
      if s.taken > 0 {
        TakesVerdicts(u, s, 0);
      }
      ReadsOn(u, s);
    }
  }

  /** Main result: when it comes to rest, the event loop hangs if and only if the commands meant for the channel exceed
      those the agent has taken by more than the capacity. */
  lemma {:induction false} HangsIff(u: Setting, s: State)
    requires Inv(u, s) && AtRest(u, s)
    ensures s.sent < |u.ids| <==> |u.ids| + s.cancels > s.taken + u.capacity
  {
  }

  lemma {:induction false} NothingMoves(u: Setting, s: State, step: Step)
    requires Inv(u, s) && AtRest(u, s) && s.sent < |u.ids|
    ensures Next(u, s, step) == None
  {
  }

  /** Main result: once the event loop hangs nothing happens any more; in particular whoever sends another cancellation
      hangs as well. */
  lemma {:induction false} HangingIsFinal(u: Setting, s: State, steps: seq<Step>)
    requires Inv(u, s) && AtRest(u, s) && s.sent < |u.ids|
    ensures After(u, s, steps).Some? ==> steps == []
  {
    if steps == [] {
    } else {
      var front := steps[..|steps|-1];
      HangingIsFinal(u, s, front);
      NothingMoves(u, s, steps[|steps|-1]);
      assert front == [] ==> After(u, s, front) == Some(s);
    }
  }

  lemma {:induction false} AfterOneMore(u: Setting, s: State, steps: seq<Step>, step: Step)
    requires After(u, s, steps).Some?
    ensures After(u, s, steps + [step]) == Next(u, After(u, s, steps).value, step)
  {
    assert (steps + [step])[..|steps|] == steps;
  }

  /** Left to the event loop and the agent, every run comes to rest. */
  lemma {:induction false} ComesToRest(u: Setting, s: State, done: seq<Step>) returns (steps: seq<Step>, t: State)
    requires Inv(u, s) && After(u, s, done).Some? && SendCancel !in done
    ensures After(u, s, steps) == Some(t) && SendCancel !in steps && AtRest(u, t)
    decreases var now := After(u, s, done).value; 2 * (|u.ids| - now.sent) + |now.put| - now.taken
  {
    var now := After(u, s, done).value;
    RunKeepsInv(u, s, done);
    if AtRest(u, now) {
      steps, t := done, now;
    } else {
      var step := if Next(u, now, SendVerdict).Some? then SendVerdict else Take;
      AfterOneMore(u, s, done, step);
      StepKeepsInv(u, now, step);
      steps, t := ComesToRest(u, s, done + [step]);
    }
  }

  // ----- one cancellation

  lemma {:induction false} PutGrows(u: Setting, s: State, steps: seq<Step>)
    requires After(u, s, steps).Some? && SendCancel !in steps
    ensures s.put <= After(u, s, steps).value.put && s.cancels == After(u, s, steps).value.cancels
  {
    if steps == [] {
    } else {
      PutGrows(u, s, steps[..|steps|-1]);
      assert steps[|steps|-1] in steps;
    }
  }

  lemma {:induction false} NoneAmongVerdicts(commands: seq<Command>, k: nat, j: nat)
    requires j < k <= |commands| && |WithoutCancels(commands, k)| == k
    ensures commands[j] != Cancel
  {
    WithoutCancelsShrinks(commands, k - 1);
    if j < k - 1 {
      NoneAmongVerdicts(commands, k - 1, j);
    }
  }

  lemma {:induction false} WithoutCancelsShrinks(commands: seq<Command>, k: nat)
    requires k <= |commands|
    ensures |WithoutCancels(commands, k)| <= k
  {
    if k > 0 {
      WithoutCancelsShrinks(commands, k - 1);
    }
  }

  /** Until something is cancelled, the channel carries verdicts only. */
  lemma {:induction false} CarriesVerdicts(u: Setting, s: State, j: nat)
    requires Inv(u, s) && s.cancels == 0 && j < |s.put|
    ensures s.put[j] != Cancel
  {
    NoneAmongVerdicts(s.put, |s.put|, j);
  }

  /** Without a cancellation every verdict is sent and taken, and nothing is left over. */
  lemma {:induction false} UncancelledFinishes(u: Setting, s: State)
    requires Inv(u, s) && s.cancels == 0 && AtRest(u, s)
    ensures s.sent == s.taken == |s.put| == |u.ids|
  {
    forall k | 0 <= k < |s.put|
      ensures s.put[k] != Cancel
    {
      CarriesVerdicts(u, s, k);
    }
    if s.sent < |u.ids| {
      OnlyACancellationHangs(u, s);
    }
    if s.taken < |u.ids| {
      ReadsOn(u, s);
    }
  }

  // ----- any number of cancellations

  /** Command `p` is the first cancellation. */
  ghost predicate FirstCancelAt(put: seq<Command>, p: nat) {
    p < |put| && put[p] == Cancel && NoCancelBefore(put, p)
  }

  ghost predicate NoCancelBefore(put: seq<Command>, p: nat) {
    forall k :: 0 <= k < p && k < |put| ==> put[k] != Cancel
  }

  lemma {:induction false} TakenUpToCancel(put: seq<Command>, taken: nat, p: nat)
    requires FirstCancelAt(put, p) && taken <= |put| && NothingTakenBehindCancel(put, taken)
    ensures taken <= p + 1 && (taken > 0 && put[taken-1] == Cancel ==> taken == p + 1)
  {
  }

  /** Main result: with the first of its cancellations at place `p`, a channel at rest has left the event loop hanging
      if and only if more commands were meant to come behind that cancellation than the channel holds. */
  lemma {:induction false} HangsBehindCancelIff(u: Setting, t: State, p: nat)
    requires Inv(u, t) && AtRest(u, t) && FirstCancelAt(t.put, p)
    ensures t.sent < |u.ids| <==> |u.ids| + t.cancels > p + 1 + u.capacity
  {
    TakenUpToCancel(t.put, t.taken, p);
    HangsIff(u, t);
    if t.sent < |u.ids| {
      OnlyACancellationHangs(u, t);
    }
  }

  /** How many cancellations are sent in a schedule. */
  function Cancels(steps: seq<Step>): nat {
    if steps == [] then 0
    else Cancels(steps[..|steps|-1]) + if steps[|steps|-1] == SendCancel then 1 else 0
  }

  /** How many verdicts are sent in a schedule before its first cancellation. */
  function VerdictsInFront(steps: seq<Step>): nat {
    if steps == [] then 0
    else
      var front, last := steps[..|steps|-1], steps[|steps|-1];
      VerdictsInFront(front) + if last == SendVerdict && Cancels(front) == 0 then 1 else 0
  }

  /** All the cancellations of a run, those sent before the proposal included. */
  function AllCancels(s: State, steps: seq<Step>): nat {
    s.cancels + Cancels(steps)
  }

  /** The verdicts in front of the first cancellation of a run. */
  function InFront(s: State, steps: seq<Step>): nat {
    if s.cancels > 0 then 0 else VerdictsInFront(steps)
  }

  /** What the channel carries is as the schedule says. */
  ghost predicate Tells(s: State, steps: seq<Step>, t: State) {
    && t.cancels == AllCancels(s, steps)
    && if t.cancels > 0 then FirstCancelAt(t.put, InFront(s, steps))
       else |t.put| == InFront(s, steps) && NoCancelBefore(t.put, |t.put|)
  }

  lemma {:induction false} ScheduleTells(u: Setting, s: State, steps: seq<Step>)
    requires Proper(u) && IsStart(u, s) && After(u, s, steps).Some?
    ensures Tells(s, steps, After(u, s, steps).value)
  {
    if steps == [] {
    } else {
      var front, last := steps[..|steps|-1], steps[|steps|-1];
      var t := After(u, s, front).value;
      ScheduleTells(u, s, front);
      match last
      case SendVerdict => VerdictTells(u, s, steps, t);
      case SendCancel => CancelTells(s, steps, t);
      case Take =>
    }
  }

  lemma {:induction false} VerdictTells(u: Setting, s: State, steps: seq<Step>, t: State)
    requires Proper(u) && steps != [] && steps[|steps|-1] == SendVerdict && Tells(s, steps[..|steps|-1], t)
    requires t.sent < |u.verdicts|
    ensures Tells(s, steps, t.(sent := t.sent + 1, put := t.put + [u.verdicts[t.sent]]))
  {
    assert Decides(u.verdicts[t.sent], u.ids[t.sent]);
  }

  lemma {:induction false} CancelTells(s: State, steps: seq<Step>, t: State)
    requires steps != [] && steps[|steps|-1] == SendCancel && Tells(s, steps[..|steps|-1], t)
    ensures Tells(s, steps, t.(cancels := t.cancels + 1, put := t.put + [Cancel]))
  {
  }

  /** The schedule cancels the batch with more behind its first cancellation than the channel holds. */
  predicate Overruns(u: Setting, s: State, steps: seq<Step>) {
    AllCancels(s, steps) > 0 && |u.ids| - InFront(s, steps) + AllCancels(s, steps) - 1 > u.capacity
  }

  /** Main result, for every run and any number of cancellations at any time: once nothing moves, the event loop hangs
      if and only if the run was cancelled and the verdicts and further cancellations behind the first cancellation
      exceed the capacity. */
  lemma {:induction false} RunHangsIff(u: Setting, s: State, steps: seq<Step>, t: State)
    requires Proper(u) && IsStart(u, s) && After(u, s, steps) == Some(t) && AtRest(u, t)
    ensures t.sent < |u.ids| <==> Overruns(u, s, steps)
  {
    StartKeepsInv(u, s);
    RunKeepsInv(u, s, steps);
    ScheduleTells(u, s, steps);
    if t.cancels == 0 {
      UncancelledFinishes(u, t);
    } else {
      HangsBehindCancelIff(u, t, InFront(s, steps));
    }
  }

  /** Cancelled once, when `s.sent` verdicts have been sent: the event loop hangs if and only if there are more verdicts
      behind the cancellation than the channel holds. */
  lemma {:induction false} CancelledHangsIff(u: Setting, s: State, steps: seq<Step>, t: State)
    requires Inv(u, s) && s.cancels == 0 && Next(u, s, SendCancel).Some?
    requires After(u, Next(u, s, SendCancel).value, steps) == Some(t) && SendCancel !in steps && AtRest(u, t)
    ensures t.sent < |u.ids| <==> |u.ids| - s.sent > u.capacity
  {
    var c := Next(u, s, SendCancel).value;
    StepKeepsInv(u, s, SendCancel);
    RunKeepsInv(u, c, steps);
    PutGrows(u, c, steps);
    CancelIsFirst(u, s, t.put);
    HangsBehindCancelIff(u, t, |s.put|);
  }

  lemma {:induction false} CancelIsFirst(u: Setting, s: State, put: seq<Command>)
    requires Inv(u, s) && s.cancels == 0 && s.put + [Cancel] <= put
    ensures FirstCancelAt(put, |s.put|)
  {
    assert put[|s.put|] == (s.put + [Cancel])[|s.put|];
    forall k | 0 <= k < |s.put|
      ensures put[k] != Cancel
    {
      CarriesVerdicts(u, s, k);
      assert put[k] == (s.put + [Cancel])[k];
    }
  }

  lemma {:induction false} NoCancelsCounted(steps: seq<Step>)
    requires SendCancel !in steps
    ensures Cancels(steps) == 0
  {
    if steps == [] {
    } else {
      NoCancelsCounted(steps[..|steps|-1]);
      assert steps[|steps|-1] in steps;
    }
  }

  /** Cancelled before the proposal, and not again: the agent takes the first of these cancellations, and the others
      stay in the way of the verdicts. */
  lemma {:induction false} LeftOverHangsIff(u: Setting, s: State, steps: seq<Step>, t: State)
    requires Proper(u) && IsStart(u, s) && s.cancels > 0
    requires After(u, s, steps) == Some(t) && SendCancel !in steps && AtRest(u, t)
    ensures t.sent < |u.ids| <==> |u.ids| + s.cancels - 1 > u.capacity
  {
    NoCancelsCounted(steps);
    RunHangsIff(u, s, steps, t);
  }

  // ----- the event loop behind the channel

  /** The setting is this proposal, as the event loop sees it after `asked` answers. */
  ghost predicate IsProposal(u: Setting, calls: seq<ProposedCall>, answers: nat -> Answer, asked: nat) {
    |u.ids| == |u.verdicts| == |calls| && forall i :: 0 <= i < |calls| ==> IsCall(u, calls, answers, asked, i)
  }

  ghost predicate IsCall(u: Setting, calls: seq<ProposedCall>, answers: nat -> Answer, asked: nat, i: nat)
    requires i < |calls| == |u.ids| == |u.verdicts|
  {
    u.ids[i] == calls[i].callId && u.verdicts[i] == CommandFor(calls[i].callId, answers(asked + i))
  }

  /** What the event loop sends for a proposal are these verdicts. */
  lemma {:induction false} ProposalSendsVerdicts(u: Setting, done: seq<Outgoing>, calls: seq<ProposedCall>,
                                                 answers: nat -> Answer, asked: nat, k: nat)
    requires IsProposal(u, calls, answers, asked) && k <= |calls|
    ensures Commands(ProposalAfter(done, calls, answers, asked, k)) == Commands(done) + u.verdicts[..k]
  {
    if k == 0 {
      assert Commands(done) + [] == Commands(done);
    } else {
      ProposalSendsVerdicts(u, done, calls, answers, asked, k - 1);
      assert IsCall(u, calls, answers, asked, k - 1);
      CallSendsVerdict(u, k - 1, ProposalAfter(done, calls, answers, asked, k-1), calls[k-1],
                       answers(asked + k - 1), Commands(done));
    }
  }

  lemma {:induction false} CallSendsVerdict(u: Setting, k: nat, front: seq<Outgoing>, call: ProposedCall,
                                            answer: Answer, before: seq<Command>)
    requires k < |u.verdicts| && u.verdicts[k] == CommandFor(call.callId, answer)
    requires Commands(front) == before + u.verdicts[..k]
    ensures Commands(CallAfter(front, call, answer)) == before + u.verdicts[..k+1]
  {
    CommandsOfCall(front, call, answer);
    OneMoreBehind(before, u.verdicts, k);
  }

  lemma {:induction false} OneMoreBehind<T>(before: seq<T>, all: seq<T>, k: nat)
    requires k < |all|
    ensures before + all[..k] + [all[k]] == before + all[..k+1]
  {
  }

  /** The event loop asks about a proposal through its channel, which is used as the schedule says until nothing moves:
      it gets through if and only if the schedule does not overrun the channel, and otherwise it fills the channel and
      hangs. */
  method AskThroughChannel(handler: Handler, calls: seq<ProposedCall>, ghost u: Setting, ghost s: State,
                           ghost steps: seq<Step>, ghost t: State)
    returns (ok: bool)
    requires handler.Valid() && IsProposal(u, calls, handler.answers, handler.asked)
    requires Proper(u) && IsStart(u, s) && After(u, s, steps) == Some(t) && AtRest(u, t)
    requires handler.room == handler.sent + t.taken + u.capacity - t.cancels
    modifies handler
    ensures handler.Valid() && (ok <==> !Overruns(u, s, steps)) && handler.sent == old(handler.sent) + t.sent
  {
    ghost var all := ProposalAfter(handler.out, calls, handler.answers, handler.asked, |calls|);
    ProposalSendsVerdicts(u, handler.out, calls, handler.answers, handler.asked, |calls|);
    assert |u.verdicts[..|calls|]| == |calls|;
    StartKeepsInv(u, s);
    RunKeepsInv(u, s, steps);
    HangsIff(u, t);
    RunHangsIff(u, s, steps, t);
    ok := handler.AskPermissions(calls);
    if !ok {
      handler.StuckSendsMore(all);
    }
  }

  // ----- inputs it happens to

  function Unary(n: nat): (s: string)
    ensures |s| == n
  {
    if n == 0 then "" else "a" + Unary(n - 1)
  }

  /** `n` calls, all approved. */
  function Calls(n: nat): Setting {
    Setting(seq(n, i requires 0 <= i => Unary(i)), seq(n, i requires 0 <= i => Approve(Unary(i))), COMMAND_CAPACITY)
  }

  lemma {:induction false} CallsAreProper(n: nat)
    ensures Proper(Calls(n))
  {
    var ids := Calls(n).ids;
    forall i, j | 0 <= i < j < |ids|
      ensures Differ(ids, i, j)
    {
      assert |ids[i]| == i && |ids[j]| == j;
    }
  }

  /** `n` cancellations, and nothing else so far. */
  ghost function LeftOver(n: nat): State {
    State(0, n, seq(n, _ => Cancel), 0)
  }

  /** Cancelled before the first verdict, with too much behind the cancellation: the run comes to rest with the channel
      full. */
  lemma {:induction false} LeftOversHang(u: Setting, n: nat) returns (steps: seq<Step>, t: State)
    requires Proper(u) && 0 < n <= u.capacity && |u.ids| + n - 1 > u.capacity
    ensures IsStart(u, LeftOver(n)) && After(u, LeftOver(n), steps) == Some(t) && AtRest(u, t)
    ensures t.sent == u.capacity + 1 - n < |u.ids|
  {
    var s := LeftOver(n);
    StartKeepsInv(u, s);
    steps, t := ComesToRest(u, s, []);
    LeftOverHangsIff(u, s, steps, t);
    RunKeepsInv(u, s, steps);
    PutGrows(u, s, steps);
    OnlyACancellationHangs(u, t);
    assert t.put[0] == s.put[0] == Cancel;
    TakenUpToCancel(t.put, t.taken, 0);
  }

  /** With the capacity in the source and one cancellation, seventeen calls are needed: sixteen verdicts fill the
      channel, and the seventeenth is never sent. */
  lemma {:induction false} SeventeenCallsHang() returns (steps: seq<Step>, t: State)
    ensures Proper(Calls(17)) && |Calls(17).ids| == 17 && IsStart(Calls(17), LeftOver(1))
    ensures After(Calls(17), LeftOver(1), steps) == Some(t) && AtRest(Calls(17), t) && t.sent == 16
  {
    CallsAreProper(17);
    steps, t := LeftOversHang(Calls(17), 1);
  }

  /** Behind sixteen cancellations sent before the proposal, two calls are enough. */
  lemma {:induction false} TwoCallsHang() returns (steps: seq<Step>, t: State)
    ensures Proper(Calls(2)) && |Calls(2).ids| == 2 && IsStart(Calls(2), LeftOver(16))
    ensures After(Calls(2), LeftOver(16), steps) == Some(t) && AtRest(Calls(2), t) && t.sent == 1
  {
    CallsAreProper(2);
    steps, t := LeftOversHang(Calls(2), 16);
  }

  /** With one cancellation more, sent as soon as the agent has taken the first, a single call is enough. */
  lemma {:induction false} OneCallHangs() returns (t: State)
    ensures Proper(Calls(1)) && |Calls(1).ids| == 1 && IsStart(Calls(1), LeftOver(16))
    ensures After(Calls(1), LeftOver(16), [Take, SendCancel]) == Some(t) && AtRest(Calls(1), t) && t.sent == 0
  {
    var u, s := Calls(1), LeftOver(16);
    CallsAreProper(1);
    StartKeepsInv(u, s);
    ReadsOn(u, s);
    var taken := s.(taken := 1);
    AfterOneMore(u, s, [], Take);
    assert [] + [Take] == [Take] && After(u, s, [Take]) == Some(taken);
    AfterOneMore(u, s, [Take], SendCancel);
    assert [Take] + [SendCancel] == [Take, SendCancel];
    t := taken.(cancels := 17, put := taken.put + [Cancel]);
    assert t.put[0] == Cancel;
  }
}
