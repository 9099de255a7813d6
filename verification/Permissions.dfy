/** The agent behind the server: the commands it reads are the verdicts on its own proposals, batch by batch, so that no
    tool starts without the client's permission for that very call. */
module Permissions {

  import opened Options
  import opened Approvals
  import opened AgentSteps
  import opened AgentTrace
  import opened Runner
  import opened Server

  /** The commands the server sends for the events of a run. */
  ghost function Sent(run: Run, answers: nat -> Answer): seq<Command> {
    var out := Stream(AllEvents(run), answers, |AllEvents(run)|);
    CommandsOf(out, |out|)
  }

  /** What the agent is sent: the server's commands, each once and in order, perhaps not all of them yet, with
      cancellations anywhere in between. */
  ghost predicate CommandsCome(commands: seq<Command>, sent: seq<Command>) {
    WithoutCancels(commands, |commands|) <= sent
  }

  lemma {:induction false} SameUntilCancel(commands: seq<Command>, sent: seq<Command>, k: nat)
    requires CommandsCome(commands, sent) && k <= |commands| && forall j :: 0 <= j < k ==> commands[j] != Cancel
    ensures k <= |sent| && forall j :: 0 <= j < k ==> commands[j] == sent[j]
  {
    NoCancelsYet(commands, k);
    WithoutCancelsGrows(commands, k, |commands|);
    forall j | 0 <= j < k
      ensures commands[j] == sent[j]
    {
      assert commands[..k][j] == commands[j];
    }
  }

  // ----- events by number

  /** How many events the first `k` acts emit. */
  function EventNumber(run: Run, k: nat): nat
    requires k <= |run.acts|
  {
    |EventsOf(run.acts, k)|
  }

  lemma {:induction false} EventsGrow(acts: seq<Act>, j: nat, k: nat)
    requires j <= k <= |acts|
    ensures EventsOf(acts, j) <= EventsOf(acts, k)
  {
    if j < k {
      EventsGrow(acts, j, k - 1);
    }
  }

  lemma {:induction false} EventOf(run: Run, i: nat)
    requires IsEvent(run, i)
    ensures EventNumber(run, i + 1) == EventNumber(run, i) + 1 <= |AllEvents(run)|
    ensures AllEvents(run)[EventNumber(run, i)] == run.acts[i].event
  {
    EventsGrow(run.acts, i + 1, |run.acts|);
  }

  lemma {:induction false} RequestsGrow(events: seq<Event>, j: nat, k: nat)
    requires j <= k <= |events|
    ensures Requests(events, j) <= Requests(events, k)
  {
    if j < k {
      RequestsGrow(events, j, k - 1);
    }
  }

  // ----- one batch

  /** Command `lo + i` is the verdict on call `i`. */
  ghost predicate VerdictAt(commands: seq<Command>, lo: nat, ids: seq<string>, answers: nat -> Answer, i: nat)
    requires i < |ids|
  {
    lo + i < |commands| && commands[lo + i] == CommandFor(ids[i], answers(lo + i))
  }

  /** From `lo` on the commands are the verdicts on these calls, as far as they are read. */
  ghost predicate VerdictsFrom(commands: seq<Command>, lo: nat, hi: nat, ids: seq<string>, answers: nat -> Answer) {
    forall i :: 0 <= i < |ids| && lo + i < hi ==> VerdictAt(commands, lo, ids, answers, i)
  }

  lemma {:induction false} VerdictDecides(commands: seq<Command>, lo: nat, ids: seq<string>, answers: nat -> Answer,
                                          i: nat, id: string)
    requires i < |ids| && VerdictAt(commands, lo, ids, answers, i)
    ensures Decides(commands[lo + i], id) <==> id == ids[i]
  {
  }

  lemma {:induction false} DecidedByOwn(commands: seq<Command>, lo: nat, hi: nat, ids: seq<string>,
                                        answers: nat -> Answer,
                                        i: nat)
    requires hi <= |commands| && hi <= lo + |ids| && VerdictsFrom(commands, lo, hi, ids, answers)
    requires i < |ids| && ListsOnce(ids, IdSet(ids))
    ensures forall k :: lo <= k < hi && Decides(commands[k], ids[i]) ==> k == lo + i
  {
    forall k | lo <= k < hi && Decides(commands[k], ids[i])
      ensures k == lo + i
    {
      var j := k - lo;
      assert VerdictAt(commands, lo, ids, answers, j);
      VerdictDecides(commands, lo, ids, answers, j, ids[i]);
      assert (j < i ==> Differ(ids, j, i)) && (i < j ==> Differ(ids, i, j));
    }
  }

  lemma {:induction false} ShortIsOpen(commands: seq<Command>, lo: nat, stop: nat, ids: seq<string>,
                                       answers: nat -> Answer)
    requires lo <= stop <= |commands| && ListsOnce(ids, IdSet(ids)) && VerdictsFrom(commands, lo, stop, ids, answers)
    requires stop < lo + |ids|
    ensures Open(commands, IdSet(ids), lo, stop)
  {
    DecidedByOwn(commands, lo, stop, ids, answers, stop - lo);
    assert ids[stop - lo] in IdSet(ids) && Undecided(commands, lo, stop, ids[stop - lo]);
  }

  lemma {:induction false} NotLong(commands: seq<Command>, lo: nat, stop: nat, ids: seq<string>, answers: nat -> Answer)
    requires lo <= stop <= |commands| && VerdictsFrom(commands, lo, stop, ids, answers)
    requires OpenUntil(commands, IdSet(ids), lo, stop)
    ensures stop <= lo + |ids|
  {
    if stop > lo + |ids| {
      assert OpenAt(commands, IdSet(ids), lo, lo + |ids|);
      var id :| id in IdSet(ids) && Undecided(commands, lo, lo + |ids|, id);
      var i :| 0 <= i < |ids| && ids[i] == id;
      assert VerdictAt(commands, lo, ids, answers, i);
      VerdictDecides(commands, lo, ids, answers, i, id);
    }
  }

  /** A batch read from its own verdicts is decided when the last of them is read, and not before. */
  lemma {:induction false} WindowIs(commands: seq<Command>, p: Position, granted: set<string>, denied: set<string>,
                                    stop: nat, ids: seq<string>, answers: nat -> Answer)
    requires MaySettle(commands, p, granted, denied, stop) && granted + denied == IdSet(ids)
    requires ListsOnce(ids, IdSet(ids)) && VerdictsFrom(commands, p.read, stop, ids, answers)
    ensures stop == p.read + |ids|
  {
    SettledIsNotOpen(commands, p, granted, denied, stop);
    NotLong(commands, p.read, stop, ids, answers);
    if stop < p.read + |ids| {
      ShortIsOpen(commands, p.read, stop, ids, answers);
    }
  }

  lemma {:induction false} SettledIsNotOpen(commands: seq<Command>, p: Position, granted: set<string>,
                                            denied: set<string>,
                                            stop: nat)
    requires MaySettle(commands, p, granted, denied, stop)
    ensures !Open(commands, granted + denied, p.read, stop)
  {
    if Open(commands, granted + denied, p.read, stop) {
      var id :| id in granted + denied && Undecided(commands, p.read, stop, id);
      SettledIsDecided(commands, p, granted, denied, stop, id);
    }
  }

  lemma {:induction false} VerdictGrants(commands: seq<Command>, lo: nat, stop: nat, ids: seq<string>,
                                         answers: nat -> Answer, i: nat)
    requires stop == lo + |ids| <= |commands| && ListsOnce(ids, IdSet(ids)) && i < |ids|
    requires VerdictsFrom(commands, lo, stop, ids, answers)
    ensures commands[lo + i] == CommandFor(ids[i], answers(lo + i))
    ensures Approved(commands, lo, stop, ids[i]) <==> answers(lo + i) == Selected("allow")
    ensures Refused(commands, lo, stop, ids[i]) <==> answers(lo + i) != Selected("allow")
  {
    assert VerdictAt(commands, lo, ids, answers, i);
    DecidedByOwn(commands, lo, stop, ids, answers, i);
    VerdictDecides(commands, lo, ids, answers, i, ids[i]);
    OnlyAllowAllows(answers(lo + i));
    assert FirstDecision(commands, lo, stop, ids[i], lo + i);
  }

  // ----- batch by batch

  /** The calls proposed by the act before `k` and not yet decided. */
  function Owed(run: Run, k: nat): nat
    requires k <= |run.acts|
  {
    if k > 0 && IsEvent(run, k - 1) && run.acts[k-1].event.ToolsProposed? then |run.acts[k-1].event.calls| else 0
  }

  /** So far the agent has read exactly the verdicts on the batches it settled. */
  ghost predicate InStepAt(input: Input, run: Run, k: nat)
    requires Legal(input, run) && k <= |run.acts|
  {
    var p := run.at[k];
    && p.read <= |input.commands| && (forall j :: 0 <= j < p.read ==> input.commands[j] != Cancel)
    && EventNumber(run, k) <= |AllEvents(run)|
    && (p.stage != Ended ==> p.read + Owed(run, k) == Requests(AllEvents(run), EventNumber(run, k)))
  }

  /** A batch waits for its decisions right after its proposal, and nothing else happens then. */
  lemma {:induction false} WaitsBehindProposal(input: Input, run: Run, s: nat)
    requires Legal(input, run) && s < |run.acts| && run.acts[s].Settle?
    ensures s > 0 && IsEvent(run, s - 1) && run.acts[s-1].event.ToolsProposed?
    ensures MaySettle(input.commands, run.at[s], run.acts[s].granted, run.acts[s].denied, run.acts[s].stop)
    ensures BatchOf(run, s - 1) == run.acts[s].granted + run.acts[s].denied
    ensures var ids := ProposedIds(run.acts[s-1].event.calls); ListsOnce(ids, IdSet(ids))
  {
    assert StepAt(input, run, s);
    assert run.at[s].stage.Proposed?;
    assert StepAt(input, run, s - 1);
    ProposedBy(input, run.at[s-1], run.acts[s-1]);
    Proposes(input, run, s - 1);
    ProposedAsRecorded(input, run, s - 1);
  }

  /** Act `s` settles the batch proposed right before it, by its own verdicts. */
  ghost predicate SettledByVerdicts(input: Input, run: Run, answers: nat -> Answer, s: nat)
    requires Legal(input, run) && s < |run.acts| && run.acts[s].Settle?
  {
    && s > 0 && IsEvent(run, s - 1) && run.acts[s-1].event.ToolsProposed?
    && EventNumber(run, s - 1) < |AllEvents(run)|
    && run.at[s].read == Requests(AllEvents(run), EventNumber(run, s - 1))
    && run.acts[s].stop == run.at[s].read + |run.acts[s-1].event.calls| <= |input.commands|
    && VerdictsFrom(input.commands, run.at[s].read, run.acts[s].stop, ProposedIds(run.acts[s-1].event.calls), answers)
  }

  /** Without a cancellation so far, the agent has read the server's own commands. */
  lemma {:induction false} ReadsVerdicts(input: Input, run: Run, answers: nat -> Answer, i: nat, stop: nat)
    requires CommandsCome(input.commands, Sent(run, answers)) && IsEvent(run, i) && run.acts[i].event.ToolsProposed?
    requires stop <= |input.commands| && forall j :: 0 <= j < stop ==> input.commands[j] != Cancel
    requires EventNumber(run, i) < |AllEvents(run)| && AllEvents(run)[EventNumber(run, i)] == run.acts[i].event
    ensures VerdictsFrom(input.commands, Requests(AllEvents(run), EventNumber(run, i)), stop,
                         ProposedIds(run.acts[i].event.calls), answers)
  {
    var e, ids := EventNumber(run, i), ProposedIds(run.acts[i].event.calls);
    var lo := Requests(AllEvents(run), e);
    SameUntilCancel(input.commands, Sent(run, answers), stop);
    forall k | 0 <= k < |ids| && lo + k < stop
      ensures VerdictAt(input.commands, lo, ids, answers, k)
    {
      var q := CallIsAsked(AllEvents(run), answers, e, k);
    }
  }

  lemma {:induction false} NoCancelsRead(commands: seq<Command>, ids: set<string>, lo: nat, hi: nat)
    requires lo <= hi <= |commands| && OpenUntil(commands, ids, lo, hi)
    requires forall j :: 0 <= j < lo ==> commands[j] != Cancel
    ensures forall j :: 0 <= j < hi ==> commands[j] != Cancel
  {
    forall j | lo <= j < hi
      ensures commands[j] != Cancel
    {
      assert OpenAt(commands, ids, lo, j);
    }
  }

  lemma {:induction false} StopIs(input: Input, run: Run, answers: nat -> Answer, s: nat)
    requires Legal(input, run) && 0 < s < |run.acts| && run.acts[s].Settle? && IsEvent(run, s - 1)
    requires run.acts[s-1].event.ToolsProposed?
    requires VerdictsFrom(input.commands, run.at[s].read, run.acts[s].stop, ProposedIds(run.acts[s-1].event.calls),
                          answers)
    ensures run.acts[s].stop == run.at[s].read + |run.acts[s-1].event.calls| <= |input.commands|
  {
    WaitsBehindProposal(input, run, s);
    WindowIs(input.commands, run.at[s], run.acts[s].granted, run.acts[s].denied, run.acts[s].stop,
             ProposedIds(run.acts[s-1].event.calls), answers);
  }

  lemma {:induction false} ReadsNoCancels(input: Input, run: Run, s: nat)
    requires Legal(input, run) && s < |run.acts| && run.acts[s].Settle? && InStepAt(input, run, s)
    ensures run.acts[s].stop <= |input.commands|
    ensures forall j :: 0 <= j < run.acts[s].stop ==> input.commands[j] != Cancel
    ensures s > 0 && IsEvent(run, s - 1) && run.acts[s-1].event.ToolsProposed? && run.at[s].stage.Proposed?
  {
    WaitsBehindProposal(input, run, s);
    NoCancelsRead(input.commands, BatchOf(run, s - 1), run.at[s].read, run.acts[s].stop);
  }

  /** The stop of a settled batch, if the agent was in step before. */
  lemma {:induction false} SettleWindow(input: Input, run: Run, answers: nat -> Answer, s: nat)
    requires Legal(input, run) && CommandsCome(input.commands, Sent(run, answers))
    requires s < |run.acts| && run.acts[s].Settle? && InStepAt(input, run, s)
    ensures SettledByVerdicts(input, run, answers, s)
    ensures forall j :: 0 <= j < run.acts[s].stop ==> input.commands[j] != Cancel
  {
    ReadsNoCancels(input, run, s);
    EventOf(run, s - 1);
    assert run.at[s].read == Requests(AllEvents(run), EventNumber(run, s - 1));
    ReadsVerdicts(input, run, answers, s - 1, run.acts[s].stop);
    StopIs(input, run, answers, s);
  }

  lemma {:induction false} InStep(input: Input, run: Run, answers: nat -> Answer, k: nat)
    requires Legal(input, run) && CommandsCome(input.commands, Sent(run, answers)) && k <= |run.acts|
    ensures InStepAt(input, run, k)
  {
    if k == 0 {
      assert EventsOf(run.acts, 0) == [];
    } else {
      InStep(input, run, answers, k - 1);
      if run.acts[k-1].Settle? {
        StaysInStepSettling(input, run, answers, k - 1);
      } else {
        StaysInStep(input, run, k - 1);
      }
    }
  }

  lemma {:induction false} StaysInStepSettling(input: Input, run: Run, answers: nat -> Answer, s: nat)
    requires Legal(input, run) && CommandsCome(input.commands, Sent(run, answers))
    requires s < |run.acts| && run.acts[s].Settle? && InStepAt(input, run, s)
    ensures InStepAt(input, run, s + 1)
  {
    SettleWindow(input, run, answers, s);
    EventOf(run, s - 1);
    assert StepAt(input, run, s);
    SettleReads(input, run.at[s], run.acts[s]);
  }

  lemma {:induction false} SettleReads(input: Input, p: Position, act: Act)
    requires Next(input, p, act).Some? && act.Settle?
    ensures p.stage.Proposed? && Next(input, p, act).value.read == act.stop
    ensures Next(input, p, act).value.stage.Executing?
  {
  }

  lemma {:induction false} StaysInStep(input: Input, run: Run, k: nat)
    requires Legal(input, run) && k < |run.acts| && !run.acts[k].Settle? && InStepAt(input, run, k)
    ensures InStepAt(input, run, k + 1)
  {
    assert StepAt(input, run, k);
    EventsGrow(run.acts, k + 1, |run.acts|);
    ReadsOnlyToSettle(input, run.at[k], run.acts[k]);
    if Owed(run, k) > 0 {
      Proposes(input, run, k - 1);
      AfterProposal(input, run.at[k], run.acts[k]);
    } else if run.acts[k].Emit? {
      EventOf(run, k);
    }
  }

  lemma {:induction false} ReadsOnlyToSettle(input: Input, p: Position, act: Act)
    requires Next(input, p, act).Some? && !act.Settle?
    ensures Next(input, p, act).value.read == p.read && p.stage != Ended
    ensures act == Emit(RunCancelled) ==> Next(input, p, act).value.stage == Ended
  {
  }

  /** Call `i` of the proposal before act `s` is decided by its own verdict. */
  ghost predicate CallSettled(input: Input, run: Run, answers: nat -> Answer, s: nat, i: nat)
    requires Legal(input, run) && s < |run.acts| && run.acts[s].Settle? && SettledByVerdicts(input, run, answers, s)
    requires i < |run.acts[s-1].event.calls|
  {
    var n, id := run.at[s].read + i, run.acts[s-1].event.calls[i].callId;
    && input.commands[n] == CommandFor(id, answers(n))
    && (id in run.acts[s].granted <==> answers(n) == Selected("allow"))
    && (id in run.acts[s].denied <==> answers(n) != Selected("allow"))
  }

  /** Main result, over whole runs: every batch is settled by exactly the verdicts on the proposal before it, one for
      each call and in its order, and grants exactly the calls for which the client selected "allow". No verdict is left
      over for a later batch. */
  lemma {:induction false} SettledByItsVerdicts(input: Input, run: Run, answers: nat -> Answer, s: nat)
    requires Legal(input, run) && CommandsCome(input.commands, Sent(run, answers))
    requires s < |run.acts| && run.acts[s].Settle?
    ensures SettledByVerdicts(input, run, answers, s)
    ensures forall i :: 0 <= i < |run.acts[s-1].event.calls| ==> CallSettled(input, run, answers, s, i)
  {
    InStep(input, run, answers, s);
    SettleWindow(input, run, answers, s);
    forall i | 0 <= i < |run.acts[s-1].event.calls|
      ensures CallSettled(input, run, answers, s, i)
    {
      SettledCall(input, run, answers, s, i);
    }
  }

  lemma {:induction false} SettledCall(input: Input, run: Run, answers: nat -> Answer, s: nat, i: nat)
    requires Legal(input, run) && s < |run.acts| && run.acts[s].Settle? && SettledByVerdicts(input, run, answers, s)
    requires i < |run.acts[s-1].event.calls|
    ensures CallSettled(input, run, answers, s, i)
  {
    WaitsBehindProposal(input, run, s);
    var ids := ProposedIds(run.acts[s-1].event.calls);
    VerdictCounts(input.commands, run.at[s], run.acts[s].granted, run.acts[s].denied, run.acts[s].stop, ids, answers,
                  i);
    assert ids[i] == run.acts[s-1].event.calls[i].callId;
  }

  /** A call goes by its own verdict. */
  lemma {:induction false} VerdictCounts(commands: seq<Command>, p: Position, granted: set<string>, denied: set<string>,
                                         stop: nat, ids: seq<string>, answers: nat -> Answer, i: nat)
    requires MaySettle(commands, p, granted, denied, stop) && granted + denied == IdSet(ids)
    requires ListsOnce(ids, IdSet(ids)) && VerdictsFrom(commands, p.read, stop, ids, answers)
    requires i < |ids| && stop == p.read + |ids|
    ensures commands[p.read + i] == CommandFor(ids[i], answers(p.read + i))
    ensures ids[i] in granted <==> answers(p.read + i) == Selected("allow")
    ensures ids[i] in denied <==> answers(p.read + i) != Selected("allow")
  {
    VerdictGrants(commands, p.read, stop, ids, answers, i);
    assert ids[i] in IdSet(ids);
    GrantedOrDenied(commands, p, granted, denied, stop, ids[i]);
  }

  lemma {:induction false} GrantedOrDenied(commands: seq<Command>, p: Position, granted: set<string>,
                                           denied: set<string>,
                                           stop: nat, id: string)
    requires MaySettle(commands, p, granted, denied, stop) && id in granted + denied
    ensures id in granted ==> Approved(commands, p.read, stop, id) && id !in denied
    ensures id in denied ==> Refused(commands, p.read, stop, id)
  {
  }

  /** Call `m` of the proposal before act `s` was allowed by the client, asked about it at place `q` of what left the
      event loop, and the approval sent right after that answer is the command the agent read for it. */
  ghost predicate AllowedAt(input: Input, run: Run, answers: nat -> Answer, s: nat, m: nat, q: nat)
    requires Legal(input, run) && s < |run.acts| && run.acts[s].Settle? && SettledByVerdicts(input, run, answers, s)
    requires m < |run.acts[s-1].event.calls|
  {
    var events, e, call := AllEvents(run), EventNumber(run, s - 1), run.acts[s-1].event.calls[m];
    && events[e] == run.acts[s-1].event && AskedAt(events, answers, e, m, q)
    && Stream(events, answers, |events|)[q] == Ask(call, Selected("allow"))
    && |CommandsOf(Stream(events, answers, |events|), q + 1)| == run.at[s].read + m
    && input.commands[run.at[s].read + m] == Approve(call.callId)
  }

  lemma {:induction false} GrantedWasAllowed(input: Input, run: Run, answers: nat -> Answer, s: nat, m: nat)
    returns (q: nat)
    requires Legal(input, run) && s < |run.acts| && run.acts[s].Settle? && SettledByVerdicts(input, run, answers, s)
    requires m < |run.acts[s-1].event.calls| && CallSettled(input, run, answers, s, m)
    requires run.acts[s-1].event.calls[m].callId in run.acts[s].granted
    ensures AllowedAt(input, run, answers, s, m, q)
  {
    EventOf(run, s - 1);
    OnlyAllowAllows(answers(run.at[s].read + m));
    q := CallIsAsked(AllEvents(run), answers, EventNumber(run, s - 1), m);
  }

  /** Act `s` settled the batch that is dealt with at act `i`, and nothing was settled or completed in between. */
  ghost predicate SettledBefore(input: Input, run: Run, answers: nat -> Answer, s: nat, i: nat)
    requires Legal(input, run)
  {
    && s < i <= |run.acts| && run.acts[s].Settle? && SettledByVerdicts(input, run, answers, s)
    && forall j :: s < j < i ==> !run.acts[j].Settle? && run.acts[j] != Emit(ToolsCompleted)
  }

  /** Across the agent and the server: a tool call is announced as started only after its own batch was settled, for
      whose proposal the client was asked about that very call and selected "allow"; the approval the agent read there
      is the one sent right after that answer. */
  lemma {:induction false} NoStartWithoutPermission(input: Input, run: Run, answers: nat -> Answer, i: nat)
    returns (s: nat, m: nat, q: nat)
    requires Legal(input, run) && CommandsCome(input.commands, Sent(run, answers))
    requires IsEvent(run, i) && run.acts[i].event.ToolStarted?
    ensures SettledBefore(input, run, answers, s, i)
    ensures m < |run.acts[s-1].event.calls| && run.acts[s-1].event.calls[m].callId == run.acts[i].event.callId
    ensures AllowedAt(input, run, answers, s, m, q)
  {
    s := StartedWasApproved(input, run, i);
    SettledByItsVerdicts(input, run, answers, s);
    m := IndexOfCall(input, run, s, run.acts[i].event.callId);
    q := GrantedWasAllowed(input, run, answers, s, m);
  }

  /** Main result, across the agent and the server: whatever is handed to a tool, with its name and arguments, is a call
      of the proposal of its own batch, which the client was asked about in that form and allowed; the approval the
      agent read for it is the one sent right after that answer. */
  lemma {:induction false} NoToolWithoutPermission(input: Input, run: Run, answers: nat -> Answer, i: nat)
    returns (s: nat, m: nat, q: nat)
    requires Legal(input, run) && CommandsCome(input.commands, Sent(run, answers))
    requires i < |run.acts| && run.acts[i].Execute?
    ensures SettledBefore(input, run, answers, s, i)
    ensures m < |run.acts[s-1].event.calls| && ShownAs(run.acts[s-1].event.calls[m], run.acts[i].call)
    ensures AllowedAt(input, run, answers, s, m, q)
  {
    s := ExecutedAsProposed(input, run, i);
    SettledByItsVerdicts(input, run, answers, s);
    ProposedJustBefore(input, run, s);
    m :| 0 <= m < |run.at[s].proposed| && ShownAs(run.at[s].proposed[m], run.acts[i].call);
    q := GrantedWasAllowed(input, run, answers, s, m);
  }

  lemma {:induction false} ProposedJustBefore(input: Input, run: Run, s: nat)
    requires Legal(input, run) && 0 < s < |run.acts| && IsEvent(run, s - 1) && run.acts[s-1].event.ToolsProposed?
    ensures run.at[s].proposed == run.acts[s-1].event.calls
  {
    assert StepAt(input, run, s - 1);
  }

  lemma {:induction false} IndexOfCall(input: Input, run: Run, s: nat, id: string) returns (m: nat)
    requires Legal(input, run) && s < |run.acts| && run.acts[s].Settle? && id in run.acts[s].granted
    ensures s > 0 && IsEvent(run, s - 1) && run.acts[s-1].event.ToolsProposed?
    ensures m < |run.acts[s-1].event.calls| && run.acts[s-1].event.calls[m].callId == id
  {
    WaitsBehindProposal(input, run, s);
    assert id in BatchOf(run, s - 1);
    m :| 0 <= m < |run.acts[s-1].event.calls| && ProposedIds(run.acts[s-1].event.calls)[m] == id;
  }

  // ----- the event loop behind the agent

  /** The event loop itself sends no cancellation while it handles events. */
  ghost predicate CancelsNothing(out: seq<Outgoing>) {
    forall k :: 0 <= k < |out| && out[k].Send? ==> out[k].command != Cancel
  }

  lemma {:induction false} ProposalCancelsNothing(done: seq<Outgoing>, calls: seq<ProposedCall>, answers: nat -> Answer,
                                                  asked: nat, k: nat)
    requires k <= |calls| && CancelsNothing(done)
    ensures CancelsNothing(ProposalAfter(done, calls, answers, asked, k))
  {
    if k == 0 {
    } else {
      ProposalCancelsNothing(done, calls, answers, asked, k - 1);
    }
  }

  lemma {:induction false} StreamCancelsNothing(events: seq<Event>, answers: nat -> Answer, k: nat)
    requires k <= |events|
    ensures CancelsNothing(Stream(events, answers, k))
  {
    if k == 0 {
    } else {
      StreamCancelsNothing(events, answers, k - 1);
      var done, e := Stream(events, answers, k-1), events[k-1];
      if e.ToolsProposed? {
        ProposalCancelsNothing(done, e.calls, answers, Requests(events, k-1), |e.calls|);
      }
    }
  }

  lemma {:induction false} NoCancelCommands(out: seq<Outgoing>, k: nat)
    requires k <= |out| && CancelsNothing(out)
    ensures forall j :: 0 <= j < |CommandsOf(out, k)| ==> CommandsOf(out, k)[j] != Cancel
  {
    if k == 0 {
    } else {
      NoCancelCommands(out, k - 1);
    }
  }

  lemma {:induction false} PrefixSends(out: seq<Outgoing>, all: seq<Outgoing>)
    requires out <= all
    ensures CommandsOf(out, |out|) <= CommandsOf(all, |all|)
  {
    CommandsOfLonger(out, all, |out|);
    CommandsGrow(all, |out|, |all|);
  }

  /** Whatever part of its stream the event loop has let out, what it sent is the beginning of what it sends for the
      whole run. */
  lemma {:induction false} SentSoFar(run: Run, answers: nat -> Answer, out: seq<Outgoing>, n: nat)
    requires n <= |AllEvents(run)| && out <= Stream(AllEvents(run), answers, n)
    ensures CommandsOf(out, |out|) <= Sent(run, answers) && CommandsCome(CommandsOf(out, |out|), Sent(run, answers))
  {
    var all := Stream(AllEvents(run), answers, |AllEvents(run)|);
    StreamGrows(AllEvents(run), answers, n, |AllEvents(run)|);
    PrefixSends(out, all);
    StreamCancelsNothing(AllEvents(run), answers, |AllEvents(run)|);
    NoCancelCommands(all, |all|);
    NoCancelsYet(CommandsOf(out, |out|), |CommandsOf(out, |out|)|);
  }

  lemma {:induction false} OneMoreCancel(out: seq<Outgoing>, sent: seq<Command>)
    requires CommandsCome(CommandsOf(out, |out|), sent)
    ensures CommandsCome(CommandsOf(out + [Send(Cancel)], |out| + 1), sent)
  {
    var commands := CommandsOf(out, |out|);
    CommandsOfLonger(out, out + [Send(Cancel)], |out|);
    OneMorePut(commands, Cancel, |commands|);
  }

  /** Runner and event loop behind a run of the agent: what the loop sends, and so what reaches the agent with whatever
      cancellations come in between, are the commands for this run's own events, each once and in order. */
  method ServeRun(ghost input: Input, run: Run, sessionId: string, agentName: string, handler: Handler,
                  interrupted: nat -> bool)
    returns (result: Option<PromptResult>, n: nat, hung: bool)
    requires Legal(input, run) && handler.Valid() && handler.out == [] && handler.asked == 0
    modifies handler
    ensures CommandsCome(CommandsOf(handler.out, |handler.out|), Sent(run, handler.answers))
    ensures n <= |AllEvents(run)|
    ensures !hung && n == |AllEvents(run)| && !interrupted(n) ==>
              CommandsOf(handler.out, |handler.out|) == Sent(run, handler.answers)
    ensures !hung && n > 0 ==> EndsAs(result, AllEvents(run)[n-1])
    ensures Undisturbed(interrupted) && |Sent(run, handler.answers)| <= handler.room ==>
              !hung && n == |AllEvents(run)| && (result.Some? <==> Last(run).stage == Ended)
  {
    var seen, closed := ForwardRun(input, run, sessionId, agentName);
    ghost var answers := handler.answers;
    result, n, hung := handler.ForwardEvents(seen, closed, interrupted);
    LabelsDoNotMatter(seen, AllEvents(run), sessionId, agentName, [], answers, 0, n);
    LoopSends(run, answers, handler.out, n, LastResult(seen, n).None? && interrupted(n));
    if Undisturbed(interrupted) {
      SendsNoMore(run, answers, n);
      TerminalComesLast(input, run);
    }
  }

  /** Neither the connection nor the request ends while the events come in. */
  ghost predicate Undisturbed(interrupted: nat -> bool) {
    forall k :: !interrupted(k)
  }

  lemma {:induction false} SendsNoMore(run: Run, answers: nat -> Answer, n: nat)
    requires n <= |AllEvents(run)|
    ensures var some := Stream(AllEvents(run), answers, n); |CommandsOf(some, |some|)| <= |Sent(run, answers)|
  {
    StreamGrows(AllEvents(run), answers, n, |AllEvents(run)|);
    PrefixSends(Stream(AllEvents(run), answers, n), Stream(AllEvents(run), answers, |AllEvents(run)|));
  }

  /** Whatever the event loop lets out when it handles `n` events, and then sends a cancellation or not, is in step with
      the run. */
  lemma {:induction false} LoopSends(run: Run, answers: nat -> Answer, out: seq<Outgoing>, n: nat, cancels: bool)
    requires n <= |AllEvents(run)|
    requires var all := Stream(AllEvents(run), answers, n); out <= if cancels then all + [Send(Cancel)] else all
    ensures CommandsCome(CommandsOf(out, |out|), Sent(run, answers))
    ensures n == |AllEvents(run)| && out == Stream(AllEvents(run), answers, n) ==>
              CommandsOf(out, |out|) == Sent(run, answers)
  {
    var all := Stream(AllEvents(run), answers, n);
    if out <= all {
      SentSoFar(run, answers, out, n);
    } else {
      assert out == all + [Send(Cancel)];
      SentSoFar(run, answers, all, n);
      OneMoreCancel(all, Sent(run, answers));
    }
  }
}
