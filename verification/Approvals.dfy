/** The batch of tool calls that waits for approval: how it is built, listed, and decided by a stream of commands.
    The order in which a Go map is walked is arbitrary, and differs from one walk to the next. */
module Approvals {

  import opened Options
  import opened Messages

  datatype Approval = Pending | Granted | Denied

  datatype PendingCall = PendingCall(id: string, name: string, arguments: string, approval: Approval, reason: string)

  datatype ProposedCall = ProposedCall(callId: string, name: string, arguments: string, preview: string)

  datatype Command = Approve(callId: string) | Deny(callId: string, reason: string) | Cancel | Unknown

  /** How waiting for approvals ends; `Waiting` when the channel is empty but open. */
  datatype Collected = Decided | Cancelled | ChannelClosed | Waiting

  // ----- building

  /** The id call `i` goes by: its own, or a new one when it has none. */
  function Key(calls: seq<ToolCall>, newId: nat -> string, i: nat): string
    requires i < |calls|
  {
    if calls[i].id == "" then newId(i) else calls[i].id
  }

  /** Call `i` is the last one that goes by this id among the first `k`. */
  ghost predicate LastOfKey(calls: seq<ToolCall>, newId: nat -> string, k: nat, id: string, i: nat)
    requires k <= |calls|
  {
    i < k && Key(calls, newId, i) == id && forall j :: i < j < k ==> Key(calls, newId, j) != id
  }

  /** Entry `id` of the map is call `i`, the last one of that id among the first `k`, not decided yet. */
  ghost predicate ComesFrom(m: map<string, PendingCall>, calls: seq<ToolCall>, newId: nat -> string, k: nat, id: string,
                            i: nat)
    requires k <= |calls|
  {
    && LastOfKey(calls, newId, k, id, i) && id in m && m[id].id == id
    && m[id].name == calls[i].name && m[id].arguments == calls[i].arguments
    && m[id].approval == Pending && m[id].reason == ""
  }

  ghost predicate HasSource(m: map<string, PendingCall>, calls: seq<ToolCall>, newId: nat -> string, k: nat, id: string)
    requires k <= |calls|
  {
    exists i: nat :: ComesFrom(m, calls, newId, k, id, i)
  }

  /** The map holds one entry for every id in use, and it is the last call of that id. */
  ghost predicate Represents(m: map<string, PendingCall>, calls: seq<ToolCall>, newId: nat -> string, k: nat)
    requires k <= |calls|
  {
    && (forall i :: 0 <= i < k ==> Key(calls, newId, i) in m)
    && (forall id :: id in m ==> HasSource(m, calls, newId, k, id))
  }

  lemma {:induction false} RepresentsOneMore(m: map<string, PendingCall>, calls: seq<ToolCall>, newId: nat -> string,
                                             k: nat, entry: PendingCall)
    requires k < |calls| && Represents(m, calls, newId, k)
    requires entry.id == Key(calls, newId, k) && entry.name == calls[k].name && entry.arguments == calls[k].arguments
    requires entry.approval == Pending && entry.reason == ""
    ensures Represents(m[entry.id := entry], calls, newId, k + 1)
  {
    var key := entry.id;
    var m' := m[key := entry];
    forall id | id in m'
      ensures HasSource(m', calls, newId, k + 1, id)
    {
      if id == key {
        assert ComesFrom(m', calls, newId, k + 1, id, k);
      } else {
        assert HasSource(m, calls, newId, k, id);
        var i: nat :| ComesFrom(m, calls, newId, k, id, i);
        assert ComesFrom(m', calls, newId, k + 1, id, i);
      }
    }
  }

  /** A call whose id no later call repeats keeps its entry; in particular every call that got a new id does. */
  lemma {:induction false} UnrepeatedCallIsKept(m: map<string, PendingCall>, calls: seq<ToolCall>, newId: nat -> string,
                                                i: nat)
    requires i < |calls| && Represents(m, calls, newId, |calls|)
    requires forall j :: i < j < |calls| ==> Key(calls, newId, j) != Key(calls, newId, i)
    ensures Key(calls, newId, i) in m
    ensures m[Key(calls, newId, i)] == PendingCall(Key(calls, newId, i), calls[i].name, calls[i].arguments, Pending, "")
  {
    var id := Key(calls, newId, i);
    assert HasSource(m, calls, newId, |calls|, id);
    var j: nat :| ComesFrom(m, calls, newId, |calls|, id, j);
  }

  // ----- listing

  predicate Differ(ids: seq<string>, i: nat, j: nat)
    requires i < j < |ids|
  {
    ids[i] != ids[j]
  }

  /** Every key exactly once, in some order. */
  ghost predicate ListsOnce(ids: seq<string>, keys: set<string>) {
    && (forall i, j :: 0 <= i < j < |ids| ==> Differ(ids, i, j))
    && (forall i :: 0 <= i < |ids| ==> ids[i] in keys)
    && (forall id :: id in keys ==> id in ids)
  }

  lemma {:induction false} ListsOneMore(ids: seq<string>, keys: set<string>, id: string)
    requires ListsOnce(ids, keys) && id !in keys
    ensures ListsOnce(ids + [id], keys + {id})
  {
    forall i, j | 0 <= i < j < |ids| + 1
      ensures Differ(ids + [id], i, j)
    {
      assert j < |ids| ==> Differ(ids, i, j);
    }
  }

  function CallIds(calls: seq<ToolCall>): (ids: seq<string>)
    ensures |ids| == |calls|
  {
    seq(|calls|, i requires 0 <= i < |calls| => calls[i].id)
  }

  function ProposedIds(calls: seq<ProposedCall>): (ids: seq<string>)
    ensures |ids| == |calls|
  {
    seq(|calls|, i requires 0 <= i < |calls| => calls[i].callId)
  }

  function DecisionIds(calls: seq<PendingCall>): (ids: seq<string>)
    ensures |ids| == |calls|
  {
    seq(|calls|, i requires 0 <= i < |calls| => calls[i].id)
  }

  function AsCall(call: PendingCall): ToolCall {
    ToolCall(call.id, call.name, call.arguments)
  }

  /** A preview that fails is left empty. */
  function AsProposal(call: PendingCall, preview: (string, string) -> Option<string>): ProposedCall {
    var text := preview(call.name, call.arguments);
    ProposedCall(call.id, call.name, call.arguments, if text.Some? then text.value else "")
  }

  // ----- deciding

  predicate Decides(command: Command, id: string) {
    (command.Approve? || command.Deny?) && command.callId == id
  }

  /** A call after one command: only a pending call changes, and only on a command with its id. */
  function AfterCommand(call: PendingCall, command: Command): PendingCall {
    if call.approval != Pending || !Decides(command, call.id) then call
    else if command.Approve? then call.(approval := Granted)
    else call.(approval := Denied, reason := command.reason)
  }

  function AfterCommands(call: PendingCall, commands: seq<Command>, lo: nat, hi: nat): (r: PendingCall)
    requires lo <= hi <= |commands|
    ensures r.id == call.id && r.name == call.name && r.arguments == call.arguments
    decreases hi
  {
    if hi == lo then call else AfterCommand(AfterCommands(call, commands, lo, hi - 1), commands[hi-1])
  }

  /** Command `j` is the first in the range that decides call `id`. */
  ghost predicate FirstDecision(commands: seq<Command>, lo: nat, hi: nat, id: string, j: nat) {
    lo <= j < hi <= |commands| && Decides(commands[j], id) && forall k :: lo <= k < j ==> !Decides(commands[k], id)
  }

  ghost predicate Undecided(commands: seq<Command>, lo: nat, hi: nat, id: string) {
    forall k :: lo <= k < hi && k < |commands| ==> !Decides(commands[k], id)
  }

  /** The first approval or denial with a call's id settles it, whatever comes later. */
  lemma {:induction false} FirstDecisionCounts(call: PendingCall, commands: seq<Command>, lo: nat, hi: nat)
    requires lo <= hi <= |commands| && call.approval == Pending
    ensures AfterCommands(call, commands, lo, hi).approval == Pending <==> Undecided(commands, lo, hi, call.id)
    ensures forall j: nat :: FirstDecision(commands, lo, hi, call.id, j) ==>
              AfterCommands(call, commands, lo, hi) == AfterCommand(call, commands[j])
    ensures AfterCommands(call, commands, lo, hi).approval != Pending ==>
              exists j :: FirstDecision(commands, lo, hi, call.id, j)
    decreases hi
  {
    if lo < hi {
      FirstDecisionCounts(call, commands, lo, hi - 1);
      if Undecided(commands, lo, hi - 1, call.id) {
        if Decides(commands[hi-1], call.id) {
          assert FirstDecision(commands, lo, hi, call.id, hi - 1);
        }
        UndecidedIsUntouched(call, commands, lo, hi - 1);
      } else {
        var j :| FirstDecision(commands, lo, hi - 1, call.id, j);
        assert FirstDecision(commands, lo, hi, call.id, j);
      }
    }
  }

  /** A denied call was denied by the first decision on its id, and carries the reason given there. */
  lemma {:induction false} DeniedWithReason(call: PendingCall, commands: seq<Command>, lo: nat, hi: nat)
    returns (j: nat)
    requires lo <= hi <= |commands| && call.approval == Pending
    requires AfterCommands(call, commands, lo, hi).approval == Denied
    ensures FirstDecision(commands, lo, hi, call.id, j)
    ensures commands[j] == Deny(call.id, AfterCommands(call, commands, lo, hi).reason)
  {
    FirstDecisionCounts(call, commands, lo, hi);
    j :| FirstDecision(commands, lo, hi, call.id, j);
  }

  lemma {:induction false} UndecidedIsUntouched(call: PendingCall, commands: seq<Command>, lo: nat, hi: nat)
    requires lo <= hi <= |commands| && Undecided(commands, lo, hi, call.id)
    ensures AfterCommands(call, commands, lo, hi) == call
    decreases hi
  {
    if lo < hi {
      UndecidedIsUntouched(call, commands, lo, hi - 1);
    }
  }

  /** Every call of the batch has been decided by the commands in the range. */
  ghost predicate AllDecidedAt(calls: map<string, PendingCall>, commands: seq<Command>, lo: nat, hi: nat)
    requires lo <= hi <= |commands|
  {
    forall id :: id in calls ==> AfterCommands(calls[id], commands, lo, hi).approval != Pending
  }

  /** The batch is what the commands in the range make of `before`. */
  ghost predicate Follows(after: map<string, PendingCall>, before: map<string, PendingCall>, commands: seq<Command>,
                          lo: nat, hi: nat)
    requires lo <= hi <= |commands|
  {
    && after.Keys == before.Keys
    && forall id :: id in before ==> after[id] == AfterCommands(before[id], commands, lo, hi)
  }

  /** Before `hi` there is neither a cancellation nor a prefix that decides every call. */
  ghost predicate StillWaiting(calls: map<string, PendingCall>, commands: seq<Command>, lo: nat, hi: nat)
    requires hi <= |commands|
  {
    forall k :: lo <= k < hi ==> commands[k] != Cancel && !AllDecidedAt(calls, commands, lo, k)
  }

  lemma {:induction false} FollowsOneMore(next: map<string, PendingCall>, after: map<string, PendingCall>,
                                          before: map<string, PendingCall>,
                                          commands: seq<Command>, lo: nat, hi: nat)
    requires lo <= hi < |commands| && Follows(after, before, commands, lo, hi) && next.Keys == after.Keys
    requires forall id :: id in next ==> next[id] == AfterCommand(after[id], commands[hi])
    ensures Follows(next, before, commands, lo, hi + 1)
  {
    forall id | id in before
      ensures next[id] == AfterCommands(before[id], commands, lo, hi + 1)
    {
      assert after[id] == AfterCommands(before[id], commands, lo, hi);
    }
  }

  ghost predicate NonePending(calls: map<string, PendingCall>) {
    forall id :: id in calls ==> calls[id].approval != Pending
  }

  lemma {:induction false} NothingTakenYet(before: map<string, PendingCall>, commands: seq<Command>, lo: nat)
    requires lo <= |commands|
    ensures Follows(before, before, commands, lo, lo) && StillWaiting(before, commands, lo, lo)
  {
  }

  lemma {:induction false} WaitsForOneMore(after: map<string, PendingCall>, before: map<string, PendingCall>,
                                           commands: seq<Command>, lo: nat, hi: nat)
    requires lo <= hi < |commands| && Follows(after, before, commands, lo, hi) && StillWaiting(before, commands, lo, hi)
    requires !NonePending(after) && commands[hi] != Cancel
    ensures StillWaiting(before, commands, lo, hi + 1)
  {
    DecidedNow(after, before, commands, lo, hi);
  }

  lemma {:induction false} DecidedNow(after: map<string, PendingCall>, before: map<string, PendingCall>,
                                      commands: seq<Command>, lo: nat, hi: nat)
    requires lo <= hi <= |commands| && Follows(after, before, commands, lo, hi)
    ensures AllDecidedAt(before, commands, lo, hi) <==> NonePending(after)
  {
    if NonePending(after) {
      forall id | id in before
        ensures AfterCommands(before[id], commands, lo, hi).approval != Pending
      {
        assert id in after && after[id] == AfterCommands(before[id], commands, lo, hi);
      }
    }
  }

  /** A call is granted only if the client approved that very id. */
  lemma {:induction false} GrantedWasApproved(call: PendingCall, commands: seq<Command>, lo: nat, hi: nat)
    returns (j: nat)
    requires lo <= hi <= |commands| && call.approval == Pending
    requires AfterCommands(call, commands, lo, hi).approval == Granted
    ensures FirstDecision(commands, lo, hi, call.id, j) && commands[j] == Approve(call.id)
  {
    FirstDecisionCounts(call, commands, lo, hi);
    j :| FirstDecision(commands, lo, hi, call.id, j);
  }

  // ----- cancellations in between

  /** The first `k` commands without the cancellations among them. */
  function WithoutCancels(commands: seq<Command>, k: nat): seq<Command>
    requires k <= |commands|
  {
    if k == 0 then []
    else if commands[k-1] == Cancel then WithoutCancels(commands, k-1)
    else WithoutCancels(commands, k-1) + [commands[k-1]]
  }

  lemma {:induction false} WithoutCancelsGrows(commands: seq<Command>, j: nat, k: nat)
    requires j <= k <= |commands|
    ensures WithoutCancels(commands, j) <= WithoutCancels(commands, k)
  {
    if j < k {
      WithoutCancelsGrows(commands, j, k - 1);
    }
  }

  lemma {:induction false} NoCancelsYet(commands: seq<Command>, k: nat)
    requires k <= |commands| && forall j :: 0 <= j < k ==> commands[j] != Cancel
    ensures WithoutCancels(commands, k) == commands[..k]
  {
    if k == 0 {
    } else {
      NoCancelsYet(commands, k - 1);
    }
  }

  lemma {:induction false} OneMorePut(put: seq<Command>, c: Command, k: nat)
    requires k <= |put|
    ensures WithoutCancels(put + [c], k) == WithoutCancels(put, k)
  {
    if k == 0 {
    } else {
      OneMorePut(put, c, k - 1);
    }
  }

  class PendingBatch {

    var calls: map<string, PendingCall>

    /** Entries are filed under their own id. */
    ghost predicate Valid()
      reads this
    {
      forall id :: id in calls ==> calls[id].id == id
    }

    /** `buildPending`. */
    constructor (toolCalls: seq<ToolCall>, newId: nat -> string)
      ensures Valid() && Represents(calls, toolCalls, newId, |toolCalls|)
      ensures forall id :: id in calls ==> calls[id].approval == Pending
      ensures toolCalls != [] ==> calls != map[]
    {
      calls := map[];
      new;
      for k := 0 to |toolCalls|
        invariant Represents(calls, toolCalls, newId, k)
      {
        var callID := if toolCalls[k].id == "" then newId(k) else toolCalls[k].id;
        var call := PendingCall(callID, toolCalls[k].name, toolCalls[k].arguments, Pending, "");
        RepresentsOneMore(calls, toolCalls, newId, k, call);
        calls := calls[callID := call];
      }
      assert toolCalls != [] ==> Key(toolCalls, newId, 0) in calls;
    }

    /** One walk over the map, in an arbitrary order. */
    method Walk() returns (ids: seq<string>)
      ensures ListsOnce(ids, calls.Keys)
    {
      var rest := calls.Keys;
      ids := [];
      while rest != {}
        invariant rest <= calls.Keys
        invariant ListsOnce(ids, calls.Keys - rest)
        decreases |rest|
      {
        var id :| id in rest;
        ListsOneMore(ids, calls.Keys - rest, id);
        assert calls.Keys - (rest - {id}) == calls.Keys - rest + {id};
        ids := ids + [id];
        rest := rest - {id};
      }
    }

    method AsToolCalls() returns (out: seq<ToolCall>)
      requires Valid()
      ensures ListsOnce(CallIds(out), calls.Keys)
      ensures forall i :: 0 <= i < |out| ==> out[i].id in calls && out[i] == AsCall(calls[out[i].id])
    {
      var ids := Walk();
      out := [];
      for k := 0 to |ids|
        invariant |out| == k
        invariant forall i :: 0 <= i < k ==> out[i] == AsCall(calls[ids[i]])
      {
        out := out + [AsCall(calls[ids[k]])];
      }
      assert CallIds(out) == ids;
    }

    method AsProposed(preview: (string, string) -> Option<string>) returns (out: seq<ProposedCall>)
      requires Valid()
      ensures ListsOnce(ProposedIds(out), calls.Keys)
      ensures forall i :: 0 <= i < |out| ==> out[i].callId in calls
      ensures forall i :: 0 <= i < |out| ==> out[i] == AsProposal(calls[out[i].callId], preview)
    {
      var ids := Walk();
      out := [];
      for k := 0 to |ids|
        invariant |out| == k
        invariant forall i :: 0 <= i < k ==> out[i] == AsProposal(calls[ids[i]], preview)
      {
        out := out + [AsProposal(calls[ids[k]], preview)];
      }
      assert ProposedIds(out) == ids;
    }

    method CollectDecisions() returns (out: seq<PendingCall>)
      requires Valid()
      ensures ListsOnce(DecisionIds(out), calls.Keys)
      ensures forall i :: 0 <= i < |out| ==> out[i].id in calls && out[i] == calls[out[i].id]
    {
      var ids := Walk();
      out := [];
      for k := 0 to |ids|
        invariant |out| == k
        invariant forall i :: 0 <= i < k ==> out[i].id == ids[i]
        invariant forall i :: 0 <= i < k ==> out[i].id in calls && out[i] == calls[out[i].id]
      {
        out := out + [calls[ids[k]]];
      }
      assert DecisionIds(out) == ids;
    }

    method AreAllDecided() returns (all: bool)
      ensures all <==> NonePending(calls)
    {
      var ids := Walk();
      all := true;
      for k := 0 to |ids|
        invariant all <==> forall i :: 0 <= i < k ==> calls[ids[i]].approval != Pending
      {
        if calls[ids[k]].approval == Pending {
          all := false;
        }
      }
    }

    /** One command read from the channel. */
    method Take(command: Command)
      requires Valid()
      modifies this
      ensures Valid() && calls.Keys == old(calls).Keys
      ensures forall id :: id in calls ==> calls[id] == AfterCommand(old(calls)[id], command)
    {
      if command.Approve? {
        if command.callId in calls && calls[command.callId].approval == Pending {
          calls := calls[command.callId := calls[command.callId].(approval := Granted)];
        }
      } else if command.Deny? {
        if command.callId in calls && calls[command.callId].approval == Pending {
          calls := calls[command.callId := calls[command.callId].(approval := Denied, reason := command.reason)];
        }
      }
    }

    /** Reads commands from position `lo` of the channel until every call is decided, a cancellation arrives, or the
        channel ends. `stop` is where it stops: the shortest prefix that decides the batch, or everything before the
        cancellation or the end. A cancellation is consumed. */
    method CollectApprovals(commands: seq<Command>, lo: nat, closed: bool) returns (r: Collected, stop: nat)
      requires Valid() && lo <= |commands|
      modifies this
      ensures Valid() && lo <= stop <= |commands|
      ensures Follows(calls, old(calls), commands, lo, stop)
      ensures StillWaiting(old(calls), commands, lo, stop)
      ensures r == Decided <==> AllDecidedAt(old(calls), commands, lo, stop)
      ensures r == Cancelled ==> stop < |commands| && commands[stop] == Cancel
      ensures r == ChannelClosed || r == Waiting ==> stop == |commands| && (r == ChannelClosed <==> closed)
    {
      stop := lo;
      ghost var before := calls;
      NothingTakenYet(before, commands, lo);
      var all := AreAllDecided();
      while !all && stop < |commands| && commands[stop] != Cancel
        invariant Valid() && lo <= stop <= |commands|
        invariant Follows(calls, before, commands, lo, stop)
        invariant all <==> NonePending(calls)
        invariant StillWaiting(before, commands, lo, stop)
      {
        WaitsForOneMore(calls, before, commands, lo, stop);
        all := TakeNext(before, commands, lo, stop);
        stop := stop + 1;
      }
      DecidedNow(calls, before, commands, lo, stop);
      r := if all then Decided else if stop < |commands| then Cancelled else if closed then ChannelClosed else Waiting;
    }

    /** One round of the loop. */
    method TakeNext(ghost before: map<string, PendingCall>, commands: seq<Command>, ghost lo: nat, k: nat)
      returns (all: bool)
      requires Valid() && lo <= k < |commands| && Follows(calls, before, commands, lo, k)
      modifies this
      ensures Valid() && Follows(calls, before, commands, lo, k + 1) && (all <==> NonePending(calls))
    {
      ghost var was := calls;
      Take(commands[k]);
      FollowsOneMore(calls, was, before, commands, lo, k);
      all := AreAllDecided();
    }
  }

  method AnyWasDenied(calls: seq<PendingCall>) returns (any: bool)
    ensures any <==> exists i :: 0 <= i < |calls| && calls[i].approval == Denied
  {
    any := false;
    for k := 0 to |calls|
      invariant any <==> exists i :: 0 <= i < k && calls[i].approval == Denied
    {
      if calls[k].approval == Denied {
        any := true;
      }
    }
  }
}
