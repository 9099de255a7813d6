/** Two endpoints over a FIFO pipe: server goroutines that each write a request's updates and then its response, and
    a client whose read loop handles notifications one by one. The main result: when a request has returned a result,
    every update written for it has already been handled, in order. */
module Wire {

  import opened Options
  import C = Connection

  /** A line from server to client: update number `n` for a request, a response, or anything else. */
  datatype Line = Update(owner: nat, n: nat) | Response(id: nat, reply: C.Reply) | Other

  /** The goroutine serving one request: how many updates it has written, and its response once written. */
  datatype Job = Job(request: nat, written: nat, finished: Option<C.Reply>)

  /** `asked` lists the ids of the requests the client wrote, of which the server has taken the first `|jobs|`. `wire`
      is everything the server wrote, `read` how much of it the client's read loop has taken, `busy` the notification
      it is handling, `handled` the updates already handled. */
  datatype System = System(
    client: C.State,
    asked: seq<nat>,
    jobs: seq<Job>,
    wire: seq<Line>,
    read: nat,
    busy: Option<Line>,
    handled: seq<Line>)

  datatype Action =
    | ClientStep(step: C.Step)
    | Accept
    | WriteUpdate(job: nat)
    | WriteResponse(job: nat, reply: C.Reply)
    | WriteOther
    | ReadLine
    | FinishHandling

  const START := System(C.INITIAL, [], [], [], 0, None, [])

  predicate Possible(s: System, a: Action) {
    match a
    case ClientStep(step) => !step.ReadResponse? && C.Enabled(s.client, step) && (step.EndOfInput? ==> s.busy.None?)
    case Accept => |s.jobs| < |s.asked|
    case WriteUpdate(job) => job < |s.jobs| && s.jobs[job].finished.None?
    case WriteResponse(job, _) => job < |s.jobs| && s.jobs[job].finished.None?
    case WriteOther => true
    case ReadLine => s.client.reader == C.Reading && s.busy.None? && s.read < |s.wire|
    case FinishHandling => s.busy.Some?
  }

  function Next(s: System, a: Action): System
    requires Possible(s, a)
  {
    match a
    case ClientStep(step) => s.(client := C.Apply(s.client, step),
                                asked := if step.Write? then s.asked + [step.id] else s.asked)
    case Accept => s.(jobs := s.jobs + [Job(s.asked[|s.jobs|], 0, None)])
    case WriteUpdate(job) =>
      var j := s.jobs[job];
      s.(jobs := s.jobs[job := j.(written := j.written + 1)], wire := s.wire + [Update(j.request, j.written)])
    case WriteResponse(job, reply) =>
      var j := s.jobs[job];
      s.(jobs := s.jobs[job := j.(finished := Some(reply))], wire := s.wire + [Response(j.request, reply)])
    case WriteOther => s.(wire := s.wire + [Other])
    case ReadLine =>
      var l := s.wire[s.read];
      if l.Update? then s.(read := s.read + 1, busy := Some(l))
      else if l.Response? then
        s.(read := s.read + 1, client := C.Apply(s.client, C.ReadResponse(C.Response(l.id, l.reply))))
      else s.(read := s.read + 1)
    case FinishHandling => s.(busy := None, handled := s.handled + [s.busy.value])
  }

  // ----- projections

  /** The updates among the first `k` lines. */
  function Updates(wire: seq<Line>, k: nat): seq<Line>
    requires k <= |wire|
  {
    if k == 0 then []
    else if wire[k-1].Update? then Updates(wire, k-1) + [wire[k-1]] else Updates(wire, k-1)
  }

  /** The responses among the first `k` lines, as the client's read loop sees them. */
  function Responses(wire: seq<Line>, k: nat): seq<C.Response>
    requires k <= |wire|
  {
    if k == 0 then []
    else if wire[k-1].Response? then Responses(wire, k-1) + [C.Response(wire[k-1].id, wire[k-1].reply)]
    else Responses(wire, k-1)
  }

  predicate Concerns(l: Line, request: nat) {
    (l.Update? && l.owner == request) || (l.Response? && l.id == request)
  }

  /** The lines among the first `k` that belong to one request. */
  function About(wire: seq<Line>, request: nat, k: nat): seq<Line>
    requires k <= |wire|
  {
    if k == 0 then []
    else if Concerns(wire[k-1], request) then About(wire, request, k-1) + [wire[k-1]] else About(wire, request, k-1)
  }

  /** Updates `0 .. n` of a request, in sending order. */
  function Numbered(request: nat, n: nat): seq<Line> {
    if n == 0 then [] else Numbered(request, n-1) + [Update(request, n-1)]
  }

  /** What a job has written: its updates in order, then its response. */
  function Written(j: Job): seq<Line> {
    match j.finished
    case None => Numbered(j.request, j.written)
    case Some(reply) => Numbered(j.request, j.written) + [Response(j.request, reply)]
  }

  lemma {:induction false} SamePrefixes(wire: seq<Line>, l: Line, request: nat, k: nat)
    requires k <= |wire|
    ensures Updates(wire + [l], k) == Updates(wire, k)
    ensures Responses(wire + [l], k) == Responses(wire, k)
    ensures About(wire + [l], request, k) == About(wire, request, k)
  {
    if k == 0 {
    } else {
      SamePrefixes(wire, l, request, k - 1);
    }
  }

  // ----- the invariant

  /** The whole wire, read for one request: exactly what its job wrote. */
  ghost predicate JobInv(s: System, job: nat)
    requires job < |s.jobs|
  {
    About(s.wire, s.jobs[job].request, |s.wire|) == Written(s.jobs[job])
  }

  ghost predicate Served(s: System, request: nat) {
    exists j :: 0 <= j < |s.jobs| && s.jobs[j].request == request
  }

  ghost predicate Unserved(s: System, request: nat) {
    !Served(s, request) ==> About(s.wire, request, |s.wire|) == []
  }

  /** Every update whose handler was called, including the one it is still handling. */
  function Begun(s: System): seq<Line> {
    if s.busy.Some? then s.handled + [s.busy.value] else s.handled
  }

  ghost predicate ReadInv(s: System) {
    && s.read <= |s.wire|
    && Responses(s.wire, s.read) == s.client.inbox
    && Updates(s.wire, s.read) == Begun(s)
    && (s.busy.Some? ==> s.read > 0 && s.wire[s.read-1] == s.busy.value && s.busy.value.Update?)
  }

  /** A request is written once, by a call that has then left its first phase. */
  ghost predicate AskedAt(client: C.State, asked: seq<nat>, i: nat)
    requires i < |asked|
  {
    && C.HasCall(client, asked[i]) && client.calls[asked[i]-1].phase != C.Registered
    && forall k :: 0 <= k < i ==> asked[k] != asked[i]
  }

  ghost predicate AskedInv(client: C.State, asked: seq<nat>) {
    forall i :: 0 <= i < |asked| ==> AskedAt(client, asked, i)
  }

  ghost predicate TakenInOrder(s: System) {
    |s.jobs| <= |s.asked| && forall j :: 0 <= j < |s.jobs| ==> s.jobs[j].request == s.asked[j]
  }

  ghost predicate Inv(s: System) {
    && C.Inv(s.client) && AskedInv(s.client, s.asked) && TakenInOrder(s) && ReadInv(s)
    && (forall j :: 0 <= j < |s.jobs| ==> JobInv(s, j))
    && (forall request: nat :: Unserved(s, request))
  }

  /** Writing a line for request `r` extends that request's record and no other. */
  lemma {:induction false} WriteKeepsInv(s: System, job: nat, j': Job, l: Line)
    requires Inv(s) && job < |s.jobs| && j'.request == s.jobs[job].request
    requires Concerns(l, j'.request) && Written(j') == Written(s.jobs[job]) + [l]
    ensures Inv(s.(jobs := s.jobs[job := j'], wire := s.wire + [l]))
  {
    var s' := s.(jobs := s.jobs[job := j'], wire := s.wire + [l]);
    var n := |s.wire|;
    forall i | 0 <= i < |s.jobs|
      ensures JobInv(s', i)
    {
      assert JobInv(s, i);
      SamePrefixes(s.wire, l, s.jobs[i].request, n);
      OneOwner(l, s.jobs[i].request, j'.request);
      assert i < job ==> AskedAt(s.client, s.asked, job);
      assert i > job ==> AskedAt(s.client, s.asked, i);
    }
    forall request: nat
      ensures Unserved(s', request)
    {
      assert Unserved(s, request);
      SamePrefixes(s.wire, l, request, n);
      SameServed(s, s', request);
      OneOwner(l, request, j'.request);
      assert s'.jobs[job].request == j'.request;
    }
    SamePrefixes(s.wire, l, 0, s.read);
  }

  lemma {:induction false} OneOwner(l: Line, a: nat, b: nat)
    ensures Concerns(l, a) && Concerns(l, b) ==> a == b
  {
  }

  lemma {:induction false} SameServed(s: System, s': System, request: nat)
    requires |s.jobs| == |s'.jobs| && forall j :: 0 <= j < |s.jobs| ==> s.jobs[j].request == s'.jobs[j].request
    ensures Served(s, request) <==> Served(s', request)
  {
    if Served(s, request) {
      var j :| 0 <= j < |s.jobs| && s.jobs[j].request == request;
      assert s'.jobs[j].request == request;
    }
  }

  lemma {:induction false} OtherKeepsInv(s: System)
    requires Inv(s)
    ensures Inv(s.(wire := s.wire + [Other]))
  {
    var s' := s.(wire := s.wire + [Other]);
    forall i | 0 <= i < |s.jobs|
      ensures JobInv(s', i)
    {
      assert JobInv(s, i);
      SamePrefixes(s.wire, Other, s.jobs[i].request, |s.wire|);
    }
    forall request: nat
      ensures Unserved(s', request)
    {
      assert Unserved(s, request);
      SamePrefixes(s.wire, Other, request, |s.wire|);
      SameServed(s, s', request);
    }
    SamePrefixes(s.wire, Other, 0, s.read);
  }

  lemma {:induction false} AcceptKeepsInv(s: System)
    requires Inv(s) && Possible(s, Accept)
    ensures Inv(Next(s, Accept))
  {
    var s' := Next(s, Accept);
    var request := s.asked[|s.jobs|];
    assert AskedAt(s.client, s.asked, |s.jobs|);
    assert Unserved(s, request) && !Served(s, request);
    forall i | 0 <= i < |s'.jobs|
      ensures JobInv(s', i)
    {
      assert i < |s.jobs| ==> JobInv(s, i);
    }
    forall r: nat
      ensures Unserved(s', r)
    {
      assert Unserved(s, r);
      if Served(s, r) {
        var j :| 0 <= j < |s.jobs| && s.jobs[j].request == r;
        assert s'.jobs[j].request == r;
      }
    }
  }

  /** Steps of the client and its read loop leave the wire and the jobs alone. */
  lemma {:induction false} SameWireKeepsJobs(s: System, s': System)
    requires s'.wire == s.wire && s'.jobs == s.jobs
    requires (forall j :: 0 <= j < |s.jobs| ==> JobInv(s, j)) && (forall request: nat :: Unserved(s, request))
    ensures forall j :: 0 <= j < |s'.jobs| ==> JobInv(s', j)
    ensures forall request: nat :: Unserved(s', request)
  {
    forall j | 0 <= j < |s'.jobs|
      ensures JobInv(s', j)
    {
      assert JobInv(s, j);
    }
    forall request: nat
      ensures Unserved(s', request)
    {
      assert Unserved(s, request);
      SameServed(s, s', request);
    }
  }

  lemma {:induction false} NeverRegisteredAgain(client: C.State, step: C.Step, id: nat)
    requires C.Enabled(client, step) && C.HasCall(client, id)
    ensures var client' := C.Apply(client, step);
            && C.HasCall(client', id)
            && (client'.calls[id-1].phase == C.Registered ==>
                  client.calls[id-1].phase == C.Registered && step != C.Write(id))
  {
  }

  lemma {:induction false} StepKeepsAsked(client: C.State, asked: seq<nat>, step: C.Step)
    requires AskedInv(client, asked) && C.Enabled(client, step)
    ensures AskedInv(C.Apply(client, step), if step.Write? then asked + [step.id] else asked)
  {
    var asked' := if step.Write? then asked + [step.id] else asked;
    forall i | 0 <= i < |asked'|
      ensures AskedAt(C.Apply(client, step), asked', i)
    {
      if i < |asked| {
        assert AskedAt(client, asked, i);
      } else {
        forall k | 0 <= k < i
          ensures asked'[k] != asked'[i]
        {
          assert AskedAt(client, asked, k);
        }
      }
      NeverRegisteredAgain(client, step, asked'[i]);
    }
  }

  lemma {:induction false} ClientKeepsInv(s: System, step: C.Step)
    requires Inv(s) && Possible(s, ClientStep(step))
    ensures Inv(Next(s, ClientStep(step)))
  {
    C.StepKeepsInv(s.client, step);
    StepKeepsAsked(s.client, s.asked, step);
    SameWireKeepsJobs(s, Next(s, ClientStep(step)));
  }

  /** Taking one more line extends what has been read by that line. */
  lemma {:induction false} OneMoreLine(wire: seq<Line>, k: nat)
    requires k < |wire|
    ensures Updates(wire, k+1) == if wire[k].Update? then Updates(wire, k) + [wire[k]] else Updates(wire, k)
    ensures Responses(wire, k+1) ==
            if wire[k].Response? then Responses(wire, k) + [C.Response(wire[k].id, wire[k].reply)]
            else Responses(wire, k)
  {
  }

  lemma {:induction false} ReadLineKeepsReadInv(s: System)
    requires C.Inv(s.client) && ReadInv(s) && Possible(s, ReadLine)
    ensures C.Inv(Next(s, ReadLine).client) && ReadInv(Next(s, ReadLine))
  {
    OneMoreLine(s.wire, s.read);
    if s.wire[s.read].Response? {
      C.StepKeepsInv(s.client, C.ReadResponse(C.Response(s.wire[s.read].id, s.wire[s.read].reply)));
    }
  }

  lemma {:induction false} ReadKeepsInv(s: System)
    requires Inv(s) && Possible(s, ReadLine)
    ensures Inv(Next(s, ReadLine))
  {
    ReadLineKeepsReadInv(s);
    var l := s.wire[s.read];
    if l.Response? {
      StepKeepsAsked(s.client, s.asked, C.ReadResponse(C.Response(l.id, l.reply)));
    }
    SameWireKeepsJobs(s, Next(s, ReadLine));
  }

  lemma {:induction false} FinishKeepsInv(s: System)
    requires Inv(s) && Possible(s, FinishHandling)
    ensures Inv(Next(s, FinishHandling))
  {
    SameWireKeepsJobs(s, Next(s, FinishHandling));
  }

  lemma {:induction false} ActionKeepsInv(s: System, a: Action)
    requires Inv(s) && Possible(s, a)
    ensures Inv(Next(s, a))
  {
    match a
    case ClientStep(step) => ClientKeepsInv(s, step);
    case Accept => AcceptKeepsInv(s);
    case WriteUpdate(job) =>
      var j := s.jobs[job];
      WriteKeepsInv(s, job, j.(written := j.written + 1), Update(j.request, j.written));
    case WriteResponse(job, reply) =>
      var j := s.jobs[job];
      WriteKeepsInv(s, job, j.(finished := Some(reply)), Response(j.request, reply));
    case WriteOther => OtherKeepsInv(s);
    case ReadLine => ReadKeepsInv(s);
    case FinishHandling => FinishKeepsInv(s);
  }

  // ----- runs

  function SystemAfter(actions: seq<Action>): Option<System> {
    if actions == [] then Some(START)
    else
      match SystemAfter(actions[..|actions|-1])
      case None => None
      case Some(p) => if Possible(p, actions[|actions|-1]) then Some(Next(p, actions[|actions|-1])) else None
  }

  /** `s` is reached from the start by the interleaving `actions` of both endpoints. */
  predicate Run(actions: seq<Action>, s: System) {
    SystemAfter(actions) == Some(s)
  }

  lemma {:induction false} RunKeepsInv(actions: seq<Action>, s: System)
    requires Run(actions, s)
    ensures Inv(s)
  {
    if actions == [] {
    } else {
      var p := SystemAfter(actions[..|actions|-1]).value;
      RunKeepsInv(actions[..|actions|-1], p);
      ActionKeepsInv(p, actions[|actions|-1]);
    }
  }

  // ----- a notification that is handled for ever

  lemma {:induction false} StillHandling(s: System, a: Action)
    requires Possible(s, a) && s.busy.Some? && a != FinishHandling
    ensures Next(s, a).busy == s.busy && Next(s, a).read == s.read && Next(s, a).client.inbox == s.client.inbox
    ensures !C.PastInput(s.client.reader) ==> !C.PastInput(Next(s, a).client.reader)
  {
  }

  /** The input does not end while a notification is being handled. */
  lemma {:induction false} HandlesBeforeEnd(actions: seq<Action>, s: System)
    requires Run(actions, s) && s.busy.Some?
    ensures !C.PastInput(s.client.reader)
  {
    if actions == [] {
    } else {
      var p, last := SystemAfter(actions[..|actions|-1]).value, actions[|actions|-1];
      if p.busy.Some? && last != FinishHandling {
        HandlesBeforeEnd(actions[..|actions|-1], p);
        StillHandling(p, last);
      }
    }
  }

  /** As long as one notification is being handled, nothing is read. */
  lemma {:induction false} HandlingBlocksReading(actions: seq<Action>, s: System, more: seq<Action>, t: System)
    requires Run(actions, s) && s.busy.Some? && FinishHandling !in more && Run(actions + more, t)
    ensures t.busy == s.busy && t.read == s.read && t.client.inbox == s.client.inbox
    ensures !C.PastInput(s.client.reader) ==> !C.PastInput(t.client.reader)
    decreases |more|
  {
    if more == [] {
      assert actions + more == actions;
    } else {
      var front, last := more[..|more|-1], more[|more|-1];
      assert (actions + more)[..|actions + more|-1] == actions + front;
      var p := SystemAfter(actions + front).value;
      HandlingBlocksReading(actions, s, front, p);
      assert last in more;
      StillHandling(p, last);
    }
  }

  /** Main result: a handler that never finishes blocks the connection: no request registered from then on is ever
      answered. */
  lemma {:induction false} BlockedHandlerAnswersNothing(actions: seq<Action>, s: System, more: seq<Action>, t: System,
                                                        id: nat)
    requires Run(actions, s) && s.busy.Some?
    requires FinishHandling !in more && Run(actions + more, t)
    requires C.HasCall(t.client, id) && t.client.calls[id-1].begun >= |s.client.inbox|
    ensures !(t.client.calls[id-1].phase.Returned? && t.client.calls[id-1].phase.outcome.Answered?)
  {
    HandlesBeforeEnd(actions, s);
    HandlingBlocksReading(actions, s, more, t);
    RunKeepsInv(actions + more, t);
    assert C.CallInv(t.client, id);
  }

  // ----- one request's lines

  /** A response the client has read stands on the part of the wire it has read. */
  lemma {:induction false} ResponseIsOnWire(wire: seq<Line>, k: nat, i: nat) returns (p: nat)
    requires k <= |wire| && i < |Responses(wire, k)|
    ensures p < k && wire[p].Response? && Responses(wire, k)[i] == C.Response(wire[p].id, wire[p].reply)
  {
    if wire[k-1].Response? && i == |Responses(wire, k-1)| {
      p := k - 1;
    } else {
      p := ResponseIsOnWire(wire, k - 1, i);
    }
  }

  /** What stands at `p` is found in a request's lines right after those before `p`. */
  lemma {:induction false} AboutExtends(wire: seq<Line>, request: nat, p: nat, k: nat)
    requires p < k <= |wire| && Concerns(wire[p], request)
    ensures |About(wire, request, p)| < |About(wire, request, k)|
    ensures About(wire, request, k)[..|About(wire, request, p)|] == About(wire, request, p)
    ensures About(wire, request, k)[|About(wire, request, p)|] == wire[p]
  {
    if p < k - 1 {
      AboutExtends(wire, request, p, k - 1);
    }
  }

  lemma {:induction false} AboutGrows(wire: seq<Line>, request: nat, p: nat, k: nat)
    requires p <= k <= |wire|
    ensures |About(wire, request, p)| <= |About(wire, request, k)|
    ensures |About(wire, request, p)| == |About(wire, request, k)| ==>
              About(wire, request, p) == About(wire, request, k)
  {
    if p < k {
      AboutGrows(wire, request, p, k - 1);
    }
  }

  /** Sorting a stream by owner and dropping its responses can be done in either order. */
  lemma {:induction false} UpdatesOfRequest(wire: seq<Line>, request: nat, k: nat)
    requires k <= |wire|
    ensures var us := Updates(wire, k);
            var ls := About(wire, request, k);
            About(us, request, |us|) == Updates(ls, |ls|)
  {
    if k == 0 {
    } else {
      UpdatesOfRequest(wire, request, k - 1);
      var us := Updates(wire, k-1);
      var ls := About(wire, request, k-1);
      SamePrefixes(us, wire[k-1], request, |us|);
      SamePrefixes(ls, wire[k-1], request, |ls|);
    }
  }

  lemma {:induction false} NumberedAreUpdates(request: nat, n: nat)
    ensures |Numbered(request, n)| == n
    ensures forall i :: 0 <= i < n ==> Numbered(request, n)[i] == Update(request, i)
    ensures Updates(Numbered(request, n), n) == Numbered(request, n)
  {
    if n == 0 {
    } else {
      NumberedAreUpdates(request, n - 1);
      SamePrefixes(Numbered(request, n-1), Update(request, n-1), request, n - 1);
    }
  }

  /** The response is the last thing on the wire about its request. */
  lemma {:induction false} ResponseIsLast(s: System, p: nat) returns (job: nat)
    requires Inv(s) && p < |s.wire| && s.wire[p].Response?
    ensures job < |s.jobs| && s.jobs[job] == Job(s.wire[p].id, s.jobs[job].written, Some(s.wire[p].reply))
    ensures About(s.wire, s.wire[p].id, p) == Numbered(s.wire[p].id, s.jobs[job].written)
    ensures About(s.wire, s.wire[p].id, |s.wire|) == About(s.wire, s.wire[p].id, p + 1) == Written(s.jobs[job])
  {
    var id := s.wire[p].id;
    AboutExtends(s.wire, id, p, |s.wire|);
    assert Unserved(s, id) && Served(s, id);
    job :| 0 <= job < |s.jobs| && s.jobs[job].request == id;
    assert JobInv(s, job);
    NumberedAreUpdates(id, s.jobs[job].written);
  }

  /** How many of the lines read are behind the handler. */
  function Behind(s: System): nat
    requires ReadInv(s)
  {
    if s.busy.Some? then s.read - 1 else s.read
  }

  lemma {:induction false} HandledAreUpdates(s: System)
    requires ReadInv(s)
    ensures s.handled == Updates(s.wire, Behind(s))
  {
    if s.busy.Some? {
      OneMoreLine(s.wire, s.read - 1);
      assert Updates(s.wire, s.read)[..|s.handled|] == s.handled;
      assert (Updates(s.wire, s.read - 1) + [s.busy.value])[..|s.handled|] == Updates(s.wire, s.read - 1);
    }
  }

  lemma {:induction false} UpdatesWritten(j: Job)
    requires j.finished.Some?
    ensures Updates(Written(j), |Written(j)|) == Numbered(j.request, j.written)
  {
    NumberedAreUpdates(j.request, j.written);
    SamePrefixes(Numbered(j.request, j.written), Response(j.request, j.finished.value), j.request, j.written);
  }

  /** What the client has handled for a request, once its response has been read. */
  lemma {:induction false} AllHandledBefore(s: System, p: nat, job: nat)
    requires Inv(s) && p < s.read && job < |s.jobs| && s.wire[p].Response? && s.wire[p].id == s.jobs[job].request
    requires About(s.wire, s.wire[p].id, p + 1) == About(s.wire, s.wire[p].id, |s.wire|) == Written(s.jobs[job])
    requires s.jobs[job].finished.Some?
    ensures About(s.handled, s.wire[p].id, |s.handled|) == Numbered(s.wire[p].id, s.jobs[job].written)
  {
    var id := s.wire[p].id;
    HandledAreUpdates(s);
    AboutGrows(s.wire, id, p + 1, Behind(s));
    AboutGrows(s.wire, id, Behind(s), |s.wire|);
    UpdatesOfRequest(s.wire, id, Behind(s));
    UpdatesWritten(s.jobs[job]);
  }

  /** Main result: when a request has returned what the server answered, every update the server wrote for it has been
      handled, each once and in sending order. */
  lemma {:induction false} PromptSeesItsUpdates(actions: seq<Action>, s: System, id: nat) returns (job: nat)
    requires Run(actions, s) && C.HasCall(s.client, id)
    requires s.client.calls[id-1].phase.Returned? && s.client.calls[id-1].phase.outcome.Answered?
    requires s.client.calls[id-1].phase.outcome.reply != C.CLOSED_REPLY
    ensures job < |s.jobs|
    ensures s.jobs[job] == Job(id, s.jobs[job].written, Some(s.client.calls[id-1].phase.outcome.reply))
    ensures About(s.handled, id, |s.handled|) == Numbered(id, s.jobs[job].written)
  {
    RunKeepsInv(actions, s);
    assert C.CallInv(s.client, id);
    var begun := s.client.calls[id-1].begun;
    var reply := s.client.calls[id-1].phase.outcome.reply;
    var i :| begun <= i < |s.client.inbox| && s.client.inbox[i] == C.Response(id, reply)
             && C.NoneBetween(s.client.inbox, begun, i, id);
    var p := ResponseIsOnWire(s.wire, s.read, i);
    job := ResponseIsLast(s, p);
    AllHandledBefore(s, p, job);
  }
}
