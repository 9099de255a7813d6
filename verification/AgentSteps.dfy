/** What a run of the agent may do next: a state machine over its events, its prompts, the messages it records, and the
    decisions it reads. */
module AgentSteps {

  import opened Options
  import opened Messages
  import opened Approvals

  datatype Response = Response(content: string, reasoning: string, toolCalls: seq<ToolCall>,
                               completionTokens: Option<int>)

  datatype Event =
    | RunStarted(sessionId: string, agentName: string)
    | TurnCompleted(response: Response)
    | ToolsProposed(calls: seq<ProposedCall>)
    | ToolStarted(callId: string)
    | ToolCompleted(callId: string, output: string)
    | ToolFailed(callId: string, error: string)
    | ToolsCompleted
    | RunCompleted
    | RunCancelled
    | RunFailed(error: string)

  /** How one turn of the model goes: its context cannot be built, it fails, or it replies. */
  datatype Reply = ContextFailed(error: string) | GenerationFailed(error: string) | Replied(response: Response)

  /** How one tool execution ends. */
  datatype Outcome = Output(text: string) | Failure(error: string)

  predicate Terminal(e: Event) {
    e.RunCompleted? || e.RunCancelled? || e.RunFailed?
  }

  /** `Prompt` hands a context to the model, `Record` adds a message to the conversation, `Settle` takes the decisions
      on a batch from the commands up to `stop`, `Execute` hands a call to its tool. */
  datatype Act =
    | Emit(event: Event)
    | Prompt(context: seq<Message>)
    | Record(msg: Message)
    | Settle(granted: set<string>, denied: set<string>, stop: nat)
    | Execute(call: ToolCall)

  /** What a run is given: its prompt, the context it starts with, the model's replies, how its tool executions end,
      the commands it will be sent, whether their channel is closed after them, the name of the agent, the ids
      `newId(k)` made up in turn `k`, and how texts are counted in tokens. */
  datatype Input = Input(
    prompt: string,
    base: seq<Message>,
    replies: seq<Reply>,
    outcomes: nat -> Outcome,
    commands: seq<Command>,
    closed: bool,
    agentName: string,
    newId: nat -> nat -> string,
    countTokens: string -> int)

  datatype Activity =
    | Idle
    | Announced(callId: string)
    | Running(callId: string)
    | Ran(callId: string, output: string, isError: bool)

  /** `granted` and `denied` are the calls of the batch still to be dealt with, `refused` whether one was refused. */
  datatype Stage =
    | Begin
    | Opened
    | Ready
    | Asked(reply: Reply)
    | Recorded(msg: Message, response: Response)
    | Turned(recorded: Option<Message>, response: Response)
    | Proposed(ids: set<string>)
    | Executing(granted: set<string>, denied: set<string>, refused: bool, activity: Activity)
    | Closing
    | Ended

  /** `turns` counts the turns of the model, `executed` the tool executions, `read` the commands read, and `since`
      those read before the batch that is being executed; `proposed` is the latest proposal, `log` the conversation,
      and `clean` says that the prompt and every reply were recorded and nothing was injected into a batch. */
  datatype Position = Position(stage: Stage, turns: nat, executed: nat, read: nat, since: nat,
                               proposed: seq<ProposedCall>, log: seq<Message>, clean: bool)

  function IdSet(ids: seq<string>): set<string> {
    set i | 0 <= i < |ids| :: ids[i]
  }

  /** The proposal names every call of the reply, each id once. */
  ghost predicate ProposesAll(ps: seq<ProposedCall>, calls: seq<ToolCall>) {
    && ListsOnce(ProposedIds(ps), IdSet(ProposedIds(ps)))
    && forall i :: 0 <= i < |calls| && calls[i].id != "" ==> calls[i].id in IdSet(ProposedIds(ps))
  }

  /** The proposed call is the last call of its id in the reply, as the model made it. */
  ghost predicate ProposedFrom(p: ProposedCall, calls: seq<ToolCall>, newId: nat -> string) {
    exists k: nat :: LastOfKey(calls, newId, |calls|, p.callId, k)
                     && p.name == calls[k].name && p.arguments == calls[k].arguments
  }

  /** Call `i` is proposed under its own id or, when it has none, under the one made up for it. */
  ghost predicate IsProposed(ps: seq<ProposedCall>, calls: seq<ToolCall>, newId: nat -> string, i: nat)
    requires i < |calls|
  {
    (if calls[i].id == "" then newId(i) else calls[i].id) in IdSet(ProposedIds(ps))
  }

  ghost predicate ProposesReply(ps: seq<ProposedCall>, calls: seq<ToolCall>, newId: nat -> string) {
    && ProposesAll(ps, calls) && (forall i :: 0 <= i < |ps| ==> ProposedFrom(ps[i], calls, newId))
    && forall i :: 0 <= i < |calls| ==> IsProposed(ps, calls, newId, i)
  }

  /** The calls of the recorded reply are the proposed ones. */
  ghost predicate RecordsProposed(recorded: seq<ToolCall>, ps: seq<ProposedCall>) {
    && ListsOnce(CallIds(recorded), IdSet(ProposedIds(ps)))
    && forall i :: 0 <= i < |recorded| ==> Shown(ps, recorded[i])
  }

  predicate IsPlain(msg: Message, role: Role) {
    msg.role == role && msg.toolResult.None?
  }

  /** The user's prompt, as it is recorded. */
  predicate IsPrompt(input: Input, msg: Message) {
    msg == Message(User, input.prompt, [], None, "", input.countTokens(input.prompt))
  }

  /** A text that a running tool adds. */
  predicate IsInjected(msg: Message) {
    msg == Message(User, msg.content, [], None, "", 0)
  }

  /** The reply, with its calls in some order and under their ids. */
  predicate IsReply(input: Input, response: Response, msg: Message) {
    && msg.role == Assistant && msg.content == response.content && msg.toolResult.None?
    && msg.agentName == input.agentName && (response.toolCalls == [] <==> msg.toolCalls == [])
    && msg.tokens == if response.completionTokens.Some? then response.completionTokens.value else 0
  }

  /** The result of the call, under the name it was proposed with. */
  ghost predicate IsResultOf(input: Input, ps: seq<ProposedCall>, msg: Message, id: string, output: string,
                             isError: bool) {
    && msg.toolResult.Some? && msg == Message(Tool, output, [], msg.toolResult, "", input.countTokens(output))
    && msg.toolResult.value == ToolResult(id, msg.toolResult.value.name, output, isError)
    && exists i :: 0 <= i < |ps| && NamedAs(ps[i], id, msg.toolResult.value.name)
  }

  predicate NamedAs(p: ProposedCall, id: string, name: string) {
    p.callId == id && p.name == name
  }

  /** The client's first word on this call, among the commands in the range, is a denial for this reason. */
  ghost predicate DeniedFor(commands: seq<Command>, lo: nat, hi: nat, id: string, reason: string) {
    exists j: nat :: FirstDecision(commands, lo, hi, id, j) && commands[j] == Deny(id, reason)
  }

  /** What a denied call is answered with. */
  ghost predicate IsDenial(input: Input, p: Position, id: string, output: string) {
    exists reason :: DeniedFor(input.commands, p.since, p.read, id, reason)
                     && output == "denied: " + (if reason == "" then "user denied" else reason)
  }

  /** The client's first word on this call, among the commands in the range, is an approval. */
  ghost predicate Approved(commands: seq<Command>, lo: nat, hi: nat, id: string) {
    exists j: nat :: FirstDecision(commands, lo, hi, id, j) && commands[j] == Approve(id)
  }

  ghost predicate Refused(commands: seq<Command>, lo: nat, hi: nat, id: string) {
    exists j: nat :: FirstDecision(commands, lo, hi, id, j) && commands[j].Deny?
  }

  /** After the commands in the range some call of the batch has had no decision yet. */
  ghost predicate Open(commands: seq<Command>, ids: set<string>, lo: nat, hi: nat) {
    exists id :: id in ids && Undecided(commands, lo, hi, id)
  }

  /** Reading on from `lo`, the batch is still open and not cancelled before each command up to `hi`. */
  ghost predicate OpenUntil(commands: seq<Command>, ids: set<string>, lo: nat, hi: nat)
    requires hi <= |commands|
  {
    forall k :: lo <= k < hi ==> OpenAt(commands, ids, lo, k)
  }

  ghost predicate OpenAt(commands: seq<Command>, ids: set<string>, lo: nat, k: nat)
    requires k < |commands|
  {
    commands[k] != Cancel && Open(commands, ids, lo, k)
  }

  /** At `stop`, with the batch open all the way, a cancellation arrives or the closed channel ends. */
  ghost predicate CancelledAt(commands: seq<Command>, closed: bool, ids: set<string>, lo: nat, stop: nat) {
    && lo <= stop <= |commands| && OpenUntil(commands, ids, lo, stop) && Open(commands, ids, lo, stop)
    && if stop < |commands| then commands[stop] == Cancel else closed
  }

  ghost predicate CancelledFirst(commands: seq<Command>, closed: bool, ids: set<string>, lo: nat) {
    exists stop: nat :: CancelledAt(commands, closed, ids, lo, stop)
  }

  function FinishedWith(id: string, outcome: Outcome): Event {
    match outcome
    case Output(text) => ToolCompleted(id, text)
    case Failure(error) => ToolFailed(id, error)
  }

  ghost function DuringBatch(stage: Stage, outcome: Outcome, e: Event): Option<Stage>
    requires stage.Executing?
  {
    match stage.activity
    case Idle =>
      if e.ToolStarted? && e.callId in stage.granted then
        Some(stage.(granted := stage.granted - {e.callId}, activity := Announced(e.callId)))
      else if e.ToolsCompleted? && stage.granted == {} && stage.denied == {} then
        Some(if stage.refused then Closing else Ready)
      else if e.RunFailed? && stage.denied != {} then Some(Ended)
      else None
    case Announced(_) => None
    case Running(id) =>
      if e == FinishedWith(id, outcome) then
        Some(stage.(activity := if outcome.Output? then Ran(id, outcome.text, false) else Ran(id, outcome.error, true)))
      else None
    case Ran(_, _, _) => if e.RunFailed? then Some(Ended) else None
  }

  ghost function AfterTurn(newId: nat -> string, recorded: Option<Message>, response: Response, e: Event)
    : Option<Stage>
  {
    if response.toolCalls == [] then
      if e.RunCompleted? then Some(Ended) else None
    else if e.ToolsProposed? && ProposesReply(e.calls, response.toolCalls, newId)
            && (recorded.Some? ==> RecordsProposed(recorded.value.toolCalls, e.calls)) then
      Some(Proposed(IdSet(ProposedIds(e.calls))))
    else None
  }

  predicate NoContext(input: Input, turns: nat, e: Event) {
    e.RunFailed? && turns < |input.replies| && input.replies[turns] == ContextFailed(e.error)
  }

  ghost function AfterEvent(input: Input, p: Position, e: Event): Option<Stage> {
    match p.stage
    case Begin => if e.RunStarted? then Some(Opened) else None
    case Opened => if NoContext(input, p.turns, e) then Some(Ended) else None
    case Ready => if NoContext(input, p.turns, e) then Some(Ended) else None
    case Asked(GenerationFailed(error)) => if e == RunFailed(error) then Some(Ended) else None
    case Asked(Replied(response)) => if e == TurnCompleted(response) then Some(Turned(None, response)) else None
    case Asked(ContextFailed(_)) => None
    case Recorded(msg, response) => if e == TurnCompleted(response) then Some(Turned(Some(msg), response)) else None
    case Turned(recorded, response) =>
      if p.turns == 0 then None else AfterTurn(input.newId(p.turns - 1), recorded, response, e)
    case Proposed(ids) => if e.RunCancelled? && CancelledFirst(input.commands, input.closed, ids,
                                                               p.read) then Some(Ended) else None
    case Executing(_, _, _, _) => DuringBatch(p.stage, input.outcomes(p.executed), e)
    case Closing => if e.RunCompleted? then Some(Ended) else None
    case Ended => None
  }

  ghost function AfterRecord(input: Input, p: Position, msg: Message): Option<Stage> {
    match p.stage
    case Opened => if IsPrompt(input, msg) && input.prompt != "" then Some(Ready) else None
    case Asked(Replied(response)) => if IsReply(input, response, msg) then Some(Recorded(msg, response)) else None
    case Executing(_, denied, _, Idle) =>
      if msg.toolResult.Some? && msg.toolResult.value.callId in denied
         && IsResultOf(input, p.proposed, msg, msg.toolResult.value.callId, msg.content, true)
         && IsDenial(input, p, msg.toolResult.value.callId, msg.content)
      then Some(p.stage.(denied := denied - {msg.toolResult.value.callId}, refused := true)) else None
    case Executing(_, _, _, Running(_)) => if IsInjected(msg) then Some(p.stage) else None
    case Executing(_, _, _, Ran(id, output, isError)) =>
      if IsResultOf(input, p.proposed, msg, id, output, isError) then Some(p.stage.(activity := Idle)) else None
    case _ => None
  }

  /** `stop` is the shortest prefix of the commands that decides the batch, without a cancellation in it, and each call
      goes by its first decision. */
  ghost predicate MaySettle(commands: seq<Command>, p: Position, granted: set<string>, denied: set<string>, stop: nat) {
    && p.stage == Proposed(granted + denied) && granted !! denied && p.read <= stop <= |commands|
    && OpenUntil(commands, granted + denied, p.read, stop)
    && (forall id :: id in granted ==> Approved(commands, p.read, stop, id))
    && (forall id :: id in denied ==> Refused(commands, p.read, stop, id))
  }

  /** A reply announced without having been recorded. */
  predicate Unrecorded(stage: Stage, e: Event) {
    stage.Asked? && e.TurnCompleted?
  }

  predicate MayPrompt(input: Input, p: Position, context: seq<Message>) {
    && (p.stage == Opened || p.stage == Ready) && context == p.log
    && p.turns < |input.replies| && !input.replies[p.turns].ContextFailed?
  }

  predicate UserMessageMissing(input: Input, stage: Stage) {
    stage == Opened && input.prompt != ""
  }

  predicate IntoBatch(stage: Stage) {
    stage.Executing? && stage.activity.Running?
  }

  /** The call was proposed with this id, name and arguments. */
  ghost predicate Shown(proposed: seq<ProposedCall>, call: ToolCall) {
    exists i :: 0 <= i < |proposed| && ShownAs(proposed[i], call)
  }

  predicate ShownAs(proposed: ProposedCall, call: ToolCall) {
    proposed.callId == call.id && proposed.name == call.name && proposed.arguments == call.arguments
  }

  /** A call that was just announced is executed as it was proposed. */
  ghost predicate MayExecute(p: Position, call: ToolCall) {
    p.stage.Executing? && p.stage.activity == Announced(call.id) && Shown(p.proposed, call)
  }

  /** The position after one more act; none when the act is out of order. */
  ghost function Next(input: Input, p: Position, act: Act): Option<Position> {
    match act
    case Emit(e) =>
      var stage := AfterEvent(input, p, e);
      if stage.None? then None
      else
        Some(p.(stage := stage.value, clean := p.clean && !Unrecorded(p.stage, e),
                proposed := if e.ToolsProposed? then e.calls else p.proposed,
                executed := if e.ToolCompleted? || e.ToolFailed? then p.executed + 1 else p.executed))
    case Prompt(context) =>
      if !MayPrompt(input, p, context) then None
      else Some(p.(stage := Asked(input.replies[p.turns]), turns := p.turns + 1,
                   clean := p.clean && !UserMessageMissing(input, p.stage)))
    case Record(msg) =>
      var stage := AfterRecord(input, p, msg);
      if stage.None? then None
      else Some(p.(stage := stage.value, log := p.log + [msg], clean := p.clean && !IntoBatch(p.stage)))
    case Settle(granted, denied, stop) =>
      if MaySettle(input.commands, p, granted, denied, stop)
      then Some(p.(stage := Executing(granted, denied, false, Idle), read := stop, since := p.read)) else None
    case Execute(call) =>
      if MayExecute(p, call) then Some(p.(stage := p.stage.(activity := Running(call.id)))) else None
  }

  function FirstPosition(input: Input): Position {
    Position(Begin, 0, 0, 0, 0, [], input.base, true)
  }
}
