/** The context window of one session: history loaded from the file at the start of a run, memory collected during
    it, and the session file as the single record of both. */
module Window {

  import opened Options
  import opened TailReader
  import opened SessionFile
  import opened EarlyStop
  import opened Messages

  /** Encoded messages are non-empty lines that decode to themselves. */
  ghost predicate Lawful(codec: Codec<Message>) {
    forall m: Message :: codec.tokens(m) == m.tokens && codec.encode(m) != [] && NEWLINE !in codec.encode(m)
                      && codec.decode(codec.encode(m)) == Some(m)
  }

  /** The bytes of a log: one encoded line for each message. */
  function Persisted(codec: Codec<Message>, log: seq<Message>): Bytes {
    if log == [] then [] else Persisted(codec, log[..|log|-1]) + codec.encode(log[|log|-1]) + [NEWLINE]
  }

  lemma {:induction false} PersistedEnds(codec: Codec<Message>, log: seq<Message>)
    ensures Persisted(codec, log) == [] || Persisted(codec, log)[|Persisted(codec, log)|-1] == NEWLINE
  {
  }

  lemma {:induction false} FieldsOfLog(codec: Codec<Message>, log: seq<Message>)
    requires Lawful(codec) && log != []
    ensures Fields(Persisted(codec, log)) == Fields(Persisted(codec, log[..|log|-1])) + [codec.encode(log[|log|-1])]
  {
    var p, e := Persisted(codec, log[..|log|-1]), codec.encode(log[|log|-1]);
    PersistedEnds(codec, log[..|log|-1]);
    FieldsConcat(p + e, []);
    assert p + e + [NEWLINE] + [] == p + e + [NEWLINE];
    assert Fields([]) == [];
    JoinAtNewline(p, e);
    FieldsOfStretch(e);
  }

  lemma {:induction false} MessagesOfPrefix(codec: Codec<Message>, ls: seq<Bytes>, x: Bytes, k: nat)
    requires k <= |ls|
    ensures MessagesUpTo(codec, ls + [x], k) == MessagesUpTo(codec, ls, k)
  {
    if k == 0 {
    } else {
      MessagesOfPrefix(codec, ls, x, k - 1);
    }
  }

  lemma {:induction false} MessagesOneMore(codec: Codec<Message>, ls: seq<Bytes>, m: Message)
    requires Lawful(codec)
    ensures MessagesOf(codec, ls + [codec.encode(m)]) == MessagesOf(codec, ls) + [m]
  {
    MessagesOfPrefix(codec, ls, codec.encode(m), |ls|);
    assert codec.decode(codec.encode(m)) == Some(m);
  }

  /** Round trip: what was appended, line by line, is what a whole-file read decodes. */
  lemma {:induction false} LogRoundTrip(codec: Codec<Message>, log: seq<Message>)
    requires Lawful(codec)
    ensures MessagesOf(codec, Fields(Persisted(codec, log))) == log && |Fields(Persisted(codec, log))| == |log|
  {
    if log == [] {
      assert Fields([]) == [];
    } else {
      LogRoundTrip(codec, log[..|log|-1]);
      FieldsOfLog(codec, log);
      MessagesOneMore(codec, Fields(Persisted(codec, log[..|log|-1])), log[|log|-1]);
    }
  }

  /** The messages of an appended log that a tail read would see if no budget stopped it. */
  function SeenOf(codec: Codec<Message>, log: seq<Message>, c: nat): seq<Message>
    requires c >= 1
  {
    MessagesOf(codec, BlockLines(Persisted(codec, log), c, |Persisted(codec, log)|, []))
  }

  /** Main result on messages: read back in blocks, an appended log is complete if and only if no block starts on the
      newline of a message that is not the last one, and each such start costs one message at least. */
  lemma {:induction false} LogIsSeenIff(codec: Codec<Message>, log: seq<Message>, c: nat)
    requires Lawful(codec) && c >= 1
    ensures SeenOf(codec, log, c) == log <==> BadStarts(Persisted(codec, log), c, |Persisted(codec, log)|) == 0
    ensures |SeenOf(codec, log, c)| + BadStarts(Persisted(codec, log), c, |Persisted(codec, log)|) <= |log|
  {
    LogRoundTrip(codec, log);
    BlockwiseIffNoBadStart(Persisted(codec, log), c);
  }

  /** No line of a log is empty, and only its last byte is the end of the file. */
  lemma {:induction false} LogHasNoEmptyLine(codec: Codec<Message>, log: seq<Message>, off: nat)
    requires Lawful(codec) && 0 < off < |Persisted(codec, log)| && Persisted(codec, log)[off] == NEWLINE
    ensures Persisted(codec, log)[off-1] != NEWLINE
  {
    var p, e := Persisted(codec, log[..|log|-1]), codec.encode(log[|log|-1]);
    assert Persisted(codec, log) == p + e + [NEWLINE];
    assert forall k :: 0 <= k < |e| ==> (p + e + [NEWLINE])[|p| + k] == e[k] && e[k] in e;
    if off < |p| {
      LogHasNoEmptyLine(codec, log[..|log|-1], off);
    } else {
      assert e[|e|-1] in e;
      assert off == |p| + |e|;
    }
  }

  /** In an appended log, a block start is a bad one exactly when it falls on the newline of a message that is not
      the last one. */
  lemma {:induction false} BadStartInLog(codec: Codec<Message>, log: seq<Message>, off: nat)
    requires Lawful(codec) && 0 < off < |Persisted(codec, log)|
    ensures BadStart(Persisted(codec, log), off)
            <==> Persisted(codec, log)[off] == NEWLINE && off + 1 < |Persisted(codec, log)|
  {
    var data := Persisted(codec, log);
    if data[off] == NEWLINE {
      LogHasNoEmptyLine(codec, log, off);
      if off + 1 < |data| {
        if data[off+1] == NEWLINE { LogHasNoEmptyLine(codec, log, off + 1); }
        assert data[off+1] != NEWLINE;
      }
    }
  }

  /** `history` is a run of newest entries of `log`. */
  ghost predicate IsSuffix(part: seq<Message>, log: seq<Message>) {
    |part| <= |log| && part == log[|log| - |part|..]
  }

  datatype BudgetParams = BudgetParams(contextSize: int, systemContent: string, systemTokens: int, toolTokens: int,
                                       userPromptTokens: int)

  datatype Source = FromSystem | FromHistory | FromMemory

  datatype MessageStats = MessageStats(role: Role, tokens: int, source: Source)

  datatype Snapshot = Snapshot(contextSize: int, systemTokens: int, toolTokens: int, historyTokens: int,
                               memoryTokens: int,
                               totalTokens: int, remainingTokens: int, historyMessages: nat, memoryMessages: nat,
                               totalMessages: nat, historyBudget: int, messages: seq<MessageStats>)

  function TotalTokens(ms: seq<Message>): int {
    if ms == [] then 0 else TotalTokens(ms[..|ms|-1]) + ms[|ms|-1].tokens
  }

  /** `sumTokens` */
  method SumTokens(messages: seq<Message>) returns (total: int)
    ensures total == TotalTokens(messages)
  {
    total := 0;
    for i := 0 to |messages|
      invariant total == TotalTokens(messages[..i])
    {
      assert messages[..i+1][..i] == messages[..i];
      total := total + messages[i].tokens;
    }
    assert messages[..|messages|] == messages;
  }

  function StatsTokens(stats: seq<MessageStats>): int {
    if stats == [] then 0 else StatsTokens(stats[..|stats|-1]) + stats[|stats|-1].tokens
  }

  method AppendStats(stats: seq<MessageStats>, ms: seq<Message>, source: Source) returns (out: seq<MessageStats>)
    ensures |out| == |stats| + |ms| && out[..|stats|] == stats
    ensures forall i :: 0 <= i < |ms| ==> out[|stats| + i] == MessageStats(ms[i].role, ms[i].tokens, source)
    ensures StatsTokens(out) == StatsTokens(stats) + TotalTokens(ms)
  {
    out := stats;
    for i := 0 to |ms|
      invariant |out| == |stats| + i && out[..|stats|] == stats
      invariant forall k :: 0 <= k < i ==> out[|stats| + k] == MessageStats(ms[k].role, ms[k].tokens, source)
      invariant StatsTokens(out) == StatsTokens(stats) + TotalTokens(ms[..i])
    {
      assert ms[..i+1][..i] == ms[..i];
      var s := MessageStats(ms[i].role, ms[i].tokens, source);
      assert (out + [s])[..|out|] == out;
      out := out + [s];
    }
    assert ms[..|ms|] == ms;
  }

  /** The tail of a whole-file read is a suffix of the log. */
  lemma {:induction false} LogTail(codec: Codec<Message>, log: seq<Message>, budget: int)
    requires Lawful(codec)
    ensures Tail(codec, MessagesOf(codec, Fields(Persisted(codec, log))), budget) == Tail(codec, log, budget)
    ensures IsSuffix(Tail(codec, log, budget), log)
  {
    LogRoundTrip(codec, log);
  }

  /** The read stops at a block in front of `low` or at `low`, and no block behind it starts badly. */
  ghost predicate StopsInTime(codec: Codec<Message>, data: Bytes, c: nat, budget: int, low: nat)
    requires c >= 1
  {
    StopsWithin(codec, LinesRead(data, c, |data|, [], low), budget) && BadStartsBehind(data, c, |data|, low) == 0
  }

  /** No block starts on a line break that it would lose, in the whole file or at least behind the place where the
      budget stops the read. */
  ghost predicate SeesEnough(codec: Codec<Message>, data: Bytes, c: nat, budget: int)
    requires c >= 1
  {
    BadStarts(data, c, |data|) == 0 || exists low: nat :: StopsInTime(codec, data, c, budget, low)
  }

  /** Then the tail read gives the greedy tail of the whole log. */
  lemma {:induction false} SeenTail(codec: Codec<Message>, log: seq<Message>, c: nat, budget: int)
    requires Lawful(codec) && c >= 1 && SeesEnough(codec, Persisted(codec, log), c, budget)
    ensures Tail(codec, SeenOf(codec, log, c), budget) == Tail(codec, log, budget)
    ensures IsSuffix(Tail(codec, log, budget), log)
  {
    var data := Persisted(codec, log);
    LogTail(codec, log, budget);
    if BadStarts(data, c, |data|) == 0 {
      LogIsSeenIff(codec, log, c);
    } else {
      var low: nat :| StopsInTime(codec, data, c, budget, low);
      OnlyReadBlocksMatter(codec, data, c, low, budget);
    }
  }

  class Window {
    const sessionFile: SessionFile<Message>
    var history: seq<Message>
    var memory: seq<Message>
    var systemContent: string
    var contextSize: int
    var systemTokens: int
    var toolTokens: int

    /** Everything ever appended to the session, by this window, its only writer, or before it. */
    ghost var log: seq<Message>

    ghost predicate Valid()
      reads this, sessionFile
    {
      && sessionFile.chunkSize >= 1 && Lawful(sessionFile.codec)
      && sessionFile.data == Persisted(sessionFile.codec, log)
    }

    /** What a run sees is a suffix of what is on disk. */
    ghost predicate InRun()
      reads this
    {
      IsSuffix(history + memory, log)
    }

    /** What the model is shown. */
    ghost function Context(): seq<Message>
      reads this
    {
      [Message(System, systemContent, [], None, "", 0)] + history + memory
    }

    /** A run begins with the tail of what the reader sees, and that is the tail of the log when the reader sees
        enough. */
    ghost predicate HoldsTail(budget: int)
      requires Valid()
      reads this, sessionFile
    {
      && memory == [] && history == Tail(sessionFile.codec, SeenMessages(), budget)
      && (SeesEnough(sessionFile.codec, sessionFile.data, sessionFile.chunkSize, budget) ==>
            history == Tail(sessionFile.codec, log, budget) && InRun())
    }

    /** The history is the longest end of what the reader sees that fits into the context with all the rest, and of the
        log when the reader sees enough. */
    ghost predicate HoldsWhatFits(params: BudgetParams)
      requires Valid()
      reads this, sessionFile
    {
      && FitsContext(history, SeenMessages(), params)
      && (SeesEnough(sessionFile.codec, sessionFile.data, sessionFile.chunkSize, HistoryBudget(params)) ==>
            FitsContext(history, log, params))
    }

    /** `NewWindow` on a session file that holds the log `log`. */
    constructor (sessionFile: SessionFile<Message>, ghost log: seq<Message>)
      requires sessionFile.chunkSize >= 1 && Lawful(sessionFile.codec)
      requires sessionFile.data == Persisted(sessionFile.codec, log)
      ensures Valid() && this.sessionFile == sessionFile && this.log == log && history == [] && memory == []
    {
      this.sessionFile, this.log := sessionFile, log;
      history, memory, systemContent := [], [], "";
      contextSize, systemTokens, toolTokens := 0, 0, 0;
    }

    /** A failed read leaves the history and the memory of the run before in place. */
    method StartRun(params: BudgetParams, loadFails: bool) returns (ok: bool)
      requires Valid()
      modifies this
      ensures Valid() && log == old(log) && ok == !loadFails
      ensures !ok ==> history == old(history) && memory == old(memory)
      ensures ok ==> HoldsTail(HistoryBudget(params))
      ensures contextSize == params.contextSize && systemContent == params.systemContent
      ensures systemTokens == params.systemTokens && toolTokens == params.toolTokens
      ensures ok ==> HoldsWhatFits(params)
      ensures old(InRun()) && !ok ==> InRun()
    {
      SetBudget(params);
      var historyBudget := contextSize - params.systemTokens - params.toolTokens - params.userPromptTokens;
      if historyBudget < 0 {
        historyBudget := 0;
      }
      ok := !loadFails;
      if ok {
        Reload(historyBudget, params);
      }
    }

    method SetBudget(params: BudgetParams)
      modifies this`contextSize, this`systemContent, this`systemTokens, this`toolTokens
      ensures contextSize == params.contextSize && systemContent == params.systemContent
      ensures systemTokens == params.systemTokens && toolTokens == params.toolTokens
    {
      contextSize, systemContent := params.contextSize, params.systemContent;
      systemTokens, toolTokens := params.systemTokens, params.toolTokens;
    }

    method Reload(budget: int, ghost params: BudgetParams)
      requires Valid() && budget == HistoryBudget(params)
      modifies this`history, this`memory
      ensures Valid() && HoldsTail(budget) && HoldsWhatFits(params)
    {
      history := sessionFile.LoadTail(budget);
      memory := [];
      assert history + memory == history;
      if SeesEnough(sessionFile.codec, sessionFile.data, sessionFile.chunkSize, budget) {
        SeenTail(sessionFile.codec, log, sessionFile.chunkSize, budget);
      }
      AfterReload(params);
    }

    lemma {:induction false} AfterReload(params: BudgetParams)
      requires Valid() && HoldsTail(HistoryBudget(params))
      ensures HoldsWhatFits(params)
    {
      HistoryFitsBudget(sessionFile.codec, SeenMessages(), params);
      HistoryFitsBudget(sessionFile.codec, log, params);
    }

    /** The messages a tail read would see if no budget stopped it. */
    ghost function SeenMessages(): seq<Message>
      requires Valid()
      reads this, sessionFile
    {
      SeenOf(sessionFile.codec, log, sessionFile.chunkSize)
    }

    /** The append may fail; then nothing is remembered either. */
    method AddMessage(msg: Message, appendFails: bool) returns (ok: bool)
      requires Valid()
      modifies this, sessionFile
      ensures Valid() && ok == !appendFails
      ensures log == (if ok then old(log) + [msg] else old(log))
      ensures memory == (if ok then old(memory) + [msg] else old(memory))
      ensures history == old(history) && systemContent == old(systemContent) && contextSize == old(contextSize)
      ensures systemTokens == old(systemTokens) && toolTokens == old(toolTokens)
      ensures Context() == (if ok then old(Context()) + [msg] else old(Context()))
      ensures old(InRun()) ==> InRun()
    {
      if appendFails {
        return false;
      }
      sessionFile.Append(msg);
      log := log + [msg];
      assert log[..|log|-1] == old(log);
      memory := memory + [msg];
      assert history + memory == old(history + memory) + [msg];
      return true;
    }

    method BuildContext() returns (out: seq<Message>)
      requires Valid()
      ensures out == Context() == [Message(System, systemContent, [], None, "", 0)] + history + memory
      ensures InRun() ==> IsSuffix(out[1..], log)
    {
      out := [Message(System, systemContent, [], None, "", 0)];
      out := out + history;
      out := out + memory;
      assert out[1..] == history + memory;
    }

    method CompleteRun()
      requires Valid()
      modifies this`memory
      ensures Valid() && memory == []
    {
      memory := [];
    }

    /** The messages of the context: the system message, the history, the memory. */
    method ListMessages() returns (messages: seq<MessageStats>)
      ensures |messages| == 1 + |history| + |memory|
      ensures StatsTokens(messages) == systemTokens + TotalTokens(history) + TotalTokens(memory)
      ensures messages[0] == MessageStats(System, systemTokens, FromSystem)
      ensures forall i :: 0 <= i < |history| ==>
                messages[1 + i] == MessageStats(history[i].role, history[i].tokens, FromHistory)
      ensures forall i :: 0 <= i < |memory| ==>
                messages[1 + |history| + i] == MessageStats(memory[i].role, memory[i].tokens, FromMemory)
    {
      var first := [MessageStats(System, systemTokens, FromSystem)];
      assert first[..0] == [];
      var withHistory := AppendStats(first, history, FromHistory);
      messages := AppendStats(withHistory, memory, FromMemory);
      assert withHistory[0] == withHistory[..1][0];
      assert forall i :: 0 <= i < |withHistory| ==> messages[i] == messages[..|withHistory|][i] == withHistory[i];
    }

    /** The totals of a snapshot are the sums of its parts, and what is used and what remains add up. */
    method TakeSnapshot() returns (s: Snapshot)
      ensures s.historyTokens == TotalTokens(history) && s.memoryTokens == TotalTokens(memory)
      ensures s.totalTokens == StatsTokens(s.messages) + toolTokens && s.totalTokens + s.remainingTokens == contextSize
      ensures s.totalMessages == |s.messages| == 1 + |history| + |memory|
      ensures s.historyMessages == |history| && s.memoryMessages == |memory|
      ensures s.contextSize == contextSize && s.systemTokens == systemTokens && s.toolTokens == toolTokens
      ensures var left := contextSize - systemTokens - toolTokens - TotalTokens(memory);
              s.historyBudget == if left < 0 then 0 else left
      ensures s.messages[0] == MessageStats(System, systemTokens, FromSystem)
      ensures forall i :: 0 <= i < |history| ==>
                s.messages[1 + i] == MessageStats(history[i].role, history[i].tokens, FromHistory)
      ensures forall i :: 0 <= i < |memory| ==>
                s.messages[1 + |history| + i] == MessageStats(memory[i].role, memory[i].tokens, FromMemory)
    {
      var historyTokens := SumTokens(history);
      var memoryTokens := SumTokens(memory);
      var totalTokens := systemTokens + toolTokens + historyTokens + memoryTokens;
      var historyBudget := contextSize - systemTokens - toolTokens - memoryTokens;
      if historyBudget < 0 {
        historyBudget := 0;
      }
      var messages := ListMessages();
      s := Snapshot(contextSize, systemTokens, toolTokens, historyTokens, memoryTokens, totalTokens,
                    contextSize - totalTokens,
                    |history|, |memory|, 1 + |history| + |memory|, historyBudget, messages);
    }
  }

  function HistoryBudget(params: BudgetParams): int {
    var b := params.contextSize - params.systemTokens - params.toolTokens - params.userPromptTokens;
    if b < 0 then 0 else b
  }

  /** The history is the longest end of the log that fits into the context with the system message, the tools and the
      user's prompt, or a single message that does not. */
  ghost predicate FitsContext(history: seq<Message>, log: seq<Message>, params: BudgetParams) {
    var taken := params.systemTokens + params.toolTokens + params.userPromptTokens;
    && IsSuffix(history, log) && (log != [] ==> history != [])
    && (|history| >= 2 ==> TotalTokens(history) <= 0 || taken + TotalTokens(history) <= params.contextSize)
    && (|history| < |log| ==>
          var longer := log[|log| - |history| - 1..];
          TotalTokens(longer) > 0 && taken + TotalTokens(longer) > params.contextSize)
  }

  /** The history loaded for a run fits, and nothing that would still fit was left out. */
  lemma {:induction false} HistoryFitsBudget(codec: Codec<Message>, log: seq<Message>, params: BudgetParams)
    requires Lawful(codec)
    ensures FitsContext(Tail(codec, log, HistoryBudget(params)), log, params)
  {
    var s := |log| - |Tail(codec, log, HistoryBudget(params))|;
    TailIsLongest(codec, log, HistoryBudget(params));
    SumIsTotal(codec, log, s);
    if s > 0 { SumIsTotal(codec, log, s - 1); }
  }

  lemma {:induction false} SumIsTotal(codec: Codec<Message>, ms: seq<Message>, n: nat)
    requires Lawful(codec) && n <= |ms|
    ensures Sum(codec, ms, n) == TotalTokens(ms[n..])
    decreases |ms| - n
  {
    if n == |ms| {
    } else {
      SumIsTotal(codec, ms, n + 1);
      TotalOfCons(ms[n], ms[n+1..]);
      assert ms[n..] == [ms[n]] + ms[n+1..];
      assert codec.encode(ms[n]) != [];
    }
  }

  lemma {:induction false} TotalOfCons(m: Message, ms: seq<Message>)
    ensures TotalTokens([m] + ms) == m.tokens + TotalTokens(ms)
  {
    if ms == [] {
      assert [m] + ms == [m] && [m][..0] == [];
    } else {
      TotalOfCons(m, ms[..|ms|-1]);
      assert ([m] + ms)[..|ms|] == [m] + ms[..|ms|-1];
    }
  }
}
