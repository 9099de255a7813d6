/** Merging neighbouring messages of one role before they are sent to the model, and the separate validator that
    checks the outcome. The main result says exactly which logs the validator accepts after the merge. */
module Normalize {

  import opened Messages

  const SEPARATOR := "\n\n---\n\n"

  function EffectiveRole(msg: Message, useToolRole: bool): Role {
    if !useToolRole && msg.toolResult.Some? then User else msg.role
  }

  predicate ShouldMerge(current: Message, previous: Message, useToolRole: bool) {
    if useToolRole && EffectiveRole(current, useToolRole) == Tool then false
    else EffectiveRole(current, useToolRole) == EffectiveRole(previous, useToolRole)
  }

  /** Two texts with the separator between them, when both are there. */
  function Glue(a: string, b: string): string {
    if a != "" && b != "" then a + SEPARATOR + b else a + b
  }

  function Merged(target: Message, source: Message): Message {
    target.(content := Glue(target.content, source.content), tokens := target.tokens + source.tokens,
            toolCalls := target.toolCalls + source.toolCalls)
  }

  /** `mergeMessages`, field by field. */
  method MergeMessages(target: Message, source: Message) returns (m: Message)
    ensures m == Merged(target, source)
    ensures m == target.(content := m.content, tokens := target.tokens + source.tokens,
                         toolCalls := target.toolCalls + source.toolCalls)
    ensures target.content != "" && source.content != "" ==>
              m.content == target.content + "\n\n---\n\n" + source.content
    ensures source.content == "" ==> m.content == target.content
    ensures target.content == "" ==> m.content == source.content
  {
    m := target;
    if m.content != "" && source.content != "" {
      m := m.(content := m.content + (SEPARATOR + source.content));
      assert target.content + (SEPARATOR + source.content) == target.content + SEPARATOR + source.content;
    } else {
      m := m.(content := m.content + source.content);
    }
    m := m.(tokens := m.tokens + source.tokens);
    if |source.toolCalls| > 0 {
      m := m.(toolCalls := m.toolCalls + source.toolCalls);
    } else {
      assert target.toolCalls + source.toolCalls == target.toolCalls;
    }
  }

  /** One more message, merged into the last one or put behind it. */
  function With(r: seq<Message>, m: Message, useToolRole: bool): (r': seq<Message>)
    ensures r' != []
  {
    if r != [] && ShouldMerge(m, r[|r|-1], useToolRole) then r[..|r|-1] + [Merged(r[|r|-1], m)] else r + [m]
  }

  /** The result after the first `k` messages. */
  function NormalizedUpTo(ms: seq<Message>, useToolRole: bool, k: nat): (r: seq<Message>)
    requires k <= |ms|
    ensures r == [] <==> k == 0
  {
    if k == 0 then [] else With(NormalizedUpTo(ms, useToolRole, k-1), ms[k-1], useToolRole)
  }

  function Normalized(ms: seq<Message>, useToolRole: bool): seq<Message> {
    NormalizedUpTo(ms, useToolRole, |ms|)
  }

  lemma {:induction false} UpdateLast(r: seq<Message>, m: Message)
    requires r != []
    ensures r[|r|-1 := m] == r[..|r|-1] + [m]
  {
  }

  /** The merge pass: the last kept message is extended in place. */
  method NormalizeMessages(messages: seq<Message>, useToolRole: bool) returns (result: seq<Message>)
    ensures result == Normalized(messages, useToolRole)
    ensures Settled(result, useToolRole) && SameContent(result, messages, |messages|)
    ensures exists cuts :: InRuns(result, messages, |messages|, cuts, useToolRole)
  {
    ghost var cuts := NormalizedInRuns(messages, useToolRole, |messages|);
    result := MergeNeighbours(messages, useToolRole);
    NormalizedIsSettled(messages, useToolRole, |messages|);
    NormalizeConserves(messages, useToolRole, |messages|);
  }

  method MergeNeighbours(messages: seq<Message>, useToolRole: bool) returns (result: seq<Message>)
    ensures result == Normalized(messages, useToolRole)
  {
    assert NormalizedUpTo(messages, useToolRole, 0) == [];
    if |messages| <= 1 {
      return messages;
    }
    result := [messages[0]];
    for i := 1 to |messages|
      invariant result == NormalizedUpTo(messages, useToolRole, i)
    {
      var current := messages[i];
      var last := |result| - 1;
      if ShouldMerge(current, result[last], useToolRole) {
        var merged := MergeMessages(result[last], current);
        UpdateLast(result, merged);
        result := result[last := merged];
      } else {
        result := result + [current];
      }
    }
  }

  // ----- nothing left to merge

  ghost predicate Settled(ms: seq<Message>, useToolRole: bool) {
    forall i :: 0 < i < |ms| ==> SettledAt(ms, useToolRole, i)
  }

  ghost predicate SettledAt(ms: seq<Message>, useToolRole: bool, i: nat)
    requires 0 < i < |ms|
  {
    !ShouldMerge(ms[i], ms[i-1], useToolRole)
  }

  lemma {:induction false} StaysSettled(r: seq<Message>, m: Message, useToolRole: bool)
    requires Settled(r, useToolRole)
    ensures Settled(With(r, m, useToolRole), useToolRole)
  {
    var r' := With(r, m, useToolRole);
    forall i | 0 < i < |r'|
      ensures SettledAt(r', useToolRole, i)
    {
      if i < |r| { assert SettledAt(r, useToolRole, i); }
    }
  }

  lemma {:induction false} NormalizedIsSettled(ms: seq<Message>, useToolRole: bool, k: nat)
    requires k <= |ms|
    ensures Settled(NormalizedUpTo(ms, useToolRole, k), useToolRole)
  {
    if k == 0 {
    } else {
      NormalizedIsSettled(ms, useToolRole, k - 1);
      StaysSettled(NormalizedUpTo(ms, useToolRole, k - 1), ms[k-1], useToolRole);
    }
  }

  lemma {:induction false} TakeNext<T>(s: seq<T>, k: nat)
    requires 0 < k <= |s|
    ensures s[..k] == s[..k-1] + [s[k-1]] && (k > 1 ==> s[..k-1][|s[..k-1]|-1] == s[k-2])
  {
  }

  lemma {:induction false} SettledIsFixed(ms: seq<Message>, useToolRole: bool, k: nat)
    requires k <= |ms| && Settled(ms, useToolRole)
    ensures NormalizedUpTo(ms, useToolRole, k) == ms[..k]
  {
    if k == 0 {
    } else {
      SettledIsFixed(ms, useToolRole, k - 1);
      TakeNext(ms, k);
      assert k > 1 ==> SettledAt(ms, useToolRole, k - 1);
    }
  }

  /** Neighbours in the outcome have different effective roles, except tool messages in tool-role mode; and a
      second pass changes nothing. */
  lemma {:induction false} NormalizeIsIdempotent(ms: seq<Message>, useToolRole: bool)
    ensures Normalized(Normalized(ms, useToolRole), useToolRole) == Normalized(ms, useToolRole)
    ensures forall i :: 0 < i < |Normalized(ms, useToolRole)| ==>
              NeighboursDiffer(Normalized(ms, useToolRole), useToolRole, i)
  {
    var r := Normalized(ms, useToolRole);
    NormalizedIsSettled(ms, useToolRole, |ms|);
    SettledIsFixed(r, useToolRole, |r|);
    assert r[..|r|] == r;
    forall i | 0 < i < |r|
      ensures NeighboursDiffer(r, useToolRole, i)
    {
      assert SettledAt(r, useToolRole, i);
    }
  }

  ghost predicate NeighboursDiffer(ms: seq<Message>, useToolRole: bool, i: nat)
    requires 0 < i < |ms|
  {
    EffectiveRole(ms[i], useToolRole) == EffectiveRole(ms[i-1], useToolRole)
    ==> useToolRole && EffectiveRole(ms[i], useToolRole) == Tool
  }

  // ----- nothing lost

  function Tokens(ms: seq<Message>, k: nat): int
    requires k <= |ms|
  {
    if k == 0 then 0 else Tokens(ms, k-1) + ms[k-1].tokens
  }

  function Calls(ms: seq<Message>, k: nat): seq<ToolCall>
    requires k <= |ms|
  {
    if k == 0 then [] else Calls(ms, k-1) + ms[k-1].toolCalls
  }

  /** The contents of messages `lo .. hi` that are not empty, in order. */
  function Parts(ms: seq<Message>, lo: nat, hi: nat): seq<string>
    requires lo <= hi <= |ms|
    decreases hi
  {
    if lo == hi then []
    else if ms[hi-1].content == "" then Parts(ms, lo, hi - 1)
    else Parts(ms, lo, hi - 1) + [ms[hi-1].content]
  }

  /** The first `n` texts one after the other, with a rule between any two. */
  function Join(parts: seq<string>, n: nat): string
    requires n <= |parts|
  {
    if n == 0 then "" else if n == 1 then parts[0] else Join(parts, n - 1) + "\n\n---\n\n" + parts[n-1]
  }

  /** All the texts of messages `lo .. hi` in one. */
  function Text(ms: seq<Message>, lo: nat, hi: nat): string
    requires lo <= hi <= |ms|
  {
    Join(Parts(ms, lo, hi), |Parts(ms, lo, hi)|)
  }

  lemma {:induction false} JoinPrefix(parts: seq<string>, x: string, n: nat)
    requires n <= |parts|
    ensures Join(parts + [x], n) == Join(parts, n)
  {
    if n == 0 {
    } else {
      JoinPrefix(parts, x, n - 1);
    }
  }

  lemma {:induction false} PartsAreThere(ms: seq<Message>, lo: nat, hi: nat)
    requires lo <= hi <= |ms|
    ensures forall i :: 0 <= i < |Parts(ms, lo, hi)| ==> Parts(ms, lo, hi)[i] != ""
    decreases hi
  {
    if lo == hi {
    } else {
      PartsAreThere(ms, lo, hi - 1);
    }
  }

  /** Merging one more message into a text adds one more part to it. */
  lemma {:induction false} GlueAddsPart(ms: seq<Message>, lo: nat, hi: nat)
    requires lo <= hi < |ms|
    ensures Text(ms, lo, hi + 1) == Glue(Text(ms, lo, hi), ms[hi].content)
  {
    var parts, x := Parts(ms, lo, hi), ms[hi].content;
    PartsAreThere(ms, lo, hi);
    JoinPrefix(parts, x, |parts|);
    JoinIsThere(parts);
    assert x == "" ==> Join(parts, |parts|) + x == Join(parts, |parts|);
    assert "" + x == x;
  }

  lemma {:induction false} JoinIsThere(parts: seq<string>)
    requires forall i :: 0 <= i < |parts| ==> parts[i] != ""
    ensures parts != [] ==> Join(parts, |parts|) != ""
  {
    if parts != [] { assert parts[|parts|-1] != ""; }
  }

  lemma {:induction false} GlueAssociative(a: string, b: string, c: string)
    ensures Glue(Glue(a, b), c) == Glue(a, Glue(b, c))
  {
    if a == "" {
      assert a + b == b && a + Glue(b, c) == Glue(b, c);
    } else if b == "" {
      assert a + b == a && b + c == c;
    } else if c == "" {
      assert b + c == b && Glue(a, b) + c == Glue(a, b);
    } else {
      assert a + SEPARATOR + b + SEPARATOR + c == a + SEPARATOR + (b + SEPARATOR + c);
    }
  }

  lemma {:induction false} SamePrefix(ms: seq<Message>, ns: seq<Message>, k: nat)
    requires k <= |ms| && k <= |ns| && ms[..k] == ns[..k]
    ensures Tokens(ms, k) == Tokens(ns, k) && Calls(ms, k) == Calls(ns, k) && Parts(ms, 0, k) == Parts(ns, 0, k)
  {
    if k == 0 {
    } else {
      assert ms[..k][k-1] == ns[..k][k-1];
      assert ms[..k-1] == ms[..k][..k-1] == ns[..k][..k-1] == ns[..k-1];
      SamePrefix(ms, ns, k - 1);
    }
  }

  /** Merging into the last message of `r` adds exactly what appending would have added. */
  lemma {:induction false} MergeConserves(r: seq<Message>, m: Message)
    requires r != []
    ensures var r' := r[..|r|-1] + [Merged(r[|r|-1], m)];
            && Tokens(r', |r'|) == Tokens(r, |r|) + m.tokens
            && Calls(r', |r'|) == Calls(r, |r|) + m.toolCalls
            && Text(r', 0, |r'|) == Glue(Text(r, 0, |r|), m.content)
  {
    var n, last := |r| - 1, r[|r|-1];
    var r' := r[..n] + [Merged(last, m)];
    SamePrefix(r', r, n);
    GlueAddsPart(r', 0, n);
    GlueAddsPart(r, 0, n);
    GlueAssociative(Text(r, 0, n), last.content, m.content);
    assert Calls(r, n) + (last.toolCalls + m.toolCalls) == Calls(r, n) + last.toolCalls + m.toolCalls;
  }

  lemma {:induction false} AppendConserves(r: seq<Message>, m: Message)
    ensures var r' := r + [m];
            && Tokens(r', |r'|) == Tokens(r, |r|) + m.tokens
            && Calls(r', |r'|) == Calls(r, |r|) + m.toolCalls
            && Text(r', 0, |r'|) == Glue(Text(r, 0, |r|), m.content)
  {
    SamePrefix(r + [m], r, |r|);
    GlueAddsPart(r + [m], 0, |r|);
  }

  /** `r` carries the tokens, the tool calls and the text of the first `k` messages. */
  ghost predicate SameContent(r: seq<Message>, ms: seq<Message>, k: nat)
    requires k <= |ms|
  {
    Tokens(r, |r|) == Tokens(ms, k) && Calls(r, |r|) == Calls(ms, k) && Text(r, 0, |r|) == Text(ms, 0, k)
  }

  /** Main result: tokens, the sequence of tool calls, and the text with its separators are all conserved. */
  lemma {:induction false} NormalizeConserves(ms: seq<Message>, useToolRole: bool, k: nat)
    requires k <= |ms|
    ensures SameContent(NormalizedUpTo(ms, useToolRole, k), ms, k)
  {
    if k == 0 {
    } else {
      NormalizeConserves(ms, useToolRole, k - 1);
      var r := NormalizedUpTo(ms, useToolRole, k - 1);
      if r != [] && ShouldMerge(ms[k-1], r[|r|-1], useToolRole) {
        MergedIsConserved(r, ms, k);
      } else {
        AppendedIsConserved(r, ms, k);
      }
    }
  }

  lemma {:induction false} MergedIsConserved(r: seq<Message>, ms: seq<Message>, k: nat)
    requires 0 < k <= |ms| && SameContent(r, ms, k - 1) && r != []
    ensures SameContent(r[..|r|-1] + [Merged(r[|r|-1], ms[k-1])], ms, k)
  {
    MergeConserves(r, ms[k-1]);
    OneMoreConserved(r, r[..|r|-1] + [Merged(r[|r|-1], ms[k-1])], ms, k);
  }

  lemma {:induction false} AppendedIsConserved(r: seq<Message>, ms: seq<Message>, k: nat)
    requires 0 < k <= |ms| && SameContent(r, ms, k - 1)
    ensures SameContent(r + [ms[k-1]], ms, k)
  {
    AppendConserves(r, ms[k-1]);
    OneMoreConserved(r, r + [ms[k-1]], ms, k);
  }

  lemma {:induction false} OneMoreConserved(r: seq<Message>, r': seq<Message>, ms: seq<Message>, k: nat)
    requires 0 < k <= |ms| && SameContent(r, ms, k - 1)
    requires Tokens(r', |r'|) == Tokens(r, |r|) + ms[k-1].tokens
    requires Calls(r', |r'|) == Calls(r, |r|) + ms[k-1].toolCalls
    requires Text(r', 0, |r'|) == Glue(Text(r, 0, |r|), ms[k-1].content)
    ensures SameContent(r', ms, k)
  {
    GlueAddsPart(ms, 0, k - 1);
  }

  // ----- the text, and what each message is made of

  /** So later messages never come in front of earlier ones. */
  lemma {:induction false} TextGrows(ms: seq<Message>, j: nat, k: nat)
    requires j <= k <= |ms|
    ensures Text(ms, 0, j) <= Text(ms, 0, k)
  {
    if j < k {
      TextGrows(ms, j, k - 1);
      GlueAddsPart(ms, 0, k - 1);
    }
  }

  /** Messages that the model would take for one speaker's: of one role, where a result counts as the user's unless it
      has a role of its own, and then stands alone. */
  predicate GoTogether(a: Message, b: Message, useToolRole: bool) {
    if useToolRole then a.role == b.role && b.role != Tool
    else if a.toolResult.Some? then b.toolResult.Some? || b.role == User
    else if b.toolResult.Some? then a.role == User
    else a.role == b.role
  }

  /** `m` is messages `lo .. hi` in one: the first of them, with all their texts, tokens and calls. */
  ghost predicate MadeOf(m: Message, ms: seq<Message>, lo: nat, hi: nat, useToolRole: bool) {
    && lo < hi <= |ms| && m == ms[lo].(content := m.content, tokens := m.tokens, toolCalls := m.toolCalls)
    && m.content == Text(ms, lo, hi) && Tokens(ms, lo) + m.tokens == Tokens(ms, hi)
    && Calls(ms, lo) + m.toolCalls == Calls(ms, hi)
    && forall i :: lo < i < hi ==> Continues(ms, lo, i, useToolRole)
  }

  predicate Continues(ms: seq<Message>, lo: nat, i: nat, useToolRole: bool)
    requires lo < |ms| && i < |ms|
  {
    GoTogether(ms[lo], ms[i], useToolRole)
  }

  /** The first `k` messages, cut at `cuts` into the runs the messages of `r` are made of; no run goes together with the
      one behind it. */
  ghost predicate InRuns(r: seq<Message>, ms: seq<Message>, k: nat, cuts: seq<nat>, useToolRole: bool) {
    && k <= |ms| && |cuts| == |r| + 1 && cuts[0] == 0 && cuts[|r|] == k
    && forall i :: 0 <= i < |r| ==> RunAt(r, ms, cuts, i, useToolRole)
  }

  ghost predicate RunAt(r: seq<Message>, ms: seq<Message>, cuts: seq<nat>, i: nat, useToolRole: bool)
    requires i < |r| && |cuts| == |r| + 1
  {
    && MadeOf(r[i], ms, cuts[i], cuts[i+1], useToolRole)
    && (i > 0 ==> cuts[i-1] < |ms| && !GoTogether(ms[cuts[i-1]], ms[cuts[i]], useToolRole))
  }

  /** Main result: merging cuts the list into runs of messages that go together, as long as possible, and puts the
      texts, tokens and calls of each run, in order, into its first message. */
  lemma {:induction false} NormalizedInRuns(ms: seq<Message>, useToolRole: bool, k: nat) returns (cuts: seq<nat>)
    requires k <= |ms|
    ensures InRuns(NormalizedUpTo(ms, useToolRole, k), ms, k, cuts, useToolRole)
  {
    if k == 0 {
      cuts := [0];
    } else {
      var before := NormalizedInRuns(ms, useToolRole, k - 1);
      cuts := OneMoreInRuns(NormalizedUpTo(ms, useToolRole, k - 1), ms, k, before, useToolRole);
    }
  }

  lemma {:induction false} OneMoreInRuns(r: seq<Message>, ms: seq<Message>, k: nat, before: seq<nat>, useToolRole: bool)
    returns (cuts: seq<nat>)
    requires 0 < k <= |ms| && InRuns(r, ms, k - 1, before, useToolRole)
    ensures InRuns(With(r, ms[k-1], useToolRole), ms, k, cuts, useToolRole)
  {
    if r != [] && ShouldMerge(ms[k-1], r[|r|-1], useToolRole) {
      cuts := before[..|r|] + [k];
      RunGrows(r, ms, k, before, cuts, useToolRole);
    } else {
      cuts := before + [k];
      RunOpens(r, ms, k, before, cuts, useToolRole);
    }
  }

  lemma {:induction false} MergesTogether(m: Message, first: Message, next: Message, useToolRole: bool)
    requires m == first.(content := m.content, tokens := m.tokens, toolCalls := m.toolCalls)
    ensures ShouldMerge(next, m, useToolRole) <==> GoTogether(first, next, useToolRole)
  {
  }

  lemma {:induction false} OneMoreMadeOf(m: Message, ms: seq<Message>, lo: nat, hi: nat, useToolRole: bool)
    requires hi < |ms| && MadeOf(m, ms, lo, hi, useToolRole) && ShouldMerge(ms[hi], m, useToolRole)
    ensures MadeOf(Merged(m, ms[hi]), ms, lo, hi + 1, useToolRole)
  {
    MergesTogether(m, ms[lo], ms[hi], useToolRole);
    GlueAddsPart(ms, lo, hi);
    assert Calls(ms, lo) + (m.toolCalls + ms[hi].toolCalls) == Calls(ms, lo) + m.toolCalls + ms[hi].toolCalls;
    forall i | lo < i < hi + 1
      ensures Continues(ms, lo, i, useToolRole)
    {
      assert i < hi ==> Continues(ms, lo, i, useToolRole);
    }
  }

  lemma {:induction false} MadeOfOne(ms: seq<Message>, k: nat, useToolRole: bool)
    requires k < |ms|
    ensures MadeOf(ms[k], ms, k, k + 1, useToolRole)
  {
    assert Parts(ms, k, k) == [];
    assert Parts(ms, k, k + 1) == if ms[k].content == "" then [] else [ms[k].content];
  }

  lemma {:induction false} SameRun(r: seq<Message>, r': seq<Message>, ms: seq<Message>, before: seq<nat>,
                                   cuts: seq<nat>, i: nat, useToolRole: bool)
    requires i < |r| && i < |r'| && |before| == |r| + 1 && |cuts| == |r'| + 1 && RunAt(r, ms, before, i, useToolRole)
    requires r'[i] == r[i] && cuts[i] == before[i] && cuts[i+1] == before[i+1] && (i > 0 ==> cuts[i-1] == before[i-1])
    ensures RunAt(r', ms, cuts, i, useToolRole)
  {
  }

  /** The first `n` runs stay, and one new or longer run follows. */
  lemma {:induction false} AnotherLastRun(r: seq<Message>, r': seq<Message>, ms: seq<Message>, k: nat, before: seq<nat>,
                                          cuts: seq<nat>, n: nat, useToolRole: bool)
    requires 0 < k <= |ms| && InRuns(r, ms, k - 1, before, useToolRole) && n <= |r|
    requires |r'| == n + 1 && |cuts| == n + 2 && cuts[n+1] == k
    requires (forall i :: 0 <= i < n ==> r'[i] == r[i]) && forall i :: 0 <= i <= n ==> cuts[i] == before[i]
    requires MadeOf(r'[n], ms, cuts[n], k, useToolRole)
    requires n > 0 ==> cuts[n-1] < |ms| && !GoTogether(ms[cuts[n-1]], ms[cuts[n]], useToolRole)
    ensures InRuns(r', ms, k, cuts, useToolRole)
  {
    forall i | 0 <= i < |r'|
      ensures RunAt(r', ms, cuts, i, useToolRole)
    {
      if i < n {
        assert RunAt(r, ms, before, i, useToolRole);
        SameRun(r, r', ms, before, cuts, i, useToolRole);
      }
    }
  }

  lemma {:induction false} RunGrows(r: seq<Message>, ms: seq<Message>, k: nat, before: seq<nat>, cuts: seq<nat>,
                                    useToolRole: bool)
    requires 0 < k <= |ms| && InRuns(r, ms, k - 1, before, useToolRole) && r != []
    requires ShouldMerge(ms[k-1], r[|r|-1], useToolRole) && cuts == before[..|r|] + [k]
    ensures InRuns(r[..|r|-1] + [Merged(r[|r|-1], ms[k-1])], ms, k, cuts, useToolRole)
  {
    var n := |r| - 1;
    assert RunAt(r, ms, before, n, useToolRole);
    OneMoreMadeOf(r[n], ms, before[n], k - 1, useToolRole);
    AnotherLastRun(r, r[..n] + [Merged(r[n], ms[k-1])], ms, k, before, cuts, n, useToolRole);
  }

  lemma {:induction false} RunOpens(r: seq<Message>, ms: seq<Message>, k: nat, before: seq<nat>, cuts: seq<nat>,
                                    useToolRole: bool)
    requires 0 < k <= |ms| && InRuns(r, ms, k - 1, before, useToolRole)
    requires r == [] || !ShouldMerge(ms[k-1], r[|r|-1], useToolRole)
    requires cuts == before + [k]
    ensures InRuns(r + [ms[k-1]], ms, k, cuts, useToolRole)
  {
    MadeOfOne(ms, k - 1, useToolRole);
    if r != [] {
      assert RunAt(r, ms, before, |r| - 1, useToolRole);
      MergesTogether(r[|r|-1], ms[before[|r|-1]], ms[k-1], useToolRole);
    }
    AnotherLastRun(r, r + [ms[k-1]], ms, k, before, cuts, |r|, useToolRole);
  }
}
