/** Token estimates and the choice of a compaction strategy (src/agent/context_monitor.rs). */
module ContextMonitor {
  import opened Wrappers
  import opened Llm

  datatype CompactionStrategy = Summarize(keepRecent: nat) | Truncate(keepRecent: nat) | MoveToWorkspace

  predicate IsSpace(c: char) { c == ' ' || c == '\n' || c == '\t' || c == '\r' }

  /** Number of maximal runs of non-space characters. */
  function WordCount(s: string, inWord: bool): nat {
    if s == "" then 0
    else if IsSpace(s[0]) then WordCount(s[1..], false)
    else (if inWord then 0 else 1) + WordCount(s[1..], true)
  }

  /** 1.3 tokens per word, rounded down, and 4 for role and structure. */
  function MessageTokens(m: ChatMessage): nat { WordCount(m.content, false) * 13 / 10 + 4 }

  function EstimateTokens(ms: seq<ChatMessage>): nat {
    if ms == [] then 0 else MessageTokens(ms[0]) + EstimateTokens(ms[1..])
  }

  function RoleTokens(ms: seq<ChatMessage>, role: Role): nat {
    if ms == [] then 0
    else (if ms[0].role == role then MessageTokens(ms[0]) else 0) + RoleTokens(ms[1..], role)
  }

  datatype ContextBreakdown = ContextBreakdown(
    totalTokens: nat, systemTokens: nat, userTokens: nat, assistantTokens: nat, toolTokens: nat, messageCount: nat)

  method Analyze(messages: seq<ChatMessage>) returns (b: ContextBreakdown)
    ensures b.totalTokens == EstimateTokens(messages) && b.messageCount == |messages|
    ensures b.totalTokens == b.systemTokens + b.userTokens + b.assistantTokens + b.toolTokens
    ensures b.systemTokens == RoleTokens(messages, System) && b.userTokens == RoleTokens(messages, User)
    ensures b.assistantTokens == RoleTokens(messages, Assistant) && b.toolTokens == RoleTokens(messages, Tool)
  {
    b := ContextBreakdown(0, 0, 0, 0, 0, |messages|);
    for i := 0 to |messages|
      invariant b.messageCount == |messages|
      invariant b.totalTokens + EstimateTokens(messages[i..]) == EstimateTokens(messages)
      invariant b.totalTokens == b.systemTokens + b.userTokens + b.assistantTokens + b.toolTokens
      invariant b.systemTokens + RoleTokens(messages[i..], System) == RoleTokens(messages, System)
      invariant b.userTokens + RoleTokens(messages[i..], User) == RoleTokens(messages, User)
      invariant b.assistantTokens + RoleTokens(messages[i..], Assistant) == RoleTokens(messages, Assistant)
      invariant b.toolTokens + RoleTokens(messages[i..], Tool) == RoleTokens(messages, Tool)
    {
      var tokens := MessageTokens(messages[i]);
      assert messages[i..][1..] == messages[i + 1..];
      b := b.(totalTokens := b.totalTokens + tokens);
      match messages[i].role {
        case System => b := b.(systemTokens := b.systemTokens + tokens);
        case User => b := b.(userTokens := b.userTokens + tokens);
        case Assistant => b := b.(assistantTokens := b.assistantTokens + tokens);
        case Tool => b := b.(toolTokens := b.toolTokens + tokens);
      }
    }
  }

  lemma {:induction false} EstimateAppend(a: seq<ChatMessage>, b: seq<ChatMessage>)
    ensures EstimateTokens(a + b) == EstimateTokens(a) + EstimateTokens(b)
  {
    if a == [] {
      assert a + b == b;
    } else {
      EstimateAppend(a[1..], b);
      assert (a + b)[1..] == a[1..] + b;
    }
  }

  // ----- What the estimate counts -----

  /** White space separates words: those on both sides add up. */
  lemma {:induction false} WordsAdd(a: string, space: char, b: string, inWord: bool)
    requires IsSpace(space)
    ensures WordCount(a + [space] + b, inWord) == WordCount(a, inWord) + WordCount(b, false)
  {
    var whole := a + [space] + b;
    if a == "" {
      assert whole[1..] == b;
    } else {
      assert whole[1..] == a[1..] + [space] + b;
      WordsAdd(a[1..], space, b, !IsSpace(a[0]));
    }
  }

  /** Text without white space is one word, or none if it is empty. */
  lemma {:induction false} OneWord(w: string, inWord: bool)
    requires forall i :: 0 <= i < |w| ==> w[i] != ' ' && w[i] != '\n' && w[i] != '\t' && w[i] != '\r'
    ensures WordCount(w, inWord) == if w == "" || inWord then 0 else 1
  {
    if w != "" {
      OneWord(w[1..], true);
    }
  }

  /** A message costs four tokens and 1.3 a word, rounded down. */
  lemma TokensOfMessage(m: ChatMessage)
    ensures var words, tokens := WordCount(m.content, false), EstimateTokens([m]);
            tokens >= 4 && 10 * (tokens - 4) <= 13 * words < 10 * (tokens - 3)
  {
    assert [m][1..] == [];
  }

  /** The tokens have reached `due` hundredths. */
  predicate IsDue(tokens: nat, due: nat) { 100 * (tokens + 1) > due }

  /** The thresholds: below the given percentage nothing, then by 85 and 95 percent of the limit. */
  lemma SuggestedBy(ms: seq<ChatMessage>, limit: nat, percent: nat)
    ensures var tokens, s := EstimateTokens(ms), SuggestCompaction(ms, limit, percent);
            var due := IsDue(tokens, limit * percent);
            && (s == None <==> !due)
            && (s == Some(Truncate(3)) <==> due && 100 * tokens > 95 * limit)
            && (s == Some(Summarize(5)) <==> due && 85 * limit < 100 * tokens <= 95 * limit)
            && (s == Some(MoveToWorkspace) <==> due && 100 * tokens <= 85 * limit)
  {
    ChoiceBy(EstimateTokens(ms), limit, limit * percent);
  }

  lemma ChoiceBy(tokens: nat, limit: nat, due: nat)
    ensures var s := ChoiceFor(tokens, limit, due);
            && (s == None <==> !IsDue(tokens, due))
            && (s == Some(Truncate(3)) <==> IsDue(tokens, due) && 100 * tokens > 95 * limit)
            && (s == Some(Summarize(5)) <==> IsDue(tokens, due) && 85 * limit < 100 * tokens <= 95 * limit)
            && (s == Some(MoveToWorkspace) <==> IsDue(tokens, due) && 100 * tokens <= 85 * limit)
  {
  }

  function ChoiceFor(tokens: nat, limit: nat, due: nat): Option<CompactionStrategy> {
    if tokens < due / 100 then None
    else if tokens * 100 > limit * 95 then Some(Truncate(3))
    else if tokens * 100 > limit * 85 then Some(Summarize(5))
    else Some(MoveToWorkspace)
  }

  /** `limit` tokens allowed, compaction from `percent` of it on (50 to 95 in the source, 80 by default). */
  function SuggestCompaction(ms: seq<ChatMessage>, limit: nat, percent: nat): Option<CompactionStrategy> {
    ChoiceFor(EstimateTokens(ms), limit, limit * percent)
  }
}
