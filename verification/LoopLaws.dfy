/**
 * What a run of the agentic loop and a turn do, told from the replies of the LLM, the hooks, the approval policy
 * and the tools alone (src/agent/dispatcher.rs, src/agent/thread_ops.rs).
 */
module LoopLaws {
  import opened Wrappers
  import opened Llm
  import opened Pending
  import opened Protocol
  import opened ToolRound
  import opened Dispatcher
  import opened LoopRuns
  import opened Approval

  /** The reply an iteration acts on: the retry's after a context that was too long. */
  function ReplyIn(env: LoopEnv, it: nat): LlmReply { env.llm(it, env.llm(it, false).ContextTooLong?) }

  // ----- Nudges -----

  /** The two iterations before only nudged. */
  predicate TwoNudges(log: seq<LoopEvent>, n: nat) {
    2 <= n <= |log| && log[n - 1].Nudged? && log[n - 2].Nudged?
  }

  lemma {:induction false} TrailingMeansTwo(log: seq<LoopEvent>)
    requires NoThreeNudges(log)
    ensures TrailingNudges(log) >= 2 <==> TwoNudges(log, |log|)
  {
    if |log| > 0 {
      assert log[..|log| - 1] == log[..|log| - 1];
      if |log| > 1 {
        assert log[..|log| - 1][|log| - 2] == log[|log| - 2];
      }
    }
  }

  /** A text is answered with a nudge when it announces an action, tools are offered, and text is not yet forced. */
  predicate NudgeDue(env: LoopEnv, maxIterations: nat, log: seq<LoopEvent>, it: nat)
    requires it > 0
  {
    var reply := ReplyIn(env, it);
    reply.Text? && reply.signalsIntent && env.hasTools(it) && it < maxIterations && !TwoNudges(log, it - 1)
  }

  lemma PrefixHasNoThree(log: seq<LoopEvent>, n: nat)
    requires NoThreeNudges(log) && n <= |log|
    ensures NoThreeNudges(log[..n])
  {
    var p := log[..n];
    forall i | 0 <= i && i + 2 < |p|
      ensures p[i].RoundRun? || p[i + 1].RoundRun? || p[i + 2].RoundRun?
    {
      assert log[i].RoundRun? || log[i + 1].RoundRun? || log[i + 2].RoundRun?;
    }
  }

  /** A run nudges in an iteration it goes on from exactly when a nudge is due, and a text ends it exactly when not. */
  lemma NudgesAreDue(env: LoopEnv, maxIterations: nat, initial: seq<ChatMessage>, calls: seq<LlmCall>,
                     result: LoopResult, iterations: nat, log: seq<LoopEvent>, i: nat)
    requires IsRun(env, maxIterations, initial, calls, result, iterations, log) && i < |log|
    ensures log[i].Nudged? <==> NudgeDue(env, maxIterations, log, i + 1)
    ensures log[i].RoundRun? <==> ReplyIn(env, i + 1).ToolCalls?
  {
    assert EntryMatches(env, maxIterations, log, i);
    PrefixHasNoThree(log, i);
    TrailingMeansTwo(log[..i]);
  }

  lemma TextEndsRun(env: LoopEnv, maxIterations: nat, initial: seq<ChatMessage>, calls: seq<LlmCall>,
                    result: LoopResult, iterations: nat, log: seq<LoopEvent>)
    requires IsRun(env, maxIterations, initial, calls, result, iterations, log)
    requires iterations <= maxIterations + 1 && !env.interrupted(iterations) && !env.overBudget(iterations)
    requires ReplyIn(env, iterations).Text?
    ensures result == Response(ReplyIn(env, iterations).text) && !NudgeDue(env, maxIterations, log, iterations)
  {
    TrailingMeansTwo(log);
  }

  // ----- The context from one call to the next -----

  /** What follows the context of a call in the next iteration's: the LLM's own message, then a nudge or the results. */
  ghost predicate FollowUp(env: LoopEnv, it: nat, added: seq<ChatMessage>, auth: Option<string>) {
    match ReplyIn(env, it)
    case Text(text, _) =>
      |added| == 2 && added[0] == AssistantMsg(text) && added[1].role == User && added[1].toolCalls == []
    case ToolCalls(content, calls) =>
      added != [] && added[0] == AssistantWithCalls(content, calls)
      && RoundIs(env.round(it), Fresh, calls, added[1..], |added| - 1, auth)
    case _ => false
  }

  /** One iteration before the last the context ends with the note to wrap up. */
  lemma WrapUpComesOnce(maxIterations: nat, context: seq<ChatMessage>, it: nat)
    requires it > 0
    ensures var next := BeforeCall(maxIterations, context, it);
            if it + 1 == maxIterations
            then |next| == |context| + 1 && next[..|context|] == context && next[|context|].role == System
            else next == context
  {
  }

  /** The context only grows between iterations, by the follow-up and by the note where it is due. */
  lemma ContextGrows(env: LoopEnv, maxIterations: nat, initial: seq<ChatMessage>, calls: seq<LlmCall>, i: nat)
    returns (added: seq<ChatMessage>, auth: Option<string>)
    requires Trace(env, maxIterations, initial, calls) && 0 < i < |calls| && !calls[i].retry
    requires calls[i - 1].retry == env.llm(calls[i - 1].iteration, false).ContextTooLong?
    ensures calls[i].iteration == calls[i - 1].iteration + 1
    ensures FollowUp(env, calls[i - 1].iteration, added, auth)
    ensures var context := calls[i - 1].context + added;
            if calls[i].iteration + 1 == maxIterations
            then |calls[i].context| == |context| + 1 && calls[i].context[..|context|] == context
                 && calls[i].context[|context|].role == System
            else calls[i].context == context
  {
    var c := calls[i - 1];
    assert LinkedAt(env, maxIterations, calls, i);
    added, auth := FollowUpOf(env, c);
    WrapUpComesOnce(maxIterations, c.context + added, calls[i].iteration);
  }

  lemma FollowUpOf(env: LoopEnv, c: LlmCall) returns (added: seq<ChatMessage>, auth: Option<string>)
    requires c.retry == env.llm(c.iteration, false).ContextTooLong?
    requires ReplyIn(env, c.iteration).Text? || ReplyIn(env, c.iteration).ToolCalls?
    ensures AfterReply(env, c) == c.context + added && FollowUp(env, c.iteration, added, auth)
  {
    match ReplyIn(env, c.iteration)
    case Text(text, _) =>
      added, auth := [AssistantMsg(text), IntentNudge()], None;
    case ToolCalls(content, calls) =>
      added, auth := ResultsOf(env, c, content, calls);
  }

  lemma ResultsOf(env: LoopEnv, c: LlmCall, content: string, calls: seq<ToolCall>)
    returns (added: seq<ChatMessage>, auth: Option<string>)
    requires env.llm(c.iteration, c.retry) == ToolCalls(content, calls)
    ensures AfterReply(env, c) == c.context + added && added != [] && added[0] == AssistantWithCalls(content, calls)
    ensures RoundIs(env.round(c.iteration), Fresh, calls, added[1..], |added| - 1, auth)
  {
    var replies, k;
    replies, k, auth := RoundOf(env.round(c.iteration), calls);
    added := Behind(c.context, AssistantWithCalls(content, calls), replies);
  }

  lemma RoundOf(round: RoundEnv, calls: seq<ToolCall>) returns (replies: seq<ChatMessage>, k: nat, auth: Option<string>)
    ensures k == Handled(round, Fresh, calls, 0) && |replies| == k
    ensures replies == InOrder(round, Fresh, IsParallel(round, Fresh, k), calls, k)
    ensures RoundIs(round, Fresh, calls, replies, k, auth)
  {
    RoundMeans(round, Fresh, calls);
    k := Handled(round, Fresh, calls, 0);
    replies := InOrder(round, Fresh, IsParallel(round, Fresh, k), calls, k);
    auth := FirstAuth(round, Fresh, IsParallel(round, Fresh, k), calls, k);
  }

  lemma Behind(context: seq<ChatMessage>, m: ChatMessage, replies: seq<ChatMessage>) returns (added: seq<ChatMessage>)
    ensures context + [m] + replies == context + added && added != [] && added[0] == m && added[1..] == replies
    ensures |added| - 1 == |replies|
  {
    added := [m] + replies;
  }

  /** A tool round that the loop goes on from answered every call, without instructions for a token. */
  lemma RoundsAreWhole(env: LoopEnv, maxIterations: nat, initial: seq<ChatMessage>, calls: seq<LlmCall>,
                       result: LoopResult, iterations: nat, log: seq<LoopEvent>, i: nat)
    returns (replies: seq<ChatMessage>)
    requires IsRun(env, maxIterations, initial, calls, result, iterations, log) && i < |log| && log[i].RoundRun?
    ensures ReplyIn(env, i + 1).ToolCalls?
    ensures var asked := ReplyIn(env, i + 1).calls; RoundIs(env.round(i + 1), Fresh, asked, replies, |asked|, None)
  {
    assert EntryMatches(env, maxIterations, log, i);
    var round, asked := env.round(i + 1), ReplyIn(env, i + 1).calls;
    RoundMeans(round, Fresh, asked);
    replies := InOrder(round, Fresh, IsParallel(round, Fresh, |asked|), asked, |asked|);
  }

  // ----- How tool calls end a run -----

  /** The request is for call `k`, which no hook rejected and which needs approval as it will run. */
  ghost predicate RequestIs(env: RoundEnv, site: Site, calls: seq<ToolCall>, k: nat, p: PendingApproval) {
    && k < |calls| && NeedsApproval(env, site, calls, k)
    && p.toolCallId == calls[k].id && p.toolName == calls[k].name
    && p.parameters == Asked(env, site, k, calls[k]).arguments
    && p.deferredToolCalls == calls[k + 1..]
  }

  /** Instructions for a token end the run, before any request; else it asks about the first call that needs it. */
  lemma ToolCallsEndRun(env: LoopEnv, maxIterations: nat, initial: seq<ChatMessage>, calls: seq<LlmCall>,
                        result: LoopResult, iterations: nat, log: seq<LoopEvent>)
    returns (replies: seq<ChatMessage>, k: nat, auth: Option<string>)
    requires IsRun(env, maxIterations, initial, calls, result, iterations, log)
    requires iterations <= maxIterations + 1 && !env.interrupted(iterations) && !env.overBudget(iterations)
    requires ReplyIn(env, iterations).ToolCalls?
    ensures calls != [] && RoundIs(env.round(iterations), Fresh, ReplyIn(env, iterations).calls, replies, k, auth)
    ensures auth.Some? ==> result == Response(auth.value)
    ensures auth.None? ==>
              && result.NeedApproval? && result.pending.requestId == env.requestId
              && RequestIs(env.round(iterations), Fresh, ReplyIn(env, iterations).calls, k, result.pending)
              && result.pending.contextMessages
                 == LastCall(calls).context
                    + [AssistantWithCalls(ReplyIn(env, iterations).content, ReplyIn(env, iterations).calls)] + replies
  {
    var round, asked := env.round(iterations), ReplyIn(env, iterations).calls;
    RoundMeans(round, Fresh, asked);
    k := Handled(round, Fresh, asked, 0);
    replies := InOrder(round, Fresh, IsParallel(round, Fresh, k), asked, k);
    auth := FirstAuth(round, Fresh, IsParallel(round, Fresh, k), asked, k);
  }

  // ----- The requests of a story -----

  /** A request that a run makes is about a call of its message as the hooks left it. */
  lemma RunAsksAboutDue(maxIterations: nat, run: Segment) returns (k: nat, replies: seq<ChatMessage>)
    requires Ran(maxIterations, run) && run.result.NeedApproval?
    ensures RequestIs(run.env.round(run.iterations), Fresh, MessageOf(run), k, run.result.pending)
    ensures run.result.pending.contextMessages[|StoppedIn(run).before| + 1..] == replies
    ensures RoundIs(run.env.round(run.iterations), Fresh, MessageOf(run), replies, k, None)
  {
    var auth;
    replies, k, auth := ToolCallsEndRun(run.env, maxIterations, run.initial, run.calls, run.result, run.iterations, run.log);
  }

  /** A request that an answer leads to is about a call of the deferred tail, as the LLM made it. */
  lemma AnswerAsksAboutDue(env: ApprovalEnv, pending: PendingApproval) returns (k: nat)
    requires Replayed(env, pending).Again?
    ensures RequestIs(env.tail, Deferred, pending.deferredToolCalls, k, Replayed(env, pending).pending)
    ensures Replayed(env, pending).pending.requestId == env.requestId
    ensures Replayed(env, pending).pending.parameters == pending.deferredToolCalls[k].arguments
  {
    RoundMeans(env.tail, Deferred, pending.deferredToolCalls);
    k := HandledTail(env, pending);
  }

  /**
   * In every story each request is about a call that needs approval as it will run: one of the LLM's message that
   * no hook rejected, with the hook's arguments, or one of the deferred tail as the LLM made it.
   */
  lemma StoryAsksAboutDue(maxIterations: nat, env: LoopEnv, initial: seq<ChatMessage>, story: seq<Event>, i: nat)
    returns (round: RoundEnv, site: Site, calls: seq<ToolCall>, k: nat)
    requires IsStory(maxIterations, env, initial, story) && i < |story| && PendingAfter(story[i]).Some?
    ensures RequestIs(round, site, calls, k, PendingAfter(story[i]).value)
    ensures story[i].Looped? ==>
              site == Fresh && round == story[i].run.env.round(story[i].run.iterations) && calls == MessageOf(story[i].run)
    ensures !story[i].Looped? ==>
              && story[i].Answered? && site == Deferred
              && round == story[i].env.tail && calls == story[i].pending.deferredToolCalls
  {
    match story[i]
    case Looped(run) =>
      assert RanAt(maxIterations, story, i);
      var replies;
      round, site, calls := run.env.round(run.iterations), Fresh, MessageOf(run);
      k, replies := RunAsksAboutDue(maxIterations, run);
    case Answered(answer, pending) =>
      round, site, calls := answer.tail, Deferred, pending.deferredToolCalls;
      k := AnswerAsksAboutDue(answer, pending);
  }

  /** The text of a result, as an answered approval words it. */
  function Wording(env: RoundEnv, name: string, result: ToolResult): string {
    match result
    case Ok(output) => env.sanitize(name, output)
    case Err(e) => "Error: " + e
  }

  /** An answer runs exactly the pending call, puts its result first, and then the tail's. */
  lemma AnswerRunsPending(env: ApprovalEnv, pending: PendingApproval) returns (replies: seq<ChatMessage>, k: nat, auth: Option<string>)
    ensures var call := ToolCall(pending.toolCallId, pending.toolName, pending.parameters);
            && WithTail(env, pending)
               == pending.contextMessages
                  + [ChatMessage(Tool, Wording(env.tail, call.name, env.approved(call)), Some(call.id), Some(call.name), [])]
                  + replies
            && RoundIs(env.tail, Deferred, pending.deferredToolCalls, replies, k, auth)
            && (Replayed(env, pending).TurnEnds? <==> env.tail.authInstructions(call.name, env.approved(call)).Some? || auth.Some?)
            && (Replayed(env, pending).Resumes? ==> k == |pending.deferredToolCalls|)
  {
    RoundMeans(env.tail, Deferred, pending.deferredToolCalls);
    k := HandledTail(env, pending);
    replies := InOrder(env.tail, Deferred, IsParallel(env.tail, Deferred, k), pending.deferredToolCalls, k);
    auth := TailAuth(env, pending);
  }
}
