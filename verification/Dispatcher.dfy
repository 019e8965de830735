/** The agentic loop: call the LLM, run its tools, repeat until it answers in text (`run_agentic_loop`). */
module Dispatcher {
  import opened Wrappers
  import opened Llm
  import opened Pending
  import opened Protocol
  import opened RetryCompaction
  import opened ToolRound

  datatype LlmReply =
    | Text(text: string, signalsIntent: bool)
    | ToolCalls(content: string, calls: seq<ToolCall>)
    | ContextTooLong
    | LlmFailure

  /** All the loop asks of its surroundings, by iteration; an LLM call is an iteration and whether it is the retry. */
  datatype LoopEnv = LoopEnv(
    llm: (nat, bool) -> LlmReply,
    interrupted: nat -> bool,
    overBudget: nat -> bool,
    hasTools: nat -> bool,
    round: nat -> RoundEnv,
    requestId: nat)

  datatype LoopError = IterationCeiling | WasInterrupted | CostLimit | LlmError

  datatype LoopResult = Response(text: string) | NeedApproval(pending: PendingApproval) | Failed(error: LoopError)

  /** One call to the provider and the context it was given. */
  datatype LlmCall = LlmCall(iteration: nat, retry: bool, context: seq<ChatMessage>)

  datatype LoopEvent = Nudged | RoundRun

  const MAX_TOOL_INTENT_NUDGES: nat := 2

  /** Sent when the LLM announces an action without a tool call; wording abridged. */
  function IntentNudge(): ChatMessage { UserMsg("[act]") }

  /** Sent one iteration before text is forced; wording abridged. */
  function WrapUpNudge(): ChatMessage { SystemMsg("[wrap up]") }

  function NudgeAt(maxIterations: nat): nat { if maxIterations == 0 then 0 else maxIterations - 1 }

  // ----- The context from one call to the next -----

  function BeforeCall(maxIterations: nat, context: seq<ChatMessage>, iteration: nat): seq<ChatMessage> {
    if iteration == NudgeAt(maxIterations) then context + [WrapUpNudge()] else context
  }

  /** How many calls of the round were dealt with. */
  function HandledIn(env: LoopEnv, iteration: nat, calls: seq<ToolCall>): nat {
    Handled(env.round(iteration), Fresh, calls, 0)
  }

  function AfterReply(env: LoopEnv, call: LlmCall): seq<ChatMessage> {
    match env.llm(call.iteration, call.retry)
    case Text(text, _) => call.context + [AssistantMsg(text)] + [IntentNudge()]
    case ToolCalls(content, calls) =>
      var k := HandledIn(env, call.iteration, calls);
      var env' := env.round(call.iteration);
      call.context + [AssistantWithCalls(content, calls)] + InOrder(env', Fresh, IsParallel(env', Fresh, k), calls, k)
    case _ => call.context
  }

  /** The next call is the retry on the compacted context, or the next iteration on the extended one. */
  predicate Linked(env: LoopEnv, maxIterations: nat, c: LlmCall, next: LlmCall) {
    if next.retry then
      && !c.retry && next.iteration == c.iteration
      && env.llm(c.iteration, false).ContextTooLong?
      && next.context == Compacted(c.context)
    else
      && next.iteration == c.iteration + 1
      && (env.llm(c.iteration, c.retry).Text? || env.llm(c.iteration, c.retry).ToolCalls?)
      && next.context == BeforeCall(maxIterations, AfterReply(env, c), next.iteration)
  }

  /** The exact sequence of provider calls of a run started on `initial`. */
  predicate Trace(env: LoopEnv, maxIterations: nat, initial: seq<ChatMessage>, calls: seq<LlmCall>) {
    && (calls != [] ==> calls[0] == LlmCall(1, false, BeforeCall(maxIterations, initial, 1)))
    && (forall i :: 0 <= i < |calls| ==> LinkedAt(env, maxIterations, calls, i))
  }

  predicate LinkedAt(env: LoopEnv, maxIterations: nat, calls: seq<LlmCall>, i: nat)
    requires i < |calls|
  {
    i > 0 ==> Linked(env, maxIterations, calls[i - 1], calls[i])
  }

  /** A tool-call message under way: the context before it and its calls. */
  datatype Request = Request(before: seq<ChatMessage>, content: string, calls: seq<ToolCall>)

  /**
   * The approval request stops `req` at call `k`: the first `k` calls are answered in its context, call `k` is
   * the one asked about, and the calls after it are the deferred tail.
   */
  predicate Suspended(p: PendingApproval, req: Request, k: nat) {
    && k < |req.calls|
    && OpenRound(p.contextMessages, req.before, req.content, req.calls, k)
    && p.toolCallId == req.calls[k].id
    && p.toolName == req.calls[k].name
    && p.deferredToolCalls == req.calls[k + 1..]
  }

  predicate AllWellFormed(calls: seq<LlmCall>) {
    forall i :: 0 <= i < |calls| ==> WellFormed(calls[i].context)
  }

  function LastCall(calls: seq<LlmCall>): LlmCall
    requires calls != []
  {
    calls[|calls| - 1]
  }

  /** The loop goes on after this reply: a tool round, or a nudge while text is not yet forced. */
  predicate Continues(maxIterations: nat, iteration: nat, reply: LlmReply) {
    reply.ToolCalls? || (iteration < maxIterations && reply.Text?)
  }

  /** The instructions for a token that the round of these calls yields first. */
  function AuthIn(env: LoopEnv, iteration: nat, calls: seq<ToolCall>): Option<string> {
    var k := HandledIn(env, iteration, calls);
    FirstAuth(env.round(iteration), Fresh, IsParallel(env.round(iteration), Fresh, k), calls, k)
  }

  /**
   * The loop goes on after this reply, with `nudges` in a row so far: a nudge is due for text that only
   * announces an action, or the whole round ran and nothing asks for a token.
   */
  predicate GoesOn(env: LoopEnv, maxIterations: nat, iteration: nat, nudges: nat, reply: LlmReply) {
    match reply
    case Text(_, signalsIntent) =>
      iteration < maxIterations && env.hasTools(iteration) && nudges < MAX_TOOL_INTENT_NUDGES && signalsIntent
    case ToolCalls(_, calls) => AuthIn(env, iteration, calls).None? && HandledIn(env, iteration, calls) == |calls|
    case _ => false
  }

  /** The request for call `k` of the reply to `last`: the calls after it are deferred. */
  function RequestFor(env: LoopEnv, last: LlmCall, calls: seq<ToolCall>, k: nat): PendingApproval
    requires k < |calls|
  {
    var tc := FinalCall(env.round(last.iteration), Fresh, k, calls[k]);
    PendingApproval(env.requestId, tc.name, tc.arguments, tc.id, AfterReply(env, last), calls[k + 1..])
  }

  /** What the run returns when the reply to `last` ends it; instructions for a token come before an approval. */
  function ResultOf(env: LoopEnv, last: LlmCall): LoopResult {
    match env.llm(last.iteration, last.retry)
    case Text(text, _) => Response(text)
    case ToolCalls(_, calls) =>
      var auth := AuthIn(env, last.iteration, calls);
      var k := HandledIn(env, last.iteration, calls);
      if auth.Some? then Response(auth.value)
      else if k < |calls| then NeedApproval(RequestFor(env, last, calls, k))
      else Failed(LlmError)
    case _ => Failed(LlmError)
  }

  /** The three ways to end without a reply. */
  predicate EndsBeforeCall(result: LoopResult) {
    result == Failed(IterationCeiling) || result == Failed(WasInterrupted) || result == Failed(CostLimit)
  }

  /** The reply to the last call, made in this iteration, is the first that does not go on. */
  predicate EndsByReply(env: LoopEnv, maxIterations: nat, calls: seq<LlmCall>, result: LoopResult, iteration: nat,
                        log: seq<LoopEvent>)
  {
    && calls != [] && LastCall(calls).iteration == iteration && LastCall(calls).retry == Retried(env, iteration)
    && !GoesOn(env, maxIterations, iteration, TrailingNudges(log), FinalReply(env, iteration))
    && result == ResultOf(env, LastCall(calls))
  }

  /** How the run ended in iteration `iterations`: at a guard, the last call being one iteration back, or by a reply. */
  predicate EndsWith(env: LoopEnv, maxIterations: nat, calls: seq<LlmCall>, result: LoopResult, iterations: nat,
                     log: seq<LoopEvent>)
  {
    && iterations == |log| + 1
    && (result == Failed(IterationCeiling) <==> iterations == maxIterations + 2)
    && (result == Failed(WasInterrupted) <==> iterations <= maxIterations + 1 && env.interrupted(iterations))
    && (result == Failed(CostLimit) <==>
          iterations <= maxIterations + 1 && !env.interrupted(iterations) && env.overBudget(iterations))
    && if EndsBeforeCall(result) then
         if calls == [] then iterations == 1
         else LastCall(calls).iteration == iterations - 1 && LastCall(calls).retry == Retried(env, iterations - 1)
       else EndsByReply(env, maxIterations, calls, result, iterations, log)
  }

  /** The provider keeps to text when it is given no tools. */
  ghost predicate TextWhenForced(env: LoopEnv, maxIterations: nat) {
    forall it: nat, retry :: it >= maxIterations ==> !env.llm(it, retry).ToolCalls?
  }

  // ----- The loop -----

  /** One provider call with the single emergency retry; `calls` grows by what was sent. */
  method CallLlm(env: LoopEnv, iteration: nat, context: seq<ChatMessage>)
    returns (sent: seq<LlmCall>, reply: LlmReply)
    requires WellFormed(context)
    ensures 1 <= |sent| <= 2 && AllWellFormed(sent)
    ensures sent[0] == LlmCall(iteration, false, context)
    ensures |sent| == 2 <==> env.llm(iteration, false).ContextTooLong?
    ensures |sent| == 2 ==> sent[1] == LlmCall(iteration, true, Compacted(context))
    ensures reply == env.llm(iteration, |sent| == 2)
  {
    sent := [LlmCall(iteration, false, context)];
    reply := env.llm(iteration, false);
    if reply.ContextTooLong? {
      var compacted := CompactMessagesForRetry(context);
      CompactionKeepsWellFormed(context);
      sent := sent + [LlmCall(iteration, true, compacted)];
      reply := env.llm(iteration, true);
    }
  }

  /** Tool rounds with more than `MAX_TOOL_INTENT_NUDGES` nudges in a row do not occur. */
  predicate NoThreeNudges(log: seq<LoopEvent>) {
    forall i :: 0 <= i && i + 2 < |log| ==> log[i].RoundRun? || log[i + 1].RoundRun? || log[i + 2].RoundRun?
  }

  /** Nudges since the last tool round. */
  function TrailingNudges(log: seq<LoopEvent>): nat {
    if log == [] || log[|log| - 1].RoundRun? then 0 else 1 + TrailingNudges(log[..|log| - 1])
  }

  /** The tool-call branch of one iteration: the round, then the auth return, the approval request, or on. */
  method HandleToolCalls(env: LoopEnv, iteration: nat, context: seq<ChatMessage>, content: string, toolCalls: seq<ToolCall>)
    returns (context': seq<ChatMessage>, auth: Option<string>, pending: Option<PendingApproval>, ghost req: Request, ghost k: nat)
    requires WellFormed(context)
    ensures k == HandledIn(env, iteration, toolCalls)
    ensures context' == context + [AssistantWithCalls(content, toolCalls)]
                        + InOrder(env.round(iteration), Fresh, IsParallel(env.round(iteration), Fresh, k), toolCalls, k)
    ensures auth == AuthIn(env, iteration, toolCalls)
    ensures pending.Some? <==> k < |toolCalls|
    ensures pending.Some? ==> Suspended(pending.value, req, k) && pending.value.requestId == env.requestId
    ensures pending.Some? ==>
              var tc := FinalCall(env.round(iteration), Fresh, k, toolCalls[k]);
              pending.value == PendingApproval(env.requestId, tc.name, tc.arguments, tc.id, context', toolCalls[k + 1..])
    ensures pending.None? ==> WellFormed(context')
    ensures context'[..|context| + 1] == context + [AssistantWithCalls(content, toolCalls)]
    ensures RoundIs(env.round(iteration), Fresh, toolCalls, context'[|context| + 1..], k, auth)
    ensures pending.Some? ==>
              ToolCall(pending.value.toolCallId, pending.value.toolName, pending.value.parameters)
              == Asked(env.round(iteration), Fresh, k, toolCalls[k])
  {
    req := Request(context, content, toolCalls);
    RequestOpens(req);
    var approval, handled;
    context', auth, approval, handled :=
      RunRound(env.round(iteration), Fresh, toolCalls, context + [AssistantWithCalls(content, toolCalls)]);
    k := handled;
    FreshRoundExtends(req, env.round(iteration), k);
    pending := None;
    if approval.Some? {
      var tc := approval.value;
      pending := Some(PendingApproval(env.requestId, tc.name, tc.arguments, tc.id, context', toolCalls[handled + 1..]));
    } else {
      RoundCloses(context', context, content, toolCalls);
    }
  }

  /** What holds between iterations. */
  predicate BetweenIterations(env: LoopEnv, maxIterations: nat, initial: seq<ChatMessage>, context: seq<ChatMessage>,
                              calls: seq<LlmCall>, iteration: nat)
  {
    && WellFormed(context) && AllWellFormed(calls) && Trace(env, maxIterations, initial, calls)
    && |calls| <= 2 * iteration
    && if iteration == 0 then calls == [] && context == initial
       else
         && calls != []
         && LastCall(calls).iteration == iteration && LastCall(calls).retry == Retried(env, iteration)
         && context == AfterReply(env, LastCall(calls))
         && Continues(maxIterations, iteration, env.llm(iteration, LastCall(calls).retry))
  }

  predicate Retried(env: LoopEnv, iteration: nat) {
    env.llm(iteration, false).ContextTooLong?
  }

  /** The reply an iteration acts on. */
  function FinalReply(env: LoopEnv, iteration: nat): LlmReply { env.llm(iteration, Retried(env, iteration)) }

  /** The guards before the provider call: an interrupt or a spent budget. */
  predicate Stopped(env: LoopEnv, iteration: nat) {
    env.interrupted(iteration) || env.overBudget(iteration)
  }

  /** No call was made past a guard. */
  predicate Permitted(env: LoopEnv, calls: seq<LlmCall>) {
    forall i :: 0 <= i < |calls| ==> !Stopped(env, calls[i].iteration)
  }

  /** Entry `i` of the log tells how iteration `i + 1` went on: it ran a tool round, or nudged. */
  predicate LogMatches(env: LoopEnv, maxIterations: nat, log: seq<LoopEvent>) {
    forall i :: 0 <= i < |log| ==> EntryMatches(env, maxIterations, log, i)
  }

  predicate EntryMatches(env: LoopEnv, maxIterations: nat, log: seq<LoopEvent>, i: nat)
    requires i < |log|
  {
    && GoesOn(env, maxIterations, i + 1, TrailingNudges(log[..i]), FinalReply(env, i + 1))
    && (log[i].RoundRun? <==> FinalReply(env, i + 1).ToolCalls?)
  }

  /** The nudge log between iterations. */
  predicate LogOk(env: LoopEnv, maxIterations: nat, log: seq<LoopEvent>, nudges: nat) {
    NoThreeNudges(log) && LogMatches(env, maxIterations, log) && nudges == TrailingNudges(log) <= MAX_TOOL_INTENT_NUDGES
  }

  /** First half of an iteration: the wrap-up nudge when due, then the provider call. */
  method Ask(env: LoopEnv, maxIterations: nat, ghost initial: seq<ChatMessage>, context: seq<ChatMessage>,
             calls: seq<LlmCall>, iteration: nat)
    returns (context': seq<ChatMessage>, calls': seq<LlmCall>, reply: LlmReply)
    requires iteration > 0 && BetweenIterations(env, maxIterations, initial, context, calls, iteration - 1)
    ensures WellFormed(context') && AllWellFormed(calls') && Trace(env, maxIterations, initial, calls')
    ensures 0 < |calls'| <= 2 * iteration
    ensures LastCall(calls').iteration == iteration && LastCall(calls').context == context'
    ensures reply == env.llm(iteration, LastCall(calls').retry)
    ensures LastCall(calls').retry == Retried(env, iteration)
    ensures Permitted(env, calls) && !Stopped(env, iteration) ==> Permitted(env, calls')
  {
    context' := context;
    if iteration == NudgeAt(maxIterations) {
      PlainKeepsWellFormed(context', WrapUpNudge());
      context' := context' + [WrapUpNudge()];
    }
    ghost var next := LlmCall(iteration, false, context');
    NextCallLinked(env, maxIterations, initial, context, calls, iteration, context');
    var sent;
    sent, reply := CallLlm(env, iteration, context');
    SentGrows(env, maxIterations, initial, calls, iteration, next, sent);
    calls' := calls + sent;
    context' := sent[|sent| - 1].context;
  }

  /** The calls of an iteration after those before it. */
  lemma SentGrows(env: LoopEnv, maxIterations: nat, initial: seq<ChatMessage>, calls: seq<LlmCall>, iteration: nat,
                  next: LlmCall, sent: seq<LlmCall>)
    requires Trace(env, maxIterations, initial, calls) && AllWellFormed(calls) && AllWellFormed(sent)
    requires next.iteration == iteration && !next.retry
    requires if calls == [] then next == LlmCall(1, false, BeforeCall(maxIterations, initial, 1))
             else Linked(env, maxIterations, LastCall(calls), next)
    requires sent == if Retried(env, iteration) then [next, LlmCall(iteration, true, Compacted(next.context))] else [next]
    ensures Trace(env, maxIterations, initial, calls + sent) && AllWellFormed(calls + sent)
    ensures LastCall(calls + sent) == sent[|sent| - 1] && LastCall(calls + sent).retry == Retried(env, iteration)
    ensures Permitted(env, calls) && !Stopped(env, iteration) ==> Permitted(env, calls + sent)
  {
    TraceGrows(env, maxIterations, initial, calls, sent);
    PermittedGrows(env, calls, sent, iteration);
  }

  /** The first call of an iteration continues the trace. */
  lemma NextCallLinked(env: LoopEnv, maxIterations: nat, initial: seq<ChatMessage>, context: seq<ChatMessage>,
                       calls: seq<LlmCall>, iteration: nat, context': seq<ChatMessage>)
    requires iteration > 0 && BetweenIterations(env, maxIterations, initial, context, calls, iteration - 1)
    requires context' == BeforeCall(maxIterations, context, iteration)
    ensures var next := LlmCall(iteration, false, context');
            if calls == [] then next == LlmCall(1, false, BeforeCall(maxIterations, initial, 1))
            else Linked(env, maxIterations, LastCall(calls), next)
    ensures calls == [] ==> iteration == 1
  {
  }

  lemma PermittedGrows(env: LoopEnv, calls: seq<LlmCall>, sent: seq<LlmCall>, iteration: nat)
    requires forall i :: 0 <= i < |sent| ==> sent[i].iteration == iteration
    ensures Permitted(env, calls) && !Stopped(env, iteration) ==> Permitted(env, calls + sent)
  {
  }

  /** Second half of an iteration: what the reply leads to; `done` is empty when the loop goes on. */
  method React(env: LoopEnv, maxIterations: nat, context: seq<ChatMessage>, iteration: nat, ghost retry: bool,
               reply: LlmReply, nudges: nat)
    returns (done: Option<LoopResult>, context': seq<ChatMessage>, nudges': nat, ghost req: Request, ghost k: nat)
    requires WellFormed(context) && reply == env.llm(iteration, retry)
    ensures done.None? <==> GoesOn(env, maxIterations, iteration, nudges, reply)
    ensures done.None? ==> WellFormed(context') && context' == AfterReply(env, LlmCall(iteration, retry, context))
    ensures done.None? ==> nudges' == if reply.ToolCalls? then 0 else nudges + 1
    ensures done.Some? ==> done.value == ResultOf(env, LlmCall(iteration, retry, context))
    ensures done.Some? && done.value.NeedApproval? ==>
              Suspended(done.value.pending, req, k) && done.value.pending.requestId == env.requestId
  {
    done, context', nudges' := None, context, nudges;
    req, k := Request([], "", []), 0;
    match reply {
      case ContextTooLong => done := Some(Failed(LlmError));
      case LlmFailure => done := Some(Failed(LlmError));
      case Text(text, signalsIntent) =>
        if iteration < maxIterations && env.hasTools(iteration) && nudges < MAX_TOOL_INTENT_NUDGES && signalsIntent {
          nudges' := nudges + 1;
          PlainKeepsWellFormed(context, AssistantMsg(text));
          PlainKeepsWellFormed(context + [AssistantMsg(text)], IntentNudge());
          context' := context + [AssistantMsg(text)] + [IntentNudge()];
        } else {
          done := Some(Response(text));
        }
      case ToolCalls(content, toolCalls) =>
        nudges' := 0;
        var auth, pending;
        context', auth, pending, req, k := HandleToolCalls(env, iteration, context, content, toolCalls);
        if auth.Some? {
          done := Some(Response(auth.value));
        } else if pending.Some? {
          done := Some(NeedApproval(pending.value));
        }
    }
  }

  /** What holds of the calls and the log at any moment of a run in iteration `iteration`. */
  predicate History(env: LoopEnv, maxIterations: nat, initial: seq<ChatMessage>, calls: seq<LlmCall>,
                    iteration: nat, log: seq<LoopEvent>)
  {
    && AllWellFormed(calls) && Trace(env, maxIterations, initial, calls) && Permitted(env, calls)
    && |calls| <= 2 * iteration
    && NoThreeNudges(log) && LogMatches(env, maxIterations, log)
  }

  /** One iteration past its guards. */
  method Iterate(env: LoopEnv, maxIterations: nat, ghost initial: seq<ChatMessage>, context: seq<ChatMessage>,
                 calls: seq<LlmCall>, iteration: nat, log: seq<LoopEvent>, nudges: nat)
    returns (done: Option<LoopResult>, context': seq<ChatMessage>, calls': seq<LlmCall>, log': seq<LoopEvent>,
             nudges': nat, ghost req: Request, ghost k: nat)
    requires iteration == |log| + 1 && !Stopped(env, iteration)
    requires BetweenIterations(env, maxIterations, initial, context, calls, iteration - 1)
    requires Permitted(env, calls) && LogOk(env, maxIterations, log, nudges)
    ensures History(env, maxIterations, initial, calls', iteration, log')
    ensures done.None? ==> BetweenIterations(env, maxIterations, initial, context', calls', iteration)
    ensures done.None? ==> LogOk(env, maxIterations, log', nudges') && |log'| == iteration
    ensures done.Some? ==> log' == log && EndsByReply(env, maxIterations, calls', done.value, iteration, log)
    ensures done.Some? && done.value.NeedApproval? ==>
              Suspended(done.value.pending, req, k) && done.value.pending.requestId == env.requestId
  {
    var reply;
    context', calls', reply := Ask(env, maxIterations, initial, context, calls, iteration);
    done, context', nudges', req, k := React(env, maxIterations, context', iteration, LastCall(calls').retry, reply, nudges);
    log' := log;
    if done.None? {
      LogGrows(env, maxIterations, log, reply);
      log' := log + [if reply.ToolCalls? then RoundRun else Nudged];
    }
  }

  /**
   * The agentic loop. Every context sent is well formed and the sequence of calls is the one `Trace` describes;
   * an approval request suspends one message of tool calls at one position.
   */
  method RunAgenticLoop(env: LoopEnv, maxIterations: nat, initial: seq<ChatMessage>)
    returns (result: LoopResult, calls: seq<LlmCall>, iterations: nat, log: seq<LoopEvent>, ghost req: Request, ghost k: nat)
    requires WellFormed(initial)
    ensures History(env, maxIterations, initial, calls, iterations, log)
    ensures EndsWith(env, maxIterations, calls, result, iterations, log)
    ensures result.NeedApproval? ==> Suspended(result.pending, req, k) && result.pending.requestId == env.requestId
    ensures iterations <= maxIterations + 2 && |calls| <= 2 * (maxIterations + 1)
    ensures TextWhenForced(env, maxIterations) ==> iterations <= (if maxIterations == 0 then 1 else maxIterations)
  {
    var context := initial;
    var iteration, nudges := 0, 0;
    calls, log, iterations := [], [], 0;
    req, k := Request([], "", []), 0;
    while true
      invariant iteration <= maxIterations + 1
      invariant BetweenIterations(env, maxIterations, initial, context, calls, iteration)
      invariant Permitted(env, calls)
      invariant LogOk(env, maxIterations, log, nudges) && |log| == iteration
      decreases maxIterations + 1 - iteration
    {
      iteration := iteration + 1;
      iterations := iteration;
      var stop := CheckGuards(env, maxIterations, iteration);
      if stop.Some? {
        result := stop.value;
        EndsAtGuard(env, maxIterations, initial, context, calls, iteration, log, result);
        ForcedText(env, maxIterations, log);
        return;
      }
      var done;
      done, context, calls, log, nudges, req, k :=
        Iterate(env, maxIterations, initial, context, calls, iteration, log, nudges);
      if done.Some? {
        result := done.value;
        EndsAtReply(env, maxIterations, calls, iteration, log, result);
        ForcedText(env, maxIterations, log);
        return;
      }
    }
  }

  /** The guard that stops iteration `it`, if one does. */
  predicate GuardStops(env: LoopEnv, maxIterations: nat, it: nat, result: LoopResult) {
    if it > maxIterations + 1 then result == Failed(IterationCeiling)
    else if env.interrupted(it) then result == Failed(WasInterrupted)
    else env.overBudget(it) && result == Failed(CostLimit)
  }

  /** The ceiling, then an interrupt, then the cost guard. */
  method CheckGuards(env: LoopEnv, maxIterations: nat, iteration: nat) returns (stop: Option<LoopResult>)
    ensures stop.Some? ==> GuardStops(env, maxIterations, iteration, stop.value)
    ensures stop.None? ==> iteration <= maxIterations + 1 && !Stopped(env, iteration)
  {
    if iteration > maxIterations + 1 {
      return Some(Failed(IterationCeiling));
    }
    if env.interrupted(iteration) {
      return Some(Failed(WasInterrupted));
    }
    if env.overBudget(iteration) {
      return Some(Failed(CostLimit));
    }
    stop := None;
  }

  /** No iteration from the last allowed one on goes on when text is forced. */
  lemma ForcedText(env: LoopEnv, maxIterations: nat, log: seq<LoopEvent>)
    requires LogMatches(env, maxIterations, log)
    ensures TextWhenForced(env, maxIterations) ==> log == [] || |log| < maxIterations
  {
    if log != [] {
      assert EntryMatches(env, maxIterations, log, |log| - 1);
    }
  }

  lemma EndsAtGuard(env: LoopEnv, maxIterations: nat, initial: seq<ChatMessage>, context: seq<ChatMessage>,
                    calls: seq<LlmCall>, it: nat, log: seq<LoopEvent>, result: LoopResult)
    requires 1 <= it <= maxIterations + 2 && BetweenIterations(env, maxIterations, initial, context, calls, it - 1)
    requires it == |log| + 1 && GuardStops(env, maxIterations, it, result)
    ensures EndsWith(env, maxIterations, calls, result, it, log)
  {
  }

  lemma EndsAtReply(env: LoopEnv, maxIterations: nat, calls: seq<LlmCall>, it: nat, log: seq<LoopEvent>, result: LoopResult)
    requires it == |log| + 1 <= maxIterations + 1 && !Stopped(env, it)
    requires EndsByReply(env, maxIterations, calls, result, it, log)
    ensures EndsWith(env, maxIterations, calls, result, it, log)
  {
  }

  // ----- Steps of the loop -----

  lemma PlainKeepsWellFormed(context: seq<ChatMessage>, m: ChatMessage)
    requires WellFormed(context) && !AsksForTools(m) && m.role != Tool
    ensures WellFormed(context + [m])
  {
    assert [m][1..] == [];
    WellFormedAppend(context, [m]);
  }

  lemma RequestOpens(req: Request)
    requires WellFormed(req.before)
    ensures OpenRound(req.before + [AssistantWithCalls(req.content, req.calls)], req.before, req.content, req.calls, 0)
  {
    var ms := req.before + [AssistantWithCalls(req.content, req.calls)];
    assert ms[|req.before| + 1..] == [];
  }

  lemma FreshRoundExtends(req: Request, env: RoundEnv, k: nat)
    requires WellFormed(req.before) && k <= |req.calls|
    ensures OpenRound(req.before + [AssistantWithCalls(req.content, req.calls)]
                      + InOrder(env, Fresh, IsParallel(env, Fresh, k), req.calls, k),
                      req.before, req.content, req.calls, k)
  {
    RequestOpens(req);
    assert req.calls[0..] == req.calls;
    RoundExtends(req.before + [AssistantWithCalls(req.content, req.calls)], req.before, req.content, req.calls, 0,
                 env, Fresh, IsParallel(env, Fresh, k), k);
  }

  lemma TraceGrows(env: LoopEnv, maxIterations: nat, initial: seq<ChatMessage>, calls: seq<LlmCall>, sent: seq<LlmCall>)
    requires Trace(env, maxIterations, initial, calls) && AllWellFormed(calls) && AllWellFormed(sent)
    requires 1 <= |sent| <= 2
    requires calls == [] ==> sent[0] == LlmCall(1, false, BeforeCall(maxIterations, initial, 1))
    requires calls != [] ==> Linked(env, maxIterations, calls[|calls| - 1], sent[0])
    requires |sent| == 2 ==> Linked(env, maxIterations, sent[0], sent[1])
    ensures Trace(env, maxIterations, initial, calls + sent) && AllWellFormed(calls + sent)
  {
    var all := calls + sent;
    forall i | 0 <= i < |all|
      ensures LinkedAt(env, maxIterations, all, i)
    {
      if i < |calls| {
        assert LinkedAt(env, maxIterations, calls, i);
      }
    }
  }

  lemma LogGrows(env: LoopEnv, maxIterations: nat, log: seq<LoopEvent>, reply: LlmReply)
    requires NoThreeNudges(log) && LogMatches(env, maxIterations, log) && reply == FinalReply(env, |log| + 1)
    requires GoesOn(env, maxIterations, |log| + 1, TrailingNudges(log), reply)
    ensures var log' := log + [if reply.ToolCalls? then RoundRun else Nudged];
            && NoThreeNudges(log') && LogMatches(env, maxIterations, log')
            && TrailingNudges(log') == if reply.ToolCalls? then 0 else TrailingNudges(log) + 1
  {
    var log' := log + [if reply.ToolCalls? then RoundRun else Nudged];
    assert log'[..|log|] == log;
    forall i | 0 <= i < |log'|
      ensures EntryMatches(env, maxIterations, log', i)
    {
      if i < |log| {
        assert log'[..i] == log[..i];
        assert EntryMatches(env, maxIterations, log, i);
      }
    }
    if |log| >= 2 && log[|log| - 1].Nudged? && !reply.ToolCalls? {
      assert TrailingNudges(log) == 1 + TrailingNudges(log[..|log| - 1]);
      assert log[|log| - 2].RoundRun?;
    }
  }
}
