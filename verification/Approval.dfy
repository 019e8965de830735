/** Answering an approval request: run the approved call, replay the deferred tail, go on (`process_approval`). */
module Approval {
  import opened Wrappers
  import opened Llm
  import opened Pending
  import opened Protocol
  import opened ToolRound
  import opened Dispatcher
  import opened LoopRuns
  import Session

  /** The surroundings of one answer: the approved call, the replayed tail, and the loop that may follow. */
  datatype ApprovalEnv = ApprovalEnv(
    approved: ToolCall -> ToolResult,
    tail: RoundEnv,
    requestId: nat,
    loop: LoopEnv)

  datatype Answer = Refuse | Approve(env: ApprovalEnv)

  // ----- What an approved answer leads to -----

  function ApprovedCall(pending: PendingApproval): ToolCall {
    ToolCall(pending.toolCallId, pending.toolName, pending.parameters)
  }

  function ApprovedResult(env: ApprovalEnv, pending: PendingApproval): ToolResult { env.approved(ApprovedCall(pending)) }

  /** How many calls of the deferred tail are dealt with before the next that needs approval. */
  function HandledTail(env: ApprovalEnv, pending: PendingApproval): (k: nat)
    ensures k <= |pending.deferredToolCalls|
  {
    Handled(env.tail, Deferred, pending.deferredToolCalls, 0)
  }

  function TailAuth(env: ApprovalEnv, pending: PendingApproval): Option<string> {
    var k := HandledTail(env, pending);
    FirstAuth(env.tail, Deferred, IsParallel(env.tail, Deferred, k), pending.deferredToolCalls, k)
  }

  function ApprovedReply(env: ApprovalEnv, pending: PendingApproval): ChatMessage {
    ToolResultMsg(pending.toolCallId, pending.toolName,
                  Render(env.tail, Deferred, ApprovedCall(pending), ApprovedResult(env, pending)))
  }

  /** The approved result, then the replies of the tail in order, up to the next call that needs approval. */
  function WithTail(env: ApprovalEnv, pending: PendingApproval): seq<ChatMessage> {
    var k := HandledTail(env, pending);
    pending.contextMessages + [ApprovedReply(env, pending)]
    + InOrder(env.tail, Deferred, IsParallel(env.tail, Deferred, k), pending.deferredToolCalls, k)
  }

  /** The approved call or the tail yields instructions for a token. */
  predicate EndsTurn(env: ApprovalEnv, pending: PendingApproval) {
    env.tail.authInstructions(pending.toolName, ApprovedResult(env, pending)).Some? || TailAuth(env, pending).Some?
  }

  function NextPending(env: ApprovalEnv, pending: PendingApproval): PendingApproval
    requires HandledTail(env, pending) < |pending.deferredToolCalls|
  {
    var k := HandledTail(env, pending);
    var tc := FinalCall(env.tail, Deferred, k, pending.deferredToolCalls[k]);
    PendingApproval(env.requestId, tc.name, tc.arguments, tc.id, WithTail(env, pending), pending.deferredToolCalls[k + 1..])
  }

  datatype Replay = TurnEnds | Again(pending: PendingApproval) | Resumes(context: seq<ChatMessage>)

  function Replayed(env: ApprovalEnv, pending: PendingApproval): Replay {
    if EndsTurn(env, pending) then TurnEnds
    else if HandledTail(env, pending) < |pending.deferredToolCalls| then Again(NextPending(env, pending))
    else Resumes(WithTail(env, pending))
  }

  /** One run of the agentic loop. */
  datatype Segment = Segment(env: LoopEnv, initial: seq<ChatMessage>, calls: seq<LlmCall>, result: LoopResult,
                             iterations: nat, log: seq<LoopEvent>)

  predicate Ran(maxIterations: nat, run: Segment) {
    IsRun(run.env, maxIterations, run.initial, run.calls, run.result, run.iterations, run.log)
  }

  /** The approved result and the tail's move the open message on by so many calls. */
  lemma TailExtends(env: ApprovalEnv, pending: PendingApproval, req: Request, k: nat)
    requires Suspended(pending, req, k)
    ensures var k' := k + 1 + HandledTail(env, pending);
            k' <= |req.calls| && OpenRound(WithTail(env, pending), req.before, req.content, req.calls, k')
  {
    var reply, n := ApprovedReply(env, pending), HandledTail(env, pending);
    RoundAdvances(pending.contextMessages, req.before, req.content, req.calls, k, reply);
    RoundExtends(pending.contextMessages + [reply], req.before, req.content, req.calls, k + 1, env.tail, Deferred,
                 IsParallel(env.tail, Deferred, n), n);
  }

  // ----- The handlers -----

  /** The pending call's result, then the deferred tail up to the next call that needs approval. */
  method ReplayTail(env: ApprovalEnv, pending: PendingApproval, result: ToolResult, ghost req: Request, ghost k: nat)
    returns (context: seq<ChatMessage>, auth: Option<string>, again: Option<PendingApproval>, ghost k': nat)
    requires Suspended(pending, req, k) && result == ApprovedResult(env, pending)
    ensures context == WithTail(env, pending) && auth == TailAuth(env, pending)
    ensures again.Some? <==> HandledTail(env, pending) < |pending.deferredToolCalls|
    ensures again.Some? ==> again.value == NextPending(env, pending)
    ensures k' == k + 1 + HandledTail(env, pending)
    ensures again.Some? ==> Suspended(again.value, req, k')
    ensures again.None? ==> WellFormed(context)
  {
    var call := ToolCall(pending.toolCallId, pending.toolName, pending.parameters);
    var answered := pending.contextMessages
                    + [ToolResultMsg(call.id, call.name, Render(env.tail, Deferred, call, result))];
    var approval, handled;
    context, auth, approval, handled := RunRound(env.tail, Deferred, pending.deferredToolCalls, answered);
    TailExtends(env, pending, req, k);
    k' := k + 1 + handled;
    again := None;
    if approval.Some? {
      var tc := approval.value;
      again := Some(PendingApproval(env.requestId, tc.name, tc.arguments, tc.id, context,
                                    pending.deferredToolCalls[handled + 1..]));
      assert pending.deferredToolCalls[handled + 1..] == req.calls[k' + 1..];
    } else {
      RoundCloses(context, req.before, req.content, req.calls);
    }
  }

  /**
   * The approved path: what follows is what `Replayed` says, and only a whole replay without instructions for a
   * token lets the loop run on, started on exactly the replayed context.
   */
  method ProcessApproved(env: ApprovalEnv, maxIterations: nat, pending: PendingApproval, ghost req: Request, ghost k: nat)
    returns (after: Replay, run: Option<Segment>, ghost req': Request, ghost k': nat)
    requires Suspended(pending, req, k)
    ensures after == Replayed(env, pending)
    ensures run.Some? <==> after.Resumes?
    ensures run.Some? ==>
              && run.value.env == env.loop && run.value.initial == after.context
              && WellFormed(after.context) && Ran(maxIterations, run.value)
    ensures after.Again? ==> req' == req && k < k' && Suspended(after.pending, req', k')
    ensures run.Some? && run.value.result.NeedApproval? ==> Suspended(run.value.result.pending, req', k')
  {
    run, req', k' := None, req, k;
    var result := env.approved(ToolCall(pending.toolCallId, pending.toolName, pending.parameters));
    if env.tail.authInstructions(pending.toolName, result).Some? {
      return TurnEnds, run, req', k';
    }
    var context, auth, again;
    context, auth, again, k' := ReplayTail(env, pending, result, req, k);
    if auth.Some? {
      return TurnEnds, run, req', k';
    }
    if again.Some? {
      return Again(again.value), run, req', k';
    }
    var loopResult, calls, iterations, log;
    loopResult, calls, iterations, log, req', k' := RunAgenticLoop(env.loop, maxIterations, context);
    after, run := Resumes(context), Some(Segment(env.loop, context, calls, loopResult, iterations, log));
  }

  // ----- A turn with its chain of approvals -----

  datatype Event =
    | Looped(run: Segment)
    | Answered(env: ApprovalEnv, pending: PendingApproval)
    | Refused(pending: PendingApproval)

  /** The request that is open after an event. */
  function PendingAfter(e: Event): Option<PendingApproval> {
    match e
    case Looped(run) => if run.result.NeedApproval? then Some(run.result.pending) else None
    case Answered(env, pending) => if Replayed(env, pending).Again? then Some(Replayed(env, pending).pending) else None
    case Refused(_) => None
  }

  /** An answer is given to the open request; a run follows an answer that resumes the loop, on its context. */
  ghost predicate Follows(e: Event, next: Event) {
    match next
    case Looped(run) =>
      e.Answered? && Replayed(e.env, e.pending) == Resumes(run.initial) && run.env == e.env.loop
    case Answered(_, pending) => PendingAfter(e) == Some(pending)
    case Refused(pending) => PendingAfter(e) == Some(pending)
  }

  function AnswerIn(e: Event): seq<Answer> {
    match e
    case Looped(_) => []
    case Answered(env, _) => [Approve(env)]
    case Refused(_) => [Refuse]
  }

  function CallsIn(e: Event): seq<LlmCall> { if e.Looped? then e.run.calls else [] }

  /** The answers of a story, in order. */
  function AnswersOf(story: seq<Event>): seq<Answer> {
    if story == [] then [] else AnswersOf(story[..|story| - 1]) + AnswerIn(story[|story| - 1])
  }

  /** The LLM calls of a story, in order. */
  function CallsOf(story: seq<Event>): seq<LlmCall> {
    if story == [] then [] else CallsOf(story[..|story| - 1]) + CallsIn(story[|story| - 1])
  }

  /** A run of the loop, then events that each follow from the one before. */
  ghost predicate IsStory(maxIterations: nat, env: LoopEnv, initial: seq<ChatMessage>, story: seq<Event>) {
    && story != [] && story[0].Looped? && story[0].run.env == env && story[0].run.initial == initial
    && (forall i :: 0 <= i < |story| ==> FollowsAt(story, i))
    && (forall i :: 0 <= i < |story| ==> RanAt(maxIterations, story, i))
  }

  ghost predicate FollowsAt(story: seq<Event>, i: nat)
    requires i < |story|
  {
    i > 0 ==> Follows(story[i - 1], story[i])
  }

  predicate RanAt(maxIterations: nat, story: seq<Event>, i: nat)
    requires i < |story|
  {
    story[i].Looped? ==> Ran(maxIterations, story[i].run)
  }

  function Last(story: seq<Event>): Event
    requires story != []
  {
    story[|story| - 1]
  }

  lemma StoryGrows(maxIterations: nat, env: LoopEnv, initial: seq<ChatMessage>, story: seq<Event>, e: Event)
    requires IsStory(maxIterations, env, initial, story) && Follows(Last(story), e)
    requires e.Looped? ==> Ran(maxIterations, e.run)
    ensures IsStory(maxIterations, env, initial, story + [e])
  {
    var story' := story + [e];
    forall i | 0 <= i < |story'|
      ensures FollowsAt(story', i) && RanAt(maxIterations, story', i)
    {
      if i < |story| {
        assert FollowsAt(story, i) && RanAt(maxIterations, story, i);
      }
    }
  }

  lemma TellingGrows(story: seq<Event>, e: Event)
    ensures CallsOf(story + [e]) == CallsOf(story) + CallsIn(e)
    ensures AnswersOf(story + [e]) == AnswersOf(story) + AnswerIn(e)
  {
    assert (story + [e])[..|story|] == story;
  }

  /** The last answer has had its whole effect: no run of the loop is still due. */
  predicate Settled(e: Event) { e.Answered? ==> !Replayed(e.env, e.pending).Resumes? }

  /** A story so far, with its calls and the request that is open. */
  ghost predicate Told(maxIterations: nat, env: LoopEnv, initial: seq<ChatMessage>, story: seq<Event>,
                       calls: seq<LlmCall>, pending: Option<PendingApproval>)
  {
    && IsStory(maxIterations, env, initial, story)
    && calls == CallsOf(story)
    && pending == PendingAfter(Last(story)) && Settled(Last(story))
  }

  lemma ToldFirst(maxIterations: nat, run: Segment)
    requires Ran(maxIterations, run)
    ensures Told(maxIterations, run.env, run.initial, [Looped(run)], run.calls, PendingAfter(Looped(run)))
    ensures AnswersOf([Looped(run)]) == []
  {
    assert [Looped(run)][..0] == [];
  }

  /** An answer that does not resume the loop. */
  lemma ToldAnswer(maxIterations: nat, env: LoopEnv, initial: seq<ChatMessage>, story: seq<Event>, calls: seq<LlmCall>,
                   pending: PendingApproval, e: Event)
    requires Told(maxIterations, env, initial, story, calls, Some(pending))
    requires (e.Answered? || e.Refused?) && e.pending == pending && Settled(e)
    ensures Told(maxIterations, env, initial, story + [e], calls, PendingAfter(e))
    ensures AnswersOf(story + [e]) == AnswersOf(story) + AnswerIn(e)
  {
    StoryGrows(maxIterations, env, initial, story, e);
    TellingGrows(story, e);
  }

  /** An answer and the run that it lets follow. */
  lemma TellingGrowsByRun(story: seq<Event>, e: Event, run: Segment)
    requires e.Answered?
    ensures CallsOf(story + [e] + [Looped(run)]) == CallsOf(story) + run.calls
    ensures AnswersOf(story + [e] + [Looped(run)]) == AnswersOf(story) + AnswerIn(e)
  {
    TellingGrows(story, e);
    TellingGrows(story + [e], Looped(run));
  }

  /** An answer that does, with the run that follows. */
  lemma ToldRun(maxIterations: nat, env: LoopEnv, initial: seq<ChatMessage>, story: seq<Event>, calls: seq<LlmCall>,
                pending: PendingApproval, e: Event, run: Segment)
    requires Told(maxIterations, env, initial, story, calls, Some(pending))
    requires e.Answered? && e.pending == pending && Follows(e, Looped(run)) && Ran(maxIterations, run)
    ensures Told(maxIterations, env, initial, story + [e] + [Looped(run)], calls + run.calls, PendingAfter(Looped(run)))
    ensures AnswersOf(story + [e] + [Looped(run)]) == AnswersOf(story) + AnswerIn(e)
  {
    StoryGrows(maxIterations, env, initial, story, e);
    assert Last(story + [e]) == e;
    StoryGrows(maxIterations, env, initial, story + [e], Looped(run));
    TellingGrowsByRun(story, e, run);
  }

  /** Every LLM call of a story gets a well-formed context. */
  lemma {:induction false} StoryWellFormed(maxIterations: nat, story: seq<Event>)
    requires forall i :: 0 <= i < |story| ==> RanAt(maxIterations, story, i)
    ensures AllWellFormed(CallsOf(story))
  {
    if story != [] {
      var front, e := story[..|story| - 1], story[|story| - 1];
      forall i | 0 <= i < |front|
        ensures RanAt(maxIterations, front, i)
      {
        assert RanAt(maxIterations, story, i);
      }
      StoryWellFormed(maxIterations, front);
      assert RanAt(maxIterations, story, |story| - 1);
      if e.Looped? {
        RanWellFormed(maxIterations, e.run);
      }
      AllWellFormedAppend(CallsOf(front), CallsIn(e));
    }
  }

  lemma RanWellFormed(maxIterations: nat, run: Segment)
    requires Ran(maxIterations, run)
    ensures AllWellFormed(run.calls)
  {
  }

  lemma AllWellFormedAppend(a: seq<LlmCall>, b: seq<LlmCall>)
    requires AllWellFormed(a) && AllWellFormed(b)
    ensures AllWellFormed(a + b)
  {
  }

  /** One answer to the open request. */
  method TakeAnswer(answer: Answer, maxIterations: nat, pending: PendingApproval, calls: seq<LlmCall>,
                    ghost env: LoopEnv, ghost initial: seq<ChatMessage>, ghost story: seq<Event>, ghost req: Request, ghost k: nat)
    returns (calls': seq<LlmCall>, pending': Option<PendingApproval>, ghost story': seq<Event>, ghost req': Request, ghost k': nat)
    requires Told(maxIterations, env, initial, story, calls, Some(pending)) && Suspended(pending, req, k)
    ensures Told(maxIterations, env, initial, story', calls', pending')
    ensures AnswersOf(story') == AnswersOf(story) + [answer]
    ensures pending'.Some? ==> Suspended(pending'.value, req', k')
  {
    calls', pending', req', k' := calls, None, req, k;
    match answer {
      case Refuse =>
        ToldAnswer(maxIterations, env, initial, story, calls, pending, Refused(pending));
        story' := story + [Refused(pending)];
      case Approve(approvalEnv) =>
        ghost var e := Answered(approvalEnv, pending);
        var after, run;
        after, run, req', k' := ProcessApproved(approvalEnv, maxIterations, pending, req, k);
        match after {
          case Again(again) =>
            pending' := Some(again);
            ToldAnswer(maxIterations, env, initial, story, calls, pending, e);
            story' := story + [e];
          case TurnEnds =>
            ToldAnswer(maxIterations, env, initial, story, calls, pending, e);
            story' := story + [e];
          case Resumes(_) =>
            calls' := calls + run.value.calls;
            pending' := if run.value.result.NeedApproval? then Some(run.value.result.pending) else None;
            ToldRun(maxIterations, env, initial, story, calls, pending, e, run.value);
            story' := story + [e] + [Looped(run.value)];
        }
    }
  }

  method FirstRun(env: LoopEnv, maxIterations: nat, initial: seq<ChatMessage>)
    returns (run: Segment, ghost req: Request, ghost k: nat)
    requires WellFormed(initial)
    ensures Told(maxIterations, env, initial, [Looped(run)], run.calls, PendingAfter(Looped(run)))
    ensures AnswersOf([Looped(run)]) == []
    ensures run.result.NeedApproval? ==> Suspended(run.result.pending, req, k)
  {
    var result, calls, iterations, log;
    result, calls, iterations, log, req, k := RunAgenticLoop(env, maxIterations, initial);
    run := Segment(env, initial, calls, result, iterations, log);
    ToldFirst(maxIterations, run);
  }

  /** Answers are taken as long as a request is open. */
  method TakeAnswers(answers: seq<Answer>, maxIterations: nat, first: Option<PendingApproval>, before: seq<LlmCall>,
                     ghost env: LoopEnv, ghost initial: seq<ChatMessage>, ghost opening: seq<Event>, ghost req: Request, ghost k: nat)
    returns (calls: seq<LlmCall>, pending: Option<PendingApproval>, ghost story: seq<Event>, ghost taken: nat)
    requires Told(maxIterations, env, initial, opening, before, first)
    requires first.Some? ==> Suspended(first.value, req, k)
    ensures Told(maxIterations, env, initial, story, calls, pending)
    ensures taken <= |answers| && AnswersOf(story) == AnswersOf(opening) + answers[..taken]
    ensures pending.Some? ==> taken == |answers|
    decreases |answers|
  {
    calls, pending, story, taken := before, first, opening, 0;
    if first.None? || answers == [] {
      return;
    }
    ghost var req', k';
    calls, pending, story, req', k' := TakeAnswer(answers[0], maxIterations, first.value, before, env, initial, opening, req, k);
    ghost var more;
    calls, pending, story, more := TakeAnswers(answers[1..], maxIterations, pending, calls, env, initial, story, req', k');
    OneMore(AnswersOf(opening), answers, more);
    taken := more + 1;
  }

  lemma OneMore(taken: seq<Answer>, answers: seq<Answer>, n: nat)
    requires n < |answers|
    ensures taken + [answers[0]] + answers[1..][..n] == taken + answers[..n + 1]
  {
  }

  /**
   * A turn with its whole chain of approvals: any number of answers, each with surroundings of its own. The
   * story tells every run of the loop and every answer in order; `calls` are its LLM calls, all on well-formed
   * contexts; the chain stops only when nothing is pending or no answer is left.
   */
  method RunTurn(env: LoopEnv, maxIterations: nat, initial: seq<ChatMessage>, answers: seq<Answer>)
    returns (calls: seq<LlmCall>, ghost story: seq<Event>)
    requires WellFormed(initial)
    ensures IsStory(maxIterations, env, initial, story) && Settled(Last(story))
    ensures calls == CallsOf(story) && AllWellFormed(calls)
    ensures AnswersOf(story) <= answers
    ensures PendingAfter(Last(story)).Some? ==> AnswersOf(story) == answers
  {
    var run;
    ghost var req: Request, k: nat;
    run, req, k := FirstRun(env, maxIterations, initial);
    var first := if run.result.NeedApproval? then Some(run.result.pending) else None;
    var pending;
    ghost var taken;
    calls, pending, story, taken := TakeAnswers(answers, maxIterations, first, run.calls, env, initial, [Looped(run)], req, k);
    StoryWellFormed(maxIterations, story);
  }

  lemma PlainIsWellFormed(m: ChatMessage)
    requires m.role != Tool && m.toolCalls == []
    ensures WellFormed([m])
  {
    assert [m][1..] == [];
  }

  /** A thread's messages are a context that a provider accepts: no turn prints a tool call. */
  lemma {:induction false} PrintIsWellFormed(turns: seq<Session.Turn>)
    ensures WellFormed(Session.Print(turns))
  {
    if turns != [] {
      PrintIsWellFormed(turns[1..]);
      var t := turns[0];
      PlainIsWellFormed(UserMsg(t.userInput));
      if t.response.Some? {
        PlainIsWellFormed(AssistantMsg(t.response.value));
        WellFormedAppend([UserMsg(t.userInput)], [AssistantMsg(t.response.value)]);
        assert Session.PrintTurn(t) == [UserMsg(t.userInput)] + [AssistantMsg(t.response.value)];
      }
      WellFormedAppend(Session.PrintTurn(t), Session.Print(turns[1..]));
    }
  }

  /** The user's message was just stored: the loop starts on the messages of the thread. */
  method UserTurn(env: LoopEnv, maxIterations: nat, thread: Session.Thread, answers: seq<Answer>)
    returns (calls: seq<LlmCall>, ghost story: seq<Event>)
    ensures IsStory(maxIterations, env, Session.Print(thread.turns), story)
    ensures calls == CallsOf(story) && AllWellFormed(calls)
    ensures AnswersOf(story) <= answers && Settled(Last(story))
    ensures PendingAfter(Last(story)).Some? ==> AnswersOf(story) == answers
  {
    var messages := thread.Messages();
    PrintIsWellFormed(thread.turns);
    calls, story := RunTurn(env, maxIterations, messages, answers);
  }

  /** The answers from event `i + 1` to event `j` are all about the message that the run at `i` stopped in. */
  predicate SameMessage(story: seq<Event>, i: nat, j: nat) {
    && i <= j < |story| && story[i].Looped? && story[i].run.result.NeedApproval?
    && forall m :: i < m <= j ==> PendingAfter(story[m]).Some? && story[m].Answered?
  }

  /** The calls of the message a run stopped in. */
  function MessageOf(run: Segment): seq<ToolCall> {
    if run.calls == [] then []
    else
      var last := LastCall(run.calls);
      match run.env.llm(last.iteration, last.retry) case ToolCalls(_, calls) => calls case _ => []
  }

  function Ids(calls: seq<ToolCall>): seq<Option<string>> {
    seq(|calls|, i requires 0 <= i < |calls| => Some(calls[i].id))
  }

  function ReplyIds(replies: seq<ChatMessage>): seq<Option<string>> {
    seq(|replies|, i requires 0 <= i < |replies| => replies[i].toolCallId)
  }

  /** Results already emitted, then the pending call, then the deferred tail: exactly the original call list. */
  lemma SuspendedIsPartition(p: PendingApproval, req: Request, k: nat)
    requires Suspended(p, req, k)
    ensures ReplyIds(p.contextMessages[|req.before| + 1..]) + [Some(p.toolCallId)] + Ids(p.deferredToolCalls)
            == Ids(req.calls)
  {
    var replies := p.contextMessages[|req.before| + 1..];
    var whole := ReplyIds(replies) + [Some(p.toolCallId)] + Ids(p.deferredToolCalls);
    forall i | 0 <= i < |req.calls|
      ensures whole[i] == Ids(req.calls)[i]
    {
      if i < k {
        assert AnswersCall(req.calls[..k][i], replies[i]);
      }
    }
  }

  /** A chain of requests for one message: each moves strictly further through its calls. */
  predicate ApprovalChain(chain: seq<PendingApproval>, at: seq<nat>, req: Request) {
    && |chain| == |at|
    && (forall i :: 0 <= i < |chain| ==> Suspended(chain[i], req, at[i]))
    && (forall i :: 0 < i < |at| ==> at[i - 1] < at[i])
  }

  /** A message of `n` calls needs at most `n` approvals, and its deferred tail shrinks with each. */
  lemma {:induction false} ChainIsShort(chain: seq<PendingApproval>, at: seq<nat>, req: Request)
    requires ApprovalChain(chain, at, req)
    ensures |chain| <= |req.calls|
    ensures chain != [] ==> |chain| - 1 <= at[|at| - 1]
    ensures forall i :: 0 < i < |chain| ==> |chain[i].deferredToolCalls| < |chain[i - 1].deferredToolCalls|
  {
    if chain != [] {
      var n := |chain| - 1;
      assert Suspended(chain[n], req, at[n]);
      if n > 0 {
        ChainIsShort(chain[..n], at[..n], req);
        assert Suspended(chain[n - 1], req, at[n - 1]);
      }
    }
  }

  // ----- The requests of a story -----

  /** The message that a run of the loop stopped in. */
  function StoppedIn(run: Segment): Request {
    if run.calls == [] then Request([], "", [])
    else
      var last := LastCall(run.calls);
      match run.env.llm(last.iteration, last.retry)
      case ToolCalls(content, calls) => Request(last.context, content, calls)
      case _ => Request([], "", [])
  }

  /** The request that ends a run suspends the message the run stopped in. */
  lemma FirstSuspended(maxIterations: nat, run: Segment)
    requires Ran(maxIterations, run) && run.result.NeedApproval?
    ensures MessageOf(run) == StoppedIn(run).calls
    ensures exists k :: Suspended(run.result.pending, StoppedIn(run), k)
  {
    var last, req := LastCall(run.calls), StoppedIn(run);
    var k := HandledIn(run.env, last.iteration, req.calls);
    FreshRoundExtends(req, run.env.round(last.iteration), k);
    assert Suspended(run.result.pending, req, k);
  }

  /** An answer that asks again suspends the same message strictly further on. */
  lemma AgainSuspended(env: ApprovalEnv, pending: PendingApproval, req: Request, k: nat)
    requires Suspended(pending, req, k) && Replayed(env, pending).Again?
    ensures var k' := k + 1 + HandledTail(env, pending); Suspended(Replayed(env, pending).pending, req, k')
  {
    var n := HandledTail(env, pending);
    TailExtends(env, pending, req, k);
    assert pending.deferredToolCalls[n + 1..] == req.calls[k + 1 + n + 1..];
  }

  /** The requests from event `i` to event `j`. */
  function Requests(story: seq<Event>, i: nat, j: nat): (r: seq<PendingApproval>)
    requires SameMessage(story, i, j)
    ensures |r| == j - i + 1 && Some(r[j - i]) == PendingAfter(story[j])
    decreases j
  {
    if i == j then [story[i].run.result.pending]
    else Requests(story, i, j - 1) + [PendingAfter(story[j]).value]
  }

  /** In every story the requests about one message form a chain through its calls. */
  lemma {:induction false} StoryFormsChain(maxIterations: nat, env: LoopEnv, initial: seq<ChatMessage>, story: seq<Event>,
                                           i: nat, j: nat)
    returns (at: seq<nat>)
    requires IsStory(maxIterations, env, initial, story) && SameMessage(story, i, j)
    ensures ApprovalChain(Requests(story, i, j), at, StoppedIn(story[i].run))
    ensures StoppedIn(story[i].run).calls == MessageOf(story[i].run)
    decreases j
  {
    var req := StoppedIn(story[i].run);
    if i == j {
      assert RanAt(maxIterations, story, i);
      at := ChainStarts(maxIterations, story[i].run);
    } else {
      var front := StoryFormsChain(maxIterations, env, initial, story, i, j - 1);
      assert FollowsAt(story, j) && PendingAfter(story[j]).Some?;
      AskedAgain(story[j - 1], story[j]);
      at := ChainAnswered(Requests(story, i, j - 1), front, req, story[j].env, story[j].pending);
    }
  }

  lemma AskedAgain(e: Event, next: Event)
    requires Follows(e, next) && next.Answered? && PendingAfter(next).Some?
    ensures PendingAfter(e) == Some(next.pending) && Replayed(next.env, next.pending).Again?
    ensures PendingAfter(next) == Some(Replayed(next.env, next.pending).pending)
  {
  }

  lemma ChainStarts(maxIterations: nat, run: Segment) returns (at: seq<nat>)
    requires Ran(maxIterations, run) && run.result.NeedApproval?
    ensures ApprovalChain([run.result.pending], at, StoppedIn(run))
    ensures StoppedIn(run).calls == MessageOf(run)
  {
    FirstSuspended(maxIterations, run);
    var k :| Suspended(run.result.pending, StoppedIn(run), k);
    at := [k];
  }

  /** One more answer that asks again. */
  lemma ChainAnswered(chain: seq<PendingApproval>, front: seq<nat>, req: Request, env: ApprovalEnv, pending: PendingApproval)
    returns (at: seq<nat>)
    requires ApprovalChain(chain, front, req) && chain != [] && chain[|chain| - 1] == pending
    requires Replayed(env, pending).Again?
    ensures ApprovalChain(chain + [Replayed(env, pending).pending], at, req)
  {
    var k := front[|front| - 1];
    assert Suspended(chain[|chain| - 1], req, k);
    AgainSuspended(env, pending, req, k);
    var k' := k + 1 + HandledTail(env, pending);
    ChainGrows(chain, front, req, Replayed(env, pending).pending, k');
    at := front + [k'];
  }

  lemma ChainGrows(chain: seq<PendingApproval>, at: seq<nat>, req: Request, p: PendingApproval, k: nat)
    requires ApprovalChain(chain, at, req) && Suspended(p, req, k) && (at != [] ==> at[|at| - 1] < k)
    ensures ApprovalChain(chain + [p], at + [k], req)
  {
    var chain', at' := chain + [p], at + [k];
    forall i | 0 <= i < |chain'|
      ensures Suspended(chain'[i], req, at'[i])
    {
      if i < |chain| {
        assert Suspended(chain[i], req, at[i]);
      }
    }
  }

  /** Each open request of a story cuts its message: results emitted, the pending call, the deferred tail. */
  lemma StoryPartition(maxIterations: nat, env: LoopEnv, initial: seq<ChatMessage>, story: seq<Event>, i: nat, j: nat)
    requires IsStory(maxIterations, env, initial, story) && SameMessage(story, i, j)
    ensures var p, before := Requests(story, i, j)[j - i], |StoppedIn(story[i].run).before|;
            && before < |p.contextMessages|
            && ReplyIds(p.contextMessages[before + 1..]) + [Some(p.toolCallId)] + Ids(p.deferredToolCalls)
               == Ids(MessageOf(story[i].run))
  {
    var at := StoryFormsChain(maxIterations, env, initial, story, i, j);
    var req, p := StoppedIn(story[i].run), Requests(story, i, j)[j - i];
    assert Suspended(p, req, at[j - i]);
    SuspendedIsPartition(p, req, at[j - i]);
  }

  /** In every story a message is asked about at most once per call, with a shorter tail each time. */
  lemma AskedOncePerCall(maxIterations: nat, env: LoopEnv, initial: seq<ChatMessage>, story: seq<Event>, i: nat, j: nat)
    requires IsStory(maxIterations, env, initial, story) && SameMessage(story, i, j)
    ensures j - i + 1 <= |MessageOf(story[i].run)|
    ensures forall n :: 0 < n <= j - i ==>
              |Requests(story, i, j)[n].deferredToolCalls| < |Requests(story, i, j)[n - 1].deferredToolCalls|
  {
    var at := StoryFormsChain(maxIterations, env, initial, story, i, j);
    ChainIsShort(Requests(story, i, j), at, StoppedIn(story[i].run));
  }
}
