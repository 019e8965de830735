/** The provider's rule for tool use: every tool call is answered, in order, before anything else. */
module Protocol {
  import opened Wrappers
  import opened Llm

  /** `reply` is the tool-result message that answers `call`. */
  predicate AnswersCall(call: ToolCall, reply: ChatMessage) {
    && reply.role == Tool
    && reply.toolCallId == Some(call.id)
    && reply.name == Some(call.name)
    && reply.toolCalls == []
  }

  /** One reply per call, same ids, same order. */
  predicate Answers(calls: seq<ToolCall>, replies: seq<ChatMessage>) {
    && |replies| == |calls|
    && forall i :: 0 <= i < |calls| ==> AnswersCall(calls[i], replies[i])
  }

  /** A message that asks for tools; only assistant messages do. */
  predicate AsksForTools(m: ChatMessage) {
    m.toolCalls != []
  }

  /** Length of the opening unit of a context: a plain message, or a request with its answers. */
  function HeadLen(ms: seq<ChatMessage>): nat
    requires ms != []
  {
    1 + |ms[0].toolCalls|
  }

  /** The context opens with a complete unit. */
  predicate HeadOk(ms: seq<ChatMessage>)
    requires ms != []
  {
    && HeadLen(ms) <= |ms|
    && if AsksForTools(ms[0])
       then ms[0].role == Assistant && Answers(ms[0].toolCalls, ms[1..HeadLen(ms)])
       else ms[0].role != Tool
  }

  /**
   * A context an LLM provider accepts, read from the front: a message asking for tools is followed at
   * once by the answers to all its calls, and tool results appear nowhere else.
   */
  predicate WellFormed(ms: seq<ChatMessage>)
    decreases |ms|
  {
    ms == [] || (HeadOk(ms) && WellFormed(ms[HeadLen(ms)..]))
  }

  /** A context in the middle of a tool round: the first `k` calls of the last request are answered. */
  predicate OpenRound(ms: seq<ChatMessage>, before: seq<ChatMessage>, content: string, calls: seq<ToolCall>, k: nat) {
    && k <= |calls|
    && WellFormed(before)
    && |ms| == |before| + 1 + k
    && ms[..|before|] == before
    && ms[|before|] == AssistantWithCalls(content, calls)
    && Answers(calls[..k], ms[|before| + 1..])
  }

  lemma HeadOkAppend(a: seq<ChatMessage>, b: seq<ChatMessage>)
    requires a != [] && HeadLen(a) <= |a|
    ensures HeadOk(a + b) == HeadOk(a)
    ensures (a + b)[HeadLen(a + b)..] == a[HeadLen(a)..] + b
  {
    assert (a + b)[1..HeadLen(a)] == a[1..HeadLen(a)];
  }

  lemma {:induction false} WellFormedAppend(a: seq<ChatMessage>, b: seq<ChatMessage>)
    requires WellFormed(a) && WellFormed(b)
    ensures WellFormed(a + b)
    decreases |a|
  {
    if a == [] {
      assert a + b == b;
    } else {
      HeadOkAppend(a, b);
      WellFormedAppend(a[HeadLen(a)..], b);
    }
  }

  /** Inside a round every message is a plain tool result. */
  lemma RoundBody(ms: seq<ChatMessage>)
    requires ms != [] && |ms[0].toolCalls| < |ms|
    requires Answers(ms[0].toolCalls, ms[1..1 + |ms[0].toolCalls|])
    ensures forall i :: 0 < i <= |ms[0].toolCalls| ==> ms[i].role == Tool && ms[i].toolCalls == []
  {
    forall i | 0 < i <= |ms[0].toolCalls|
      ensures ms[i].role == Tool && ms[i].toolCalls == []
    {
      assert AnswersCall(ms[0].toolCalls[i - 1], ms[1..1 + |ms[0].toolCalls|][i - 1]);
    }
  }

  /** Well-formedness can be cut at any message that is not a tool result. */
  lemma {:induction false} WellFormedSplit(a: seq<ChatMessage>, b: seq<ChatMessage>)
    requires WellFormed(a + b)
    requires b != [] ==> b[0].role != Tool
    ensures WellFormed(a) && WellFormed(b)
    decreases |a|
  {
    if a == [] {
      assert a + b == b;
    } else {
      HeadInside(a, b);
      HeadOkAppend(a, b);
      WellFormedSplit(a[HeadLen(a)..], b);
    }
  }

  /** A cut inside a round would fall on a tool result. */
  lemma HeadInside(a: seq<ChatMessage>, b: seq<ChatMessage>)
    requires a != [] && HeadOk(a + b)
    requires b != [] ==> b[0].role != Tool
    ensures HeadLen(a) <= |a|
  {
    var ms := a + b;
    if AsksForTools(ms[0]) {
      RoundBody(ms);
    }
    assert b != [] ==> ms[|a|] == b[0];
  }

  /** Closing a round: when the last call is answered the whole context is well formed again. */
  lemma RoundCloses(ms: seq<ChatMessage>, before: seq<ChatMessage>, content: string, calls: seq<ToolCall>)
    requires OpenRound(ms, before, content, calls, |calls|)
    ensures WellFormed(ms)
  {
    var round := ms[|before|..];
    assert calls[..|calls|] == calls;
    assert round[1..] == ms[|before| + 1..];
    assert HeadOk(round) && round[HeadLen(round)..] == [];
    WellFormedAppend(before, round);
    assert ms == before + round;
  }

  /** Answering the next call advances the round by one. */
  lemma RoundAdvances(ms: seq<ChatMessage>, before: seq<ChatMessage>, content: string, calls: seq<ToolCall>, k: nat,
                      reply: ChatMessage)
    requires OpenRound(ms, before, content, calls, k) && k < |calls|
    requires AnswersCall(calls[k], reply)
    ensures OpenRound(ms + [reply], before, content, calls, k + 1)
  {
    var ms' := ms + [reply];
    assert ms'[..|before|] == before;
    assert ms'[|before| + 1..] == ms[|before| + 1..] + [reply];
    assert forall i :: 0 <= i < k ==> calls[..k + 1][i] == calls[..k][i];
  }

  /** The request at position `i`, if there is one there, is answered at once and in full. */
  predicate RequestAnswered(ms: seq<ChatMessage>, i: nat)
    requires i < |ms|
  {
    AsksForTools(ms[i]) ==>
      var n := |ms[i].toolCalls|;
      ms[i].role == Assistant && i + n < |ms| && Answers(ms[i].toolCalls, ms[i + 1..i + 1 + n])
  }

  /** The tool result at position `j`, if there is one there, belongs to the request at some earlier `i`. */
  ghost predicate ResultOwned(ms: seq<ChatMessage>, j: nat)
    requires j < |ms|
  {
    ms[j].role == Tool ==> exists i :: 0 <= i < j && j <= i + |ms[i].toolCalls|
  }

  /**
   * What a provider checks, position by position: each request for tools is followed at once by one result
   * per call with the same ids in the same order, and every tool result belongs to such a run.
   */
  ghost predicate AnsweredEverywhere(ms: seq<ChatMessage>) {
    && (forall i :: 0 <= i < |ms| ==> RequestAnswered(ms, i))
    && (forall j :: 0 <= j < |ms| ==> ResultOwned(ms, j))
  }

  /** The front-to-back reading and the position-by-position reading are the same. */
  lemma {:induction false} WellFormedIffAnsweredEverywhere(ms: seq<ChatMessage>)
    ensures WellFormed(ms) <==> AnsweredEverywhere(ms)
    decreases |ms|
  {
    if ms != [] {
      var n := HeadLen(ms);
      FirstRound(ms);
      if HeadOk(ms) {
        WellFormedIffAnsweredEverywhere(ms[n..]);
        ShiftAll(ms);
      }
    }
  }

  /** Past an in-order first round, positions can be read in the rest alone. */
  lemma ShiftAll(ms: seq<ChatMessage>)
    requires ms != [] && HeadOk(ms)
    ensures AnsweredEverywhere(ms) <==> AnsweredEverywhere(ms[HeadLen(ms)..])
  {
    var n := HeadLen(ms);
    var rest := ms[n..];
    FirstRound(ms);
    forall i | 0 <= i < |rest|
      ensures RequestAnswered(rest, i) <==> RequestAnswered(ms, i + n)
      ensures ResultOwned(rest, i) <==> ResultOwned(ms, i + n)
    {
      RequestShift(ms, n, i + n);
      OwnedShift(ms, n, i + n);
    }
    if AnsweredEverywhere(ms) {
      ShiftDown(ms, rest, n);
    }
    if AnsweredEverywhere(rest) {
      ShiftUp(ms, rest, n);
    }
  }

  lemma ShiftDown(ms: seq<ChatMessage>, rest: seq<ChatMessage>, n: nat)
    requires |ms| == |rest| + n && AnsweredEverywhere(ms)
    requires forall i :: 0 <= i < |rest| ==> (RequestAnswered(rest, i) <==> RequestAnswered(ms, i + n))
    requires forall i :: 0 <= i < |rest| ==> (ResultOwned(rest, i) <==> ResultOwned(ms, i + n))
    ensures AnsweredEverywhere(rest)
  {
  }

  lemma ShiftUp(ms: seq<ChatMessage>, rest: seq<ChatMessage>, n: nat)
    requires |ms| == |rest| + n && AnsweredEverywhere(rest)
    requires forall i :: 0 <= i < |rest| ==> (RequestAnswered(rest, i) <==> RequestAnswered(ms, i + n))
    requires forall i :: 0 <= i < |rest| ==> (ResultOwned(rest, i) <==> ResultOwned(ms, i + n))
    requires forall i :: 0 <= i < n ==> RequestAnswered(ms, i) && ResultOwned(ms, i)
    ensures AnsweredEverywhere(ms)
  {
    forall i | 0 <= i < |ms|
      ensures RequestAnswered(ms, i) && ResultOwned(ms, i)
    {
      if i >= n {
        assert RequestAnswered(rest, i - n) && ResultOwned(rest, i - n);
      }
    }
  }

  lemma RequestShift(ms: seq<ChatMessage>, n: nat, i: nat)
    requires n <= i < |ms|
    ensures RequestAnswered(ms, i) <==> RequestAnswered(ms[n..], i - n)
  {
    var k := |ms[i].toolCalls|;
    if i + k < |ms| {
      assert ms[n..][i - n + 1..i - n + 1 + k] == ms[i + 1..i + 1 + k];
    }
  }

  /** No request inside the first round can own a result after it. */
  lemma OwnedShift(ms: seq<ChatMessage>, n: nat, j: nat)
    requires ms != [] && n == 1 + |ms[0].toolCalls| <= j < |ms|
    requires forall i :: 0 < i < n ==> ms[i].toolCalls == []
    ensures ResultOwned(ms, j) <==> ResultOwned(ms[n..], j - n)
  {
    var rest := ms[n..];
    assert forall i :: n <= i < |ms| ==> ms[i] == rest[i - n];
    if i :| 0 <= i < j && j <= i + |ms[i].toolCalls| {
      assert rest[i - n] == ms[i];
    }
    if i :| 0 <= i < j - n && j - n <= i + |rest[i].toolCalls| {
      assert ms[i + n] == rest[i];
    }
  }

  /** The opening unit is in order exactly when position 0 is, and then so is every position inside it. */
  lemma FirstRound(ms: seq<ChatMessage>)
    requires ms != []
    ensures HeadOk(ms) <==> RequestAnswered(ms, 0) && ResultOwned(ms, 0)
    ensures HeadOk(ms) ==> forall i :: 0 < i < HeadLen(ms) ==>
              ms[i].toolCalls == [] && RequestAnswered(ms, i) && ResultOwned(ms, i)
  {
    if HeadOk(ms) && AsksForTools(ms[0]) {
      RoundBody(ms);
      forall j | 0 < j < HeadLen(ms)
        ensures ResultOwned(ms, j)
      {
        assert j <= 0 + |ms[0].toolCalls|;
      }
    }
  }
}
