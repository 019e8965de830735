/**
 * What the contract of a turn leaves open: nothing. The surroundings, the first context and the answers
 * determine the whole story, and so its LLM calls (src/agent/thread_ops.rs).
 */
module Stories {
  import opened Llm
  import opened Dispatcher
  import opened LoopRuns
  import opened Approval

  /** All that `RunTurn` says of a story. */
  ghost predicate IsTurn(maxIterations: nat, env: LoopEnv, initial: seq<ChatMessage>, answers: seq<Answer>, story: seq<Event>) {
    && IsStory(maxIterations, env, initial, story) && Settled(Last(story))
    && AnswersOf(story) <= answers
    && (PendingAfter(Last(story)).Some? ==> AnswersOf(story) == answers)
  }

  lemma {:induction false} AnswersOfPrefix(story: seq<Event>, n: nat)
    requires n <= |story|
    ensures AnswersOf(story[..n]) <= AnswersOf(story)
    decreases |story|
  {
    if n < |story| {
      var front := story[..|story| - 1];
      assert front[..n] == story[..n];
      AnswersOfPrefix(front, n);
    } else {
      assert story[..n] == story;
    }
  }

  /** The answer taken at event `i` is the next one. */
  lemma AnswerAt(answers: seq<Answer>, story: seq<Event>, i: nat)
    requires i < |story| && AnswersOf(story) <= answers && !story[i].Looped?
    ensures |AnswersOf(story[..i])| < |answers| && AnswerIn(story[i]) == [answers[|AnswersOf(story[..i])|]]
  {
    AnswersOfPrefix(story, i + 1);
    TellingGrows(story[..i], story[i]);
    assert story[..i] + [story[i]] == story[..i + 1];
    NextAnswer(answers, AnswersOf(story[..i]), AnswerIn(story[i]), AnswersOf(story));
  }

  lemma NextAnswer(answers: seq<Answer>, taken: seq<Answer>, next: seq<Answer>, all: seq<Answer>)
    requires taken + next <= all <= answers && |next| == 1
    ensures |taken| < |answers| && next == [answers[|taken|]]
  {
    assert (taken + next)[|taken|] == all[|taken|] == answers[|taken|];
  }

  /** Two runs of the loop on one context in one environment are one run. */
  lemma SameRun(maxIterations: nat, r: Segment, q: Segment)
    requires Ran(maxIterations, r) && Ran(maxIterations, q) && r.env == q.env && r.initial == q.initial
    ensures r == q
  {
    RunIsDetermined(r.env, maxIterations, r.initial, r.calls, r.result, r.iterations, r.log,
                    q.calls, q.result, q.iterations, q.log);
  }

  /** After equal events with equal answers come equal events. */
  lemma SameNext(maxIterations: nat, e: Event, d: Event, f: Event)
    requires Follows(e, d) && Follows(e, f)
    requires d.Looped? ==> Ran(maxIterations, d.run)
    requires f.Looped? ==> Ran(maxIterations, f.run)
    requires !d.Looped? && !f.Looped? ==> AnswerIn(d) == AnswerIn(f)
    ensures d == f
  {
    if d.Looped? && f.Looped? {
      SameRun(maxIterations, d.run, f.run);
    } else if !d.Looped? && !f.Looped? {
      assert AnswerIn(d)[0] == AnswerIn(f)[0];
    }
  }

  lemma {:induction false} SamePrefix(maxIterations: nat, env: LoopEnv, initial: seq<ChatMessage>, answers: seq<Answer>,
                                      a: seq<Event>, b: seq<Event>, n: nat)
    requires IsTurn(maxIterations, env, initial, answers, a) && IsTurn(maxIterations, env, initial, answers, b)
    requires n <= |a| && n <= |b|
    ensures a[..n] == b[..n]
  {
    if n > 0 {
      var i := n - 1;
      SamePrefix(maxIterations, env, initial, answers, a, b, i);
      SameEvent(maxIterations, env, initial, answers, a, b, i);
      assert a[..n] == a[..i] + [a[i]] && b[..n] == b[..i] + [b[i]];
    }
  }

  lemma SameEvent(maxIterations: nat, env: LoopEnv, initial: seq<ChatMessage>, answers: seq<Answer>,
                  a: seq<Event>, b: seq<Event>, i: nat)
    requires IsTurn(maxIterations, env, initial, answers, a) && IsTurn(maxIterations, env, initial, answers, b)
    requires i < |a| && i < |b| && a[..i] == b[..i]
    ensures a[i] == b[i]
  {
    assert RanAt(maxIterations, a, i) && RanAt(maxIterations, b, i);
    if i == 0 {
      SameRun(maxIterations, a[0].run, b[0].run);
    } else {
      assert FollowsAt(a, i) && FollowsAt(b, i);
      assert a[i - 1] == a[..i][i - 1] == b[..i][i - 1] == b[i - 1];
      if !a[i].Looped? && !b[i].Looped? {
        AnswerAt(answers, a, i);
        AnswerAt(answers, b, i);
      }
      SameNext(maxIterations, a[i - 1], a[i], b[i]);
    }
  }

  /** A turn that has ended is not outlasted by another. */
  lemma NotLongerTurn(maxIterations: nat, env: LoopEnv, initial: seq<ChatMessage>, answers: seq<Answer>,
                      a: seq<Event>, b: seq<Event>)
    requires IsTurn(maxIterations, env, initial, answers, a) && IsTurn(maxIterations, env, initial, answers, b)
    ensures |b| <= |a|
  {
    if |a| < |b| {
      var n := |a|;
      SamePrefix(maxIterations, env, initial, answers, a, b, n);
      assert a[..n] == a && b[n - 1] == b[..n][n - 1] == a[n - 1];
      assert FollowsAt(b, n);
      if !b[n].Looped? {
        AnswerAt(answers, b, n);
      }
    }
  }

  /** The contract of a turn determines its story, so its LLM calls. */
  lemma TurnIsDetermined(maxIterations: nat, env: LoopEnv, initial: seq<ChatMessage>, answers: seq<Answer>,
                         a: seq<Event>, b: seq<Event>)
    requires IsTurn(maxIterations, env, initial, answers, a) && IsTurn(maxIterations, env, initial, answers, b)
    ensures a == b && CallsOf(a) == CallsOf(b)
  {
    NotLongerTurn(maxIterations, env, initial, answers, a, b);
    NotLongerTurn(maxIterations, env, initial, answers, b, a);
    SamePrefix(maxIterations, env, initial, answers, a, b, |a|);
    assert a[..|a|] == a && b[..|a|] == b;
  }
}
