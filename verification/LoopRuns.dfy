/**
 * What the contract of the agentic loop leaves open: nothing. Two runs in the same surroundings make the same
 * calls, go on and end alike (src/agent/dispatcher.rs).
 */
module LoopRuns {
  import opened Llm
  import opened Dispatcher

  /** All that `RunAgenticLoop` says of a run. */
  predicate IsRun(env: LoopEnv, maxIterations: nat, initial: seq<ChatMessage>, calls: seq<LlmCall>,
                  result: LoopResult, iterations: nat, log: seq<LoopEvent>)
  {
    History(env, maxIterations, initial, calls, iterations, log)
    && EndsWith(env, maxIterations, calls, result, iterations, log)
    && iterations <= maxIterations + 2
  }

  lemma {:induction false} SameCallAt(env: LoopEnv, maxIterations: nat, initial: seq<ChatMessage>,
                                      a: seq<LlmCall>, b: seq<LlmCall>, i: nat)
    requires Trace(env, maxIterations, initial, a) && Trace(env, maxIterations, initial, b) && i < |a| && i < |b|
    ensures a[i] == b[i]
  {
    if i > 0 {
      SameCallAt(env, maxIterations, initial, a, b, i - 1);
      assert LinkedAt(env, maxIterations, a, i) && LinkedAt(env, maxIterations, b, i);
    }
  }

  /** Iterations never go back along the calls. */
  lemma {:induction false} IterationsRise(env: LoopEnv, maxIterations: nat, initial: seq<ChatMessage>,
                                          a: seq<LlmCall>, i: nat, j: nat)
    requires Trace(env, maxIterations, initial, a) && i <= j < |a|
    ensures a[i].iteration <= a[j].iteration
  {
    if i < j {
      IterationsRise(env, maxIterations, initial, a, i, j - 1);
      assert LinkedAt(env, maxIterations, a, j);
    }
  }

  /** Logs agree as far as both reach. */
  lemma {:induction false} SameLogUpTo(env: LoopEnv, maxIterations: nat, a: seq<LoopEvent>, b: seq<LoopEvent>, n: nat)
    requires LogMatches(env, maxIterations, a) && LogMatches(env, maxIterations, b) && n <= |a| && n <= |b|
    ensures a[..n] == b[..n]
  {
    if n > 0 {
      SameLogUpTo(env, maxIterations, a, b, n - 1);
      assert EntryMatches(env, maxIterations, a, n - 1) && EntryMatches(env, maxIterations, b, n - 1);
      assert a[..n] == a[..n - 1] + [a[n - 1]] && b[..n] == b[..n - 1] + [b[n - 1]];
    }
  }

  /** A run that another one outlasts would have ended where it went on. */
  lemma NotOutlasted(env: LoopEnv, maxIterations: nat, initial: seq<ChatMessage>,
                     a: seq<LlmCall>, r: LoopResult, m: nat, l: seq<LoopEvent>,
                     b: seq<LlmCall>, q: LoopResult, n: nat, k: seq<LoopEvent>)
    requires IsRun(env, maxIterations, initial, a, r, m, l) && IsRun(env, maxIterations, initial, b, q, n, k)
    ensures m >= n
  {
    if m < n {
      SameLogUpTo(env, maxIterations, l, k, m - 1);
      assert l[..m - 1] == l;
      assert EntryMatches(env, maxIterations, k, m - 1);
      LastCallOf(env, maxIterations, initial, b, q, n, k);
      CallIn(env, maxIterations, initial, b, m);
      NotStopped(env, b, m);
    }
  }

  lemma NotStopped(env: LoopEnv, b: seq<LlmCall>, m: nat)
    requires Permitted(env, b) && exists i :: 0 <= i < |b| && b[i].iteration == m
    ensures !Stopped(env, m)
  {
  }

  lemma TracePrefix(env: LoopEnv, maxIterations: nat, initial: seq<ChatMessage>, a: seq<LlmCall>, n: nat)
    requires Trace(env, maxIterations, initial, a) && n <= |a|
    ensures Trace(env, maxIterations, initial, a[..n])
  {
    forall i | 0 <= i < n
      ensures LinkedAt(env, maxIterations, a[..n], i)
    {
      assert LinkedAt(env, maxIterations, a, i);
    }
  }

  /** Each iteration up to that of the last call has one. */
  lemma {:induction false} CallIn(env: LoopEnv, maxIterations: nat, initial: seq<ChatMessage>, a: seq<LlmCall>, it: nat)
    requires Trace(env, maxIterations, initial, a) && a != [] && 1 <= it <= LastCall(a).iteration
    ensures exists i :: 0 <= i < |a| && a[i].iteration == it
  {
    if LastCall(a).iteration == it {
      assert a[|a| - 1].iteration == it;
    } else {
      var front := a[..|a| - 1];
      assert LinkedAt(env, maxIterations, a, |a| - 1);
      TracePrefix(env, maxIterations, initial, a, |a| - 1);
      CallIn(env, maxIterations, initial, front, it);
      var i :| 0 <= i < |front| && front[i].iteration == it;
      assert a[i].iteration == it;
    }
  }

  /** After the last call of an iteration comes the next iteration. */
  lemma NextIteration(env: LoopEnv, maxIterations: nat, initial: seq<ChatMessage>, b: seq<LlmCall>, i: nat)
    requires Trace(env, maxIterations, initial, b) && i + 1 < |b| && b[i].retry == Retried(env, b[i].iteration)
    ensures b[i + 1].iteration == b[i].iteration + 1
    ensures LastCall(b).iteration > b[i].iteration
  {
    assert LinkedAt(env, maxIterations, b, i + 1);
    IterationsRise(env, maxIterations, initial, b, i + 1, |b| - 1);
  }

  /** No call follows the last call of the last iteration. */
  lemma NotLonger(env: LoopEnv, maxIterations: nat, initial: seq<ChatMessage>, a: seq<LlmCall>, b: seq<LlmCall>)
    requires Trace(env, maxIterations, initial, a) && Trace(env, maxIterations, initial, b) && a != [] && b != []
    requires LastCall(a).retry == Retried(env, LastCall(a).iteration) && LastCall(b).iteration <= LastCall(a).iteration
    ensures |b| <= |a|
  {
    if |a| < |b| {
      SameCallAt(env, maxIterations, initial, a, b, |a| - 1);
      NextIteration(env, maxIterations, initial, b, |a| - 1);
    }
  }

  /** What the end of a run says of its last call. */
  lemma LastCallOf(env: LoopEnv, maxIterations: nat, initial: seq<ChatMessage>,
                   a: seq<LlmCall>, r: LoopResult, m: nat, l: seq<LoopEvent>)
    requires IsRun(env, maxIterations, initial, a, r, m, l)
    ensures a == [] <==> EndsBeforeCall(r) && m == 1
    ensures a != [] ==> LastCall(a).iteration == (if EndsBeforeCall(r) then m - 1 else m)
    ensures a != [] ==> LastCall(a).retry == Retried(env, LastCall(a).iteration)
  {
    if a != [] {
      IterationsRise(env, maxIterations, initial, a, 0, |a| - 1);
    }
  }

  lemma SameCalls(env: LoopEnv, maxIterations: nat, initial: seq<ChatMessage>, a: seq<LlmCall>, b: seq<LlmCall>)
    requires Trace(env, maxIterations, initial, a) && Trace(env, maxIterations, initial, b) && |a| == |b|
    ensures a == b
  {
    forall i | 0 <= i < |a|
      ensures a[i] == b[i]
    {
      SameCallAt(env, maxIterations, initial, a, b, i);
    }
  }

  /** The loop's contract determines calls, result, iterations and log. */
  lemma RunIsDetermined(env: LoopEnv, maxIterations: nat, initial: seq<ChatMessage>,
                        a: seq<LlmCall>, r: LoopResult, m: nat, l: seq<LoopEvent>,
                        b: seq<LlmCall>, q: LoopResult, n: nat, k: seq<LoopEvent>)
    requires IsRun(env, maxIterations, initial, a, r, m, l) && IsRun(env, maxIterations, initial, b, q, n, k)
    ensures a == b && r == q && m == n && l == k
  {
    NotOutlasted(env, maxIterations, initial, a, r, m, l, b, q, n, k);
    NotOutlasted(env, maxIterations, initial, b, q, n, k, a, r, m, l);
    SameLogUpTo(env, maxIterations, l, k, |l|);
    assert l[..|l|] == l && k[..|k|] == k;
    SameGuard(env, maxIterations, a, r, b, q, m, l);
    LastCallOf(env, maxIterations, initial, a, r, m, l);
    LastCallOf(env, maxIterations, initial, b, q, n, k);
    CallsDetermined(env, maxIterations, initial, a, b);
  }

  /** Whether and which guard ends a run depends on the iteration alone. */
  lemma SameGuard(env: LoopEnv, maxIterations: nat, a: seq<LlmCall>, r: LoopResult, b: seq<LlmCall>, q: LoopResult,
                  m: nat, l: seq<LoopEvent>)
    requires EndsWith(env, maxIterations, a, r, m, l) && EndsWith(env, maxIterations, b, q, m, l)
    ensures EndsBeforeCall(r) <==> EndsBeforeCall(q)
    ensures EndsBeforeCall(r) || a == b ==> r == q
  {
  }

  lemma CallsDetermined(env: LoopEnv, maxIterations: nat, initial: seq<ChatMessage>, a: seq<LlmCall>, b: seq<LlmCall>)
    requires Trace(env, maxIterations, initial, a) && Trace(env, maxIterations, initial, b) && (a == [] <==> b == [])
    requires a != [] ==> LastCall(a).iteration == LastCall(b).iteration
    requires a != [] ==> LastCall(a).retry == Retried(env, LastCall(a).iteration)
                         && LastCall(b).retry == Retried(env, LastCall(b).iteration)
    ensures a == b
  {
    if a != [] {
      NotLonger(env, maxIterations, initial, a, b);
      NotLonger(env, maxIterations, initial, b, a);
    }
    SameCalls(env, maxIterations, initial, a, b);
  }
}
