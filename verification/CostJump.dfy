/**
 * The daily bound is exact: when one call may jump from below the limit to 2^64 cents and more,
 * the cents read as zero again and calls one after the other break every bound (src/agent/cost_guard.rs).
 */
module CostJump {
  import opened Wrappers
  import opened CostGuard
  import opened CostRuns

  /** One call from check to record. */
  function Cycle(c: Usd, today: Day, now: Instant): seq<Step> {
    [CheckFlag, CheckBudget, CheckRate(now), RecordCost(today, c), RecordAction(now)]
  }

  function Cycles(c: Usd, n: nat, today: Day, now: Instant): seq<Step> {
    if n == 0 then [] else Cycle(c, today, now) + Cycles(c, n - 1, today, now)
  }

  /** No call under way and the flag down. */
  predicate Idle(s: Sys, today: Day, now: Instant) {
    && s.flagged == s.budgeted == s.allowed == s.costed == 0 && s.clock == now
    && s.guard.resetDate == today && !s.guard.budgetExceeded
  }

  lemma {:induction false} RunAppend(s: Sys, front: seq<Step>, back: seq<Step>, config: Config, k: nat, cap: Usd)
    requires LegalRun(s, front, config, k, cap) && LegalRun(Run(s, front, config), back, config, k, cap)
    ensures Run(s, front + back, config) == Run(Run(s, front, config), back, config)
    ensures LegalRun(s, front + back, config, k, cap)
    decreases |front|
  {
    if front == [] {
      assert front + back == back;
    } else {
      assert (front + back)[1..] == front[1..] + back;
      RunAppend(Next(s, front[0], config), front[1..], back, config, k, cap);
    }
  }

  lemma CheckHalf(s: Sys, config: Config, limit: nat, k: nat, cap: Usd, today: Day, now: Instant)
    requires config == Config(Some(limit), None) && k >= 1 && Idle(s, today, now) && ToCents(s.guard.total) < limit
    ensures var steps := [CheckFlag, CheckBudget, CheckRate(now)];
            LegalRun(s, steps, config, k, cap) && Run(s, steps, config) == s.(allowed := 1)
  {
    var steps := [CheckFlag, CheckBudget, CheckRate(now)];
    var s1 := Next(s, CheckFlag, config);
    var s2 := Next(s1, CheckBudget, config);
    var s3 := Next(s2, CheckRate(now), config);
    assert s3 == s.(allowed := 1);
    assert steps[1..] == [CheckBudget, CheckRate(now)] && steps[1..][1..] == [CheckRate(now)];
    assert Run(s2, [CheckRate(now)], config) == s3 && LegalRun(s2, [CheckRate(now)], config, k, cap);
    assert Run(s1, steps[1..], config) == s3 && LegalRun(s1, steps[1..], config, k, cap);
  }

  lemma RecordHalf(s: Sys, c: Usd, config: Config, limit: nat, k: nat, cap: Usd, today: Day, now: Instant)
    requires config == Config(Some(limit), None) && k >= 1 && Idle(s, today, now)
    requires ToCents(s.guard.total + c) < limit && 0.0 <= c <= cap
    ensures var steps := [RecordCost(today, c), RecordAction(now)];
            var s' := Run(s.(allowed := 1), steps, config);
            && LegalRun(s.(allowed := 1), steps, config, k, cap)
            && Idle(s', today, now) && s'.guard.total == s.guard.total + c
  {
    var steps := [RecordCost(today, c), RecordAction(now)];
    var s0 := s.(allowed := 1);
    var s1 := Next(s0, RecordCost(today, c), config);
    var s2 := Next(s1, RecordAction(now), config);
    assert steps[1..] == [RecordAction(now)];
    assert Run(s1, [RecordAction(now)], config) == s2 && LegalRun(s1, [RecordAction(now)], config, k, cap);
  }

  lemma OneCycle(s: Sys, c: Usd, config: Config, limit: nat, k: nat, cap: Usd, today: Day, now: Instant)
    requires config == Config(Some(limit), None) && k >= 1 && Idle(s, today, now) && ToCents(s.guard.total) < limit
    requires ToCents(s.guard.total + c) < limit && 0.0 <= c <= cap
    ensures var s' := Run(s, Cycle(c, today, now), config);
            && LegalRun(s, Cycle(c, today, now), config, k, cap)
            && Idle(s', today, now) && s'.guard.total == s.guard.total + c
  {
    CheckHalf(s, config, limit, k, cap, today, now);
    RecordHalf(s, c, config, limit, k, cap, today, now);
    RunAppend(s, [CheckFlag, CheckBudget, CheckRate(now)], [RecordCost(today, c), RecordAction(now)], config, k, cap);
    assert Cycle(c, today, now) == [CheckFlag, CheckBudget, CheckRate(now)] + [RecordCost(today, c), RecordAction(now)];
  }

  /** Every cycle passes as long as the cents read below the limit. */
  predicate PassesUpTo(t: Usd, c: Usd, n: nat, limit: nat) {
    forall i :: 0 <= i <= n ==> ToCents(t + Worth(i, c)) < limit
  }

  lemma WorthFirst(n: nat, c: Usd)
    requires n > 0
    ensures Worth(n, c) == c + Worth(n - 1, c)
  {
  }

  lemma {:induction false} ManyCycles(s: Sys, c: Usd, n: nat, config: Config, limit: nat, k: nat, cap: Usd, today: Day, now: Instant)
    requires config == Config(Some(limit), None) && k >= 1 && Idle(s, today, now) && 0.0 <= c <= cap
    requires PassesUpTo(s.guard.total, c, n, limit)
    ensures var s' := Run(s, Cycles(c, n, today, now), config);
            && LegalRun(s, Cycles(c, n, today, now), config, k, cap)
            && Idle(s', today, now) && s'.guard.total == s.guard.total + Worth(n, c)
    decreases n
  {
    if n > 0 {
      assert Worth(0, c) == 0.0 && Worth(1, c) == c;
      assert ToCents(s.guard.total + Worth(0, c)) < limit && ToCents(s.guard.total + Worth(1, c)) < limit;
      OneCycle(s, c, config, limit, k, cap, today, now);
      var s' := Run(s, Cycle(c, today, now), config);
      forall i | 0 <= i <= n - 1
        ensures ToCents(s'.guard.total + Worth(i, c)) < limit
      {
        WorthFirst(i + 1, c);
        assert ToCents(s.guard.total + Worth(i + 1, c)) < limit;
      }
      ManyCycles(s', c, n - 1, config, limit, k, cap, today, now);
      RunAppend(s, Cycle(c, today, now), Cycles(c, n - 1, today, now), config, k, cap);
      WorthFirst(n, c);
    }
  }

  /** Calls that add up to a total below the limit all pass. */
  lemma FillPasses(t: Usd, c: Usd, m: nat, limit: nat)
    requires t == Worth(m, c) && t * 100.0 < limit as real && c >= 0.0
    ensures PassesUpTo(0.0, c, m, limit)
  {
    forall i | 0 <= i <= m
      ensures ToCents(0.0 + Worth(i, c)) < limit
    {
      WorthGrows(i, m, c);
      WorthGrows(0, i, c);
      CentsTestIsExact(Worth(i, c), limit);
    }
  }

  /** Past 2^64 cents every call passes. */
  lemma JumpPasses(t: Usd, n: nat, limit: nat, cap: Usd)
    requires 0.0 <= t && t * 100.0 < limit as real && cap >= 0.0 && U64 as real <= (t + cap) * 100.0
    ensures PassesUpTo(t, cap, n, limit)
  {
    forall i | 0 <= i <= n
      ensures ToCents(t + Worth(i, cap)) < limit
    {
      if i > 0 {
        WorthGrows(1, i, cap);
        assert Worth(1, cap) == cap;
      }
      CentsTestIsExact(t + Worth(i, cap), limit);
    }
  }

  /** Calls that add up to `t` below the limit, then `n` calls at the cap that all land at 2^64 cents or more. */
  lemma JumpRun(t: Usd, m: nat, n: nat, limit: nat, k: nat, cap: Usd, today: Day, now: Instant) returns (steps: seq<Step>)
    requires k >= 1 && m >= 1 && 0.0 <= t && t * 100.0 < limit as real && t <= m as real * cap && cap > 0.0
    requires U64 as real <= (t + cap) * 100.0
    ensures var config := Config(Some(limit), None);
            && LegalRun(Init(today, now), steps, config, k, cap)
            && Run(Init(today, now), steps, config).guard.total == t + Worth(n, cap)
  {
    var config := Config(Some(limit), None);
    var c := t / m as real;
    AtMostCap(t, m, cap);
    WorthIsProduct(m, c);
    FillPasses(t, c, m, limit);
    ManyCycles(Init(today, now), c, m, config, limit, k, cap, today, now);
    var s := Run(Init(today, now), Cycles(c, m, today, now), config);
    JumpPasses(t, n, limit, cap);
    ManyCycles(s, cap, n, config, limit, k, cap, today, now);
    RunAppend(Init(today, now), Cycles(c, m, today, now), Cycles(cap, n, today, now), config, k, cap);
    steps := Cycles(c, m, today, now) + Cycles(cap, n, today, now);
  }

  lemma AtMostCap(t: Usd, m: nat, cap: Usd)
    requires m >= 1 && 0.0 <= t <= m as real * cap
    ensures 0.0 <= t / m as real <= cap
    ensures m as real * (t / m as real) == t
  {
  }

  ghost predicate AlwaysWithinBudget(limit: nat, k: nat, cap: Usd, today: Day, now: Instant) {
    var config := Config(Some(limit), None);
    forall steps :: LegalRun(Init(today, now), steps, config, k, cap)
      ==> WithinBudget(Run(Init(today, now), steps, config).guard, limit, k, cap)
  }

  /** The bound holds in every run exactly when no single call can jump over the range of the cents. */
  lemma BoundedIffNoJump(limit: nat, k: nat, cap: Usd, today: Day, now: Instant)
    requires limit > 0 && k >= 1 && cap > 0.0
    ensures AlwaysWithinBudget(limit, k, cap, today, now) <==> NoJump(limit, cap)
  {
    var config := Config(Some(limit), None);
    if NoJump(limit, cap) {
      forall steps | LegalRun(Init(today, now), steps, config, k, cap)
        ensures WithinBudget(Run(Init(today, now), steps, config).guard, limit, k, cap)
      {
        DailyTotalBounded(steps, config, limit, k, cap, today, now);
      }
    } else {
      var gap := Least(limit as real + 100.0 * cap - U64 as real, Least(limit as real, 100.0 * cap));
      var t := (limit as real - gap) / 100.0;
      var m := (t / cap).Floor + 1;
      Archimedes(t, m, cap);
      var steps := JumpRun(t, m, k + 1, limit, k, cap, today, now);
      WorthIsProduct(k, cap);
      assert !WithinBudget(Run(Init(today, now), steps, config).guard, limit, k, cap);
    }
  }

  function Least(x: real, y: real): real { if x <= y then x else y }

  lemma Archimedes(t: Usd, m: int, cap: Usd)
    requires t >= 0.0 && cap > 0.0 && m == (t / cap).Floor + 1
    ensures m >= 1 && t <= m as real * cap
  {
    assert t / cap >= 0.0;
    assert t == (t / cap) * cap;
    Scale(t / cap, m as real, cap);
  }

  lemma Scale(x: real, y: real, c: real)
    requires x <= y && c >= 0.0
    ensures x * c <= y * c
  {
  }
}
