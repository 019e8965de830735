/**
 * Concurrent calls against one cost guard, one step per lock section
 * (src/agent/cost_guard.rs, src/agent/dispatcher.rs).
 */
module CostRuns {
  import opened Wrappers
  import opened CostGuard

  /** How many calls have passed the flag, the budget and the rate, and how many have recorded only their cost. */
  datatype Sys = Sys(guard: Guard, flagged: nat, budgeted: nat, allowed: nat, costed: nat, clock: Instant)

  datatype Step =
    | CheckFlag
    | CheckBudget
    | CheckRate(now: Instant)
    | CallFails
    | RecordCost(today: Day, cost: Usd)
    | RecordAction(now: Instant)
    | ReadActions(now: Instant)

  function Init(today: Day, now: Instant): Sys { Sys(Guard(0.0, today, false, [], map[]), 0, 0, 0, 0, now) }

  function Next(s: Sys, step: Step, config: Config): Sys {
    match step
    case CheckFlag => if s.guard.budgetExceeded then s else s.(flagged := s.flagged + 1)
    case CheckBudget =>
      if s.flagged == 0 then s
      else
        var (g, r) := BudgetSection(s.guard, config);
        s.(guard := g, flagged := s.flagged - 1, budgeted := s.budgeted + if r.Ok? then 1 else 0)
    case CheckRate(now) =>
      if s.budgeted == 0 then s
      else
        var (g, r) := RateSection(s.guard, config, now);
        s.(guard := g, budgeted := s.budgeted - 1, allowed := s.allowed + if r.Ok? then 1 else 0, clock := now)
    case CallFails => if s.allowed == 0 then s else s.(allowed := s.allowed - 1)
    case RecordCost(today, cost) =>
      if s.allowed == 0 then s
      else s.(guard := CostSection(s.guard, config, today, cost), allowed := s.allowed - 1, costed := s.costed + 1)
    case RecordAction(now) =>
      if s.costed == 0 then s
      else s.(guard := s.guard.(window := s.guard.window + [now]), costed := s.costed - 1, clock := now)
    case ReadActions(now) => s.(guard := s.guard.(window := Drained(s.guard.window, now)), clock := now)
  }

  function Run(s: Sys, steps: seq<Step>, config: Config): Sys
    decreases |steps|
  {
    if steps == [] then s else Run(Next(s, steps[0], config), steps[1..], config)
  }

  function Outstanding(s: Sys): nat { s.flagged + s.budgeted + s.allowed + s.costed }

  /** A clock that never goes back, costs within the cap, and at most `k` calls between check and record. */
  predicate Legal(s: Sys, step: Step, config: Config, k: nat, cap: Usd) {
    && (step.CheckRate? || step.RecordAction? || step.ReadActions? ==> step.now >= s.clock)
    && (step.RecordCost? ==> 0.0 <= step.cost <= cap)
    && Outstanding(Next(s, step, config)) <= k
  }

  predicate LegalRun(s: Sys, steps: seq<Step>, config: Config, k: nat, cap: Usd)
    decreases |steps|
  {
    steps == [] || (Legal(s, steps[0], config, k, cap) && LegalRun(Next(s, steps[0], config), steps[1..], config, k, cap))
  }

  // ----- The daily budget -----

  function MayCost(s: Sys): nat { s.flagged + s.budgeted + s.allowed }

  /** One call cannot jump from below the limit past what the cents conversion can tell. */
  predicate NoJump(limit: nat, cap: Usd) { limit as real + 100.0 * cap <= U64 as real }

  predicate DailyInv(s: Sys, limit: nat, k: nat, cap: Usd) {
    && s.guard.total >= 0.0
    && (!s.guard.budgetExceeded ==> s.guard.total * 100.0 < limit as real)
    && (s.guard.total + Worth(MayCost(s), cap)) * 100.0 < limit as real + 100.0 * Worth(k, cap)
  }

  /** The most that `n` calls can cost. */
  function Worth(n: nat, cap: Usd): Usd { if n == 0 then 0.0 else Worth(n - 1, cap) + cap }

  lemma {:induction false} WorthIsProduct(n: nat, cap: Usd)
    ensures Worth(n, cap) == n as real * cap
  {
    if n > 0 {
      WorthIsProduct(n - 1, cap);
      var m := (n - 1) as real;
      assert (m + 1.0) * cap == m * cap + cap;
    }
  }

  lemma {:induction false} WorthGrows(n: nat, m: nat, cap: Usd)
    requires n <= m && cap >= 0.0
    ensures Worth(n, cap) <= Worth(m, cap)
  {
    if n < m {
      WorthGrows(n, m - 1, cap);
    }
  }

  /** What recording one cost does to the total and the flag. */
  lemma RecordSection(g: Guard, config: Config, today: Day, cost: Usd, limit: nat, cap: Usd)
    requires config.maxCostPerDayCents == Some(limit) && limit > 0 && NoJump(limit, cap)
    requires 0.0 <= cost <= cap && g.total >= 0.0
    requires !g.budgetExceeded ==> g.total * 100.0 < limit as real
    ensures var g' := CostSection(g, config, today, cost);
            && (g'.total == cost || g'.total == g.total + cost)
            && (!g'.budgetExceeded ==> g'.total * 100.0 < limit as real)
  {
    var g' := CostSection(g, config, today, cost);
    CentsTestIsExact(g'.total, limit);
  }

  lemma StepKeepsDaily(s: Sys, step: Step, config: Config, limit: nat, k: nat, cap: Usd)
    requires config.maxCostPerDayCents == Some(limit) && limit > 0 && cap >= 0.0 && NoJump(limit, cap)
    requires DailyInv(s, limit, k, cap) && Legal(s, step, config, k, cap)
    ensures DailyInv(Next(s, step, config), limit, k, cap)
  {
    var s' := Next(s, step, config);
    WorthGrows(MayCost(s'), k, cap);
    match step
    case RecordCost(today, cost) =>
      if s.allowed > 0 {
        RecordSection(s.guard, config, today, cost, limit, cap);
        assert MayCost(s') == MayCost(s) - 1 && MayCost(s') + 1 <= k;
        WorthGrows(MayCost(s), k, cap);
      }
    case CheckFlag =>
    case _ => WorthGrows(MayCost(s'), MayCost(s), cap);
  }

  /** With a limit of zero no check passes. */
  predicate ShutInv(s: Sys) { s.budgeted == 0 && s.allowed == 0 && s.guard.total == 0.0 }

  lemma {:induction false} RunKeepsDaily(s: Sys, steps: seq<Step>, config: Config, limit: nat, k: nat, cap: Usd)
    requires config.maxCostPerDayCents == Some(limit) && limit > 0 && cap >= 0.0 && NoJump(limit, cap)
    requires DailyInv(s, limit, k, cap) && LegalRun(s, steps, config, k, cap)
    ensures DailyInv(Run(s, steps, config), limit, k, cap)
    decreases |steps|
  {
    if steps != [] {
      StepKeepsDaily(s, steps[0], config, limit, k, cap);
      RunKeepsDaily(Next(s, steps[0], config), steps[1..], config, limit, k, cap);
    }
  }

  lemma {:induction false} RunKeepsShut(s: Sys, steps: seq<Step>, config: Config)
    requires config.maxCostPerDayCents == Some(0) && ShutInv(s)
    ensures ShutInv(Run(s, steps, config))
    decreases |steps|
  {
    if steps != [] {
      RunKeepsShut(Next(s, steps[0], config), steps[1..], config);
    }
  }

  /** Below the limit and the worth of `k` calls, in cents. */
  predicate WithinBudget(g: Guard, limit: nat, k: nat, cap: Usd) {
    g.total == 0.0 || g.total * 100.0 < limit as real + 100.0 * (k as real * cap)
  }

  /** The daily total stays below the limit plus `k` calls, whatever interleaving, truncation and day changes do. */
  lemma DailyTotalBounded(steps: seq<Step>, config: Config, limit: nat, k: nat, cap: Usd, today: Day, now: Instant)
    requires config.maxCostPerDayCents == Some(limit) && cap >= 0.0 && NoJump(limit, cap)
    requires LegalRun(Init(today, now), steps, config, k, cap)
    ensures WithinBudget(Run(Init(today, now), steps, config).guard, limit, k, cap)
    ensures limit == 0 ==> Run(Init(today, now), steps, config).guard.total == 0.0
  {
    if limit == 0 {
      RunKeepsShut(Init(today, now), steps, config);
    } else {
      WorthGrows(0, k, cap);
      RunKeepsDaily(Init(today, now), steps, config, limit, k, cap);
      var s := Run(Init(today, now), steps, config);
      WorthGrows(0, MayCost(s), cap);
      WorthIsProduct(k, cap);
    }
  }

  // ----- The hourly rate -----

  predicate HourlyInv(s: Sys, limit: nat, k: nat) {
    && Sorted(s.guard.window) && NoneAfter(s.guard.window, s.clock)
    && (limit == 0 ==> s.allowed == 0 && s.costed == 0 && s.guard.window == [])
    && (limit > 0 ==> |s.guard.window| + s.allowed + s.costed <= limit + k - 1)
  }

  lemma DrainedKeepsOrder(w: seq<Instant>, now: Instant, clock: Instant)
    requires Sorted(w) && NoneAfter(w, clock) && clock <= now
    ensures Sorted(Drained(w, now)) && NoneAfter(Drained(w, now), now) && |Drained(w, now)| <= |w|
  {
    DrainedIsSuffix(w, now);
  }

  lemma StepKeepsHourly(s: Sys, step: Step, config: Config, limit: nat, k: nat, cap: Usd)
    requires config.maxActionsPerHour == Some(limit) && HourlyInv(s, limit, k) && Legal(s, step, config, k, cap)
    ensures HourlyInv(Next(s, step, config), limit, k)
  {
    match step
    case CheckRate(now) => DrainedKeepsOrder(s.guard.window, now, s.clock);
    case ReadActions(now) => DrainedKeepsOrder(s.guard.window, now, s.clock);
    case _ =>
  }

  lemma {:induction false} RunKeepsHourly(s: Sys, steps: seq<Step>, config: Config, limit: nat, k: nat, cap: Usd)
    requires config.maxActionsPerHour == Some(limit) && HourlyInv(s, limit, k) && LegalRun(s, steps, config, k, cap)
    ensures HourlyInv(Run(s, steps, config), limit, k)
    decreases |steps|
  {
    if steps != [] {
      StepKeepsHourly(s, steps[0], config, limit, k, cap);
      RunKeepsHourly(Next(s, steps[0], config), steps[1..], config, limit, k, cap);
    }
  }

  /** At any later moment, at most limit + k - 1 actions are unexpired (none when the limit is zero). */
  lemma ActionsBounded(steps: seq<Step>, config: Config, limit: nat, k: nat, cap: Usd, today: Day, start: Instant, now: Instant)
    requires config.maxActionsPerHour == Some(limit)
    requires LegalRun(Init(today, start), steps, config, k, cap)
    ensures var w := Run(Init(today, start), steps, config).guard.window;
            && Sorted(w) && Drained(w, now) == Unexpired(w, now)
            && |Unexpired(w, now)| <= if limit == 0 then 0 else limit + k - 1
  {
    RunKeepsHourly(Init(today, start), steps, config, limit, k, cap);
    var w := Run(Init(today, start), steps, config).guard.window;
    DrainedIsUnexpired(w, now);
    DrainedIsSuffix(w, now);
  }

  // ----- A spent budget -----

  /** The flag is up and no call that could still record a cost is under way. */
  predicate Closed(s: Sys) { s.guard.budgetExceeded && s.flagged == 0 && s.budgeted == 0 && s.allowed == 0 }

  /** Checks never start a new day, so a closed guard stays closed on every later date. */
  lemma {:induction false} ClosedForever(s: Sys, steps: seq<Step>, config: Config)
    requires Closed(s)
    ensures Closed(Run(s, steps, config)) && Run(s, steps, config).guard.total == s.guard.total
    decreases |steps|
  {
    if steps != [] {
      ClosedForever(Next(s, steps[0], config), steps[1..], config);
    }
  }

  /** A raised flag comes down in one step exactly for an allowed call recorded on another day below the limit. */
  predicate Opens(s: Sys, step: Step, config: Config) {
    && step.RecordCost? && s.allowed > 0 && step.today != s.guard.resetDate
    && match config.maxCostPerDayCents case Some(limit) => ToCents(step.cost) < limit case None => true
  }

  lemma StepOpensIff(s: Sys, step: Step, config: Config)
    requires s.guard.budgetExceeded
    ensures !Next(s, step, config).guard.budgetExceeded <==> Opens(s, step, config)
  {
    assert step.RecordCost? ==> 0.0 + step.cost == step.cost;
  }

  /** What a guard with its flag up still needs: a limit above zero and a call that can get as far as its record. */
  predicate CanReopen(s: Sys, config: Config) {
    && config.maxCostPerDayCents != Some(0)
    && (|| s.allowed > 0
        || (config.maxActionsPerHour != Some(0)
            && (s.budgeted > 0 || (s.flagged > 0 && BudgetSection(s.guard, config).1.Ok?))))
  }

  /** A step that neither opens nor could be followed by one that does. */
  lemma StuckStaysStuck(s: Sys, step: Step, config: Config)
    requires s.guard.budgetExceeded && !CanReopen(s, config)
    ensures var s' := Next(s, step, config); s'.guard.budgetExceeded && !CanReopen(s', config)
  {
    StepOpensIff(s, step, config);
  }

  lemma {:induction false} StuckForever(s: Sys, steps: seq<Step>, config: Config)
    requires s.guard.budgetExceeded && !CanReopen(s, config)
    ensures Run(s, steps, config).guard.budgetExceeded
    decreases |steps|
  {
    if steps != [] {
      StuckStaysStuck(s, steps[0], config);
      StuckForever(Next(s, steps[0], config), steps[1..], config);
    }
  }

  lemma {:induction false} AllExpire(w: seq<Instant>) returns (now: Instant)
    ensures Drained(w, now) == [] && forall i :: 0 <= i < |w| ==> w[i] < now - HOUR
  {
    if w == [] {
      now := 0;
    } else {
      var later := AllExpire(w[1..]);
      now := if later > w[0] + HOUR then later else w[0] + HOUR + 1;
      LaterDrains(w[1..], now);
    }
  }

  lemma {:induction false} LaterDrains(w: seq<Instant>, now: Instant)
    requires forall i :: 0 <= i < |w| ==> w[i] < now - HOUR
    ensures Drained(w, now) == []
  {
    if w != [] {
      LaterDrains(w[1..], now);
    }
  }

  lemma RunOne(s: Sys, step: Step, config: Config, k: nat, cap: Usd)
    ensures Run(s, [step], config) == Next(s, step, config)
    ensures LegalRun(s, [step], config, k, cap) <==> Legal(s, step, config, k, cap)
  {
    assert [step][1..] == [];
  }

  lemma RunMore(s: Sys, step: Step, more: seq<Step>, config: Config, k: nat, cap: Usd)
    ensures Run(s, [step] + more, config) == Run(Next(s, step, config), more, config)
    ensures LegalRun(s, [step] + more, config, k, cap)
            <==> Legal(s, step, config, k, cap) && LegalRun(Next(s, step, config), more, config, k, cap)
  {
    assert ([step] + more)[1..] == more;
  }

  /** An allowed call that cost nothing, recorded on the next day. */
  lemma OpeningRecord(s: Sys, config: Config, k: nat, cap: Usd) returns (steps: seq<Step>)
    requires s.guard.budgetExceeded && s.allowed > 0 && config.maxCostPerDayCents != Some(0)
    requires Outstanding(s) <= k && cap >= 0.0
    ensures LegalRun(s, steps, config, k, cap) && !Run(s, steps, config).guard.budgetExceeded
  {
    var step := RecordCost(s.guard.resetDate + 1, 0.0);
    assert ToCents(0.0) == 0;
    StepOpensIff(s, step, config);
    RunOne(s, step, config, k, cap);
    steps := [step];
  }

  /** A call past its budget waits until its rate allows it. */
  lemma OpeningFromBudget(s: Sys, config: Config, k: nat, cap: Usd) returns (steps: seq<Step>)
    requires s.guard.budgetExceeded && s.budgeted > 0
    requires config.maxCostPerDayCents != Some(0) && config.maxActionsPerHour != Some(0)
    requires Outstanding(s) <= k && cap >= 0.0
    ensures LegalRun(s, steps, config, k, cap) && !Run(s, steps, config).guard.budgetExceeded
  {
    var later := AllExpire(s.guard.window);
    var now := if later > s.clock then later else s.clock;
    LaterDrains(s.guard.window, now);
    var step := CheckRate(now);
    var more := OpeningRecord(Next(s, step, config), config, k, cap);
    RunMore(s, step, more, config, k, cap);
    steps := [step] + more;
  }

  /** The steps that bring a call to its record, from the section it is in. */
  lemma OpeningRun(s: Sys, config: Config, k: nat, cap: Usd) returns (steps: seq<Step>)
    requires s.guard.budgetExceeded && CanReopen(s, config) && Outstanding(s) <= k && cap >= 0.0
    ensures LegalRun(s, steps, config, k, cap) && !Run(s, steps, config).guard.budgetExceeded
  {
    if s.allowed > 0 {
      steps := OpeningRecord(s, config, k, cap);
    } else if s.budgeted > 0 {
      steps := OpeningFromBudget(s, config, k, cap);
    } else {
      var more := OpeningFromBudget(Next(s, CheckBudget, config), config, k, cap);
      RunMore(s, CheckBudget, more, config, k, cap);
      steps := [CheckBudget] + more;
    }
  }

  /** Some legal run brings a raised flag down exactly when the guard can reopen; no later day alone does. */
  lemma ReopensIff(s: Sys, config: Config, k: nat, cap: Usd)
    requires s.guard.budgetExceeded && Outstanding(s) <= k && cap >= 0.0
    ensures (exists steps :: LegalRun(s, steps, config, k, cap) && !Run(s, steps, config).guard.budgetExceeded)
            <==> CanReopen(s, config)
  {
    if CanReopen(s, config) {
      var steps := OpeningRun(s, config, k, cap);
      assert LegalRun(s, steps, config, k, cap) && !Run(s, steps, config).guard.budgetExceeded;
    } else {
      forall steps
        ensures Run(s, steps, config).guard.budgetExceeded
      {
        StuckForever(s, steps, config);
      }
    }
  }

  // ----- The sections run in one go are the calls -----

  lemma CheckInOneGo(s: Sys, config: Config, now: Instant)
    requires s.flagged == 0 && s.budgeted == 0
    ensures var s' := Next(Next(Next(s, CheckFlag, config), CheckBudget, config), CheckRate(now), config);
            var (g, r) := Checked(s.guard, config, now);
            s'.guard == g && s'.allowed == s.allowed + (if r.Ok? then 1 else 0) && s'.flagged == 0 && s'.budgeted == 0
  {
  }

  lemma RecordInOneGo(s: Sys, config: Config, r: Record)
    requires s.allowed > 0
    ensures Next(Next(s, RecordCost(r.today, r.cost), config), RecordAction(r.now), config).guard
            == Recorded(s.guard, config, r).(models := s.guard.models)
  {
  }
}
