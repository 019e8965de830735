/** The cost guard: check-then-record accounting of LLM spend and call rate (src/agent/cost_guard.rs). */
module CostGuard {
  import opened Wrappers

  type Day = int
  type Instant = int
  type Usd = real

  const HOUR := 3600
  const U64: nat := 0x1_0000_0000_0000_0000
  const U32_MAX: nat := 0xFFFF_FFFF

  datatype Config = Config(maxCostPerDayCents: Option<nat>, maxActionsPerHour: Option<nat>)

  datatype CostLimitExceeded =
    | DailyBudget(spentCents: nat, limitCents: nat)
    | HourlyRate(actions: nat, limit: nat)

  datatype ModelTokens = ModelTokens(inputTokens: nat, outputTokens: nat, cost: Usd)

  datatype Usage = Usage(input: nat, output: nat, cacheRead: nat, cacheWrite: nat)

  datatype Pricing = Pricing(inputRate: Usd, outputRate: Usd, readDiscount: real, writeMultiplier: real)

  datatype Guard = Guard(
    total: Usd,
    resetDate: Day,
    budgetExceeded: bool,
    window: seq<Instant>,
    models: map<string, ModelTokens>)

  // ----- Cents -----

  function Trunc(x: real): int { if x >= 0.0 then x.Floor else -(-x).Floor }

  /** Whole cents, truncated; an amount that is no u64 (negative, or 2^64 cents and more) reads as zero. */
  function ToCents(usd: Usd): nat {
    var cents := Trunc(usd * 100.0);
    if 0 <= cents < U64 then cents else 0
  }

  /** The limit test on truncated cents is the exact test, up to where the conversion gives out. */
  lemma CentsTestIsExact(usd: Usd, limit: nat)
    ensures ToCents(usd) >= limit <==> limit == 0 || limit as real <= usd * 100.0 < U64 as real
  {
  }

  // ----- The sliding window -----

  predicate Sorted(w: seq<Instant>) {
    forall i, j :: 0 <= i < j < |w| ==> w[i] <= w[j]
  }

  predicate NoneAfter(w: seq<Instant>, now: Instant) {
    forall i :: 0 <= i < |w| ==> w[i] <= now
  }

  /** Draining from the front while the front has expired. */
  function Drained(w: seq<Instant>, now: Instant): seq<Instant> {
    if w != [] && w[0] < now - HOUR then Drained(w[1..], now) else w
  }

  /** The actions of the last hour, by definition. */
  function Unexpired(w: seq<Instant>, now: Instant): seq<Instant> {
    if w == [] then [] else (if w[0] < now - HOUR then [] else [w[0]]) + Unexpired(w[1..], now)
  }

  lemma {:induction false} AllUnexpired(w: seq<Instant>, now: Instant)
    requires forall i :: 0 <= i < |w| ==> w[i] >= now - HOUR
    ensures Unexpired(w, now) == w
  {
    if w != [] {
      AllUnexpired(w[1..], now);
    }
  }

  lemma {:induction false} DrainedIsUnexpired(w: seq<Instant>, now: Instant)
    requires Sorted(w)
    ensures Drained(w, now) == Unexpired(w, now)
  {
    if w != [] {
      if w[0] < now - HOUR {
        DrainedIsUnexpired(w[1..], now);
      } else {
        AllUnexpired(w, now);
      }
    }
  }

  lemma {:induction false} DrainedIsSuffix(w: seq<Instant>, now: Instant)
    ensures |Drained(w, now)| <= |w| && Drained(w, now) == w[|w| - |Drained(w, now)|..]
  {
    if w != [] && w[0] < now - HOUR {
      DrainedIsSuffix(w[1..], now);
    }
  }

  // ----- The sections of a check and of a record -----

  function BudgetSection(g: Guard, config: Config): (Guard, Result<(), CostLimitExceeded>) {
    match config.maxCostPerDayCents
    case None => (g, Ok(()))
    case Some(limit) =>
      if ToCents(g.total) >= limit
      then (g.(budgetExceeded := true), Err(DailyBudget(ToCents(g.total), limit)))
      else (g, Ok(()))
  }

  function RateSection(g: Guard, config: Config, now: Instant): (Guard, Result<(), CostLimitExceeded>) {
    match config.maxActionsPerHour
    case None => (g, Ok(()))
    case Some(limit) =>
      var w := Drained(g.window, now);
      (g.(window := w), if |w| >= limit then Err(HourlyRate(|w|, limit)) else Ok(()))
  }

  function Shown(config: Config): nat {
    match config.maxCostPerDayCents case Some(limit) => limit case None => 0
  }

  function Checked(g: Guard, config: Config, now: Instant): (Guard, Result<(), CostLimitExceeded>) {
    if g.budgetExceeded then (g, Err(DailyBudget(ToCents(g.total), Shown(config))))
    else
      var (g', r) := BudgetSection(g, config);
      if r.Err? then (g', r) else RateSection(g', config, now)
  }

  /** Only this section starts a new day, and only this section clears the flag. */
  function CostSection(g: Guard, config: Config, today: Day, cost: Usd): Guard {
    var newDay := today != g.resetDate;
    var total := (if newDay then 0.0 else g.total) + cost;
    var over := config.maxCostPerDayCents.Some? && ToCents(total) >= config.maxCostPerDayCents.value;
    g.(total := total, resetDate := today, budgetExceeded := over || (!newDay && g.budgetExceeded))
  }

  function ModelsAfter(models: map<string, ModelTokens>, model: string, usage: Usage, cost: Usd): map<string, ModelTokens> {
    var e := if model in models then models[model] else ModelTokens(0, 0, 0.0);
    models[model := ModelTokens(e.inputTokens + usage.input, e.outputTokens + usage.output, e.cost + cost)]
  }

  // ----- The price of a call -----

  /** A saturating 32-bit sum. */
  function CachedTotal(u: Usage): nat {
    if u.cacheRead + u.cacheWrite <= U32_MAX then u.cacheRead + u.cacheWrite else U32_MAX
  }

  lemma NonNegative(rate: real, n: nat)
    requires rate >= 0.0
    ensures rate * n as real >= 0.0
  {
  }

  function CallCost(u: Usage, p: Pricing): Usd {
    var uncached := if u.input >= CachedTotal(u) then u.input - CachedTotal(u) else 0;
    var discount := if p.readDiscount == 0.0 then 1.0 else p.readDiscount;
    p.inputRate * uncached as real
    + p.inputRate * u.cacheRead as real / discount
    + p.inputRate * u.cacheWrite as real * p.writeMultiplier
    + p.outputRate * u.output as real
  }

  lemma CostNonNegative(u: Usage, p: Pricing)
    requires p.inputRate >= 0.0 && p.outputRate >= 0.0 && p.readDiscount >= 0.0 && p.writeMultiplier >= 0.0
    ensures CallCost(u, p) >= 0.0
  {
    var read := p.inputRate * u.cacheRead as real;
    assert read >= 0.0;
    assert p.readDiscount > 0.0 ==> read / p.readDiscount >= 0.0;
    var write := p.inputRate * u.cacheWrite as real;
    assert write >= 0.0;
    assert write * p.writeMultiplier >= 0.0;
    assert p.outputRate * u.output as real >= 0.0;
    NonNegative(p.inputRate, if u.input >= CachedTotal(u) then u.input - CachedTotal(u) else 0);
  }

  /** What a cache saves against the same call without one. */
  lemma CacheSavings(u: Usage, p: Pricing)
    requires u.cacheRead + u.cacheWrite <= u.input <= U32_MAX && p.readDiscount != 0.0
    ensures var read, write := p.inputRate * u.cacheRead as real, p.inputRate * u.cacheWrite as real;
            CallCost(u.(cacheRead := 0, cacheWrite := 0), p) - CallCost(u, p)
            == (read - read / p.readDiscount) + (write - write * p.writeMultiplier)
  {
    var rate, r, w, n := p.inputRate, u.cacheRead as real, u.cacheWrite as real, u.input as real;
    assert (u.input - (u.cacheRead + u.cacheWrite)) as real == n - r - w;
    assert rate * (n - r - w) == rate * n - rate * r - rate * w;
    assert rate * 0.0 / p.readDiscount == 0.0;
  }

  /** A cache makes a call cheaper exactly when the surcharge on its writes stays below the discount on its reads. */
  lemma CacheIsCheaperIff(u: Usage, p: Pricing)
    requires u.cacheRead + u.cacheWrite <= u.input <= U32_MAX && p.inputRate > 0.0 && p.readDiscount > 0.0
    ensures var r, w := u.cacheRead as real, u.cacheWrite as real;
            CallCost(u, p) < CallCost(u.(cacheRead := 0, cacheWrite := 0), p)
            <==> w * (p.writeMultiplier - 1.0) < r - r / p.readDiscount
  {
    CacheSavings(u, p);
    var rate, r, w, d, m := p.inputRate, u.cacheRead as real, u.cacheWrite as real, p.readDiscount, p.writeMultiplier;
    var gain, extra := r - r / d, w * (m - 1.0);
    Regroup(rate, r, d);
    Surcharge(rate, w, m);
    Distribute(rate, gain, extra);
    SameSign(rate, gain - extra);
    var saved := CallCost(u.(cacheRead := 0, cacheWrite := 0), p) - CallCost(u, p);
    assert saved == (rate * r - rate * r / d) + (rate * w - rate * w * m);
    assert saved == rate * gain - rate * extra;
    assert saved == rate * (gain - extra);
    assert saved > 0.0 <==> gain - extra > 0.0;
  }

  lemma Surcharge(rate: real, w: real, m: real)
    ensures rate * w - rate * w * m == -(rate * (w * (m - 1.0)))
  {
  }

  lemma Distribute(rate: real, x: real, y: real)
    ensures rate * (x - y) == rate * x - rate * y
  {
  }

  lemma Regroup(rate: real, r: real, d: real)
    requires d > 0.0
    ensures rate * r - rate * r / d == rate * (r - r / d)
  {
    assert rate * r / d == rate * (r / d);
  }

  lemma SameSign(rate: real, x: real)
    requires rate > 0.0
    ensures rate * x > 0.0 <==> x > 0.0
  {
  }

  // ----- Conservation over any sequence of records -----

  datatype Record = Record(model: string, usage: Usage, cost: Usd, today: Day, now: Instant)

  function Recorded(g: Guard, config: Config, r: Record): Guard {
    CostSection(g, config, r.today, r.cost)
      .(window := g.window + [r.now], models := ModelsAfter(g.models, r.model, r.usage, r.cost))
  }

  function RecordedAll(g: Guard, config: Config, rs: seq<Record>): Guard
    decreases |rs|
  {
    if rs == [] then g else RecordedAll(Recorded(g, config, rs[0]), config, rs[1..])
  }

  function Costs(rs: seq<Record>): Usd {
    if rs == [] then 0.0 else rs[0].cost + Costs(rs[1..])
  }

  predicate ChangesDay(rs: seq<Record>, start: Day, i: nat)
    requires i < |rs|
  {
    rs[i].today != if i == 0 then start else rs[i - 1].today
  }

  /** Where the day last changed. */
  function LastReset(rs: seq<Record>, start: Day): (r: Option<nat>)
    ensures r.Some? ==> r.value < |rs| && ChangesDay(rs, start, r.value)
    ensures forall i :: (if r.Some? then r.value else -1) < i < |rs| ==> !ChangesDay(rs, start, i)
    decreases |rs|
  {
    if rs == [] then None
    else
      var rest := LastReset(rs[1..], rs[0].today);
      assert forall i :: 0 < i < |rs| ==> ChangesDay(rs, start, i) == ChangesDay(rs[1..], rs[0].today, i - 1);
      if rest.Some? then Some(rest.value + 1) else if rs[0].today != start then Some(0) else None
  }

  /** The daily total is the sum of the costs recorded since the last reset. */
  lemma {:induction false} TotalSinceReset(g: Guard, config: Config, rs: seq<Record>)
    ensures var reset := LastReset(rs, g.resetDate);
            RecordedAll(g, config, rs).total
            == if reset.Some? then Costs(rs[reset.value..]) else g.total + Costs(rs)
    decreases |rs|
  {
    if rs != [] {
      TotalSinceReset(Recorded(g, config, rs[0]), config, rs[1..]);
      var rest := LastReset(rs[1..], rs[0].today);
      if rest.Some? {
        assert rs[rest.value + 1..] == rs[1..][rest.value..];
      }
      assert rs[0..] == rs;
    }
  }

  ghost function SumOver(keys: set<string>, models: map<string, ModelTokens>): Usd
    requires keys <= models.Keys
  {
    if keys == {} then 0.0
    else
      var k :| k in keys;
      models[k].cost + SumOver(keys - {k}, models)
  }

  lemma {:induction false} SumPick(keys: set<string>, models: map<string, ModelTokens>, k: string)
    requires keys <= models.Keys && k in keys
    ensures SumOver(keys, models) == models[k].cost + SumOver(keys - {k}, models)
    decreases |keys|
  {
    var c :| c in keys && SumOver(keys, models) == models[c].cost + SumOver(keys - {c}, models);
    if c != k {
      SumPick(keys - {c}, models, k);
      SumPick(keys - {k}, models, c);
      assert keys - {c} - {k} == keys - {k} - {c};
    }
  }

  lemma {:induction false} SumSame(keys: set<string>, models: map<string, ModelTokens>, models': map<string, ModelTokens>)
    requires keys <= models.Keys && keys <= models'.Keys
    requires forall k :: k in keys ==> models[k].cost == models'[k].cost
    ensures SumOver(keys, models) == SumOver(keys, models')
    decreases |keys|
  {
    if c :| c in keys {
      SumPick(keys, models, c);
      SumPick(keys, models', c);
      SumSame(keys - {c}, models, models');
    }
  }

  ghost function ModelSum(models: map<string, ModelTokens>): Usd { SumOver(models.Keys, models) }

  lemma RecordAddsToModels(models: map<string, ModelTokens>, model: string, usage: Usage, cost: Usd)
    ensures ModelSum(ModelsAfter(models, model, usage, cost)) == ModelSum(models) + cost
  {
    var after := ModelsAfter(models, model, usage, cost);
    assert after.Keys - {model} == models.Keys - {model};
    SumPick(after.Keys, after, model);
    SumSame(models.Keys - {model}, models, after);
    if model in models {
      SumPick(models.Keys, models, model);
    } else {
      assert models.Keys - {model} == models.Keys;
    }
  }

  /** The per-model costs sum to the costs of all calls ever recorded. */
  lemma {:induction false} ModelCostsConserved(g: Guard, config: Config, rs: seq<Record>)
    ensures ModelSum(RecordedAll(g, config, rs).models) == ModelSum(g.models) + Costs(rs)
    decreases |rs|
  {
    if rs != [] {
      RecordAddsToModels(g.models, rs[0].model, rs[0].usage, rs[0].cost);
      ModelCostsConserved(Recorded(g, config, rs[0]), config, rs[1..]);
    }
  }

  // ----- The spend of a day -----

  predicate DayOpen(log: seq<Record>, start: Day, day: Day) {
    day == if log == [] then start else log[|log| - 1].today
  }

  /** The costs of the last records, as far back as they are of the day. */
  function DayCosts(log: seq<Record>, day: Day): Usd {
    if log == [] || log[|log| - 1].today != day then 0.0
    else DayCosts(log[..|log| - 1], day) + log[|log| - 1].cost
  }

  /** The costs of all records of the day. */
  function SpentOn(log: seq<Record>, day: Day): Usd {
    if log == [] then 0.0
    else SpentOn(log[..|log| - 1], day) + if log[|log| - 1].today == day then log[|log| - 1].cost else 0.0
  }

  predicate DaysInOrder(log: seq<Record>) {
    forall i, j :: 0 <= i < j < |log| ==> log[i].today <= log[j].today
  }

  lemma {:induction false} NothingOnLaterDay(log: seq<Record>, day: Day)
    requires forall i :: 0 <= i < |log| ==> log[i].today < day
    ensures SpentOn(log, day) == 0.0
  {
    if log != [] {
      NothingOnLaterDay(log[..|log| - 1], day);
    }
  }

  /** With a date that never goes back, the records since the last reset are all records of the day. */
  lemma {:induction false} DayCostsAreSpentOn(log: seq<Record>, day: Day)
    requires DaysInOrder(log) && forall i :: 0 <= i < |log| ==> log[i].today <= day
    ensures DayCosts(log, day) == SpentOn(log, day)
  {
    if log != [] {
      if log[|log| - 1].today == day {
        DayCostsAreSpentOn(log[..|log| - 1], day);
      } else {
        NothingOnLaterDay(log, day);
      }
    }
  }

  lemma DayCostsSnoc(log: seq<Record>, r: Record, start: Day, day: Day)
    requires DayOpen(log, start, day)
    ensures DayCosts(log + [r], r.today) == (if r.today == day then DayCosts(log, day) else 0.0) + r.cost
  {
    assert (log + [r])[..|log|] == log;
  }

  lemma {:induction false} CostsSnoc(log: seq<Record>, r: Record)
    ensures Costs(log + [r]) == Costs(log) + r.cost
  {
    if log == [] {
      assert (log + [r])[1..] == [];
    } else {
      assert (log + [r])[1..] == log[1..] + [r];
      CostsSnoc(log[1..], r);
    }
  }

  // ----- The object -----

  class CostGuard {
    const config: Config
    var total: Usd
    var resetDate: Day
    var budgetExceeded: bool
    var window: seq<Instant>
    var models: map<string, ModelTokens>
    ghost const startDay: Day
    ghost var log: seq<Record>      // every record ever made

    /** The total is that of the day of the last record, and the models' costs sum to all costs. */
    ghost predicate Valid()
      reads this
    {
      DayOpen(log, startDay, resetDate) && total == DayCosts(log, resetDate) && ModelSum(models) == Costs(log)
    }

    function View(): Guard
      reads this
    {
      Guard(total, resetDate, budgetExceeded, window, models)
    }

    constructor (config: Config, today: Day)
      ensures this.config == config && View() == Guard(0.0, today, false, [], map[])
      ensures Valid() && log == []
    {
      this.config := config;
      total, resetDate, budgetExceeded, window, models := 0.0, today, false, [], map[];
      startDay, log := today, [];
    }

    method Drain(now: Instant)
      modifies this`window
      ensures window == Drained(old(window), now)
    {
      while window != [] && window[0] < now - HOUR
        invariant Drained(window, now) == Drained(old(window), now)
        decreases |window|
      {
        window := window[1..];
      }
    }

    method CheckAllowed(now: Instant) returns (r: Result<(), CostLimitExceeded>)
      modifies this`window, this`budgetExceeded
      ensures (View(), r) == Checked(old(View()), config, now)
    {
      if budgetExceeded {
        return Err(DailyBudget(ToCents(total), Shown(config)));
      }
      if config.maxCostPerDayCents.Some? && ToCents(total) >= config.maxCostPerDayCents.value {
        budgetExceeded := true;
        return Err(DailyBudget(ToCents(total), config.maxCostPerDayCents.value));
      }
      if config.maxActionsPerHour.Some? {
        Drain(now);
        if |window| >= config.maxActionsPerHour.value {
          return Err(HourlyRate(|window|, config.maxActionsPerHour.value));
        }
      }
      return Ok(());
    }

    method RecordLlmCall(model: string, usage: Usage, pricing: Pricing, today: Day, now: Instant) returns (cost: Usd)
      requires Valid()
      modifies this
      ensures Valid() && log == old(log) + [Record(model, usage, cost, today, now)]
      ensures cost == CallCost(usage, pricing)
      ensures View() == Recorded(old(View()), config, Record(model, usage, cost, today, now))
      ensures ModelSum(models) == ModelSum(old(models)) + cost
    {
      cost := CallCost(usage, pricing);
      if today != resetDate {
        total, resetDate, budgetExceeded := 0.0, today, false;
      }
      total := total + cost;
      if config.maxCostPerDayCents.Some? && ToCents(total) >= config.maxCostPerDayCents.value {
        budgetExceeded := true;
      }
      window := window + [now];
      DayCostsSnoc(log, Record(model, usage, cost, today, now), startDay, old(resetDate));
      CostsSnoc(log, Record(model, usage, cost, today, now));
      log := log + [Record(model, usage, cost, today, now)];
      RecordAddsToModels(models, model, usage, cost);
      models := ModelsAfter(models, model, usage, cost);
    }

    /** The spend of today, without starting a new day: what the records of today cost, since the last other day. */
    method DailySpend(today: Day) returns (usd: Usd)
      requires Valid()
      ensures usd == DayCosts(log, today)
      ensures DaysInOrder(log) && (forall i :: 0 <= i < |log| ==> log[i].today <= today) ==> usd == SpentOn(log, today)
    {
      usd := if today != resetDate then 0.0 else total;
      if DaysInOrder(log) && forall i :: 0 <= i < |log| ==> log[i].today <= today {
        DayCostsAreSpentOn(log, today);
      }
    }

    method ActionsThisHour(now: Instant) returns (n: nat)
      requires Sorted(window)
      modifies this`window
      ensures window == Unexpired(old(window), now) && n == |window| && Sorted(window)
    {
      DrainedIsUnexpired(window, now);
      DrainedIsSuffix(window, now);
      Drain(now);
      n := |window|;
    }
  }
}
