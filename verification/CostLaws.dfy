/** What a call costs token by token, what a check lets through, and what each model has used (src/agent/cost_guard.rs). */
module CostLaws {
  import opened Wrappers
  import opened CostGuard

  // ----- The price, token by token -----

  lemma OneMore(rate: real, n: nat, k: nat)
    ensures rate * (n + k) as real == rate * n as real + k as real * rate
  {
    assert (n + k) as real == n as real + k as real;
    Sum(rate, n as real, k as real);
  }

  lemma Sum(rate: real, x: real, y: real)
    ensures rate * (x + y) == rate * x + y * rate
  {
  }

  lemma OverDiscount(x: real, y: real, discount: real)
    requires discount != 0.0
    ensures (x + y) / discount == x / discount + y / discount
  {
  }

  lemma TimesMultiplier(x: real, y: real, multiplier: real)
    ensures (x + y) * multiplier == x * multiplier + y * multiplier
  {
  }

  lemma NoTokensNoCost(p: Pricing)
    ensures CallCost(Usage(0, 0, 0, 0), p) == 0.0
  {
    OneMore(p.inputRate, 0, 0);
  }

  lemma OutputPrice(u: Usage, p: Pricing, n: nat)
    ensures CallCost(u.(output := u.output + n), p) == CallCost(u, p) + n as real * p.outputRate
  {
    OneMore(p.outputRate, u.output, n);
  }

  /** An input token that no cache accounts for costs the input rate, any other one nothing. */
  lemma InputPrice(u: Usage, p: Pricing)
    requires u.input < 4294967295
    ensures CallCost(u.(input := u.input + 1), p)
            == CallCost(u, p) + if u.cacheRead + u.cacheWrite <= u.input then p.inputRate else 0.0
  {
    if u.cacheRead + u.cacheWrite <= u.input {
      OneMore(p.inputRate, u.input - (u.cacheRead + u.cacheWrite), 1);
    }
  }

  /** A token read from the cache costs the discounted rate, and is one uncached token less as long as there is one. */
  lemma CacheReadPrice(u: Usage, p: Pricing)
    requires u.input <= 4294967295
    ensures var discounted := if p.readDiscount == 0.0 then p.inputRate else p.inputRate / p.readDiscount;
            CallCost(u.(cacheRead := u.cacheRead + 1), p)
            == CallCost(u, p) + discounted - if u.cacheRead + u.cacheWrite < u.input then p.inputRate else 0.0
  {
    OneMore(p.inputRate, u.cacheRead, 1);
    OverDiscount(p.inputRate * u.cacheRead as real, p.inputRate, if p.readDiscount == 0.0 then 1.0 else p.readDiscount);
    if u.cacheRead + u.cacheWrite < u.input {
      OneMore(p.inputRate, u.input - (u.cacheRead + u.cacheWrite) - 1, 1);
    }
  }

  /** A token written to the cache costs the multiple of the rate, and is one uncached token less as long as there is one. */
  lemma CacheWritePrice(u: Usage, p: Pricing)
    requires u.input <= 4294967295
    ensures CallCost(u.(cacheWrite := u.cacheWrite + 1), p)
            == CallCost(u, p) + p.inputRate * p.writeMultiplier
               - if u.cacheRead + u.cacheWrite < u.input then p.inputRate else 0.0
  {
    OneMore(p.inputRate, u.cacheWrite, 1);
    TimesMultiplier(p.inputRate * u.cacheWrite as real, p.inputRate, p.writeMultiplier);
    if u.cacheRead + u.cacheWrite < u.input {
      OneMore(p.inputRate, u.input - (u.cacheRead + u.cacheWrite) - 1, 1);
    }
  }

  /** The prices of one more token; `read` and `write` are those of a token read from or written to the cache. */
  datatype Rates = Rates(input: real, output: real, read: real, write: real)

  ghost predicate PricesOutput(price: Usage -> real, u: Usage, rates: Rates) {
    price(u.(output := u.output + 1)) == price(u) + rates.output
  }

  ghost predicate PricesInput(price: Usage -> real, u: Usage, rates: Rates) {
    u.input < 4294967295 ==>
      price(u.(input := u.input + 1)) == price(u) + if u.cacheRead + u.cacheWrite <= u.input then rates.input else 0.0
  }

  /** The uncached token that one cached token more stands for. */
  function Displaced(u: Usage, rates: Rates): real {
    if u.cacheRead + u.cacheWrite < u.input then rates.input else 0.0
  }

  ghost predicate PricesRead(price: Usage -> real, u: Usage, rates: Rates) {
    u.input <= 4294967295 ==> price(u.(cacheRead := u.cacheRead + 1)) == price(u) + rates.read - Displaced(u, rates)
  }

  ghost predicate PricesWrite(price: Usage -> real, u: Usage, rates: Rates) {
    u.input <= 4294967295 ==> price(u.(cacheWrite := u.cacheWrite + 1)) == price(u) + rates.write - Displaced(u, rates)
  }

  ghost predicate PricesOneMore(price: Usage -> real, u: Usage, rates: Rates) {
    PricesOutput(price, u, rates) && PricesInput(price, u, rates) && PricesRead(price, u, rates) && PricesWrite(price, u, rates)
  }

  ghost predicate PricesTokens(price: Usage -> real, rates: Rates) {
    price(Usage(0, 0, 0, 0)) == 0.0 && forall u: Usage :: PricesOneMore(price, u, rates)
  }

  function RatesOf(p: Pricing): Rates {
    Rates(p.inputRate, p.outputRate,
          if p.readDiscount == 0.0 then p.inputRate else p.inputRate / p.readDiscount,
          p.inputRate * p.writeMultiplier)
  }

  function Price(p: Pricing): Usage -> real { u => CallCost(u, p) }

  lemma CostPricesTokens(p: Pricing)
    ensures PricesTokens(Price(p), RatesOf(p))
  {
    NoTokensNoCost(p);
    forall u: Usage ensures PricesOneMore(Price(p), u, RatesOf(p)) {
      CostPricesOutput(u, p);
      CostPricesInput(u, p);
      CostPricesRead(u, p);
      CostPricesWrite(u, p);
    }
  }

  lemma CostPricesOutput(u: Usage, p: Pricing)
    ensures PricesOutput(Price(p), u, RatesOf(p))
  {
    OutputPrice(u, p, 1);
  }

  lemma CostPricesInput(u: Usage, p: Pricing)
    ensures PricesInput(Price(p), u, RatesOf(p))
  {
    if u.input < 4294967295 {
      InputPrice(u, p);
    }
  }

  lemma CostPricesRead(u: Usage, p: Pricing)
    ensures PricesRead(Price(p), u, RatesOf(p))
  {
    if u.input <= 4294967295 {
      CacheReadPrice(u, p);
    }
  }

  lemma CostPricesWrite(u: Usage, p: Pricing)
    ensures PricesWrite(Price(p), u, RatesOf(p))
  {
    if u.input <= 4294967295 {
      CacheWritePrice(u, p);
    }
  }

  /** The laws of the tokens leave nothing open: at most one price obeys them, on every 32-bit usage. */
  lemma {:induction false} PriceIsDetermined(price: Usage -> real, other: Usage -> real, u: Usage, rates: Rates)
    requires PricesTokens(price, rates) && PricesTokens(other, rates) && u.input <= 4294967295
    ensures price(u) == other(u)
    decreases u.input + u.output + u.cacheRead + u.cacheWrite
  {
    if u != Usage(0, 0, 0, 0) {
      var v :=
        if u.cacheWrite > 0 then u.(cacheWrite := u.cacheWrite - 1)
        else if u.cacheRead > 0 then u.(cacheRead := u.cacheRead - 1)
        else if u.output > 0 then u.(output := u.output - 1)
        else u.(input := u.input - 1);
      PriceIsDetermined(price, other, v, rates);
      assert PricesOneMore(price, v, rates) && PricesOneMore(other, v, rates);
      assert u == if u.cacheWrite > 0 then v.(cacheWrite := v.cacheWrite + 1)
                  else if u.cacheRead > 0 then v.(cacheRead := v.cacheRead + 1)
                  else if u.output > 0 then v.(output := v.output + 1)
                  else v.(input := v.input + 1);
    }
  }

  // ----- Cents -----

  /** Truncation: as many whole cents as fit. */
  lemma CentsFit(usd: Usd)
    ensures var cents := ToCents(usd);
            if 0.0 <= usd && usd * 100.0 < 18446744073709551616.0
            then cents as real <= usd * 100.0 < (cents + 1) as real
            else cents == 0
  {
  }

  // ----- The window -----

  /** What is at most an hour old stays, as often as it is there, in its order; all else goes. */
  lemma {:induction false} UnexpiredMeans(w: seq<Instant>, now: Instant, t: Instant)
    ensures multiset(Unexpired(w, now))[t] == if now - t <= 3600 then multiset(w)[t] else 0
  {
    if w != [] {
      assert w == [w[0]] + w[1..];
      UnexpiredMeans(w[1..], now, t);
    }
  }

  lemma {:induction false} UnexpiredSorted(w: seq<Instant>, now: Instant)
    requires Sorted(w)
    ensures Sorted(Unexpired(w, now))
  {
    DrainedIsUnexpired(w, now);
    DrainedIsSuffix(w, now);
  }

  // ----- The check -----

  ghost predicate OverBudget(g: Guard, config: Config) {
    && config.maxCostPerDayCents.Some?
    && var limit := config.maxCostPerDayCents.value;
       limit == 0 || limit as real <= g.total * 100.0 < 18446744073709551616.0
  }

  ghost predicate OverRate(g: Guard, config: Config, now: Instant) {
    config.maxActionsPerHour.Some? && |Unexpired(g.window, now)| >= config.maxActionsPerHour.value
  }

  /** A raised flag, then the budget, then the rate, and nothing else, refuses a call; with what it leaves behind. */
  lemma CheckMeans(g: Guard, config: Config, now: Instant)
    requires Sorted(g.window)
    ensures var (g', r) := Checked(g, config, now);
            && (r.Ok? <==> !g.budgetExceeded && !OverBudget(g, config) && !OverRate(g, config, now))
            && (g'.budgetExceeded <==> g.budgetExceeded || OverBudget(g, config))
            && g'.total == g.total && g'.resetDate == g.resetDate && g'.models == g.models
            && (g'.window == if !g'.budgetExceeded && config.maxActionsPerHour.Some? then Unexpired(g.window, now) else g.window)
            && (r.Err? && g'.budgetExceeded ==>
                  && r.error.DailyBudget? && r.error.spentCents == ToCents(g.total)
                  && (config.maxCostPerDayCents.Some? ==> r.error.limitCents == config.maxCostPerDayCents.value))
            && (r.Err? && !g'.budgetExceeded ==>
                  r.error == HourlyRate(|Unexpired(g.window, now)|, config.maxActionsPerHour.value))
  {
    if config.maxCostPerDayCents.Some? {
      CentsTestIsExact(g.total, config.maxCostPerDayCents.value);
    }
    DrainedIsUnexpired(g.window, now);
  }

  // ----- The record -----

  /** What a record leaves behind: a new day starts from zero with the flag down, and only the model's entry grows. */
  lemma RecordMeans(g: Guard, config: Config, r: Record)
    ensures var g' := Recorded(g, config, r);
            && g'.resetDate == r.today && g'.window == g.window + [r.now]
            && g'.total == (if r.today == g.resetDate then g.total else 0.0) + r.cost
            && (g'.budgetExceeded <==> OverBudget(g', config) || (r.today == g.resetDate && g.budgetExceeded))
            && g'.models.Keys == g.models.Keys + {r.model}
            && (forall m :: m in g.models && m != r.model ==> g'.models[m] == g.models[m])
            && var e := if r.model in g.models then g.models[r.model] else ModelTokens(0, 0, 0.0);
               g'.models[r.model]
               == ModelTokens(e.inputTokens + r.usage.input, e.outputTokens + r.usage.output, e.cost + r.cost)
  {
    if config.maxCostPerDayCents.Some? {
      CentsTestIsExact(Recorded(g, config, r).total, config.maxCostPerDayCents.value);
    }
  }

  // ----- What each model used -----

  function InputOf(rs: seq<Record>, model: string): nat {
    if rs == [] then 0 else (if rs[0].model == model then rs[0].usage.input else 0) + InputOf(rs[1..], model)
  }

  function OutputOf(rs: seq<Record>, model: string): nat {
    if rs == [] then 0 else (if rs[0].model == model then rs[0].usage.output else 0) + OutputOf(rs[1..], model)
  }

  function CostOf(rs: seq<Record>, model: string): Usd {
    if rs == [] then 0.0 else (if rs[0].model == model then rs[0].cost else 0.0) + CostOf(rs[1..], model)
  }

  function EntryOf(models: map<string, ModelTokens>, model: string): ModelTokens {
    if model in models then models[model] else ModelTokens(0, 0, 0.0)
  }

  /** A model's entry grows by what the records of the model used, and only a model with a record gets one. */
  lemma {:induction false} TokensConserved(g: Guard, config: Config, rs: seq<Record>, model: string)
    ensures var before, after := EntryOf(g.models, model), EntryOf(RecordedAll(g, config, rs).models, model);
            && after.inputTokens == before.inputTokens + InputOf(rs, model)
            && after.outputTokens == before.outputTokens + OutputOf(rs, model)
            && after.cost == before.cost + CostOf(rs, model)
    ensures model in RecordedAll(g, config, rs).models <==> model in g.models || exists i :: 0 <= i < |rs| && rs[i].model == model
    decreases |rs|
  {
    if rs != [] {
      TokensConserved(Recorded(g, config, rs[0]), config, rs[1..], model);
      assert forall i :: 1 <= i < |rs| ==> rs[i] == rs[1..][i - 1];
    }
  }

  // ----- Sums of costs -----

  lemma {:induction false} CostsAppend(a: seq<Record>, b: seq<Record>)
    ensures Costs(a + b) == Costs(a) + Costs(b)
  {
    if a == [] {
      assert a + b == b;
    } else {
      assert (a + b)[1..] == a[1..] + b;
      CostsAppend(a[1..], b);
    }
  }

  lemma {:induction false} SpentAppend(a: seq<Record>, b: seq<Record>, day: Day)
    ensures SpentOn(a + b, day) == SpentOn(a, day) + SpentOn(b, day)
  {
    if b == [] {
      assert a + b == a;
    } else {
      assert (a + b)[..|a + b| - 1] == a + b[..|b| - 1];
      SpentAppend(a, b[..|b| - 1], day);
    }
  }

  /** If all records are of one day, the day's spend is all of their costs; of any other day, nothing. */
  lemma {:induction false} SpentOnOneDay(rs: seq<Record>, recorded: Day, day: Day)
    requires forall i :: 0 <= i < |rs| ==> rs[i].today == recorded
    ensures SpentOn(rs, day) == if day == recorded then Costs(rs) else 0.0
  {
    if rs != [] {
      var last := |rs| - 1;
      assert rs == rs[..last] + [rs[last]];
      CostsAppend(rs[..last], [rs[last]]);
      SpentOnOneDay(rs[..last], recorded, day);
    }
  }
}
