/** The token bucket and request budget in front of the local bridge server. */
module RateLimiter {
  import Common

  datatype Config = Config(perSecond: real, burst: real, budget: real)

  /** What the constructor demands; anything else makes it throw. */
  predicate Accepts(c: Config) {
    c.perSecond > 0.0 && c.burst > 0.0 && c.budget > 0.0
  }

  /** The mutable part of a limiter. Clock values are milliseconds. */
  datatype Bucket = Bucket(tokens: real, consumed: nat, lastRefillMs: real)

  datatype Reason = None | Rate | Budget

  datatype Decision = Decision(ok: bool, retryAfterMs: int, reason: Reason, tokens: real, budget: real)

  function Max(a: real, b: real): real { if a < b then b else a }

  function Min(a: real, b: real): real { if a < b then a else b }

  function Ceil(x: real): int { -((-x).Floor) }

  /** Tokens that flow in during `ms` milliseconds. */
  function Inflow(c: Config, ms: real): real { ms / 1000.0 * c.perSecond }

  function Fresh(c: Config, now: real): Bucket { Bucket(c.burst, 0, now) }

  function Refill(c: Config, b: Bucket, now: real): Bucket {
    var elapsed := Max(0.0, now - b.lastRefillMs);
    if elapsed == 0.0 then b
    else b.(tokens := Min(c.burst, b.tokens + Inflow(c, elapsed)), lastRefillMs := now)
  }

  /** Whole milliseconds until the next token is complete, at least one. */
  function RetryAfterMs(c: Config, tokens: real): int
    requires Accepts(c)
  {
    var wait := Ceil((1.0 - tokens) * (1000.0 / c.perSecond));
    if wait < 1 then 1 else wait
  }

  function Consume(c: Config, b: Bucket, now: real): (Bucket, Decision)
    requires Accepts(c)
  {
    if b.consumed as real >= c.budget then (b, Decision(false, 0, Budget, b.tokens, 0.0))
    else
      var f := Refill(c, b, now);
      if f.tokens < 1.0 then
        (f, Decision(false, RetryAfterMs(c, f.tokens), Rate, f.tokens, c.budget - f.consumed as real))
      else
        var g := f.(tokens := f.tokens - 1.0, consumed := f.consumed + 1);
        (g, Decision(true, 0, None, g.tokens, c.budget - g.consumed as real))
  }

  /** The state after one call at each of `times`, and how many of them were let through. */
  function Run(c: Config, b: Bucket, times: seq<real>): (Bucket, nat)
    requires Accepts(c)
    decreases |times|
  {
    if times == [] then (b, 0)
    else
      var (b', d) := Consume(c, b, times[0]);
      var (end, granted) := Run(c, b', times[1..]);
      (end, granted + if d.ok then 1 else 0)
  }

  /** How many of the calls at `times` a limiter created (or reset) at `start` lets through. */
  function Granted(c: Config, start: real, times: seq<real>): nat
    requires Accepts(c)
  {
    Run(c, Fresh(c, start), times).1
  }

  ghost predicate Valid(c: Config, b: Bucket) {
    Accepts(c) && 0.0 <= b.tokens <= c.burst && b.consumed as real < c.budget + 1.0
  }

  /** The latest clock value the bucket has acted on once a call at `t` is seen. */
  function Seen(b: Bucket, t: real): real { Max(b.lastRefillMs, t) }

  // ---- The amortised bound ----

  lemma StepPays(c: Config, b: Bucket, t: real)
    requires Valid(c, b)
    ensures var (b', d) := Consume(c, b, t);
            && Valid(c, b') && b.lastRefillMs <= b'.lastRefillMs <= Seen(b, t)
            && b'.consumed == b.consumed + (if d.ok then 1 else 0)
            && (if d.ok then 1.0 else 0.0) + b'.tokens
               <= b.tokens + Inflow(c, b'.lastRefillMs - b.lastRefillMs)
  {
    InflowGrows(c, 0.0, Max(0.0, t - b.lastRefillMs));
  }

  lemma {:induction false} RunKeepsValid(c: Config, b: Bucket, times: seq<real>)
    requires Valid(c, b)
    ensures var (end, granted) := Run(c, b, times);
            Valid(c, end) && b.lastRefillMs <= end.lastRefillMs && end.consumed == b.consumed + granted
    decreases |times|
  {
    hide Consume;
    if times != [] {
      StepPays(c, b, times[0]);
      RunKeepsValid(c, Consume(c, b, times[0]).0, times[1..]);
    }
  }

  /** Tokens pay for grants: with any clock at all, grants never exceed what was there plus what flowed in. */
  lemma {:induction false} GrantsArePaidFor(c: Config, b: Bucket, times: seq<real>)
    requires Valid(c, b)
    ensures var (end, granted) := Run(c, b, times);
            granted as real + end.tokens <= b.tokens + Inflow(c, end.lastRefillMs - b.lastRefillMs)
    decreases |times|
  {
    hide Consume, Inflow;
    InflowGrows(c, 0.0, 0.0);
    if times != [] {
      var b' := Consume(c, b, times[0]).0;
      StepPays(c, b, times[0]);
      GrantsArePaidFor(c, b', times[1..]);
      var end := Run(c, b', times[1..]).0;
      InflowAdds(c, b'.lastRefillMs - b.lastRefillMs, end.lastRefillMs - b'.lastRefillMs);
    }
  }

  ghost predicate NonDecreasing(times: seq<real>) {
    forall i, j :: 0 <= i <= j < |times| ==> times[i] <= times[j]
  }

  lemma {:induction false} EndSeen(c: Config, b: Bucket, times: seq<real>, last: real)
    requires Valid(c, b) && forall i :: 0 <= i < |times| ==> times[i] <= last
    ensures Run(c, b, times).0.lastRefillMs <= Seen(b, last)
    decreases |times|
  {
    if times != [] {
      StepPays(c, b, times[0]);
      EndSeen(c, Consume(c, b, times[0]).0, times[1..], last);
    }
  }

  lemma {:induction false} SpentStaysSpent(c: Config, b: Bucket, times: seq<real>)
    requires Accepts(c) && b.consumed as real >= c.budget
    ensures Run(c, b, times) == (b, 0)
    decreases |times|
  {
    if times != [] { SpentStaysSpent(c, b, times[1..]); }
  }

  /** A window of calls, whatever came before it, stays under burst plus rate times its length. */
  lemma {:induction false} WindowBound(c: Config, b: Bucket, times: seq<real>)
    requires Valid(c, b) && NonDecreasing(times) && times != []
    ensures Run(c, b, times).1 as real <= c.burst + Inflow(c, times[|times| - 1] - times[0])
  {
    var first, last := times[0], times[|times| - 1];
    InflowGrows(c, 0.0, last - first);
    if b.consumed as real >= c.budget {
      SpentStaysSpent(c, b, times);
    } else {
      var f := RefilledFirst(c, b, times);
      hide Consume, Refill, Inflow;
      GrantsArePaidFor(c, f, times);
      RunKeepsValid(c, f, times);
      EndSeen(c, f, times, last);
      InflowGrows(c, Run(c, f, times).0.lastRefillMs - f.lastRefillMs, last - first);
    }
  }

  /** A run may be started from the bucket refilled for its first call: nothing is lost or gained. */
  lemma RefilledFirst(c: Config, b: Bucket, times: seq<real>) returns (f: Bucket)
    requires Valid(c, b) && times != [] && (b.consumed as real) < c.budget
    ensures f == Refill(c, b, times[0]) && Valid(c, f) && f.lastRefillMs == Seen(b, times[0])
    ensures Run(c, b, times) == Run(c, f, times)
  {
    f := Refill(c, b, times[0]);
    InflowGrows(c, 0.0, Max(0.0, times[0] - b.lastRefillMs));
    assert Refill(c, f, times[0]) == f;
    assert Consume(c, b, times[0]) == Consume(c, f, times[0]);
  }

  lemma InflowGrows(c: Config, x: real, y: real)
    requires Accepts(c) && x <= y
    ensures Inflow(c, x) <= Inflow(c, y) && Inflow(c, 0.0) == 0.0
  {
    Scale(x / 1000.0, y / 1000.0, c.perSecond);
  }

  lemma InflowAdds(c: Config, x: real, y: real)
    ensures Inflow(c, x) + Inflow(c, y) == Inflow(c, x + y)
  {}

  lemma Scale(x: real, y: real, k: real)
    requires x <= y && k > 0.0
    ensures x * k <= y * k
  {}

  lemma {:induction false} RunSplits(c: Config, b: Bucket, times: seq<real>, i: nat)
    requires Accepts(c) && i <= |times|
    ensures var (mid, before) := Run(c, b, times[..i]);
            var (end, after) := Run(c, mid, times[i..]);
            Run(c, b, times) == (end, before + after)
    decreases i
  {
    if i == 0 {
      assert times[..0] == [] && times[0..] == times;
    } else {
      RunSplits(c, Consume(c, b, times[0]).0, times[1..], i - 1);
      assert times[..i][1..] == times[1..][..i - 1];
      assert times[1..][i - 1..] == times[i..];
    }
  }

  /**
   * The limiter's promise, over any run since the last reset: between call `i` and call `j` no more
   * than burst plus perSecond for each elapsed second get through, and never more than the budget in all.
   */
  lemma RunsStayWithinLimits(c: Config, start: real, times: seq<real>, i: nat, j: nat)
    requires Accepts(c) && NonDecreasing(times) && i <= j < |times|
    ensures (Granted(c, start, times[..j + 1]) - Granted(c, start, times[..i])) as real
            <= c.burst + Inflow(c, times[j] - times[i])
    ensures Granted(c, start, times) as real < c.budget + 1.0
    ensures c.budget.Floor as real == c.budget ==> Granted(c, start, times) as real <= c.budget
  {
    hide Run, Inflow;
    RunKeepsValid(c, Fresh(c, start), times[..i]);
    WindowBound(c, Run(c, Fresh(c, start), times[..i]).0, times[i..j + 1]);
    RunSplits(c, Fresh(c, start), times[..j + 1], i);
    assert times[..j + 1][..i] == times[..i] && times[..j + 1][i..] == times[i..j + 1];
    TotalBound(c, start, times);
  }

  lemma TotalBound(c: Config, start: real, times: seq<real>)
    requires Accepts(c)
    ensures Granted(c, start, times) as real < c.budget + 1.0
    ensures c.budget.Floor as real == c.budget ==> Granted(c, start, times) as real <= c.budget
  {
    hide Run;
    RunKeepsValid(c, Fresh(c, start), times);
    WholeBudget(Granted(c, start, times), c.budget);
  }

  lemma WholeBudget(n: nat, budget: real)
    requires n as real < budget + 1.0
    ensures budget.Floor as real == budget ==> n as real <= budget
  {
    var whole := budget.Floor;
    if whole as real == budget {
      assert (n as real) < (whole + 1) as real;
      assert n <= whole;
    }
  }

  /** The burst is really available: a fresh limiter grants that many calls at one instant, budget permitting. */
  lemma {:induction false} BurstIsAvailable(c: Config, b: Bucket, now: real, n: nat)
    requires Accepts(c) && b.lastRefillMs == now
    requires n as real <= b.tokens && b.consumed as real + n as real <= c.budget
    ensures Run(c, b, seq(n, _ => now)).1 == n
    decreases n
  {
    if n > 0 {
      var (b', d) := Consume(c, b, now);
      assert seq(n, _ => now)[1..] == seq(n - 1, _ => now);
      BurstIsAvailable(c, b', now, n - 1);
    }
  }

  // ---- The retry hint ----

  lemma TokensGrow(c: Config, tokens: real, wait: real)
    requires Accepts(c)
    ensures tokens + Inflow(c, wait) >= 1.0 <==> wait >= (1.0 - tokens) * (1000.0 / c.perSecond)
  {}

  /**
   * After a rate denial the hint is exact: with a burst of at least one, the next call passes after
   * waiting a positive whole number of milliseconds if and only if that is at least the hint.
   */
  lemma RetryHintIsExact(c: Config, b: Bucket, now: real, wait: int)
    requires Valid(c, b) && c.burst >= 1.0 && wait >= 1
    requires Consume(c, b, now).1.reason == Rate
    ensures var (denied, d) := Consume(c, b, now);
            Consume(c, denied, Seen(b, now) + wait as real).1.ok <==> wait >= d.retryAfterMs
  {
    var (f, d) := Consume(c, b, now);
    assert f == Refill(c, b, now) && f.lastRefillMs == Seen(b, now);
    TokensGrow(c, f.tokens, wait as real);
    var need := (1.0 - f.tokens) * (1000.0 / c.perSecond);
    assert wait as real >= need <==> wait >= Ceil(need);
  }

  /** With a burst below one nothing ever passes, however long the caller waits. */
  lemma {:induction false} SmallBurstNeverGrants(c: Config, b: Bucket, times: seq<real>)
    requires Valid(c, b) && c.burst < 1.0
    ensures Run(c, b, times).1 == 0
    decreases |times|
  {
    if times != [] {
      StepPays(c, b, times[0]);
      SmallBurstNeverGrants(c, Consume(c, b, times[0]).0, times[1..]);
    }
  }

  // ---- Settings ----

  /** A setting as it is read: rounded and clamped, or the default when it is no finite number. */
  function Setting(raw: Common.Option<real>, fallback: int, low: int, high: int): real {
    var rounded := if raw.Some? then (raw.value + 0.5).Floor else fallback;
    Common.Max(low, Common.Min(high, rounded)) as real
  }

  function Configured(perSecond: Common.Option<real>, burst: Common.Option<real>, budget: Common.Option<real>): Config {
    Config(Setting(perSecond, 20, 1, 1000), Setting(burst, 60, 1, 10000), Setting(budget, 10000, 100, 10000000))
  }

  lemma ConfiguredIsAccepted(perSecond: Common.Option<real>, burst: Common.Option<real>, budget: Common.Option<real>)
    ensures var c := Configured(perSecond, burst, budget);
            && Accepts(c) && 1.0 <= c.perSecond <= 1000.0 && 1.0 <= c.burst <= 10000.0 && 100.0 <= c.budget <= 10000000.0
            && c.budget.Floor as real == c.budget
  {}

  /**
   * Whatever the settings hold, after any calls at all: no more calls have passed than the budget allows, a call is
   * refused for the budget exactly when it is used up, and after a refusal for the rate the hint is exact.
   */
  lemma {:induction false} ConfiguredLimiterIsExact(
    perSecond: Common.Option<real>, burst: Common.Option<real>, budget: Common.Option<real>, start: real, times: seq<real>, now: real, wait: int)
    requires wait >= 1
    ensures var c := Configured(perSecond, burst, budget);
            && Accepts(c)
            && var b := Run(c, Fresh(c, start), times).0;
            var granted := Granted(c, start, times);
            var (denied, d) := Consume(c, b, now);
            && granted as real <= c.budget
            && (d.reason == Budget <==> granted as real == c.budget)
            && (d.reason == Rate ==> (Consume(c, denied, Seen(b, now) + wait as real).1.ok <==> wait >= d.retryAfterMs))
  {
    ConfiguredIsAccepted(perSecond, burst, budget);
    var c := Configured(perSecond, burst, budget);
    var b := Run(c, Fresh(c, start), times).0;
    RunKeepsValid(c, Fresh(c, start), times);
    TotalBound(c, start, times);
    hide Run, Configured;
    assert Consume(c, b, now).1.reason == Budget <==> b.consumed as real >= c.budget;
    hide Consume;
    if Consume(c, b, now).1.reason == Rate { RetryHintIsExact(c, b, now, wait); }
  }

  function NormalizeField(raw: Common.Option<real>, fallback: real): real {
    if raw.Some? && raw.value > 0.0 then raw.value.Floor as real else fallback
  }

  function Normalize(perSecond: Common.Option<real>, burst: Common.Option<real>, budget: Common.Option<real>): Config {
    Config(NormalizeField(perSecond, 20.0), NormalizeField(burst, 60.0), NormalizeField(budget, 10000.0))
  }

  /** A positive setting that rounds down to nothing. */
  predicate Vanishes(raw: Common.Option<real>) { raw.Some? && 0.0 < raw.value < 1.0 }

  /**
   * The normaliser beside the limiter is another reading of the same settings, which the program does not use: its result
   * is accepted by the constructor except when a setting lies strictly between 0 and 1.
   */
  lemma NormalizedSettingsAreAccepted(perSecond: Common.Option<real>, burst: Common.Option<real>, budget: Common.Option<real>)
    ensures var c := Normalize(perSecond, burst, budget);
            && (Accepts(c) <==> !Vanishes(perSecond) && !Vanishes(burst) && !Vanishes(budget))
            && (Accepts(c) ==> c.burst >= 1.0 && c.budget.Floor as real == c.budget)
  {}

  // ---- The object ----

  class BridgeRateLimiter {
    const config: Config
    var tokens: real
    var consumed: nat
    var lastRefillMs: real

    ghost function Contents(): Bucket
      reads this
    {
      Bucket(tokens, consumed, lastRefillMs)
    }

    constructor (config: Config, now: real)
      requires Accepts(config)
      ensures this.config == config && Contents() == Fresh(config, now)
    {
      this.config := config;
      tokens, consumed, lastRefillMs := config.burst, 0, now;
    }

    /** The source's constructor throws on a rate, burst or budget that is not positive. */
    static method Create(config: Config, now: real) returns (r: Common.Option<BridgeRateLimiter>)
      ensures r.Some? <==> Accepts(config)
      ensures r.Some? ==> fresh(r.value) && r.value.config == config && r.value.Contents() == Fresh(config, now)
    {
      if config.perSecond <= 0.0 { return Common.None; }
      if config.burst <= 0.0 { return Common.None; }
      if config.budget <= 0.0 { return Common.None; }
      var limiter := new BridgeRateLimiter(config, now);
      r := Common.Some(limiter);
    }

    method TryConsume(now: real) returns (d: Decision)
      requires Accepts(config)
      modifies this
      ensures (Contents(), d) == Consume(config, old(Contents()), now)
    {
      if consumed as real >= config.budget {
        return Decision(false, 0, Budget, tokens, 0.0);
      }
      RefillNow(now);
      if tokens < 1.0 {
        return Decision(false, RetryAfterMs(config, tokens), Rate, tokens, config.budget - consumed as real);
      }
      tokens := tokens - 1.0;
      consumed := consumed + 1;
      d := Decision(true, 0, None, tokens, config.budget - consumed as real);
    }

    method Reset(now: real)
      modifies this
      ensures Contents() == Fresh(config, now)
    {
      tokens, consumed, lastRefillMs := config.burst, 0, now;
    }

    method RefillNow(now: real)
      modifies this
      ensures Contents() == Refill(config, old(Contents()), now)
    {
      var elapsedMs := Max(0.0, now - lastRefillMs);
      if elapsedMs == 0.0 { return; }
      tokens := Min(config.burst, tokens + Inflow(config, elapsedMs));
      lastRefillMs := now;
    }
  }
}
