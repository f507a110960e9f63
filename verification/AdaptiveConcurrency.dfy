/** The limit on rows in flight, moved by latency and failures. */
module AdaptiveConcurrency {
  import opened Common

  datatype Settings = Settings(min: int, max: int, targetLatencyMs: int, growEvery: int)

  datatype Limiter = Limiter(current: int, latencySamples: seq<real>, successSinceGrow: int, failureStreak: int)

  function Clamp(value: int, min: int, max: int): int {
    var capped := if value < max then value else max;
    if min > capped then min else capped
  }

  function Configure(min: int, max: int, targetLatencyMs: int, growEvery: int): Settings {
    var low := Clamp(min, 1, 16);
    Settings(low, Clamp(max, low, 32), Clamp(targetLatencyMs, 50, 10000), Clamp(growEvery, 1, 50))
  }

  function Start(c: Settings, initial: int): Limiter { Limiter(Clamp(initial, c.min, c.max), [], 0, 0) }

  function Sum(samples: seq<real>): real {
    if samples == [] then 0.0 else Sum(samples[..|samples| - 1]) + samples[|samples| - 1]
  }

  function Average(c: Settings, samples: seq<real>): real {
    if samples == [] then c.targetLatencyMs as real else Sum(samples) / |samples| as real
  }

  function Last20(samples: seq<real>): seq<real> {
    if |samples| > 20 then samples[|samples| - 20..] else samples
  }

  function AfterSuccess(c: Settings, l: Limiter, latencyMs: real): Limiter {
    var latency := if latencyMs > 0.0 then latencyMs else c.targetLatencyMs as real;
    var seen := Limiter(l.current, Last20(l.latencySamples + [latency]), l.successSinceGrow + 1, 0);
    var average := Average(c, seen.latencySamples);
    if average <= c.targetLatencyMs as real * 0.85 && seen.successSinceGrow >= c.growEvery then
      seen.(current := Clamp(l.current + 1, c.min, c.max), successSinceGrow := 0)
    else if average > c.targetLatencyMs as real * 1.4 && l.current > c.min then
      seen.(current := Clamp(l.current - 1, c.min, c.max), successSinceGrow := 0)
    else seen
  }

  predicate Hard(status: Option<int>) { status.Some? && (status.value == 429 || status.value >= 500) }

  function AfterFailure(c: Settings, l: Limiter, status: Option<int>): Limiter {
    var seen := l.(failureStreak := l.failureStreak + 1, successSinceGrow := 0);
    if Hard(status) || seen.failureStreak >= 2 then
      seen.(current := Clamp(l.current - (if Hard(status) then 2 else 1), c.min, c.max))
    else seen
  }

  datatype Event = Succeeded(latencyMs: real) | Failed(status: Option<int>)

  function Do(c: Settings, l: Limiter, e: Event): Limiter {
    match e
    case Succeeded(latencyMs) => AfterSuccess(c, l, latencyMs)
    case Failed(status) => AfterFailure(c, l, status)
  }

  function Run(c: Settings, l: Limiter, events: seq<Event>): Limiter
    decreases |events|
  {
    if events == [] then l else Run(c, Do(c, l, events[0]), events[1..])
  }

  function Successes(events: seq<Event>): nat {
    if events == [] then 0 else Successes(events[1..]) + if events[0].Succeeded? then 1 else 0
  }

  ghost predicate Valid(c: Settings, l: Limiter) {
    && 1 <= c.min <= c.max && 1 <= c.growEvery
    && c.min <= l.current <= c.max
    && |l.latencySamples| <= 20 && (forall i :: 0 <= i < |l.latencySamples| ==> l.latencySamples[i] > 0.0)
    && 0 <= l.successSinceGrow && 0 <= l.failureStreak
  }

  /**
   * In every run the limit stays between its bounds, keeps at most twenty positive samples, and climbs
   * slowly: each step up has been earned by `growEvery` successes of its own.
   */
  lemma {:induction false} LimitClimbsSlowly(c: Settings, l: Limiter, events: seq<Event>)
    requires Valid(c, l) && c.targetLatencyMs > 0
    ensures var end := Run(c, l, events);
            && Valid(c, end)
            && end.current * c.growEvery + end.successSinceGrow
               <= l.current * c.growEvery + l.successSinceGrow + Successes(events)
    decreases |events|
  {
    if events != [] {
      var next := Do(c, l, events[0]);
      StepClimbsSlowly(c, l, events[0]);
      LimitClimbsSlowly(c, next, events[1..]);
    }
  }

  lemma StepClimbsSlowly(c: Settings, l: Limiter, e: Event)
    requires Valid(c, l) && c.targetLatencyMs > 0
    ensures var next := Do(c, l, e);
            && Valid(c, next)
            && next.current * c.growEvery + next.successSinceGrow
               <= l.current * c.growEvery + l.successSinceGrow + (if e.Succeeded? then 1 else 0)
  {
    var next := Do(c, l, e);
    if next.current <= l.current {
      ScaleDown(next.current, l.current, c.growEvery);
    } else {
      assert next.current == l.current + 1 && next.successSinceGrow == 0 && l.successSinceGrow + 1 >= c.growEvery;
      assert next.current * c.growEvery == l.current * c.growEvery + c.growEvery;
    }
  }

  lemma ScaleDown(x: int, y: int, k: int)
    requires x <= y && k >= 0
    ensures x * k <= y * k
  {}

  /** How often the limit goes up during a run, whatever it loses in between. */
  function Ups(c: Settings, l: Limiter, events: seq<Event>): nat
    decreases |events|
  {
    if events == [] then 0
    else
      var next := Do(c, l, events[0]);
      Ups(c, next, events[1..]) + if next.current > l.current then 1 else 0
  }

  /** Every single step up has `growEvery` successes of its own, counted since the step before it or a setback. */
  lemma {:induction false} EveryStepIsEarned(c: Settings, l: Limiter, events: seq<Event>)
    requires Valid(c, l) && c.targetLatencyMs > 0
    ensures Ups(c, l, events) * c.growEvery + Run(c, l, events).successSinceGrow <= l.successSinceGrow + Successes(events)
    decreases |events|
  {
    if events != [] {
      hide Do;
      var next := Do(c, l, events[0]);
      StepClimbsSlowly(c, l, events[0]);
      StepIsEarned(c, l, events[0]);
      EveryStepIsEarned(c, next, events[1..]);
      Distribute(Ups(c, next, events[1..]), c.growEvery);
    }
  }

  lemma StepIsEarned(c: Settings, l: Limiter, e: Event)
    requires Valid(c, l)
    ensures var next := Do(c, l, e);
            (if next.current > l.current then c.growEvery else 0) + next.successSinceGrow
            <= l.successSinceGrow + (if e.Succeeded? then 1 else 0)
  {}

  lemma Distribute(x: int, k: int)
    ensures (x + 1) * k == x * k + k
  {}

  // ---- The object ----

  class AdaptiveConcurrency {
    const settings: Settings
    var current: int
    var latencySamples: seq<real>
    var successSinceGrow: int
    var failureStreak: int

    ghost function Contents(): Limiter
      reads this
    {
      Limiter(current, latencySamples, successSinceGrow, failureStreak)
    }

    constructor (initial: int, min: int, max: int, targetLatencyMs: int, growEvery: int)
      ensures settings == Configure(min, max, targetLatencyMs, growEvery)
      ensures Contents() == Start(settings, initial) && Valid(settings, Contents())
    {
      settings := Configure(min, max, targetLatencyMs, growEvery);
      var c := Configure(min, max, targetLatencyMs, growEvery);
      current, latencySamples, successSinceGrow, failureStreak := Clamp(initial, c.min, c.max), [], 0, 0;
    }

    method RecordSuccess(latencyMs: real)
      requires Valid(settings, Contents())
      modifies this
      ensures Contents() == Do(settings, old(Contents()), Succeeded(latencyMs))
    {
      hide Average;
      var target := settings.targetLatencyMs as real;
      latencySamples := latencySamples + [if latencyMs > 0.0 then latencyMs else target];
      if |latencySamples| > 20 { latencySamples := latencySamples[|latencySamples| - 20..]; }
      successSinceGrow := successSinceGrow + 1;
      failureStreak := 0;
      var average := AverageLatency();
      if average <= target * 0.85 && successSinceGrow >= settings.growEvery {
        current := Clamp(current + 1, settings.min, settings.max);
        successSinceGrow := 0;
        return;
      }
      if average > target * 1.4 && current > settings.min {
        current := Clamp(current - 1, settings.min, settings.max);
        successSinceGrow := 0;
      }
    }

    method RecordFailure(status: Option<int>)
      requires Valid(settings, Contents())
      modifies this
      ensures Contents() == Do(settings, old(Contents()), Failed(status))
    {
      failureStreak := failureStreak + 1;
      successSinceGrow := 0;
      var hardFailure := status.Some? && (status.value == 429 || status.value >= 500);
      if hardFailure || failureStreak >= 2 {
        var dropBy := if hardFailure then 2 else 1;
        current := Clamp(current - dropBy, settings.min, settings.max);
      }
    }

    /** The mean of the samples kept, or the target when there are none. */
    method AverageLatency() returns (average: real)
      ensures average == Average(settings, latencySamples)
    {
      if |latencySamples| == 0 { return settings.targetLatencyMs as real; }
      var sum := 0.0;
      for i := 0 to |latencySamples|
        invariant sum == Sum(latencySamples[..i])
      {
        assert latencySamples[..i + 1][..i] == latencySamples[..i];
        sum := sum + latencySamples[i];
      }
      assert latencySamples[..|latencySamples|] == latencySamples;
      average := sum / |latencySamples| as real;
    }
  }
}
