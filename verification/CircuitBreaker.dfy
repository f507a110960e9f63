/** The breaker that stops a batch job from sending while the server is in trouble. */
module CircuitBreaker {

  datatype State = Closed | Open | HalfOpen

  datatype Reason = FailureThreshold | HalfOpenSuccess | HalfOpenFailure | AutoHalfOpen | WasReset

  datatype Transition = Transition(from: State, to: State, at: int, reason: Reason)

  datatype Settings = Settings(failureThreshold: int, openMs: int, halfOpenSuccessThreshold: int)

  /** The four fields of a breaker and the transitions its listener has been told about. */
  datatype Breaker = Breaker(
    state: State, failureCount: int, openUntil: int, halfOpenSuccessCount: int, told: seq<Transition>)

  const Initial := Breaker(Closed, 0, 0, 0, [])

  /** An option as the constructor reads it: absent or zero means the default, anything else is rounded and clamped. */
  function Normalize(value: real, fallback: int, min: int, max: int): int {
    if value == 0.0 then fallback
    else
      var rounded := (value + 0.5).Floor;
      var low := if rounded < min then min else rounded;
      if low < max then low else max
  }

  function Configure(failureThreshold: real, openMs: real, halfOpenSuccessThreshold: real): Settings {
    Settings(Normalize(failureThreshold, 5, 1, 50), Normalize(openMs, 5000, 100, 60000),
             Normalize(halfOpenSuccessThreshold, 2, 1, 10))
  }

  predicate Usable(c: Settings) {
    1 <= c.failureThreshold <= 50 && 100 <= c.openMs <= 60000 && 1 <= c.halfOpenSuccessThreshold <= 10
  }

  lemma ConfiguredIsUsable(failureThreshold: real, openMs: real, halfOpenSuccessThreshold: real)
    ensures Usable(Configure(failureThreshold, openMs, halfOpenSuccessThreshold))
  {}

  function Move(b: Breaker, to: State, at: int, reason: Reason): Breaker {
    b.(state := to, told := if b.state == to then b.told else b.told + [Transition(b.state, to, at, reason)])
  }

  function Evaluate(b: Breaker, now: int): Breaker {
    if b.state != Open || now < b.openUntil then b
    else Move(b.(halfOpenSuccessCount := 0), HalfOpen, now, AutoHalfOpen)
  }

  function Tripped(c: Settings, b: Breaker, now: int, reason: Reason): Breaker {
    Move(b.(openUntil := now + c.openMs, failureCount := c.failureThreshold, halfOpenSuccessCount := 0), Open, now, reason)
  }

  function WhenReset(b: Breaker, now: int): Breaker {
    Move(b.(failureCount := 0, halfOpenSuccessCount := 0, openUntil := 0), Closed, now,
         if b.state == HalfOpen then HalfOpenSuccess else WasReset)
  }

  function AfterSuccess(c: Settings, b: Breaker, now: int): Breaker {
    var e := Evaluate(b, now);
    if e.state == HalfOpen then
      var counted := e.(halfOpenSuccessCount := e.halfOpenSuccessCount + 1);
      if counted.halfOpenSuccessCount >= c.halfOpenSuccessThreshold then WhenReset(counted, now) else counted
    else e.(failureCount := 0, halfOpenSuccessCount := 0)
  }

  function AfterFailure(c: Settings, b: Breaker, now: int): Breaker {
    var e := Evaluate(b, now);
    if e.state == HalfOpen then Tripped(c, e, now, HalfOpenFailure)
    else
      var counted := e.(failureCount := e.failureCount + 1);
      if counted.failureCount >= c.failureThreshold then Tripped(c, counted, now, FailureThreshold) else counted
  }

  /** What a caller may do. `Ask` is canRequest, getState or getDiagnostics, which all only look. */
  datatype Call = Ask(now: int) | Success(now: int) | Failure(now: int) | ResetNow(now: int)

  function Do(c: Settings, b: Breaker, call: Call): Breaker {
    match call
    case Ask(now) => Evaluate(b, now)
    case Success(now) => AfterSuccess(c, b, now)
    case Failure(now) => AfterFailure(c, b, now)
    case ResetNow(now) => WhenReset(b, now)
  }

  function Run(c: Settings, b: Breaker, calls: seq<Call>): Breaker
    decreases |calls|
  {
    if calls == [] then b else Run(c, Do(c, b, calls[0]), calls[1..])
  }

  predicate Admits(b: Breaker, now: int) { Evaluate(b, now).state != Open }

  // ---- What every run keeps ----

  ghost predicate Valid(c: Settings, b: Breaker) {
    && 0 <= b.failureCount <= c.failureThreshold
    && (b.state == Closed ==> b.failureCount < c.failureThreshold)
    && 0 <= b.halfOpenSuccessCount
    && (if b.state == HalfOpen then b.halfOpenSuccessCount < c.halfOpenSuccessThreshold else b.halfOpenSuccessCount == 0)
    && Chain(b.told, b.state)
  }

  /** The listener sees one connected walk from closed to the current state, never a step to the same state. */
  ghost predicate Chain(told: seq<Transition>, now: State) {
    && (forall i :: 0 <= i < |told| ==> told[i].from != told[i].to)
    && (forall i :: 0 < i < |told| ==> told[i].from == told[i - 1].to)
    && (if told == [] then now == Closed else told[0].from == Closed && told[|told| - 1].to == now)
    && (forall i :: 0 <= i < |told| ==> Legal(told[i]))
  }

  /** The only steps there are, each with its reason. */
  predicate Legal(t: Transition) {
    match t.reason
    case FailureThreshold => t.from == Closed && t.to == Open
    case AutoHalfOpen => t.from == Open && t.to == HalfOpen
    case HalfOpenFailure => t.from == HalfOpen && t.to == Open
    case HalfOpenSuccess => t.from == HalfOpen && t.to == Closed
    case WasReset => t.from == Open && t.to == Closed
  }

  lemma MoveKeepsChain(b: Breaker, next: State, at: int, reason: Reason)
    requires Chain(b.told, b.state) && (b.state != next ==> Legal(Transition(b.state, next, at, reason)))
    ensures Chain(Move(b, next, at, reason).told, next)
  {}

  lemma EvaluateKeeps(c: Settings, b: Breaker, now: int)
    requires Usable(c) && Valid(c, b)
    ensures Valid(c, Evaluate(b, now))
  {
    if b.state == Open { MoveKeepsChain(b.(halfOpenSuccessCount := 0), HalfOpen, now, AutoHalfOpen); }
  }

  lemma CallKeeps(c: Settings, b: Breaker, call: Call)
    requires Usable(c) && Valid(c, b)
    ensures Valid(c, Do(c, b, call))
  {
    hide Chain;
    var now := call.now;
    EvaluateKeeps(c, b, now);
    var e := Evaluate(b, now);
    match call
    case Ask(_) =>
    case Success(_) =>
      if e.state == HalfOpen {
        MoveKeepsChain(e, Closed, now, HalfOpenSuccess);
      }
    case Failure(_) =>
      MoveKeepsChain(e, Open, now, if e.state == HalfOpen then HalfOpenFailure else FailureThreshold);
    case ResetNow(_) =>
      MoveKeepsChain(b, Closed, now, if b.state == HalfOpen then HalfOpenSuccess else WasReset);
  }

  lemma {:induction false} RunsStayValid(c: Settings, b: Breaker, calls: seq<Call>)
    requires Usable(c) && Valid(c, b)
    ensures Valid(c, Run(c, b, calls))
    decreases |calls|
  {
    hide Valid, Do;
    if calls != [] {
      CallKeeps(c, b, calls[0]);
      RunsStayValid(c, Do(c, b, calls[0]), calls[1..]);
    }
  }

  lemma {:induction false} EveryRunIsValid(c: Settings, calls: seq<Call>)
    requires Usable(c)
    ensures Valid(c, Run(c, Initial, calls))
  {
    RunsStayValid(c, Initial, calls);
  }

  /**
   * Once tripped, the breaker lets nothing through before `openUntil`, whatever is recorded meanwhile:
   * late answers of earlier requests can only push `openUntil` further out.
   */
  lemma {:induction false} TrippedStaysOpen(c: Settings, b: Breaker, calls: seq<Call>, asked: int)
    requires Usable(c) && b.state == Open && asked < b.openUntil
    requires forall i :: 0 <= i < |calls| ==> !calls[i].ResetNow? && b.openUntil - c.openMs <= calls[i].now < b.openUntil
    requires forall i, j :: 0 <= i < j < |calls| ==> calls[i].now <= calls[j].now
    ensures var end := Run(c, b, calls);
            end.state == Open && end.told == b.told && b.openUntil <= end.openUntil && !Admits(end, asked)
    decreases |calls|
  {
    if calls != [] { TrippedStaysOpen(c, Do(c, b, calls[0]), calls[1..], asked); }
  }

  function Failures(calls: seq<Call>): nat {
    if calls == [] then 0 else Failures(calls[1..]) + if calls[0].Failure? then 1 else 0
  }

  function Successes(calls: seq<Call>): nat {
    if calls == [] then 0 else Successes(calls[1..]) + if calls[0].Success? then 1 else 0
  }

  /** From closed, without a success, the first transition happens exactly when the failures reach the threshold. */
  lemma {:induction false} TripsAtTheThreshold(c: Settings, b: Breaker, calls: seq<Call>)
    requires Usable(c) && Valid(c, b) && b.state == Closed
    requires forall i :: 0 <= i < |calls| ==> calls[i].Ask? || calls[i].Failure?
    ensures Run(c, b, calls).told == b.told <==> b.failureCount + Failures(calls) < c.failureThreshold
    ensures b.told <= Run(c, b, calls).told
    decreases |calls|
  {
    if calls != [] {
      var b' := Do(c, b, calls[0]);
      if b'.state == Closed {
        TripsAtTheThreshold(c, b', calls[1..]);
      } else {
        ToldOnlyGrows(c, b', calls[1..]);
      }
    }
  }

  lemma {:induction false} ToldOnlyGrows(c: Settings, b: Breaker, calls: seq<Call>)
    ensures b.told <= Run(c, b, calls).told
    decreases |calls|
  {
    if calls != [] { ToldOnlyGrows(c, Do(c, b, calls[0]), calls[1..]); }
  }

  /** From half-open, without a failure, the breaker closes exactly when enough successes have been recorded. */
  lemma {:induction false} ClosesAfterEnoughSuccesses(c: Settings, b: Breaker, calls: seq<Call>)
    requires Usable(c) && Valid(c, b) && b.state != Open
    requires forall i :: 0 <= i < |calls| ==> calls[i].Ask? || calls[i].Success?
    ensures var end := Run(c, b, calls);
            end.state == Closed <==>
            b.state == Closed || b.halfOpenSuccessCount + Successes(calls) >= c.halfOpenSuccessThreshold
    decreases |calls|
  {
    if calls != [] { ClosesAfterEnoughSuccesses(c, Do(c, b, calls[0]), calls[1..]); }
  }

  // ---- The object ----

  class CircuitBreaker {
    const settings: Settings
    var state: State
    var failureCount: int
    var openUntil: int
    var halfOpenSuccessCount: int
    /** The calls made to the listener, oldest first. */
    var told: seq<Transition>

    ghost function Contents(): Breaker
      reads this
    {
      Breaker(state, failureCount, openUntil, halfOpenSuccessCount, told)
    }

    constructor (failureThreshold: real, openMs: real, halfOpenSuccessThreshold: real)
      ensures settings == Configure(failureThreshold, openMs, halfOpenSuccessThreshold) && Usable(settings)
      ensures Contents() == Initial
    {
      settings := Configure(failureThreshold, openMs, halfOpenSuccessThreshold);
      state, failureCount, openUntil, halfOpenSuccessCount, told := Closed, 0, 0, 0, [];
    }

    method CanRequest(now: int) returns (admitted: bool)
      modifies this
      ensures Contents() == Do(settings, old(Contents()), Ask(now))
      ensures admitted <==> Admits(old(Contents()), now)
    {
      var s := EvaluateState(now);
      admitted := s != Open;
    }

    method RecordSuccess(now: int)
      modifies this
      ensures Contents() == Do(settings, old(Contents()), Success(now))
    {
      var s := EvaluateState(now);
      if s == HalfOpen {
        halfOpenSuccessCount := halfOpenSuccessCount + 1;
        if halfOpenSuccessCount >= settings.halfOpenSuccessThreshold { Reset(now); }
        return;
      }
      failureCount := 0;
      halfOpenSuccessCount := 0;
    }

    method RecordFailure(now: int)
      modifies this
      ensures Contents() == Do(settings, old(Contents()), Failure(now))
    {
      var s := EvaluateState(now);
      if s == HalfOpen {
        Trip(now, HalfOpenFailure);
        return;
      }
      failureCount := failureCount + 1;
      if failureCount >= settings.failureThreshold { Trip(now, FailureThreshold); }
    }

    method Reset(now: int)
      modifies this
      ensures Contents() == Do(settings, old(Contents()), ResetNow(now))
    {
      var prev := state;
      state, failureCount, halfOpenSuccessCount, openUntil := Closed, 0, 0, 0;
      if prev != Closed {
        told := told + [Transition(prev, Closed, now, if prev == HalfOpen then HalfOpenSuccess else WasReset)];
      }
    }

    method Trip(now: int, reason: Reason)
      modifies this
      ensures Contents() == Tripped(settings, old(Contents()), now, reason)
    {
      var prev := state;
      state, openUntil, failureCount, halfOpenSuccessCount := Open, now + settings.openMs, settings.failureThreshold, 0;
      if prev != Open { told := told + [Transition(prev, Open, now, reason)]; }
    }

    method EvaluateState(now: int) returns (s: State)
      modifies this
      ensures Contents() == Evaluate(old(Contents()), now) && s == state
    {
      if state != Open { return state; }
      if now < openUntil { return Open; }
      var prev := state;
      state := HalfOpen;
      halfOpenSuccessCount := 0;
      told := told + [Transition(prev, HalfOpen, now, AutoHalfOpen)];
      s := HalfOpen;
    }
  }
}
