/**
 * The work queue of a batch update. Every stretch of the job between two awaits is one event: a turn of the main loop,
 * a signal of a running row to the breaker and the limiter, the settling of one row, its removal from the in-flight set,
 * the wake-up after the race. A run is any list of events; what is not possible in a state leaves it as it is.
 */
module BatchScheduler {
  import opened Common
  import AC = AdaptiveConcurrency
  import CB = CircuitBreaker
  import RP = RetryProtocol

  datatype Entry = Entry(recordId: string, row: RP.Row) {
    predicate Editable() { row.fields != map[] }
  }

  datatype Mode = Standard | HighScale

  /** A batch update: its settings, its rows, and what the update of each row by itself would do. */
  datatype Batch = Batch(mode: Mode, concurrency: int, rows: seq<Entry>, runs: seq<RP.Done>)

  function ClampConcurrency(value: int): (r: int)
    ensures 1 <= r <= 10
  {
    if value <= 0 then 4 else Min(value, 10)
  }

  function MaxConcurrency(b: Batch): (r: int)
    ensures 1 <= r <= 10
  {
    if b.mode == HighScale then Max(2, ClampConcurrency(b.concurrency)) else ClampConcurrency(b.concurrency)
  }

  function LimiterSettings(b: Batch): AC.Settings {
    AC.Configure(1, MaxConcurrency(b), if b.mode == HighScale then 1400 else 900, 6)
  }

  function BreakerSettings(b: Batch): CB.Settings {
    if b.mode == HighScale then CB.Configure(6.0, 6000.0, 0.0) else CB.Configure(4.0, 4000.0, 0.0)
  }

  lemma SettingsAre(b: Batch)
    ensures LimiterSettings(b) == AC.Settings(1, MaxConcurrency(b), if b.mode == HighScale then 1400 else 900, 6)
    ensures BreakerSettings(b) == if b.mode == HighScale then CB.Settings(6, 6000, 2) else CB.Settings(4, 4000, 2)
    ensures CB.Usable(BreakerSettings(b))
  {}

  /** What one row's update does, for some server, some replies and some comparison of values. */
  ghost predicate RealRun(row: RP.Row, d: RP.Done) {
    exists same: RP.Same, s: RP.Server, script: RP.Script :: d == RP.UpdateOne(same, row, s, script)
  }

  ghost predicate Real(b: Batch) {
    && |b.runs| == |b.rows|
    && (forall i :: 0 <= i < |b.rows| ==> RealRun(b.rows[i].row, b.runs[i]))
    && (forall i :: 0 <= i < |b.rows| && b.rows[i].row.hasNul ==> b.rows[i].Editable())
  }

  /** A later row for a record that an earlier row with editable values already names. */
  predicate Duplicate(rows: seq<Entry>, i: nat) {
    i < |rows| && rows[i].Editable() && exists j :: 0 <= j < i && rows[j].Editable() && rows[j].recordId == rows[i].recordId
  }

  /** Rows that are really sent: not blank, no duplicate, no character FileMaker would cut the text at. */
  predicate Sends(rows: seq<Entry>, i: nat) {
    i < |rows| && rows[i].Editable() && !Duplicate(rows, i) && !rows[i].row.hasNul
  }

  lemma {:induction false} EveryEditedRecordHasAFirstRow(rows: seq<Entry>, i: nat)
    requires i < |rows| && rows[i].Editable()
    ensures exists j :: 0 <= j <= i && rows[j].Editable() && !Duplicate(rows, j) && rows[j].recordId == rows[i].recordId
    decreases i
  {
    if Duplicate(rows, i) {
      var j :| 0 <= j < i && rows[j].Editable() && rows[j].recordId == rows[i].recordId;
      EveryEditedRecordHasAFirstRow(rows, j);
    }
  }

  method FindDuplicates(rows: seq<Entry>) returns (duplicates: set<nat>)
    ensures forall i :: i in duplicates <==> Duplicate(rows, i)
  {
    var seenIds: set<string> := {};
    duplicates := {};
    for i := 0 to |rows|
      invariant forall id :: id in seenIds <==> exists j :: 0 <= j < i && rows[j].Editable() && rows[j].recordId == id
      invariant forall j: nat :: j in duplicates <==> j < i && Duplicate(rows, j)
    {
      if rows[i].Editable() {
        if rows[i].recordId in seenIds { duplicates := duplicates + {i}; }
        seenIds := seenIds + {rows[i].recordId};
      }
    }
  }

  // ---- The job ----

  datatype Phase = AtTop | Waiting(woken: bool) | Draining | Finished

  /**
   * `running` and `settled` together are the in-flight set; `settled` rows have been counted already. `heard` counts the
   * signals each row has given, and `requested` lists the rows that were sent, oldest first.
   */
  datatype Job = Job(
    phase: Phase, queue: seq<nat>, running: set<nat>, settled: set<nat>,
    updated: seq<nat>, failed: seq<nat>, blank: seq<nat>, completed: nat, stopped: bool,
    breaker: CB.Breaker, limiter: AC.Limiter, heard: map<nat, nat>, requested: seq<nat>)

  datatype Event =
    | Turn(cancelled: bool, now: int, later: int)
    | Tell(row: nat, latencyMs: real, now: int)
    | Settle(row: nat)
    | Remove(row: nat)
    | Wake
    | Finish

  function Range(from: nat, end: nat): (r: seq<nat>)
    requires from <= end
    ensures |r| == end - from && forall i :: 0 <= i < |r| ==> r[i] == from + i
  {
    seq(end - from, i requires 0 <= i => from + i)
  }

  function Begin(b: Batch): Job {
    Job(AtTop, Range(0, |b.rows|), {}, {}, [], [], [], 0, false,
        CB.Initial, AC.Start(LimiterSettings(b), ClampConcurrency(b.concurrency)), map[], [])
  }

  function InFlight(s: Job): set<nat> { s.running + s.settled }

  function Heard(s: Job, row: nat): nat { if row in s.heard then s.heard[row] else 0 }

  /** The first row of the queue starts. */
  function StartNext(rows: seq<Entry>, s: Job): Job
    requires s.queue != []
  {
    s.(queue := s.queue[1..], running := s.running + {s.queue[0]},
       requested := if Sends(rows, s.queue[0]) then s.requested + [s.queue[0]] else s.requested)
  }

  /** Starts rows from the front of the queue while there is room. */
  function Schedule(rows: seq<Entry>, s: Job): Job
    decreases |s.queue|
  {
    if s.queue == [] || |InFlight(s)| >= s.limiter.current then s else Schedule(rows, StartNext(rows, s))
  }

  /** scheduleNext: the breaker is asked only when a row could start; once it lets requests through it does so all along. */
  function ScheduleNext(rows: seq<Entry>, s: Job, now: int): Job {
    if s.queue == [] || |InFlight(s)| >= s.limiter.current then s
    else
      var asked := s.(breaker := CB.Evaluate(s.breaker, now));
      if asked.breaker.state == CB.Open then asked else Schedule(rows, asked)
  }

  function TakeTurn(rows: seq<Entry>, s: Job, cancelled: bool, now: int, later: int): Job {
    if (s.queue == [] && InFlight(s) == {}) || cancelled || s.stopped then s.(phase := Draining)
    else
      var n := ScheduleNext(rows, s, now);
      if InFlight(n) != {} then n.(phase := Waiting(false))
      else
        var asked := n.(breaker := CB.Evaluate(n.breaker, later));
        if asked.breaker.state == CB.Open then asked else asked.(phase := Draining)
  }

  /** The next signal of a row's update reaches the limiter and the breaker. */
  function Told(b: Batch, s: Job, row: nat, signal: RP.Signal, latencyMs: real, now: int): Job {
    var heard := s.heard[row := Heard(s, row) + 1];
    match signal
    case Good => s.(heard := heard, limiter := AC.AfterSuccess(LimiterSettings(b), s.limiter, latencyMs),
                    breaker := CB.AfterSuccess(BreakerSettings(b), s.breaker, now))
    case Bad(status) => s.(heard := heard, limiter := AC.AfterFailure(LimiterSettings(b), s.limiter, status),
                           breaker := CB.AfterFailure(BreakerSettings(b), s.breaker, now))
  }

  predicate CredentialRejection(code: string) {
    code == "210" || code == "211" || code == "212" || code == "213" || code == "214" || code == "1703"
  }

  /** The account cannot do this at all: the rest of the file would fail the same way. */
  predicate StopsTheJob(r: RP.Result) {
    r.ThrewError? && r.error.FileMaker?
    && (r.error.credentials
        || (r.error.code.Some? && (r.error.code.value == "9" || r.error.code.value == "205" || r.error.code.value == "207"
                                   || CredentialRejection(r.error.code.value))))
  }

  function Settled(b: Batch, s: Job, row: nat): Job
    requires row < |b.rows| == |b.runs|
  {
    var counted := s.(running := s.running - {row}, settled := s.settled + {row}, completed := s.completed + 1);
    if Duplicate(b.rows, row) then counted.(failed := s.failed + [row])
    else if !b.rows[row].Editable() then counted.(blank := s.blank + [row])
    else if b.runs[row].result.Returned? then counted.(updated := s.updated + [row])
    else counted.(failed := s.failed + [row], stopped := s.stopped || StopsTheJob(b.runs[row].result))
  }

  /** A row can tell its next signal while it runs, and settles when it has told them all. */
  predicate CanTell(b: Batch, s: Job, row: nat) {
    row in s.running && row < |b.rows| == |b.runs| && Sends(b.rows, row) && Heard(s, row) < |b.runs[row].signals|
  }

  predicate CanSettle(b: Batch, s: Job, row: nat) {
    row in s.running && row < |b.rows| == |b.runs| && (Sends(b.rows, row) ==> Heard(s, row) >= |b.runs[row].signals|)
  }

  function Step(b: Batch, s: Job, e: Event): Job {
    match e
    case Turn(cancelled, now, later) => if s.phase == AtTop then TakeTurn(b.rows, s, cancelled, now, later) else s
    case Tell(row, latencyMs, now) =>
      if CanTell(b, s, row) then Told(b, s, row, b.runs[row].signals[Heard(s, row)], latencyMs, now) else s
    case Settle(row) => if CanSettle(b, s, row) then Settled(b, s, row) else s
    case Remove(row) =>
      if row !in s.settled then s
      else s.(settled := s.settled - {row}, phase := if s.phase.Waiting? then Waiting(true) else s.phase)
    case Wake => if s.phase == Waiting(true) then s.(phase := AtTop) else s
    case Finish => if s.phase == Draining && InFlight(s) == {} then s.(phase := Finished) else s
  }

  function Run(b: Batch, s: Job, events: seq<Event>): Job
    decreases |events|
  {
    if events == [] then s else Run(b, Step(b, s, events[0]), events[1..])
  }

  /** The clock never goes back. */
  ghost predicate Clocked(events: seq<Event>, from: int)
    decreases |events|
  {
    events == [] || (
      match events[0]
      case Turn(_, now, later) => from <= now <= later && Clocked(events[1..], later)
      case Tell(_, _, now) => from <= now && Clocked(events[1..], now)
      case _ => Clocked(events[1..], from))
  }

  ghost predicate Uncancelled(events: seq<Event>) { forall i :: 0 <= i < |events| && events[i].Turn? ==> !events[i].cancelled }

  lemma {:induction false} RunJoins(b: Batch, s: Job, before: seq<Event>, after: seq<Event>)
    ensures Run(b, s, before + after) == Run(b, Run(b, s, before), after)
    decreases |before|
  {
    if before == [] {
      assert before + after == after;
    } else {
      assert (before + after)[1..] == before[1..] + after;
      RunJoins(b, Step(b, s, before[0]), before[1..], after);
    }
  }

  // ---- Conservation ----

  /** The number of places a row is in: queue, running, or one of the three outcomes. */
  ghost function Places(s: Job): multiset<nat> {
    multiset(s.queue) + multiset(s.running) + multiset(s.updated) + multiset(s.failed) + multiset(s.blank)
  }

  /**
   * Every row is in exactly one place; the rows started are a prefix of the file; what has been counted is what has an
   * outcome; every row is filed by its own outcome; breaker and limiter are in states they can be in.
   */
  ghost predicate Valid(b: Batch, s: Job) {
    && |s.queue| <= |b.rows| && s.queue == Range(|b.rows| - |s.queue|, |b.rows|)
    && Places(s) == multiset(Range(0, |b.rows|))
    && s.completed == |s.updated| + |s.failed| + |s.blank|
    && FiledRightly(b, s)
    && |InFlight(s)| <= MaxConcurrency(b)
    && Controlled(b, s)
    && RequestedRightly(b, s)
  }

  ghost predicate FiledRightly(b: Batch, s: Job) {
    && |b.runs| == |b.rows|
    && (forall i :: i in s.settled ==> i in s.updated || i in s.failed || i in s.blank)
    && (forall i :: i in s.updated ==> i < |b.rows| && Sends(b.rows, i) && b.runs[i].result.Returned?)
    && (forall i :: i in s.failed ==> i < |b.rows| && b.rows[i].Editable()
                                      && (Duplicate(b.rows, i) || !b.runs[i].result.Returned?))
    && (forall i :: i in s.blank ==> i < |b.rows| && !b.rows[i].Editable())
  }

  ghost predicate Controlled(b: Batch, s: Job) {
    AC.Valid(LimiterSettings(b), s.limiter) && CB.Valid(BreakerSettings(b), s.breaker)
  }

  /** The rows requested are those of the started rows that are sent, each once and in the order of the file. */
  ghost predicate RequestedRightly(b: Batch, s: Job) {
    && |s.queue| <= |b.rows|
    && (forall k :: 0 <= k < |s.requested| ==> s.requested[k] < |b.rows| - |s.queue| && Sends(b.rows, s.requested[k]))
    && (forall j, k :: 0 <= j < k < |s.requested| ==> s.requested[j] < s.requested[k])
    && (forall i: nat :: i < |b.rows| - |s.queue| && Sends(b.rows, i) ==> i in s.requested)
    && (forall i :: i in s.heard ==> i in s.requested)
  }

  lemma {:induction false} RangeOnce(from: int, end: int, x: nat)
    requires 0 <= from <= end
    ensures multiset(Range(from, end))[x] == (if from <= x < end then 1 else 0)
    decreases end - from
  {
    if from < end {
      assert Range(from, end) == [from] + Range(from + 1, end);
      RangeOnce(from + 1, end, x);
    } else {
      assert Range(from, end) == [];
    }
  }

  lemma {:induction false} StartMoves(rows: seq<Entry>, s: Job)
    requires s.queue != [] && Places(s)[s.queue[0]] == 1
    ensures Places(StartNext(rows, s)) == Places(s)
  {
    var x := s.queue[0];
    assert s.queue == [x] + s.queue[1..];
    assert multiset(s.queue)[x] >= 1;
    assert x !in s.running;
    assert multiset(s.running + {x}) == multiset(s.running) + multiset{x};
  }

  lemma StartFiles(b: Batch, s: Job)
    requires s.queue != [] && FiledRightly(b, s)
    ensures FiledRightly(b, StartNext(b.rows, s))
  {
    hide Sends, Duplicate;
  }

  lemma {:induction false} StartRequests(b: Batch, s: Job)
    requires s.queue != [] && RequestedRightly(b, s) && s.queue[0] == |b.rows| - |s.queue|
    ensures RequestedRightly(b, StartNext(b.rows, s))
  {
    hide Sends;
    var x := s.queue[0];
    var n := StartNext(b.rows, s);
    assert forall i :: i in s.requested ==> i in n.requested;
    if Sends(b.rows, x) { assert n.requested[|s.requested|] == x; }
    forall i: nat | i < |b.rows| - |n.queue| && Sends(b.rows, i) ensures i in n.requested {
      if i != x { assert i in s.requested; }
    }
  }

  lemma {:induction false} StartKeeps(b: Batch, s: Job)
    requires Valid(b, s) && s.queue != [] && |InFlight(s)| < s.limiter.current
    ensures Valid(b, StartNext(b.rows, s))
  {
    hide Places, FiledRightly, Sends, RequestedRightly;
    var x := s.queue[0];
    var n := StartNext(b.rows, s);
    RangeOnce(0, |b.rows|, x);
    StartMoves(b.rows, s);
    StartFiles(b, s);
    StartRequests(b, s);
    LimitIsBounded(b, s);
    assert InFlight(n) == InFlight(s) + {x};
    assert n.queue == Range(|b.rows| - |n.queue|, |b.rows|);
  }

  lemma LimitIsBounded(b: Batch, s: Job)
    requires Controlled(b, s)
    ensures 1 <= s.limiter.current <= MaxConcurrency(b)
  {
    SettingsAre(b);
  }

  lemma {:induction false} ScheduleKeeps(b: Batch, s: Job)
    requires Valid(b, s)
    ensures var n := Schedule(b.rows, s);
            && Valid(b, n)
            && n == s.(queue := n.queue, running := n.running, requested := n.requested)
            && |n.queue| <= |s.queue| && InFlight(s) <= InFlight(n) && s.requested <= n.requested
            && (s.queue != [] && |InFlight(s)| < s.limiter.current ==> InFlight(n) != {})
            && (|InFlight(s)| <= s.limiter.current ==> |InFlight(n)| <= s.limiter.current)
            && (n.queue != s.queue ==> |InFlight(s)| < s.limiter.current)
    decreases |s.queue|
  {
    hide Valid;
    if s.queue != [] && |InFlight(s)| < s.limiter.current {
      var n := StartNext(b.rows, s);
      StartKeeps(b, s);
      assert s.queue[0] in InFlight(n);
      assert InFlight(n) == InFlight(s) + {s.queue[0]};
      ScheduleKeeps(b, n);
    }
  }

  lemma BreakerIsFree(b: Batch, s: Job, breaker: CB.Breaker)
    requires Valid(b, s) && CB.Valid(BreakerSettings(b), breaker)
    ensures Valid(b, s.(breaker := breaker))
  {
    assert Places(s.(breaker := breaker)) == Places(s) && InFlight(s.(breaker := breaker)) == InFlight(s);
  }

  lemma PhaseIsFree(b: Batch, s: Job, phase: Phase)
    requires Valid(b, s)
    ensures Valid(b, s.(phase := phase))
  {
    assert Places(s.(phase := phase)) == Places(s) && InFlight(s.(phase := phase)) == InFlight(s);
  }

  lemma AskingKeeps(b: Batch, s: Job, now: int)
    requires Valid(b, s)
    ensures Valid(b, s.(breaker := CB.Evaluate(s.breaker, now)))
  {
    hide CB.Valid, CB.Evaluate;
    SettingsAre(b);
    CB.EvaluateKeeps(BreakerSettings(b), s.breaker, now);
    BreakerIsFree(b, s, CB.Evaluate(s.breaker, now));
  }

  lemma {:induction false} TurnKeeps(b: Batch, s: Job, cancelled: bool, now: int, later: int)
    requires Valid(b, s)
    ensures Valid(b, TakeTurn(b.rows, s, cancelled, now, later))
  {
    hide Valid, Schedule, CB.Evaluate;
    var asked := s.(breaker := CB.Evaluate(s.breaker, now));
    AskingKeeps(b, s, now);
    ScheduleKeeps(b, asked);
    var n := ScheduleNext(b.rows, s, now);
    assert Valid(b, n);
    AskingKeeps(b, n, later);
    PhaseIsFree(b, s, Draining);
    PhaseIsFree(b, n, Waiting(false));
    PhaseIsFree(b, n.(breaker := CB.Evaluate(n.breaker, later)), Draining);
  }

  lemma {:induction false} TellKeeps(b: Batch, s: Job, row: nat, signal: RP.Signal, latencyMs: real, now: int)
    requires Valid(b, s) && row in s.requested
    ensures Valid(b, Told(b, s, row, signal, latencyMs, now))
  {
    hide FiledRightly, RequestedRightly, Controlled, Places, Told;
    SignalIsHandled(b, s, signal, latencyMs, now);
    var n := Told(b, s, row, signal, latencyMs, now);
    TellingMovesNothing(b, s, row, signal, latencyMs, now);
    FilesIgnoreControls(b, s, n);
  }

  lemma TellingMovesNothing(b: Batch, s: Job, row: nat, signal: RP.Signal, latencyMs: real, now: int)
    ensures var n := Told(b, s, row, signal, latencyMs, now);
            && n == s.(heard := s.heard[row := Heard(s, row) + 1], limiter := n.limiter, breaker := n.breaker)
            && Places(n) == Places(s) && InFlight(n) == InFlight(s)
            && (RequestedRightly(b, s) && row in s.requested ==> RequestedRightly(b, n))
  {
    hide AC.AfterSuccess, AC.AfterFailure, CB.AfterSuccess, CB.AfterFailure, Sends;
  }

  lemma SignalIsHandled(b: Batch, s: Job, signal: RP.Signal, latencyMs: real, now: int)
    requires Controlled(b, s)
    ensures forall row :: Controlled(b, Told(b, s, row, signal, latencyMs, now))
  {
    SettingsAre(b);
    match signal
    case Good =>
      CB.CallKeeps(BreakerSettings(b), s.breaker, CB.Success(now));
      AC.StepClimbsSlowly(LimiterSettings(b), s.limiter, AC.Succeeded(latencyMs));
    case Bad(status) =>
      CB.CallKeeps(BreakerSettings(b), s.breaker, CB.Failure(now));
      AC.StepClimbsSlowly(LimiterSettings(b), s.limiter, AC.Failed(status));
  }

  lemma FilesIgnoreControls(b: Batch, s: Job, n: Job)
    requires FiledRightly(b, s) && n.settled == s.settled && n.updated == s.updated && n.failed == s.failed && n.blank == s.blank
    ensures FiledRightly(b, n)
  {}

  lemma {:induction false} RunningWasRequested(b: Batch, s: Job, row: nat)
    requires Valid(b, s) && row in s.running && Sends(b.rows, row)
    ensures row in s.requested
  {
    hide Sends, FiledRightly, Controlled;
    RunningHasStarted(b, s, row);
  }

  /** A row that runs is not in the queue any more. */
  lemma {:induction false} RunningHasStarted(b: Batch, s: Job, row: nat)
    requires Valid(b, s) && row in s.running
    ensures row < |b.rows| - |s.queue|
  {
    hide FiledRightly, Controlled, RequestedRightly;
    RangeOnce(0, |b.rows|, row);
    assert multiset(s.running)[row] >= 1;
    assert Places(s)[row] <= 1;
    if row >= |b.rows| - |s.queue| { RangeOnce(|b.rows| - |s.queue|, |b.rows|, row); }
  }

  lemma {:induction false} SettleMoves(b: Batch, s: Job, row: nat)
    requires row in s.running && row < |b.rows| == |b.runs|
    ensures Places(Settled(b, s, row)) == Places(s)
  {
    hide Duplicate, Places, StopsTheJob;
    var n := Settled(b, s, row);
    if n.failed != s.failed {
      assert n.failed == s.failed + [row] && n.blank == s.blank && n.updated == s.updated;
    } else if n.blank != s.blank {
      assert n.blank == s.blank + [row] && n.updated == s.updated;
    } else {
      assert n.updated == s.updated + [row];
    }
    MovesToAnOutcome(s, n, row);
  }

  /** Leaving the running set for one of the three lists keeps the places. */
  lemma {:induction false} MovesToAnOutcome(s: Job, n: Job, row: nat)
    requires row in s.running && n.running == s.running - {row} && n.queue == s.queue
    requires || (n.updated == s.updated + [row] && n.failed == s.failed && n.blank == s.blank)
             || (n.updated == s.updated && n.failed == s.failed + [row] && n.blank == s.blank)
             || (n.updated == s.updated && n.failed == s.failed && n.blank == s.blank + [row])
    ensures Places(n) == Places(s)
  {
    assert multiset(s.running) == multiset(n.running) + multiset{row};
  }

  lemma {:induction false} SettleFiles(b: Batch, s: Job, row: nat)
    requires Real(b) && row in s.running && row < |b.rows| && FiledRightly(b, s)
    ensures FiledRightly(b, Settled(b, s, row))
  {
    assert Duplicate(b.rows, row) ==> b.rows[row].Editable();
    NulIsNeverReturned(b, row);
    assert b.rows[row].Editable() && !Duplicate(b.rows, row) && b.runs[row].result.Returned? ==> Sends(b.rows, row);
    hide Duplicate, Sends, StopsTheJob, Real;
    var n := Settled(b, s, row);
    assert row in n.updated || row in n.failed || row in n.blank by {
      assert row in s.updated + [row] && row in s.failed + [row] && row in s.blank + [row];
    }
  }

  lemma NulIsNeverReturned(b: Batch, row: nat)
    requires Real(b) && row < |b.rows|
    ensures b.rows[row].row.hasNul ==> !b.runs[row].result.Returned?
  {
    hide RP.Attempts;
    assert RealRun(b.rows[row].row, b.runs[row]);
  }

  lemma {:induction false} SettleKeeps(b: Batch, s: Job, row: nat)
    requires Real(b) && Valid(b, s) && row in s.running && row < |b.rows|
    ensures Valid(b, Settled(b, s, row))
  {
    hide FiledRightly, Places, Controlled, Duplicate, StopsTheJob, Sends, Real;
    SameLength(b);
    var n := Settled(b, s, row);
    assert InFlight(n) == InFlight(s);
    SettleMoves(b, s, row);
    SettleFiles(b, s, row);
    SettleIsElsewhere(b, s, row);
  }

  lemma SameLength(b: Batch)
    requires Real(b)
    ensures |b.runs| == |b.rows|
  {}

  lemma SettleIsElsewhere(b: Batch, s: Job, row: nat)
    requires row < |b.rows| == |b.runs|
    ensures Controlled(b, s) ==> Controlled(b, Settled(b, s, row))
    ensures RequestedRightly(b, s) ==> RequestedRightly(b, Settled(b, s, row))
    ensures Settled(b, s, row).completed == s.completed + 1
  {
    hide CB.Valid, AC.Valid, Sends, Duplicate;
  }

  lemma {:induction false} RemoveKeeps(b: Batch, s: Job, row: nat)
    requires Valid(b, s)
    ensures Valid(b, Step(b, s, Remove(row)))
  {
    hide FiledRightly, Places, Controlled;
    var n := Step(b, s, Remove(row));
    Smaller(InFlight(n), InFlight(s));
    RemoveMovesNothing(b, s, row);
  }

  lemma RemoveMovesNothing(b: Batch, s: Job, row: nat)
    ensures var n := Step(b, s, Remove(row));
            && Places(n) == Places(s)
            && (FiledRightly(b, s) ==> FiledRightly(b, n)) && (Controlled(b, s) ==> Controlled(b, n))
  {
    hide CB.Valid, AC.Valid, Sends, Duplicate;
  }

  lemma Smaller(a: set<nat>, c: set<nat>)
    requires a <= c
    ensures |a| <= |c|
  {
    if a != c { assert c == a + (c - a); }
  }

  lemma {:induction false} StepKeeps(b: Batch, s: Job, e: Event)
    requires Real(b) && Valid(b, s)
    ensures Valid(b, Step(b, s, e))
  {
    hide Valid, Real, TakeTurn, Told, Settled, Sends;
    match e
    case Turn(cancelled, now, later) => TurnKeeps(b, s, cancelled, now, later);
    case Tell(row, latencyMs, now) =>
      if CanTell(b, s, row) {
        RunningWasRequested(b, s, row);
        TellKeeps(b, s, row, b.runs[row].signals[Heard(s, row)], latencyMs, now);
      }
    case Settle(row) => if CanSettle(b, s, row) { SettleKeeps(b, s, row); }
    case Remove(row) => RemoveKeeps(b, s, row);
    case Wake => PhaseIsFree(b, s, AtTop);
    case Finish => PhaseIsFree(b, s, Finished);
  }

  lemma {:induction false} RunKeeps(b: Batch, s: Job, events: seq<Event>)
    requires Real(b) && Valid(b, s)
    ensures Valid(b, Run(b, s, events))
    decreases |events|
  {
    hide Valid, Real, Step;
    if events != [] {
      StepKeeps(b, s, events[0]);
      RunKeeps(b, Step(b, s, events[0]), events[1..]);
    }
  }

  lemma BeginIsValid(b: Batch)
    requires Real(b)
    ensures Valid(b, Begin(b))
  {
    SettingsAre(b);
  }

  lemma {:induction false} FinishedIsIdle(b: Batch, s: Job, events: seq<Event>)
    requires s.phase == Finished ==> InFlight(s) == {}
    ensures var end := Run(b, s, events); end.phase == Finished ==> InFlight(end) == {}
    decreases |events|
  {
    hide Sends, Told, Settled, Schedule;
    if events != [] {
      FinishedStepIsIdle(b, s, events[0]);
      FinishedIsIdle(b, Step(b, s, events[0]), events[1..]);
    }
  }

  lemma FinishedStepIsIdle(b: Batch, s: Job, e: Event)
    requires s.phase == Finished ==> InFlight(s) == {}
    ensures var n := Step(b, s, e); n.phase == Finished ==> InFlight(n) == {}
  {
    hide Sends, StopsTheJob, Duplicate, CB.AfterFailure, CB.AfterSuccess, AC.AfterFailure, AC.AfterSuccess;
    hide TakeTurn;
    if e.Turn? { TurnLeavesControls(b.rows, s, e); }
  }

  /**
   * Conservation at every moment of every run: what has been counted, what is running and what is queued add up to the
   * file, every row is in exactly one place, and never more than ten rows are in flight.
   */
  lemma {:induction false} NothingIsLost(b: Batch, events: seq<Event>)
    requires Real(b)
    ensures var s := Run(b, Begin(b), events);
            && s.completed + |s.running| + |s.queue| == |b.rows|
            && |InFlight(s)| <= 10
            && (forall i :: 0 <= i < |b.rows| ==> Places(s)[i] == 1)
  {
    hide Run, Real, FiledRightly, Controlled, RequestedRightly;
    BeginIsValid(b);
    RunKeeps(b, Begin(b), events);
    var s := Run(b, Begin(b), events);
    assert |Places(s)| == |multiset(Range(0, |b.rows|))|;
    forall i | 0 <= i < |b.rows| ensures Places(s)[i] == 1 { RangeOnce(0, |b.rows|, i); }
  }

  // ---- The result ----

  datatype Result = Result(
    attempted: nat, successCount: nat, failureCount: nat, skippedReadOnlyRows: int,
    notAttemptedIds: seq<string>, notAttempted: int)

  function RecordIds(rows: seq<Entry>, list: seq<nat>): (ids: seq<string>)
    requires forall k :: 0 <= k < |list| ==> list[k] < |rows|
    ensures |ids| == |list| && forall k :: 0 <= k < |list| ==> ids[k] == rows[list[k]].recordId
  {
    if list == [] then [] else [rows[list[0]].recordId] + RecordIds(rows, list[1..])
  }

  function ResultOf(rows: seq<Entry>, s: Job): Result
    requires forall k :: 0 <= k < |s.queue| ==> s.queue[k] < |rows|
  {
    Result(s.completed, |s.updated|, |s.failed|, |rows| - |s.updated| - |s.failed| - |s.queue|,
           RecordIds(rows, s.queue),
           if s.stopped then (if |rows| > s.completed then |rows| - s.completed else 0) else |s.queue|)
  }

  /** The reported counts are the true ones, and both ways of counting the rows not attempted agree. */
  lemma {:induction false} CountsAreTrue(b: Batch, events: seq<Event>)
    requires Real(b)
    requires Run(b, Begin(b), events).phase == Finished
    ensures var s := Run(b, Begin(b), events);
            && (forall k :: 0 <= k < |s.queue| ==> s.queue[k] < |b.rows|)
            && var r := ResultOf(b.rows, s);
            && r.skippedReadOnlyRows == |s.blank|
            && r.notAttempted == |s.queue| == |r.notAttemptedIds|
            && r.successCount + r.failureCount + r.skippedReadOnlyRows == r.attempted
            && r.attempted + r.notAttempted == |b.rows|
  {
    hide Run, Real, FiledRightly, Controlled, RequestedRightly, Places;
    NothingIsLost(b, events);
    FinishedIsIdle(b, Begin(b), events);
    BeginIsValid(b);
    RunKeeps(b, Begin(b), events);
  }

  // ---- When rows start ----

  /** Rows leave the queue only in a turn without cancellation or stop, with the breaker letting requests through. */
  lemma {:induction false} RowsStartOnlyWhenAllowed(b: Batch, s: Job, e: Event)
    requires Valid(b, s) && Step(b, s, e).queue != s.queue
    ensures e.Turn? && s.phase == AtTop && !e.cancelled && !s.stopped && CB.Admits(s.breaker, e.now)
            && |InFlight(Step(b, s, e))| <= s.limiter.current
  {
    hide Valid, Schedule, CB.Evaluate, Sends, StopsTheJob, Duplicate, CB.AfterFailure, CB.AfterSuccess, AC.AfterFailure, AC.AfterSuccess;
    if e.Turn? {
      AskingKeeps(b, s, e.now);
      ScheduleKeeps(b, s.(breaker := CB.Evaluate(s.breaker, e.now)));
    }
  }

  lemma {:induction false} NothingStartsAfterStop(b: Batch, s: Job, events: seq<Event>)
    requires s.stopped
    ensures Run(b, s, events).stopped && Run(b, s, events).queue == s.queue
    decreases |events|
  {
    hide Sends, StopsTheJob, Duplicate, Schedule, CB.AfterFailure, CB.AfterSuccess, AC.AfterFailure, AC.AfterSuccess;
    if events != [] { NothingStartsAfterStop(b, Step(b, s, events[0]), events[1..]); }
  }

  predicate Left(s: Job) { s.phase == Draining || s.phase == Finished }

  lemma {:induction false} NothingStartsOnceTheLoopIsLeft(b: Batch, s: Job, events: seq<Event>)
    requires Left(s)
    ensures var end := Run(b, s, events); end.queue == s.queue && Left(end)
    decreases |events|
  {
    hide Sends, StopsTheJob, Duplicate, TakeTurn, CB.AfterFailure, CB.AfterSuccess, AC.AfterFailure, AC.AfterSuccess;
    if events != [] { NothingStartsOnceTheLoopIsLeft(b, Step(b, s, events[0]), events[1..]); }
  }

  /** The events all happen before `until`. */
  ghost predicate EndsBefore(events: seq<Event>, until: int) {
    forall i :: 0 <= i < |events| ==>
      (events[i].Turn? ==> events[i].now < until && events[i].later < until) && (events[i].Tell? ==> events[i].now < until)
  }

  /** While the breaker is open no step starts a row or closes the breaker; late failures only push its time out. */
  lemma {:induction false} OpenStays(b: Batch, s: Job, e: Event, from: int, until: int)
    requires Valid(b, s) && s.breaker.state == CB.Open && until <= s.breaker.openUntil && until - BreakerSettings(b).openMs <= from
    requires Clocked([e], from) && EndsBefore([e], until)
    ensures var n := Step(b, s, e); n.queue == s.queue && n.breaker.state == CB.Open && until <= n.breaker.openUntil
  {
    assert e == [e][0];
    hide Valid, Sends, StopsTheJob, Duplicate, TakeTurn, AC.AfterFailure, AC.AfterSuccess, CB.AfterFailure, CB.AfterSuccess, BreakerSettings;
    match e
    case Turn(cancelled, now, later) => TurnWhileOpen(b.rows, s, cancelled, now, later);
    case Tell(row, latencyMs, now) => StillOpen(b, s, now);
    case _ =>
  }

  lemma TurnWhileOpen(rows: seq<Entry>, s: Job, cancelled: bool, now: int, later: int)
    requires s.breaker.state == CB.Open && now < s.breaker.openUntil && later < s.breaker.openUntil
    ensures var n := TakeTurn(rows, s, cancelled, now, later); n.queue == s.queue && n.breaker == s.breaker
  {
    hide Schedule, InFlight;
  }

  lemma StillOpen(b: Batch, s: Job, now: int)
    requires s.breaker.state == CB.Open && now < s.breaker.openUntil
    ensures CB.AfterSuccess(BreakerSettings(b), s.breaker, now).state == CB.Open
    ensures CB.AfterSuccess(BreakerSettings(b), s.breaker, now).openUntil == s.breaker.openUntil
    ensures CB.AfterFailure(BreakerSettings(b), s.breaker, now).state == CB.Open
    ensures var n := CB.AfterFailure(BreakerSettings(b), s.breaker, now).openUntil;
            n == s.breaker.openUntil || n == now + BreakerSettings(b).openMs
  {}

  lemma {:induction false} NothingStartsWhileOpen(b: Batch, s: Job, events: seq<Event>, from: int, until: int)
    requires Real(b) && Valid(b, s) && s.breaker.state == CB.Open && until <= s.breaker.openUntil
    requires until - BreakerSettings(b).openMs <= from && Clocked(events, from) && EndsBefore(events, until)
    ensures var end := Run(b, s, events); end.queue == s.queue && end.breaker.state == CB.Open
    decreases |events|
  {
    if events != [] {
      hide Valid, Real, Step, EndsBefore;
      var e := events[0];
      var later := FirstClocked(events, from);
      FirstEndsBefore(events, until);
      OpenStays(b, s, e, from, until);
      StepKeeps(b, s, e);
      NothingStartsWhileOpen(b, Step(b, s, e), events[1..], later, until);
    }
  }

  lemma FirstClocked(events: seq<Event>, from: int) returns (later: int)
    requires events != [] && Clocked(events, from)
    ensures Clocked([events[0]], from) && from <= later && Clocked(events[1..], later)
  {
    var e := events[0];
    assert [e][1..] == [];
    later := if e.Turn? then e.later else if e.Tell? then e.now else from;
  }

  lemma FirstEndsBefore(events: seq<Event>, until: int)
    requires events != [] && EndsBefore(events, until)
    ensures EndsBefore([events[0]], until) && EndsBefore(events[1..], until)
  {}

  /**
   * In every run: when a signal trips the breaker at time `t`, no row leaves the queue in any turn before `t` plus the
   * breaker's open time, whatever the rows in flight still report.
   */
  lemma {:induction false} TripHoldsRowsBack(b: Batch, before: seq<Event>, e: Event, after: seq<Event>)
    requires Real(b) && e.Tell?
    requires var s := Run(b, Begin(b), before); s.breaker.state != CB.Open && Step(b, s, e).breaker.state == CB.Open
    requires Clocked(after, e.now) && EndsBefore(after, e.now + BreakerSettings(b).openMs)
    ensures var s := Step(b, Run(b, Begin(b), before), e); Run(b, s, after).queue == s.queue
  {
    hide Run, Real, Valid, Begin;
    var s := Run(b, Begin(b), before);
    BeginIsValid(b);
    RunKeeps(b, Begin(b), before);
    StepKeeps(b, s, e);
    TripSetsTheTime(b, s, e);
    NothingStartsWhileOpen(b, Step(b, s, e), after, e.now, e.now + BreakerSettings(b).openMs);
  }

  lemma TripSetsTheTime(b: Batch, s: Job, e: Event)
    requires e.Tell? && s.breaker.state != CB.Open && Step(b, s, e).breaker.state == CB.Open
    ensures Step(b, s, e).breaker.openUntil == e.now + BreakerSettings(b).openMs
  {
    hide Sends, AC.AfterFailure, AC.AfterSuccess;
  }

  // ---- Which rows are sent ----

  /** In every run the rows sent are in the order of the file, each once, for records that all differ. */
  lemma {:induction false} RequestsAreDistinct(b: Batch, events: seq<Event>, j: nat, k: nat)
    requires Real(b)
    ensures var s := Run(b, Begin(b), events);
            && (j < k < |s.requested| ==>
                  && s.requested[j] < s.requested[k] < |b.rows|
                  && b.rows[s.requested[j]].recordId != b.rows[s.requested[k]].recordId)
            && (s.queue == [] ==> forall i: nat :: Sends(b.rows, i) ==> i in s.requested)
            && (forall i :: i in s.updated || i in s.heard ==> i in s.requested)
  {
    hide Run, Real, Controlled, Places;
    BeginIsValid(b);
    RunKeeps(b, Begin(b), events);
    var s := Run(b, Begin(b), events);
    forall i | i in s.updated ensures i in s.requested { UpdatedWasRequested(b, s, i); }
    if j < k < |s.requested| { SentRecordsDiffer(b.rows, s.requested[j], s.requested[k]); }
  }

  lemma SentRecordsDiffer(rows: seq<Entry>, i: nat, j: nat)
    requires i < j && Sends(rows, i) && Sends(rows, j)
    ensures rows[i].recordId != rows[j].recordId
  {}

  lemma {:induction false} UpdatedWasRequested(b: Batch, s: Job, row: nat)
    requires Valid(b, s) && row in s.updated
    ensures row in s.requested
  {
    hide Sends, Controlled;
    RangeOnce(0, |b.rows|, row);
    assert multiset(s.updated)[row] >= 1;
    assert Places(s)[row] <= 1;
    if row >= |b.rows| - |s.queue| { RangeOnce(|b.rows| - |s.queue|, |b.rows|, row); }
  }

  /** A row reported as updated held all its values when its update last saw the record. */
  lemma {:induction false} UpdatedRowsHoldTheirValues(
    b: Batch, events: seq<Event>, i: nat, same: RP.Same, server: RP.Server, script: RP.Script)
    requires Real(b) && RP.Reflexive(same) && RP.Honest(script)
    requires i < |b.rows| && b.runs[i] == RP.UpdateOne(same, b.rows[i].row, server, script)
    requires i in Run(b, Begin(b), events).updated
    ensures RP.Holds(same, b.runs[i].server.fields, b.rows[i].row.fields)
    ensures b.runs[i].server.byJob > server.byJob || b.runs[i].readBack == Some(b.runs[i].server.fields)
  {
    hide Run, Controlled, Places, RequestedRightly, RP.UpdateOne, RP.Holds;
    BeginIsValid(b);
    RunKeeps(b, Begin(b), events);
    RP.ReportsAreTrue(same, b.rows[i].row, server, script);
  }

  // ---- Whether the job does the whole file ----

  /** The breaker, asked at `now` and found open, lets requests through when it is asked again at `later`. */
  predicate Crosses(s: Job, e: Event) {
    e.Turn? && !CB.Admits(s.breaker, e.now) && CB.Admits(CB.Evaluate(s.breaker, e.now), e.later)
  }

  /**
   * The loop is left with rows in the queue for a cancellation, a stop, or exactly one other reason: with nothing in
   * flight, the breaker was open when the pass asked and had reached its time when asked again.
   */
  lemma {:induction false} LoopLeavesRowsBehind(b: Batch, s: Job, e: Event)
    requires Valid(b, s) && s.phase == AtTop && s.queue != []
    ensures Step(b, s, e).phase == Draining && Step(b, s, e).queue != [] <==>
            e.Turn? && (e.cancelled || s.stopped || (InFlight(s) == {} && Crosses(s, e)))
  {
    hide Valid, Schedule, CB.Evaluate, Sends, StopsTheJob, Duplicate, CB.AfterFailure, CB.AfterSuccess, AC.AfterFailure, AC.AfterSuccess;
    if e.Turn? {
      AskingKeeps(b, s, e.now);
      ScheduleKeeps(b, s.(breaker := CB.Evaluate(s.breaker, e.now)));
      RoomForOne(b, s);
    }
  }

  lemma RoomForOne(b: Batch, s: Job)
    requires Valid(b, s)
    ensures s.limiter.current >= 1
  {
    LimitIsBounded(b, s);
  }

  /** Somewhere in the run a pass with rows queued and none in flight meets the crossing. */
  ghost predicate CrossesSomewhere(b: Batch, s: Job, events: seq<Event>)
    decreases |events|
  {
    events != [] && (
      || (s.phase == AtTop && s.queue != [] && InFlight(s) == {} && !s.stopped && Crosses(s, events[0]))
      || CrossesSomewhere(b, Step(b, s, events[0]), events[1..]))
  }

  lemma {:induction false} LeftOnlyByCrossing(b: Batch, s: Job, events: seq<Event>)
    requires Real(b) && Valid(b, s) && (Left(s) ==> s.queue == []) && Uncancelled(events)
    requires var end := Run(b, s, events); Left(end) && !end.stopped
    ensures Run(b, s, events).queue != [] <==> CrossesSomewhere(b, s, events)
    decreases |events|
  {
    hide Valid, Real, Step, Crosses;
    if events != [] {
      var e := events[0];
      var n := Step(b, s, e);
      if s.stopped { NothingStartsAfterStop(b, s, events); }
      StepKeeps(b, s, e);
      if s.phase == AtTop && s.queue != [] {
        LoopLeavesRowsBehind(b, s, e);
        FinishingNeedsDraining(b, s, e);
        CrossesIsATurn(s, e);
      } else {
        OtherStepsLeaveNothing(b, s, e);
      }
      if Left(n) && n.queue != [] {
        NothingStartsOnceTheLoopIsLeft(b, n, events[1..]);
      } else {
        LeftOnlyByCrossing(b, n, events[1..]);
      }
    }
  }

  lemma CrossesIsATurn(s: Job, e: Event)
    ensures Crosses(s, e) ==> e.Turn?
  {}

  /** A job that is over, neither cancelled nor stopped, has left rows in the queue exactly when its run had a crossing. */
  lemma {:induction false} UndisturbedJobAttemptsEveryRow(b: Batch, events: seq<Event>)
    requires Real(b) && Uncancelled(events)
    requires var end := Run(b, Begin(b), events); end.phase == Finished && !end.stopped
    ensures Run(b, Begin(b), events).queue != [] <==> CrossesSomewhere(b, Begin(b), events)
  {
    hide Run, Real, CrossesSomewhere;
    BeginIsValid(b);
    LeftOnlyByCrossing(b, Begin(b), events);
  }

  /** Rows can only have been left behind when the breaker has opened. */
  ghost predicate LeftOnlyWhenOpened(s: Job) { Left(s) && s.queue != [] ==> s.stopped || s.breaker.told != [] }

  lemma ToldOnlyGrows(b: Batch, s: Job, e: Event)
    ensures s.breaker.told <= Step(b, s, e).breaker.told
    ensures s.stopped ==> Step(b, s, e).stopped
  {
    hide Sends, StopsTheJob, Duplicate, AC.AfterFailure, AC.AfterSuccess, TakeTurn;
    if e.Turn? { TurnLeavesControls(b.rows, s, e); }
  }

  lemma TurnLeavesControls(rows: seq<Entry>, s: Job, e: Event)
    requires e.Turn?
    ensures var n := TakeTurn(rows, s, e.cancelled, e.now, e.later);
            && n.heard == s.heard && n.limiter == s.limiter && n.stopped == s.stopped
            && (n.phase == Finished ==> s.phase == Finished)
            && (n.breaker == s.breaker || n.breaker == CB.Evaluate(s.breaker, e.now) || n.breaker == CB.Evaluate(s.breaker, e.later)
                || n.breaker == CB.Evaluate(CB.Evaluate(s.breaker, e.now), e.later))
  {
    hide Schedule, CB.Evaluate, InFlight;
    ScheduleLeavesControls(rows, s.(breaker := CB.Evaluate(s.breaker, e.now)));
  }

  lemma {:induction false} ScheduleLeavesControls(rows: seq<Entry>, s: Job)
    ensures var n := Schedule(rows, s);
            n.breaker == s.breaker && n.stopped == s.stopped && n.heard == s.heard && n.limiter == s.limiter && n.phase == s.phase
    decreases |s.queue|
  {
    hide Sends;
    if s.queue != [] && |InFlight(s)| < s.limiter.current { ScheduleLeavesControls(rows, StartNext(rows, s)); }
  }

  lemma {:induction false} StepLeavesOnlyWhenOpened(b: Batch, s: Job, e: Event)
    requires Valid(b, s) && LeftOnlyWhenOpened(s) && !(e.Turn? && e.cancelled)
    ensures LeftOnlyWhenOpened(Step(b, s, e))
  {
    ToldOnlyGrows(b, s, e);
    if s.phase == AtTop && s.queue != [] {
      LoopLeavesRowsBehind(b, s, e);
      OpenWasTold(b, s);
      FinishingNeedsDraining(b, s, e);
    } else {
      hide Valid;
      OtherStepsLeaveNothing(b, s, e);
    }
  }

  lemma OpenWasTold(b: Batch, s: Job)
    requires Valid(b, s)
    ensures s.breaker.told == [] ==> s.breaker.state == CB.Closed
  {}

  lemma FinishingNeedsDraining(b: Batch, s: Job, e: Event)
    requires s.phase == AtTop
    ensures Step(b, s, e).phase != Finished
  {
    hide Sends, StopsTheJob, Duplicate, TakeTurn, AC.AfterFailure, AC.AfterSuccess, CB.AfterFailure, CB.AfterSuccess;
    if e.Turn? { TurnLeavesControls(b.rows, s, e); }
  }

  lemma OtherStepsLeaveNothing(b: Batch, s: Job, e: Event)
    requires s.phase != AtTop || s.queue == []
    ensures var n := Step(b, s, e);
            n.queue == s.queue && (Left(n) && s.queue != [] ==> Left(s))
  {
    hide Sends, StopsTheJob, Duplicate, AC.AfterFailure, AC.AfterSuccess, CB.AfterFailure, CB.AfterSuccess;
  }

  lemma {:induction false} RunLeavesOnlyWhenOpened(b: Batch, s: Job, events: seq<Event>)
    requires Real(b) && Valid(b, s) && LeftOnlyWhenOpened(s) && Uncancelled(events)
    ensures LeftOnlyWhenOpened(Run(b, s, events))
    decreases |events|
  {
    if events != [] {
      hide Valid, Real, Step, LeftOnlyWhenOpened;
      StepKeeps(b, s, events[0]);
      StepLeavesOnlyWhenOpened(b, s, events[0]);
      RunLeavesOnlyWhenOpened(b, Step(b, s, events[0]), events[1..]);
    }
  }

  /** One row alone cannot open the breaker: it gives at most three signals, and the breaker wants four failures or more. */
  ghost predicate Calm(b: Batch, s: Job) {
    && |b.runs| == |b.rows|
    && (forall i :: i in s.heard ==> i < |b.rows| && s.heard[i] <= |b.runs[i].signals|)
    && (forall x: nat :: Alone(s, x) ==> s.breaker.told == [] && s.breaker.failureCount <= Heard(s, x))
  }

  ghost predicate Alone(s: Job, x: nat) { forall i :: i in s.heard ==> i == x }

  lemma AtMostThreeSignals(b: Batch, i: nat)
    requires Real(b) && i < |b.rows|
    ensures |b.runs[i].signals| <= 3
  {
    hide RP.UpdateOne;
    assert RealRun(b.rows[i].row, b.runs[i]);
    var same: RP.Same, s: RP.Server, script: RP.Script :| b.runs[i] == RP.UpdateOne(same, b.rows[i].row, s, script);
    RP.SignalsOfOneRow(same, b.rows[i].row, s, script);
  }

  lemma {:induction false} TellKeepsCalm(b: Batch, s: Job, row: nat, latencyMs: real, now: int)
    requires Real(b) && Valid(b, s) && Calm(b, s) && CanTell(b, s, row)
    ensures Calm(b, Told(b, s, row, b.runs[row].signals[Heard(s, row)], latencyMs, now))
  {
    hide Real, Sends, AC.AfterSuccess, AC.AfterFailure, AC.Valid, FiledRightly, RequestedRightly, Places;
    var n := Told(b, s, row, b.runs[row].signals[Heard(s, row)], latencyMs, now);
    AtMostThreeSignals(b, row);
    SettingsAre(b);
    forall x: nat | Alone(n, x) ensures n.breaker.told == [] && n.breaker.failureCount <= Heard(n, x) {
      assert row in n.heard && x == row;
      assert Alone(s, row) by { assert forall i :: i in s.heard ==> i in n.heard; }
    }
  }

  lemma {:induction false} StepKeepsCalm(b: Batch, s: Job, e: Event)
    requires Real(b) && Valid(b, s) && Calm(b, s)
    ensures Calm(b, Step(b, s, e))
  {
    if e.Tell? {
      if CanTell(b, s, e.row) { TellKeepsCalm(b, s, e.row, e.latencyMs, e.now); }
    } else {
      OpenWasTold(b, s);
      hide Real, Valid, Step;
      UntoldIsUnchanged(b, s, e);
      var n := Step(b, s, e);
      forall x: nat | Alone(n, x) ensures n.breaker.told == [] && n.breaker.failureCount <= Heard(n, x) {
        assert Alone(s, x);
      }
    }
  }

  lemma UntoldIsUnchanged(b: Batch, s: Job, e: Event)
    requires !e.Tell?
    ensures var n := Step(b, s, e); n.heard == s.heard && (s.breaker.state == CB.Closed ==> n.breaker == s.breaker)
    ensures var n := Step(b, s, e); s.breaker.told != [] ==> n.breaker.told != []
  {
    hide Sends, StopsTheJob, Duplicate, TakeTurn;
    if e.Turn? { TurnLeavesControls(b.rows, s, e); }
  }

  lemma {:induction false} RunKeepsCalm(b: Batch, s: Job, events: seq<Event>)
    requires Real(b) && Valid(b, s) && Calm(b, s)
    ensures Calm(b, Run(b, s, events))
    decreases |events|
  {
    if events != [] {
      hide Valid, Real, Step, Calm;
      StepKeeps(b, s, events[0]);
      StepKeepsCalm(b, s, events[0]);
      RunKeepsCalm(b, Step(b, s, events[0]), events[1..]);
    }
  }

  ghost predicate TwoSentBeforeTheLast(rows: seq<Entry>) {
    exists i: nat, j: nat :: i < j < |rows| - 1 && Sends(rows, i) && Sends(rows, j)
  }

  /** A job that is over, with rows still queued, though nobody cancelled it and no refusal stopped it. */
  ghost predicate LeftBehind(b: Batch, events: seq<Event>) {
    && Real(b) && Uncancelled(events) && Clocked(events, 0)
    && var s := Run(b, Begin(b), events); s.phase == Finished && !s.stopped && s.queue != []
  }

  /** Rows are left behind only in a file that has two rows to send before its last row. */
  lemma {:induction false} LeftBehindNeedsTwoRows(b: Batch, events: seq<Event>)
    requires LeftBehind(b, events)
    ensures TwoSentBeforeTheLast(b.rows)
  {
    hide Run, Real, Step, Begin, Sends, Places, FiledRightly, Controlled;
    var s := Run(b, Begin(b), events);
    BeginIsValid(b);
    BeginIsCalm(b);
    RunKeeps(b, Begin(b), events);
    RunKeepsCalm(b, Begin(b), events);
    RunLeavesOnlyWhenOpened(b, Begin(b), events);
    assert s.breaker.told != [];
    TwoHaveTold(b, s);
  }

  lemma BeginIsCalm(b: Batch)
    requires Real(b)
    ensures Calm(b, Begin(b)) && LeftOnlyWhenOpened(Begin(b))
  {}

  lemma {:induction false} TwoHaveTold(b: Batch, s: Job)
    requires Calm(b, s) && RequestedRightly(b, s) && s.breaker.told != [] && s.queue != []
    ensures TwoSentBeforeTheLast(b.rows)
  {
    hide Sends;
    assert !Alone(s, 0);
    var i :| i in s.heard && i != 0;
    assert !Alone(s, i);
    var j :| j in s.heard && j != i;
    assert i in s.requested && j in s.requested;
    assert Sends(b.rows, i) && Sends(b.rows, j);
    if i < j { assert i < j < |b.rows| - 1; } else { assert j < i < |b.rows| - 1; }
  }

  /** No file of one or two rows is ever left behind. */
  lemma SmallFilesAreDone(b: Batch, events: seq<Event>)
    requires |b.rows| <= 2
    ensures !LeftBehind(b, events)
  {
    if LeftBehind(b, events) { LeftBehindNeedsTwoRows(b, events); }
  }

  // ---- Exactly which files can be left behind ----

  /** Every row of a file that is no longer than the first pass is started by that pass. */
  lemma {:induction false} ShortFilesAreStarted(b: Batch, s: Job, events: seq<Event>)
    requires |b.rows| <= ClampConcurrency(b.concurrency) && Uncancelled(events)
    requires s == Begin(b) || s.queue == []
    ensures var end := Run(b, s, events); end == Begin(b) || end.queue == []
    decreases |events|
  {
    if events != [] {
      FirstStepStartsAll(b, s, events[0]);
      ShortFilesAreStarted(b, Step(b, s, events[0]), events[1..]);
    }
  }

  lemma {:induction false} FirstStepStartsAll(b: Batch, s: Job, e: Event)
    requires |b.rows| <= ClampConcurrency(b.concurrency) && !(e.Turn? && e.cancelled)
    requires s == Begin(b) || s.queue == []
    ensures var n := Step(b, s, e); n == Begin(b) || n.queue == []
  {
    hide Sends, StopsTheJob, Duplicate, Schedule, AC.AfterFailure, AC.AfterSuccess, CB.AfterFailure, CB.AfterSuccess;
    if s.queue != [] && e.Turn? {
      SettingsAre(b);
      ScheduleFills(b.rows, s, 0, |b.rows|);
    }
  }

  /** Scheduling with an open breaker out of the way takes as many rows as there is room for. */
  lemma {:induction false} ScheduleFills(rows: seq<Entry>, s: Job, m: nat, end: nat)
    requires m <= end && s.queue == Range(m, end)
    requires |InFlight(s)| <= s.limiter.current && forall x :: x in InFlight(s) ==> x < m
    ensures var n := Schedule(rows, s);
            var d := Min(s.limiter.current - |InFlight(s)|, end - m);
            && n.queue == Range(m + d, end)
            && (forall x :: x in n.running <==> x in s.running || m <= x < m + d)
            && |InFlight(n)| == |InFlight(s)| + d
            && n == s.(queue := n.queue, running := n.running, requested := n.requested)
    decreases end - m
  {
    hide Sends, StartNext, InFlight;
    if s.queue != [] && |InFlight(s)| < s.limiter.current {
      StartsTheNext(rows, s, m, end);
      ScheduleFills(rows, StartNext(rows, s), m + 1, end);
    }
  }

  lemma StartsTheNext(rows: seq<Entry>, s: Job, m: nat, end: nat)
    requires m < end && s.queue == Range(m, end) && forall x :: x in InFlight(s) ==> x < m
    ensures var n := StartNext(rows, s);
            && n.queue == Range(m + 1, end) && n.running == s.running + {m} && |InFlight(n)| == |InFlight(s)| + 1
            && (forall x :: x in InFlight(n) ==> x < m + 1)
            && n == s.(queue := n.queue, running := n.running, requested := n.requested)
  {
    hide Sends;
    var n := StartNext(rows, s);
    assert n.queue == Range(m + 1, end);
    assert InFlight(n) == InFlight(s) + {m};
  }

  /** Events of one instant, none of them a cancellation. */
  ghost predicate Instant(events: seq<Event>) {
    forall i :: 0 <= i < |events| ==>
      (events[i].Turn? ==> !events[i].cancelled && events[i].now == events[i].later == 0) && (events[i].Tell? ==> events[i].now == 0)
  }

  ghost predicate Reaches(b: Batch, s: Job, t: Job) { exists events :: Instant(events) && Run(b, s, events) == t }

  lemma ReachesByOne(b: Batch, s: Job, e: Event)
    requires Instant([e])
    ensures Reaches(b, s, Step(b, s, e))
  {
    hide Step, Instant;
    assert [e][1..] == [];
    assert Run(b, s, [e]) == Step(b, s, e);
  }

  lemma ReachesTogether(b: Batch, s: Job, t: Job, u: Job)
    requires Reaches(b, s, t) && Reaches(b, t, u)
    ensures Reaches(b, s, u)
  {
    hide Run;
    var before :| Instant(before) && Run(b, s, before) == t;
    var after :| Instant(after) && Run(b, t, after) == u;
    RunJoins(b, s, before, after);
    assert Instant(before + after);
  }

  const Gone := RP.FileMaker(None, None, true, false)
  const Denied := RP.FileMaker(Some("200"), Some(500), false, false)

  predicate Exactly(name: string, current: string, sent: string) { current == sent }

  /** The update of a row whose every attempt ends the same way. */
  function Answered(row: RP.Row, fate: RP.Fate): RP.Done {
    var turn := RP.Turn(false, [], fate, false, [], RP.ReadFails);
    RP.UpdateOne(Exactly, row, RP.Server(0, map[], 0), [turn, turn, turn])
  }

  const Silence := [RP.Bad(None), RP.Bad(None), RP.Bad(None)]

  /** Three attempts without an answer are three failures for the breaker; a refusal of one record is none. */
  lemma AnsweredSignals(row: RP.Row)
    ensures !row.hasNul && row.fields != map[] ==> Answered(row, RP.NotDelivered(Gone)).signals == Silence
    ensures Answered(row, RP.Refused(Denied)).signals == []
    ensures !StopsTheJob(Answered(row, RP.NotDelivered(Gone)).result) && !StopsTheJob(Answered(row, RP.Refused(Denied)).result)
  {
    var turn := RP.Turn(false, [], RP.NotDelivered(Gone), false, [], RP.ReadFails);
    var server := RP.Server(0, map[], 0);
    var script: RP.Script := [turn, turn, turn];
    var d2 := RP.Attempts(Exactly, row, server, script, 2, true, Some(Gone));
    assert d2.signals == [RP.Bad(None)] && d2.result == RP.ThrewError(Gone);
    var d1 := RP.Attempts(Exactly, row, server, script, 1, true, Some(Gone));
    assert d1.signals == [RP.Bad(None), RP.Bad(None)] && d1.result == RP.ThrewError(Gone);
    var d0 := RP.Attempts(Exactly, row, server, script, 0, false, None);
    assert d0.signals == Silence && d0.result == RP.ThrewError(Gone);
  }

  /** Rows `i` and `j` get no answer, every other row is refused. */
  function Silenced(b: Batch, i: nat, j: nat): Batch {
    b.(runs := seq(|b.rows|, k requires 0 <= k < |b.rows| =>
      Answered(b.rows[k].row, if k == i || k == j then RP.NotDelivered(Gone) else RP.Refused(Denied))))
  }

  ghost predicate Scripted(b: Batch, i: nat, j: nat) {
    && |b.runs| == |b.rows| && i < j < |b.rows| && Sends(b.rows, i) && Sends(b.rows, j)
    && (forall k :: 0 <= k < |b.rows| ==> !StopsTheJob(b.runs[k].result))
    && (forall k :: 0 <= k < |b.rows| ==> b.runs[k].signals == if k == i || k == j then Silence else [])
  }

  lemma {:induction false} SilencedIsReal(b: Batch, i: nat, j: nat)
    requires i < j < |b.rows| && Sends(b.rows, i) && Sends(b.rows, j)
    requires forall k :: 0 <= k < |b.rows| && b.rows[k].row.hasNul ==> b.rows[k].Editable()
    ensures Real(Silenced(b, i, j)) && Scripted(Silenced(b, i, j), i, j)
  {
    var n := Silenced(b, i, j);
    assert !b.rows[i].row.hasNul && !b.rows[j].row.hasNul && b.rows[i].Editable() && b.rows[j].Editable();
    hide Sends, StopsTheJob, RP.UpdateOne;
    forall k | 0 <= k < |b.rows|
      ensures RealRun(n.rows[k].row, n.runs[k]) && !StopsTheJob(n.runs[k].result)
      ensures n.runs[k].signals == if k == i || k == j then Silence else []
    {
      AnsweredSignals(b.rows[k].row);
    }
  }

  /** The first `m` rows have started, as many run as may, and the breaker is closed. */
  ghost predicate Full(b: Batch, s: Job, m: nat) {
    && m <= |b.rows| && s.phase == Waiting(false) && s.queue == Range(m, |b.rows|)
    && s.settled == {} && |s.running| == s.limiter.current && s.limiter.current >= 1
    && !s.stopped && s.breaker.state == CB.Closed && (forall x :: x in s.running ==> x < m)
  }

  /** A row that has nothing more to tell settles and is removed, and the loop wakes. */
  lemma {:induction false} Retire(b: Batch, s: Job, x: nat) returns (t: Job)
    requires |b.runs| == |b.rows| && CanSettle(b, s, x) && !StopsTheJob(b.runs[x].result)
    requires s.phase == Waiting(false) && s.settled == {}
    ensures Reaches(b, s, t) && t.phase == AtTop && t.running == s.running - {x} && t.settled == {}
    ensures t.queue == s.queue && t.stopped == s.stopped && SameControls(s, t)
  {
    var s1 := Settled(b, s, x);
    t := s1.(settled := {}, phase := AtTop);
    SettledIs(b, s, x);
    OnesAreInstant(x);
    hide Sends, StopsTheJob, Duplicate, Reaches, Instant, Settled;
    assert Step(b, s, Settle(x)) == s1;
    var s2 := Step(b, s1, Remove(x));
    assert s2 == s1.(settled := {}, phase := Waiting(true));
    ReachesByOne(b, s, Settle(x));
    ReachesByOne(b, s1, Remove(x));
    ReachesByOne(b, s2, Wake);
    ReachesTogether(b, s, s1, s2);
    ReachesTogether(b, s, s2, t);
  }

  ghost predicate SameControls(s: Job, t: Job) { t.breaker == s.breaker && t.limiter == s.limiter && t.heard == s.heard }

  lemma SettledIs(b: Batch, s: Job, x: nat)
    requires x < |b.runs| == |b.rows| && !StopsTheJob(b.runs[x].result) && s.settled == {}
    ensures var n := Settled(b, s, x);
            && n.running == s.running - {x} && n.settled == {x} && n.queue == s.queue && n.phase == s.phase
            && n.stopped == s.stopped && SameControls(s, n)
  {
    hide StopsTheJob, Duplicate;
  }

  /** A row that has nothing more to tell is replaced by the next one of the queue. */
  lemma {:induction false} Replace(b: Batch, s: Job, m: nat, x: nat) returns (t: Job)
    requires |b.runs| == |b.rows| && Full(b, s, m) && m < |b.rows| && CanSettle(b, s, x) && !StopsTheJob(b.runs[x].result)
    ensures Reaches(b, s, t) && Full(b, t, m + 1) && t.running == s.running - {x} + {m} && SameControls(s, t)
  {
    assert x in s.running;
    hide Sends, StopsTheJob, Duplicate, Schedule, Reaches, Instant, Step, CanSettle;
    var s3 := Retire(b, s, x);
    assert |InFlight(s3)| == |s.running| - 1 by { assert InFlight(s3) == s.running - {x}; }
    t := Step(b, s3, Turn(false, 0, 0));
    OnesAreInstant(x);
    TurnStartsOne(b, s3, m);
    ReachesByOne(b, s3, Turn(false, 0, 0));
    ReachesTogether(b, s, s3, t);
  }

  lemma {:induction false} TurnStartsOne(b: Batch, s: Job, m: nat)
    requires m < |b.rows| && s.queue == Range(m, |b.rows|) && s.phase == AtTop && s.settled == {} && !s.stopped
    requires |InFlight(s)| == s.limiter.current - 1 && s.breaker.state == CB.Closed && forall x :: x in s.running ==> x < m
    ensures var t := Step(b, s, Turn(false, 0, 0)); Full(b, t, m + 1) && t.running == s.running + {m} && SameControls(s, t)
  {
    hide Schedule;
    ScheduleFills(b.rows, s, m, |b.rows|);
    var n := Schedule(b.rows, s);
    assert n.running == s.running + {m};
    assert m in InFlight(n);
    assert InFlight(n) == n.running;
  }

  lemma OnesAreInstant(x: nat)
    ensures Instant([Settle(x)]) && Instant([Remove(x)]) && Instant([Wake]) && Instant([Turn(false, 0, 0)])
    ensures Instant([Tell(x, 0.0, 0)])
  {}

  /** Three failures of one instant: a closed breaker counts them or trips, an open one stays open till the same time. */
  lemma ThreeFailures(c: CB.Settings, b: CB.Breaker)
    requires CB.Usable(c) && (b.state == CB.Closed || (b.state == CB.Open && b.openUntil == c.openMs))
    ensures var t := CB.AfterFailure(c, CB.AfterFailure(c, CB.AfterFailure(c, b, 0), 0), 0);
            if b.state == CB.Closed && b.failureCount + 3 < c.failureThreshold then t == b.(failureCount := b.failureCount + 3)
            else t.state == CB.Open && t.openUntil == c.openMs
  {}

  lemma {:induction false} TellOne(b: Batch, s: Job, x: nat) returns (t: Job)
    requires CanTell(b, s, x) && b.runs[x].signals == Silence
    ensures Reaches(b, s, t)
    ensures t == s.(heard := s.heard[x := Heard(s, x) + 1], breaker := CB.AfterFailure(BreakerSettings(b), s.breaker, 0),
                    limiter := AC.AfterFailure(LimiterSettings(b), s.limiter, None))
  {
    hide Sends, AC.AfterFailure, CB.AfterFailure, Reaches, Instant;
    t := Told(b, s, x, RP.Bad(None), 0.0, 0);
    OnesAreInstant(x);
    ReachesByOne(b, s, Tell(x, 0.0, 0));
  }

  /** An unanswered row tells its three failures. */
  lemma {:induction false} TellThree(b: Batch, s: Job, x: nat) returns (t: Job)
    requires x in s.running && x < |b.rows| == |b.runs| && Sends(b.rows, x) && x !in s.heard && b.runs[x].signals == Silence
    requires Controlled(b, s)
    requires s.breaker.state == CB.Closed || (s.breaker.state == CB.Open && s.breaker.openUntil == BreakerSettings(b).openMs)
    ensures Reaches(b, s, t) && t == s.(heard := s.heard[x := 3], breaker := t.breaker, limiter := t.limiter)
    ensures Controlled(b, t) && 1 <= t.limiter.current <= s.limiter.current
    ensures var c := BreakerSettings(b);
            if s.breaker.state == CB.Closed && s.breaker.failureCount + 3 < c.failureThreshold
            then t.breaker == s.breaker.(failureCount := s.breaker.failureCount + 3)
            else t.breaker.state == CB.Open && t.breaker.openUntil == c.openMs
  {
    hide Sends, AC.AfterFailure, CB.AfterFailure, CB.Valid, AC.Valid, Reaches, BreakerSettings, LimiterSettings;
    SettingsAre(b);
    var s1 := TellOne(b, s, x);
    var s2 := TellOne(b, s1, x);
    t := TellOne(b, s2, x);
    FailureKeepsControls(b, s, s1);
    FailureKeepsControls(b, s1, s2);
    FailureKeepsControls(b, s2, t);
    ThreeFailures(BreakerSettings(b), s.breaker);
    ReachesTogether(b, s, s1, s2);
    ReachesTogether(b, s, s2, t);
    assert t.heard == s.heard[x := 3];
  }

  lemma FailureKeepsControls(b: Batch, s: Job, t: Job)
    requires Controlled(b, s)
    requires t.breaker == CB.AfterFailure(BreakerSettings(b), s.breaker, 0)
    requires t.limiter == AC.AfterFailure(LimiterSettings(b), s.limiter, None)
    ensures Controlled(b, t) && 1 <= t.limiter.current <= s.limiter.current
  {
    SettingsAre(b);
    CB.CallKeeps(BreakerSettings(b), s.breaker, CB.Failure(0));
    AC.StepClimbsSlowly(LimiterSettings(b), s.limiter, AC.Failed(None));
  }

  /**
   * On the way to the second unanswered row: the first one has told nothing and is still in flight if it has started, or
   * it is done, its three failures are counted, and rows go one by one.
   */
  ghost predicate Ready(b: Batch, s: Job, m: nat, i: nat) {
    && Full(b, s, m) && Controlled(b, s)
    && (if s.heard == map[] then s.breaker.failureCount == 0 && (i < m ==> i in s.running)
        else s.heard == map[i := 3] && s.breaker.failureCount == 3 && i !in s.running && i < m)
  }

  lemma {:induction false} ReadyStep(b: Batch, s: Job, m: nat, i: nat, j: nat) returns (t: Job)
    requires Scripted(b, i, j) && Ready(b, s, m, i) && m <= j
    ensures Reaches(b, s, t) && Ready(b, t, m + 1, i) && m in t.running
  {
    hide Sends, StopsTheJob, Reaches, CB.Valid, AC.Valid, BreakerSettings, LimiterSettings;
    SettingsAre(b);
    if x: nat :| x in s.running && x != i {
      assert CanSettle(b, s, x);
      t := Replace(b, s, m, x);
    } else {
      t := FirstIsDone(b, s, m, i, j);
    }
  }

  /** With no other row in flight the first unanswered row tells its failures and makes room. */
  lemma {:induction false} FirstIsDone(b: Batch, s: Job, m: nat, i: nat, j: nat) returns (t: Job)
    requires Scripted(b, i, j) && Ready(b, s, m, i) && m <= j && forall x :: x in s.running ==> x == i
    ensures Reaches(b, s, t) && Ready(b, t, m + 1, i) && m in t.running
  {
    hide Sends, StopsTheJob, Reaches, CB.Valid, AC.Valid, BreakerSettings, LimiterSettings;
    SettingsAre(b);
    OnlyOne(s.running, i);
    assert i in s.running;
    var u := TellThree(b, s, i);
    assert CanSettle(b, u, i);
    t := Replace(b, u, m, i);
    ReachesTogether(b, s, u, t);
  }

  lemma OnlyOne(r: set<nat>, i: nat)
    requires |r| >= 1 && forall x :: x in r ==> x == i
    ensures r == {i}
  {
    var y :| y in r;
    assert y == i;
  }

  /** The second unanswered row starts, and no row after it but those of the first pass. */
  lemma {:induction false} ReachesSecond(b: Batch, s: Job, m: nat, i: nat, j: nat) returns (t: Job, last: nat)
    requires Scripted(b, i, j) && Ready(b, s, m, i) && (m > j ==> j in s.running)
    ensures Reaches(b, s, t) && Ready(b, t, last, i) && j in t.running && last == Max(m, j + 1)
    decreases j + 1 - m
  {
    hide Scripted, Ready, Reaches;
    if m > j {
      t, last := s, m;
      ReachesItself(b, s);
    } else {
      var u := ReadyStep(b, s, m, i, j);
      t, last := ReachesSecond(b, u, m + 1, i, j);
      ReachesTogether(b, s, u, t);
    }
  }

  lemma ReachesItself(b: Batch, s: Job)
    ensures Reaches(b, s, s)
  {
    assert Instant([]) && Run(b, s, []) == s;
  }

  /** The breaker is open and the rows still in flight have nothing more to tell. */
  ghost predicate Tripped(b: Batch, s: Job, m: nat) {
    && m < |b.rows| && s.queue == Range(m, |b.rows|) && s.settled == {} && !s.stopped
    && s.breaker.state == CB.Open && s.breaker.openUntil == BreakerSettings(b).openMs
    && (forall x :: x in s.running ==> CanSettle(b, s, x))
  }

  lemma {:induction false} TripsNow(b: Batch, s: Job, m: nat, i: nat, j: nat) returns (t: Job)
    requires Scripted(b, i, j) && Ready(b, s, m, i) && j in s.running && j < m < |b.rows|
    ensures Reaches(b, s, t) && Tripped(b, t, m) && t.phase == Waiting(false) && t.running != {}
  {
    hide Sends, StopsTheJob, Reaches, CB.Valid, AC.Valid, LimiterSettings;
    SettingsAre(b);
    ReachesItself(b, s);
    var u := s;
    if s.heard == map[] { u := TellThree(b, s, i); }
    t := TellThree(b, u, j);
    ReachesTogether(b, s, u, t);
    assert i in t.heard && t.heard[i] == 3 && t.heard[j] == 3;
  }

  /** While the breaker is open the rows in flight end one by one and nothing starts. */
  lemma {:induction false} Drains(b: Batch, s: Job, m: nat) returns (t: Job)
    requires Tripped(b, s, m) && s.phase == Waiting(false) && s.running != {}
    requires |b.runs| == |b.rows| && forall k :: 0 <= k < |b.rows| ==> !StopsTheJob(b.runs[k].result)
    ensures Reaches(b, s, t) && Tripped(b, t, m) && t.phase == AtTop && InFlight(t) == {}
    decreases |s.running|
  {
    hide Sends, StopsTheJob, Reaches;
    var x :| x in s.running;
    t := Retire(b, s, x);
    forall y | y in t.running ensures CanSettle(b, t, y) { assert CanSettle(b, s, y); }
    if t.running != {} {
      var u := Step(b, t, Turn(false, 0, 0));
      assert InFlight(t) == t.running;
      TurnWaits(b, t);
      OnesAreInstant(x);
      ReachesByOne(b, t, Turn(false, 0, 0));
      ReachesTogether(b, s, t, u);
      forall y | y in u.running ensures CanSettle(b, u, y) { assert CanSettle(b, t, y); }
      assert t.running < s.running;
      SmallerProper(t.running, s.running);
      t := Drains(b, u, m);
      ReachesTogether(b, s, u, t);
    }
  }

  lemma SmallerProper(a: set<nat>, c: set<nat>)
    requires a < c
    ensures |a| < |c|
  {
    assert c == a + (c - a);
  }

  lemma TurnWaits(b: Batch, s: Job)
    requires s.phase == AtTop && !s.stopped && InFlight(s) != {} && s.breaker.state == CB.Open && s.breaker.openUntil > 0
    ensures Step(b, s, Turn(false, 0, 0)) == s.(phase := Waiting(false))
  {
    hide Schedule;
  }

  /** The first pass of a file that is longer than it. */
  lemma {:induction false} FirstPass(b: Batch, i: nat) returns (t: Job, m: nat)
    requires |b.rows| > ClampConcurrency(b.concurrency)
    ensures Reaches(b, Begin(b), t) && m == ClampConcurrency(b.concurrency) && Ready(b, t, m, i)
    ensures forall x: nat :: x in t.running <==> x < m
  {
    hide Sends, Reaches, Schedule;
    SettingsAre(b);
    var s := Begin(b);
    m := ClampConcurrency(b.concurrency);
    t := Step(b, s, Turn(false, 0, 0));
    ScheduleFills(b.rows, s, 0, |b.rows|);
    var n := Schedule(b.rows, s);
    assert n.limiter.current == m;
    assert t == n.(phase := Waiting(false));
    assert InFlight(n) == n.running;
    assert 0 in n.running;
    OnesAreInstant(0);
    ReachesByOne(b, s, Turn(false, 0, 0));
  }

  /** The last pass crosses the breaker's time, and the job is over. */
  lemma {:induction false} CrossesAndEnds(b: Batch, s: Job, m: nat)
    requires Tripped(b, s, m) && s.phase == AtTop && InFlight(s) == {} && s.limiter.current >= 1
    ensures var open := BreakerSettings(b).openMs;
            var t := Step(b, Step(b, s, Turn(false, open - 1, open)), Finish);
            t.phase == Finished && !t.stopped && t.queue == s.queue
  {
    hide Schedule;
  }

  ghost predicate CanBeLeftBehind(b: Batch) {
    exists runs: seq<RP.Done>, events: seq<Event> :: LeftBehind(b.(runs := runs), events)
  }

  /** The pass that crosses the breaker's time, and the end of the job. */
  function LastPass(b: Batch): seq<Event> {
    var open := BreakerSettings(b).openMs;
    [Turn(false, open - 1, open), Finish]
  }

  lemma {:induction false} InstantThenLast(b: Batch, events: seq<Event>)
    requires Instant(events)
    ensures Clocked(events + LastPass(b), 0) && Uncancelled(events + LastPass(b))
    decreases |events|
  {
    var rest := LastPass(b);
    if events == [] {
      assert events + rest == rest && rest[1..] == [Finish] && [Finish][1..] == [];
    } else {
      assert (events + rest)[1..] == events[1..] + rest;
      InstantThenLast(b, events[1..]);
    }
  }

  lemma {:induction false} RunLastPass(b: Batch, s: Job)
    ensures var open := BreakerSettings(b).openMs;
            Run(b, s, LastPass(b)) == Step(b, Step(b, s, Turn(false, open - 1, open)), Finish)
  {
    hide Step, BreakerSettings;
    var last := LastPass(b);
    var s1 := Step(b, s, last[0]);
    assert last[1..] == [Finish] && [Finish][1..] == [];
    assert Run(b, s1, [Finish]) == Run(b, Step(b, s1, Finish), []);
  }

  lemma {:induction false} LongFilesCanBeLeft(b: Batch, i: nat, j: nat)
    requires i < j < |b.rows| - 1 && Sends(b.rows, i) && Sends(b.rows, j) && |b.rows| > ClampConcurrency(b.concurrency)
    requires forall k :: 0 <= k < |b.rows| && b.rows[k].row.hasNul ==> b.rows[k].Editable()
    ensures CanBeLeftBehind(b)
  {
    hide Ready, Reaches, Tripped, Sends, Instant, Step, Begin, StopsTheJob, Run, Real, Valid;
    SilencedIsReal(b, i, j);
    var n := Silenced(b, i, j);
    var s1, m := FirstPass(n, i);
    var s2, last := ReachesSecond(n, s1, m, i, j);
    ReachesTogether(n, Begin(n), s1, s2);
    var s3 := TripsNow(n, s2, last, i, j);
    ReachesTogether(n, Begin(n), s2, s3);
    var s4 := Drains(n, s3, last);
    ReachesTogether(n, Begin(n), s3, s4);
    EndsWithRowsLeft(n, s4, last);
    assert n == b.(runs := n.runs);
  }

  lemma {:induction false} EndsWithRowsLeft(b: Batch, s: Job, m: nat)
    requires Real(b) && Reaches(b, Begin(b), s) && Tripped(b, s, m) && s.phase == AtTop && InFlight(s) == {}
    ensures exists events :: LeftBehind(b, events)
  {
    hide Instant, Begin, Run, Real, Tripped, LeftBehind, InFlight;
    var events :| Instant(events) && Run(b, Begin(b), events) == s;
    LeavesThem(b, s, m, events);
  }

  lemma {:induction false} LeavesThem(b: Batch, s: Job, m: nat, events: seq<Event>)
    requires Real(b) && Instant(events) && Run(b, Begin(b), events) == s
    requires Tripped(b, s, m) && s.phase == AtTop && InFlight(s) == {}
    ensures LeftBehind(b, events + LastPass(b))
  {
    BeginIsValid(b);
    RunKeeps(b, Begin(b), events);
    RoomForOne(b, s);
    CrossesAndEnds(b, s, m);
    assert s.queue != [];
    hide Instant, Begin, Run, Real, Tripped, Valid, Step, LastPass, Clocked, Uncancelled;
    InstantThenLast(b, events);
    RunJoins(b, Begin(b), events, LastPass(b));
    RunLastPass(b, s);
  }

  /**
   * Exactly the files that can be left behind, for some replies and some interleaving: longer than the first pass, with
   * two rows to send before the last row.
   */
  lemma {:induction false} RowsLeftBehindExactly(b: Batch)
    requires forall k :: 0 <= k < |b.rows| && b.rows[k].row.hasNul ==> b.rows[k].Editable()
    ensures CanBeLeftBehind(b) <==> TwoSentBeforeTheLast(b.rows) && |b.rows| > ClampConcurrency(b.concurrency)
  {
    hide Sends, LeftBehind;
    if CanBeLeftBehind(b) {
      var runs: seq<RP.Done>, events: seq<Event> :| LeftBehind(b.(runs := runs), events);
      LeftBehindNeedsTwoRows(b.(runs := runs), events);
      LeftBehindNeedsLength(b.(runs := runs), events);
    }
    if TwoSentBeforeTheLast(b.rows) && |b.rows| > ClampConcurrency(b.concurrency) {
      var i: nat, j: nat :| i < j < |b.rows| - 1 && Sends(b.rows, i) && Sends(b.rows, j);
      LongFilesCanBeLeft(b, i, j);
    }
  }

  lemma LeftBehindNeedsLength(b: Batch, events: seq<Event>)
    requires LeftBehind(b, events)
    ensures |b.rows| > ClampConcurrency(b.concurrency)
  {
    hide Run, Real;
    if |b.rows| <= ClampConcurrency(b.concurrency) { ShortFilesAreStarted(b, Begin(b), events); }
  }

  /** Three rows do it, when one or two of them start at first. */
  lemma ThreeRowsCanBeLeft(b: Batch)
    requires |b.rows| == 3 && Sends(b.rows, 0) && Sends(b.rows, 1) && 1 <= b.concurrency <= 2
    requires forall k :: 0 <= k < |b.rows| && b.rows[k].row.hasNul ==> b.rows[k].Editable()
    ensures CanBeLeftBehind(b)
  {
    hide Sends;
    LongFilesCanBeLeft(b, 0, 1);
  }

  // ---- Every job ends ----

  ghost predicate Steady(s: Job) { s.phase == Waiting(false) ==> InFlight(s) != {} }

  ghost predicate Sound(b: Batch, s: Job) { Valid(b, s) && Calm(b, s) && Steady(s) }

  lemma BeginIsSound(b: Batch)
    requires Real(b)
    ensures Sound(b, Begin(b))
  {
    hide Valid, Calm;
    BeginIsValid(b);
    BeginIsCalm(b);
  }

  lemma {:induction false} StepKeepsSound(b: Batch, s: Job, e: Event)
    requires Real(b) && Sound(b, s)
    ensures Sound(b, Step(b, s, e))
  {
    hide Real, Valid, Calm, Step;
    StepKeeps(b, s, e);
    StepKeepsCalm(b, s, e);
    StepKeepsSteady(b, s, e);
  }

  lemma StepKeepsSteady(b: Batch, s: Job, e: Event)
    requires Steady(s)
    ensures Steady(Step(b, s, e))
  {
    hide Sends, StopsTheJob, Duplicate, TakeTurn, CB.AfterFailure, CB.AfterSuccess, AC.AfterFailure, AC.AfterSuccess;
    var n := Step(b, s, e);
    if e.Turn? && s.phase == AtTop {
      TurnIsSteady(b.rows, s, e);
    } else if e.Settle? && CanSettle(b, s, e.row) {
      assert e.row in InFlight(n);
    }
  }

  lemma TurnIsSteady(rows: seq<Entry>, s: Job, e: Event)
    requires e.Turn? && s.phase == AtTop
    ensures var n := TakeTurn(rows, s, e.cancelled, e.now, e.later);
            n.phase in [AtTop, Waiting(false), Draining] && Steady(n)
  {
    hide Schedule, CB.Evaluate;
    ScheduleLeavesControls(rows, s.(breaker := CB.Evaluate(s.breaker, e.now)));
  }

  function PhaseRank(phase: Phase): nat {
    match phase
    case Waiting(woken) => if woken then 4 else 2
    case AtTop => 3
    case Draining => 1
    case Finished => 0
  }

  /** Signals the first `n` rows may still give. */
  function Untold(s: Job, n: nat): int { if n == 0 then 0 else Untold(s, n - 1) + 3 - Heard(s, n - 1) }

  /** What is left to happen: to start, to end and to remove every row, to hear of it, and to pass through the phases. */
  function Remaining(b: Batch, s: Job): int {
    5 * |s.queue| + 4 * |s.running| + 3 * |s.settled| + Untold(s, |b.rows|) + PhaseRank(s.phase)
  }

  lemma {:induction false} UntoldIsNatural(b: Batch, s: Job, n: nat)
    requires Real(b) && Calm(b, s) && n <= |b.rows|
    ensures Untold(s, n) >= 0
  {
    hide Real;
    if n > 0 {
      UntoldIsNatural(b, s, n - 1);
      AtMostThreeSignals(b, n - 1);
    }
  }

  lemma {:induction false} UntoldDepends(s: Job, t: Job, n: nat)
    requires s.heard == t.heard
    ensures Untold(s, n) == Untold(t, n)
  {
    if n > 0 { UntoldDepends(s, t, n - 1); }
  }

  lemma {:induction false} TellingUsesOne(s: Job, t: Job, row: nat, n: nat)
    requires t.heard == s.heard[row := Heard(s, row) + 1]
    ensures Untold(t, n) == Untold(s, n) - if row < n then 1 else 0
  {
    if n > 0 { TellingUsesOne(s, t, row, n - 1); }
  }

  lemma {:induction false} StartingCosts(rows: seq<Entry>, s: Job)
    ensures var n := Schedule(rows, s);
            5 * |n.queue| + 4 * |n.running| <= 5 * |s.queue| + 4 * |s.running| && n.settled == s.settled
    decreases |s.queue|
  {
    hide Sends;
    if s.queue != [] && |InFlight(s)| < s.limiter.current { StartingCosts(rows, StartNext(rows, s)); }
  }

  /**
   * A pass of the loop changes nothing in exactly one case: with rows queued and none in flight it finds the breaker open,
   * both times before its time.
   */
  lemma {:induction false} PassWaitsExactly(b: Batch, s: Job, e: Event)
    requires Valid(b, s) && s.phase == AtTop && e.Turn?
    ensures var n := Step(b, s, e);
            && (n == s <==> n.phase == AtTop)
            && (n == s <==> s.queue != [] && InFlight(s) == {} && !e.cancelled && !s.stopped && s.breaker.state == CB.Open
                            && e.now < s.breaker.openUntil && e.later < s.breaker.openUntil)
  {
    RoomForOne(b, s);
    AskingKeeps(b, s, e.now);
    ScheduleKeeps(b, s.(breaker := CB.Evaluate(s.breaker, e.now)));
    hide Valid, Schedule, Sends;
    AskingTwice(s.breaker, e.now, e.later);
    hide CB.Evaluate;
  }

  lemma AskingTwice(breaker: CB.Breaker, now: int, later: int)
    ensures var asked := CB.Evaluate(breaker, now);
            && (asked.state == CB.Open <==> breaker.state == CB.Open && now < breaker.openUntil)
            && (asked.state == CB.Open ==> asked == breaker)
            && (CB.Evaluate(breaker, later).state == CB.Open <==> breaker.state == CB.Open && later < breaker.openUntil)
            && (CB.Evaluate(breaker, later).state == CB.Open ==> CB.Evaluate(breaker, later) == breaker)
  {}

  lemma {:induction false} TurnCosts(b: Batch, s: Job, e: Event)
    requires Valid(b, s) && s.phase == AtTop && e.Turn? && Step(b, s, e) != s
    ensures Remaining(b, Step(b, s, e)) < Remaining(b, s)
  {
    PassWaitsExactly(b, s, e);
    hide Valid, TakeTurn, Untold;
    var n := Step(b, s, e);
    TurnMoves(b.rows, s, e);
    TurnLeavesControls(b.rows, s, e);
    UntoldDepends(s, n, |b.rows|);
    TurnIsSteady(b.rows, s, e);
  }

  lemma TurnMoves(rows: seq<Entry>, s: Job, e: Event)
    requires e.Turn?
    ensures var n := TakeTurn(rows, s, e.cancelled, e.now, e.later);
            5 * |n.queue| + 4 * |n.running| <= 5 * |s.queue| + 4 * |s.running| && n.settled == s.settled
  {
    hide Schedule, CB.Evaluate, InFlight;
    StartingCosts(rows, s.(breaker := CB.Evaluate(s.breaker, e.now)));
  }

  /** Every event that changes the job uses up something of what is left. */
  lemma {:induction false} ChangesCost(b: Batch, s: Job, e: Event)
    requires Real(b) && Sound(b, s)
    ensures Remaining(b, s) >= 0
    ensures Step(b, s, e) != s ==> Remaining(b, Step(b, s, e)) < Remaining(b, s)
  {
    hide Real, Valid, Calm, TakeTurn, Told, Settled, Sends;
    UntoldIsNatural(b, s, |b.rows|);
    var n := Step(b, s, e);
    match e
    case Turn(cancelled, now, later) => if s.phase == AtTop && n != s { TurnCosts(b, s, e); }
    case Tell(row, latencyMs, now) =>
      if CanTell(b, s, row) {
        TellingMovesNothing(b, s, row, b.runs[row].signals[Heard(s, row)], latencyMs, now);
        TellingUsesOne(s, n, row, |b.rows|);
      }
    case Settle(row) => if CanSettle(b, s, row) { SettlingCosts(b, s, row); }
    case _ => UntoldDepends(s, n, |b.rows|);
  }

  lemma SettlingCosts(b: Batch, s: Job, row: nat)
    requires row < |b.rows| == |b.runs| && row in s.running
    ensures Remaining(b, Settled(b, s, row)) < Remaining(b, s)
  {
    hide Duplicate, StopsTheJob;
    UntoldDepends(s, Settled(b, s, row), |b.rows|);
  }

  /** How many of the events change the job. */
  function Changes(b: Batch, s: Job, events: seq<Event>): nat
    decreases |events|
  {
    if events == [] then 0
    else Changes(b, Step(b, s, events[0]), events[1..]) + if Step(b, s, events[0]) != s then 1 else 0
  }

  lemma {:induction false} ChangesAreBounded(b: Batch, s: Job, events: seq<Event>)
    requires Real(b) && Sound(b, s)
    ensures Changes(b, s, events) <= Remaining(b, s)
    decreases |events|
  {
    hide Real, Sound, Step, Remaining;
    ChangesCost(b, s, if events == [] then Wake else events[0]);
    if events != [] {
      StepKeepsSound(b, s, events[0]);
      ChangesAreBounded(b, Step(b, s, events[0]), events[1..]);
    }
  }

  lemma {:induction false} NothingToldYet(s: Job, n: nat)
    requires s.heard == map[]
    ensures Untold(s, n) == 3 * n
  {
    if n > 0 { NothingToldYet(s, n - 1); }
  }

  /** In every run of a job at most eight events for each row, and three more, change anything. */
  lemma {:induction false} StepsRunOut(b: Batch, events: seq<Event>)
    requires Real(b)
    ensures Changes(b, Begin(b), events) <= 8 * |b.rows| + 3
  {
    hide Real, Changes, Sound;
    BeginIsSound(b);
    ChangesAreBounded(b, Begin(b), events);
    NothingToldYet(Begin(b), |b.rows|);
  }

  /** A job that is not over always has an event that changes it, however late the clock is. */
  lemma {:induction false} SomethingCanHappen(b: Batch, s: Job, from: int) returns (e: Event, later: int)
    requires Real(b) && Sound(b, s) && s.phase != Finished
    ensures Step(b, s, e) != s && !(e.Turn? && e.cancelled) && from <= later
    ensures forall rest :: Clocked(rest, later) ==> Clocked([e] + rest, from)
  {
    later := from;
    if row: nat :| row in s.running {
      e := RunningCanGoOn(b, s, row, from);
      assert Step(b, s, e) != s;
    } else if row: nat :| row in s.settled {
      e := Remove(row);
      assert row !in Step(b, s, e).settled;
    } else {
      assert InFlight(s) == {};
      if s.phase == AtTop {
        later := Max(from, s.breaker.openUntil);
        e := Turn(false, later, later);
        PassWaitsExactly(b, s, e);
      } else {
        e := if s.phase == Draining then Finish else Wake;
      }
    }
    hide Step;
    forall rest | Clocked(rest, later) ensures Clocked([e] + rest, from) {
      assert ([e] + rest)[1..] == rest;
    }
  }

  lemma {:induction false} RunningCanGoOn(b: Batch, s: Job, row: nat, now: int) returns (e: Event)
    requires Real(b) && Valid(b, s) && row in s.running
    ensures Step(b, s, e) != s && (e == Tell(row, 0.0, now) || e == Settle(row))
  {
    RunningHasStarted(b, s, row);
    SameLength(b);
    hide Real, Valid, Sends, StopsTheJob, Duplicate, AC.AfterFailure, AC.AfterSuccess, CB.AfterFailure, CB.AfterSuccess;
    if CanTell(b, s, row) {
      e := Tell(row, 0.0, now);
      assert Heard(Step(b, s, e), row) == Heard(s, row) + 1;
    } else {
      e := Settle(row);
      assert row !in Step(b, s, e).running;
    }
  }

  /** Whatever has happened, some uncancelled continuation at any later time ends the job. */
  lemma {:induction false} SoundJobCanFinish(b: Batch, s: Job, from: int) returns (more: seq<Event>)
    requires Real(b) && Sound(b, s)
    ensures Clocked(more, from) && Uncancelled(more) && Run(b, s, more).phase == Finished
    decreases if Remaining(b, s) < 0 then 0 else Remaining(b, s)
  {
    hide Real, Sound, Step, Remaining;
    if s.phase == Finished {
      more := [];
    } else {
      var e, later := SomethingCanHappen(b, s, from);
      ChangesCost(b, s, e);
      StepKeepsSound(b, s, e);
      ChangesCost(b, Step(b, s, e), e);
      var rest := SoundJobCanFinish(b, Step(b, s, e), later);
      more := [e] + rest;
      assert more[1..] == rest;
    }
  }

  /** No run of a job gets stuck. */
  lemma {:induction false} EveryRunCanFinish(b: Batch, events: seq<Event>, from: int) returns (more: seq<Event>)
    requires Real(b)
    ensures Clocked(more, from) && Uncancelled(more) && Run(b, Begin(b), events + more).phase == Finished
  {
    hide Real, Sound, Run, Begin, Clocked, Uncancelled;
    BeginIsSound(b);
    RunKeepsSound(b, Begin(b), events);
    more := SoundJobCanFinish(b, Run(b, Begin(b), events), from);
    RunJoins(b, Begin(b), events, more);
  }

  lemma {:induction false} RunKeepsSound(b: Batch, s: Job, events: seq<Event>)
    requires Real(b) && Sound(b, s)
    ensures Sound(b, Run(b, s, events))
    decreases |events|
  {
    hide Real, Sound, Step;
    if events != [] {
      StepKeepsSound(b, s, events[0]);
      RunKeepsSound(b, Step(b, s, events[0]), events[1..]);
    }
  }

  // Runs without end.

  function StateAt(b: Batch, f: nat -> Event, n: nat): Job {
    if n == 0 then Begin(b) else Step(b, StateAt(b, f, n - 1), f(n - 1))
  }

  ghost predicate TurnComes(f: nat -> Event, n: nat, t: int) { exists m: nat :: n <= m && f(m).Turn? && f(m).now >= t && f(m).later >= t }

  ghost predicate Settles(b: Batch, f: nat -> Event, n: nat, row: nat) { exists m: nat :: n <= m && row !in StateAt(b, f, m).running }

  ghost predicate Leaves(b: Batch, f: nat -> Event, n: nat, row: nat) { exists m: nat :: n <= m && row !in StateAt(b, f, m).settled }

  ghost predicate Passes(b: Batch, f: nat -> Event, n: nat, phase: Phase) { exists m: nat :: n <= m && StateAt(b, f, m).phase != phase }

  /**
   * Every row that runs settles and is removed, a woken loop goes on and a drained one ends, and as long as the loop is at
   * its top it gets its turns at times past any time.
   */
  ghost predicate Fair(b: Batch, f: nat -> Event) {
    && (forall n: nat, row: nat :: row in StateAt(b, f, n).running ==> Settles(b, f, n, row))
    && (forall n: nat, row: nat :: row in StateAt(b, f, n).settled ==> Leaves(b, f, n, row))
    && (forall n: nat :: StateAt(b, f, n).phase == Waiting(true) ==> Passes(b, f, n, Waiting(true)))
    && (forall n: nat :: StateAt(b, f, n).phase == Draining && InFlight(StateAt(b, f, n)) == {} ==> Passes(b, f, n, Draining))
    && (forall n: nat, t: int :: StateAt(b, f, n).phase == AtTop ==> TurnComes(f, n, t))
  }

  lemma {:induction false} StatesAreSound(b: Batch, f: nat -> Event, n: nat)
    requires Real(b)
    ensures Sound(b, StateAt(b, f, n))
  {
    hide Real, Sound, Step, Begin;
    if n == 0 {
      BeginIsSound(b);
    } else {
      StatesAreSound(b, f, n - 1);
      StepKeepsSound(b, StateAt(b, f, n - 1), f(n - 1));
    }
  }

  /** Between two different states there is an event that changes the job. */
  lemma {:induction false} ChangesBetween(b: Batch, f: nat -> Event, n: nat, m: nat) returns (k: nat)
    requires n <= m && StateAt(b, f, m) != StateAt(b, f, n)
    ensures n <= k < m && StateAt(b, f, k + 1) != StateAt(b, f, k)
    decreases m - n
  {
    hide Step, Begin;
    k := m - 1;
    if StateAt(b, f, k + 1) == StateAt(b, f, k) { k := ChangesBetween(b, f, n, k); }
  }

  lemma {:induction false} FairRunGoesOn(b: Batch, f: nat -> Event, n: nat) returns (k: nat)
    requires Real(b) && Fair(b, f) && StateAt(b, f, n).phase != Finished
    ensures n <= k && StateAt(b, f, k + 1) != StateAt(b, f, k)
  {
    var s := StateAt(b, f, n);
    StatesAreSound(b, f, n);
    var m := NextChance(b, f, n);
    if StateAt(b, f, m) != s {
      k := ChangesBetween(b, f, n, m);
    } else {
      k := m;
    }
  }

  /** The next moment at which the job is in another state, or is about to be. */
  lemma {:induction false} NextChance(b: Batch, f: nat -> Event, n: nat) returns (m: nat)
    requires Real(b) && Fair(b, f) && Sound(b, StateAt(b, f, n)) && StateAt(b, f, n).phase != Finished
    ensures n <= m && (StateAt(b, f, m) == StateAt(b, f, n) ==> Step(b, StateAt(b, f, n), f(m)) != StateAt(b, f, n))
  {
    hide StateAt, Real, Valid, Calm, Step;
    var s := StateAt(b, f, n);
    if row: nat :| row in s.running {
      assert Settles(b, f, n, row);
      m :| n <= m && row !in StateAt(b, f, m).running;
    } else if row: nat :| row in s.settled {
      assert Leaves(b, f, n, row);
      m :| n <= m && row !in StateAt(b, f, m).settled;
    } else {
      assert InFlight(s) == {};
      if s.phase == AtTop {
        assert TurnComes(f, n, s.breaker.openUntil);
        m :| n <= m && f(m).Turn? && f(m).now >= s.breaker.openUntil && f(m).later >= s.breaker.openUntil;
        PassWaitsExactly(b, s, f(m));
      } else {
        assert Passes(b, f, n, s.phase);
        m :| n <= m && StateAt(b, f, m).phase != s.phase;
      }
    }
  }

  lemma {:induction false} NeverGrows(b: Batch, f: nat -> Event, n: nat, m: nat)
    requires Real(b) && n <= m
    ensures 0 <= Remaining(b, StateAt(b, f, m)) <= Remaining(b, StateAt(b, f, n))
    decreases m - n
  {
    hide Step, Begin, Remaining, Real, Sound;
    StatesAreSound(b, f, m);
    ChangesCost(b, StateAt(b, f, m), f(m));
    if n < m {
      NeverGrows(b, f, n, m - 1);
      StatesAreSound(b, f, m - 1);
      ChangesCost(b, StateAt(b, f, m - 1), f(m - 1));
    }
  }

  /** Every job ends, when its rows settle, its loop gets its turns and the clock passes the breaker's time. */
  lemma {:induction false} EveryFairRunFinishes(b: Batch, f: nat -> Event, n: nat) returns (end: nat)
    requires Real(b) && Fair(b, f)
    ensures n <= end && StateAt(b, f, end).phase == Finished
    decreases if Remaining(b, StateAt(b, f, n)) < 0 then 0 else Remaining(b, StateAt(b, f, n))
  {
    hide Step, Begin, Remaining, Real, Fair, Sound;
    if StateAt(b, f, n).phase == Finished {
      end := n;
    } else {
      var k := FairRunGoesOn(b, f, n);
      NeverGrows(b, f, n, k);
      NeverGrows(b, f, k, k + 1);
      StatesAreSound(b, f, k);
      ChangesCost(b, StateAt(b, f, k), f(k));
      end := EveryFairRunFinishes(b, f, k + 1);
    }
  }

  ghost predicate OverFrom(b: Batch, f: nat -> Event, end: nat) { forall m: nat :: end <= m ==> Over(StateAt(b, f, m)) }

  predicate Over(s: Job) { s.phase == Finished && s.running == {} && s.settled == {} }

  /** Fair runs do exist, for every batch. */
  lemma {:induction false} FairRunExists(b: Batch) returns (f: nat -> Event)
    requires Real(b)
    ensures Fair(b, f)
  {
    hide Fair, Real, Run, Begin, Clocked, Uncancelled, Step;
    var more := EveryRunCanFinish(b, [], 0);
    assert [] + more == more;
    f := (m: nat) => if m < |more| then more[m] else Turn(false, m, m);
    FinishedIsOver(b, more);
    StatesFollow(b, f, more, |more|);
    assert more[..|more|] == more;
    forall m: nat | |more| <= m ensures Over(StateAt(b, f, m)) { StaysOver(b, f, |more|, m); }
    forall n: nat, t: int ensures TurnComes(f, n, t) {
      var m := Max(Max(n, |more|), t);
      assert f(m) == Turn(false, m, m);
    }
    EndingIsFair(b, f, |more|);
  }

  lemma {:induction false} FinishedIsOver(b: Batch, events: seq<Event>)
    requires Run(b, Begin(b), events).phase == Finished
    ensures Over(Run(b, Begin(b), events))
  {
    FinishedIsIdle(b, Begin(b), events);
    hide Run;
    var end := Run(b, Begin(b), events);
    assert end.running <= InFlight(end) && end.settled <= InFlight(end);
  }

  lemma {:induction false} EndingIsFair(b: Batch, f: nat -> Event, end: nat)
    requires OverFrom(b, f, end) && forall n: nat, t: int :: TurnComes(f, n, t)
    ensures Fair(b, f)
  {
    hide StateAt, TurnComes;
    forall n: nat, row: nat ensures Settles(b, f, n, row) && Leaves(b, f, n, row) { assert Over(StateAt(b, f, Max(n, end))); }
    forall n: nat ensures Passes(b, f, n, Waiting(true)) && Passes(b, f, n, Draining) { assert Over(StateAt(b, f, Max(n, end))); }
  }

  lemma {:induction false} StatesFollow(b: Batch, f: nat -> Event, events: seq<Event>, k: nat)
    requires k <= |events| && forall m: nat :: m < |events| ==> f(m) == events[m]
    ensures StateAt(b, f, k) == Run(b, Begin(b), events[..k])
  {
    hide Step, Begin;
    if k > 0 {
      StatesFollow(b, f, events, k - 1);
      assert events[..k] == events[..k - 1] + [events[k - 1]];
      RunJoins(b, Begin(b), events[..k - 1], [events[k - 1]]);
      var s := StateAt(b, f, k - 1);
      assert [events[k - 1]][1..] == [];
      assert Run(b, s, [events[k - 1]]) == Run(b, Step(b, s, events[k - 1]), []);
    }
  }

  lemma {:induction false} StaysOver(b: Batch, f: nat -> Event, k: nat, m: nat)
    requires k <= m && Over(StateAt(b, f, k)) && forall i: nat :: i >= k ==> f(i).Turn?
    ensures Over(StateAt(b, f, m))
    decreases m - k
  {
    hide Begin, TakeTurn;
    if k < m { StaysOver(b, f, k, m - 1); }
  }

  // ---- The object ----

  /** One call of batchUpdate: its queue and counters, its breaker and its limiter. */
  class BatchJob {
    const rows: seq<Entry>
    const duplicates: set<nat>
    const breaker: CB.CircuitBreaker
    const limiter: AC.AdaptiveConcurrency
    /** What the promises of the rows will come to. */
    ghost const batch: Batch
    var phase: Phase
    var queue: seq<nat>
    var running: set<nat>
    var settled: set<nat>
    var updated: seq<nat>
    var failed: seq<nat>
    var completed: nat
    var stopped: bool
    ghost var blank: seq<nat>
    ghost var heard: map<nat, nat>
    ghost var requested: seq<nat>

    ghost function Contents(): Job
      reads this, breaker, limiter
    {
      Job(phase, queue, running, settled, updated, failed, blank, completed, stopped,
          breaker.Contents(), limiter.Contents(), heard, requested)
    }

    ghost predicate Prepared()
      reads limiter
    {
      && batch.rows == rows && |batch.runs| == |rows| && (forall i :: i in duplicates <==> Duplicate(rows, i))
      && breaker.settings == BreakerSettings(batch) && limiter.settings == LimiterSettings(batch)
      && AC.Valid(limiter.settings, limiter.Contents())
    }

    constructor (mode: Mode, concurrency: int, rows: seq<Entry>, duplicates: set<nat>, ghost runs: seq<RP.Done>)
      requires |runs| == |rows| && forall i :: i in duplicates <==> Duplicate(rows, i)
      ensures batch == Batch(mode, concurrency, rows, runs) && Prepared() && Contents() == Begin(batch)
      ensures fresh(breaker) && fresh(limiter)
    {
      var initial := ClampConcurrency(concurrency);
      var max := if mode == HighScale then Max(2, initial) else initial;
      limiter := new AC.AdaptiveConcurrency(initial, 1, max, if mode == HighScale then 1400 else 900, 6);
      breaker := new CB.CircuitBreaker(if mode == HighScale then 6.0 else 4.0, if mode == HighScale then 6000.0 else 4000.0, 0.0);
      this.rows, this.duplicates, batch := rows, duplicates, Batch(mode, concurrency, rows, runs);
      phase, queue, running, settled := AtTop, Range(0, |rows|), {}, {};
      updated, failed, blank, completed, stopped, heard, requested := [], [], [], 0, false, map[], [];
    }

    /** The scheduling loop: the breaker is asked before every row. */
    method ScheduleRows(cancelled: bool, now: int)
      requires Prepared()
      modifies this`queue, this`running, this`requested, breaker
      ensures Prepared()
      ensures Contents() == if cancelled || stopped then old(Contents()) else ScheduleNext(rows, old(Contents()), now)
    {
      hide Sends, Schedule, CB.Evaluate, AC.Valid, LimiterSettings, BreakerSettings;
      while !cancelled && !stopped && |queue| > 0 && |running + settled| < limiter.current
        invariant !cancelled && !stopped ==> ScheduleNext(rows, Contents(), now) == ScheduleNext(rows, old(Contents()), now)
        invariant cancelled || stopped ==> Contents() == old(Contents())
        decreases |queue|
      {
        ghost var before := Contents();
        var admitted := breaker.CanRequest(now);
        if !admitted { return; }
        var next := queue[0];
        queue := queue[1..];
        running := running + {next};
        requested := if Sends(rows, next) then requested + [next] else requested;
        AskedOnce(rows, before, now);
      }
    }

    /** One turn of the main loop, up to its next await. */
    method TakeTurn(cancelled: bool, now: int, later: int)
      requires Prepared()
      modifies this, breaker
      ensures Prepared()
      ensures Contents() == Step(batch, old(Contents()), Turn(cancelled, now, later))
    {
      hide ScheduleNext, CB.Evaluate;
      if phase != AtTop { return; }
      if (|queue| == 0 && |running + settled| == 0) || cancelled || stopped {
        phase := Draining;
        return;
      }
      ScheduleRows(cancelled, now);
      if |running + settled| == 0 {
        var admitted := breaker.CanRequest(later);
        if !admitted { return; }
        phase := Draining;
        return;
      }
      phase := Waiting(false);
    }

    /** A request of a running row has ended well, or in trouble with the server. */
    method OnSignal(row: nat, signal: RP.Signal, latencyMs: real, now: int)
      requires Prepared() && CanTell(batch, Contents(), row) && signal == batch.runs[row].signals[Heard(Contents(), row)]
      modifies this`heard, breaker, limiter
      ensures Prepared()
      ensures Contents() == Step(batch, old(Contents()), Tell(row, latencyMs, now))
    {
      hide Sends, AC.AfterSuccess, AC.AfterFailure, CB.AfterSuccess, CB.AfterFailure, AC.Valid, LimiterSettings, BreakerSettings;
      SettingsAre(batch);
      match signal {
        case Good =>
          AC.StepClimbsSlowly(limiter.settings, limiter.Contents(), AC.Succeeded(latencyMs));
          limiter.RecordSuccess(latencyMs);
          breaker.RecordSuccess(now);
        case Bad(status) =>
          AC.StepClimbsSlowly(limiter.settings, limiter.Contents(), AC.Failed(status));
          limiter.RecordFailure(status);
          breaker.RecordFailure(now);
      }
      heard := heard[row := (if row in heard then heard[row] else 0) + 1];
    }

    /** The handlers attached to a row's promise: count it, file it, and stop the job on an account-wide refusal. */
    method OnSettled(row: nat, result: RP.Result)
      requires Prepared() && CanSettle(batch, Contents(), row) && result == batch.runs[row].result
      modifies this
      ensures Contents() == Step(batch, old(Contents()), Settle(row))
    {
      hide Sends, StopsTheJob, Duplicate, AC.Valid, LimiterSettings, BreakerSettings;
      if row in duplicates {
        failed := failed + [row];
      } else if !rows[row].Editable() {
        blank := blank + [row];
      } else if result.Returned? {
        updated := updated + [row];
      } else {
        failed := failed + [row];
        if !stopped && StopsTheJob(result) { stopped := true; }
      }
      completed := completed + 1;
      running, settled := running - {row}, settled + {row};
    }

    method OnRemoved(row: nat)
      requires row in settled
      modifies this
      ensures Contents() == Step(batch, old(Contents()), Remove(row))
    {
      settled := settled - {row};
      if phase.Waiting? { phase := Waiting(true); }
    }
  }

  /** Asking the breaker again within a pass changes nothing. */
  lemma AskedOnce(rows: seq<Entry>, s: Job, now: int)
    requires s.queue != [] && |InFlight(s)| < s.limiter.current && CB.Admits(s.breaker, now)
    ensures ScheduleNext(rows, StartNext(rows, s.(breaker := CB.Evaluate(s.breaker, now))), now) == ScheduleNext(rows, s, now)
  {
    var asked := s.(breaker := CB.Evaluate(s.breaker, now));
    var n := StartNext(rows, asked);
    assert InFlight(asked) == InFlight(s);
    hide Sends, InFlight, CB.Admits;
    AskingTwice(s.breaker, now, now);
    AskedIsSettled(s.breaker, now);
    hide CB.Evaluate;
    assert ScheduleNext(rows, s, now) == Schedule(rows, asked) == Schedule(rows, n);
    assert n.(breaker := CB.Evaluate(n.breaker, now)) == n;
  }

  lemma AskedIsSettled(breaker: CB.Breaker, now: int)
    ensures CB.Admits(breaker, now) <==> CB.Evaluate(breaker, now).state != CB.Open
    ensures CB.Admits(breaker, now) ==> CB.Evaluate(CB.Evaluate(breaker, now), now) == CB.Evaluate(breaker, now)
  {}
}
