/**
 * Session and sign-in control for one connection profile. Each stretch of code between two awaits is one
 * event; a run is any list of events, so any interleaving of requests, replies and user actions. Reading the stored
 * token is an await of its own: a request goes on with what it has `read`, which may not be what is stored any more.
 */
module SignIn {
  import opened Common

  type Token = nat
  type Stamp = nat

  datatype Pause = Pause(code: string, stamp: Stamp)

  datatype Backoff = Backoff(until: int, attempts: nat)

  /** Why a sign-in runs: ahead of expiry of `existing`, for want of a token, to replace a rejected one, or for the user. */
  datatype Kind = Proactive(existing: Token) | Missing | Renewal(rejected: Token) | User

  /** Where a sign-in is: not sent yet (a renewal first deletes the old token), sent, writing the token, or over. */
  datatype Stage = Deleting | Starting | Sent(stamp: Stamp) | Storing | Succeeded | Failed | Settled

  /** `asked`: it runs for something the user does, and is not stopped by a pause or a wait. */
  datatype Call = Call(kind: Kind, asked: bool, stage: Stage)

  /** The fields kept per profile, and the sign-ins that are under way. */
  datatype Sessions = Sessions(
    token: Option<Token>, issuedAt: Option<int>, pause: Option<Pause>, suspended: bool,
    backoff: Option<Backoff>, flight: Option<nat>, calls: map<nat, Call>)

  datatype Settings = Settings(maxAgeMs: int, refreshLeadMs: int)

  function ShouldRefresh(c: Settings, issuedAt: Option<int>, now: int): bool {
    if c.refreshLeadMs <= 0 || issuedAt.None? then false
    else
      var age := Max(0, now - issuedAt.value);
      var lifetime := if c.refreshLeadMs >= c.maxAgeMs then c.maxAgeMs else c.maxAgeMs - c.refreshLeadMs;
      age >= Max(0, lifetime)
  }

  predicate IsCredentialRejection(code: string) {
    code in ["210", "211", "212", "213", "214", "1703"]
  }

  datatype Answer = Accepted(token: Token) | Refused(code: Option<string>)

  predicate Rejects(a: Answer) { a.Refused? && a.code.Some? && IsCredentialRejection(a.code.value) }

  datatype Event =
    | Ensure(id: nat, read: Option<Token>, now: int, skipProactive: bool, asked: bool)
    | Renew(id: nat, rejected: Token, read: Option<Token>)
    | Connect(id: nat)
    | OldTokenDeleted(id: nat)
    | Send(id: nat, stamp: Stamp, now: int)
    | NoPassword(id: nat)
    | Reply(id: nat, answer: Answer, now: int)
    | Stored(id: nat, now: int)
    | Caught(id: nat)
    | Ended(id: nat)
    | ClearAuthPause
    | Forget
    | Disconnect

  /** Every sign-in but Connect is registered, so that other requests wait for it. */
  predicate Registered(kind: Kind) { !kind.User? }

  predicate Automatic(call: Call) { !call.asked }

  /** ensureSessionToken from the reading of the token to the next await. */
  function OnEnsure(c: Settings, s: Sessions, id: nat, read: Option<Token>, now: int, skipProactive: bool, asked: bool): Sessions {
    if read.Some? && (skipProactive || s.suspended || !ShouldRefresh(c, s.issuedAt, now)) then s
    else if s.flight.Some? then s
    else s.(flight := Some(id), calls := s.calls[id := Call(if read.Some? then Proactive(read.value) else Missing, asked, Starting)])
  }

  /** renewRejectedSession from the reading of the token to the next await. */
  function OnRenew(s: Sessions, id: nat, rejected: Token, read: Option<Token>): Sessions {
    if read.Some? && read.value != rejected then s
    else if s.flight.Some? then s
    else s.(flight := Some(id), calls := s.calls[id := Call(Renewal(rejected), false, Deleting)])
  }

  /** Whether an automatic sign-in may be sent. A pause for other credentials is dropped first. */
  function Check(s: Sessions, stamp: Stamp, now: int): (Sessions, bool) {
    if s.pause.Some? && s.pause.value.stamp == stamp then (s, false)
    else (s.(pause := None), !(s.backoff.Some? && s.backoff.value.until > now))
  }

  function Power2(n: nat): nat { if n == 0 then 1 else 2 * Power2(n - 1) }

  function Delay(attempts: nat): int
    requires attempts >= 1
  {
    var grown := 30000 * Power2(attempts - 1);
    if grown < 300000 then grown else 300000
  }

  function RecordFailure(s: Sessions, stamp: Stamp, code: Option<string>, now: int): Sessions {
    if code.Some? && IsCredentialRejection(code.value) then s.(pause := Some(Pause(code.value, stamp)))
    else if code == Some("956") then
      var attempts := (if s.backoff.Some? then s.backoff.value.attempts else 0) + 1;
      s.(backoff := Some(Backoff(now + Delay(attempts), attempts)))
    else s
  }

  function At(s: Sessions, id: nat, stage: Stage): Sessions
    requires id in s.calls
  {
    s.(calls := s.calls[id := s.calls[id].(stage := stage)])
  }

  function Step(c: Settings, s: Sessions, e: Event): Sessions {
    match e
    case Ensure(id, read, now, skipProactive, asked) =>
      if id in s.calls then s else OnEnsure(c, s, id, read, now, skipProactive, asked)
    case Renew(id, rejected, read) => if id in s.calls then s else OnRenew(s, id, rejected, read)
    case Connect(id) => if id in s.calls then s else s.(calls := s.calls[id := Call(User, true, Starting)])
    case OldTokenDeleted(id) =>
      if id in s.calls && s.calls[id].stage.Deleting? then At(s, id, Starting).(token := None, issuedAt := None) else s
    case Send(id, stamp, now) =>
      if !(id in s.calls && s.calls[id].stage.Starting?) then s
      else if s.calls[id].asked then At(s, id, Sent(stamp))
      else
        var (checked, allowed) := Check(s, stamp, now);
        At(checked, id, if allowed then Sent(stamp) else Failed)
    case NoPassword(id) => if id in s.calls && s.calls[id].stage.Starting? then At(s, id, Failed) else s
    case Reply(id, answer, now) =>
      if !(id in s.calls && s.calls[id].stage.Sent?) then s
      else if answer.Accepted? then At(s, id, Storing).(token := Some(answer.token))
      else
        var noted := if s.calls[id].kind.Proactive? then s else RecordFailure(s, s.calls[id].stage.stamp, answer.code, now);
        At(noted, id, Failed)
    case Stored(id, now) =>
      if id in s.calls && s.calls[id].stage.Storing?
      then At(s, id, Succeeded).(issuedAt := Some(now), pause := None, backoff := None, suspended := false) else s
    case Caught(id) =>
      if id in s.calls && s.calls[id].stage.Failed?
      then At(s, id, Settled).(suspended := s.suspended || s.calls[id].kind.Proactive?) else s
    case Ended(id) =>
      if id in s.calls && (s.calls[id].stage.Succeeded? || s.calls[id].stage.Settled?)
      then s.(flight := if Registered(s.calls[id].kind) then None else s.flight, calls := s.calls - {id}) else s
    case ClearAuthPause => s.(pause := None, backoff := None, suspended := false)
    case Forget => s.(pause := None, backoff := None, suspended := false, issuedAt := None, flight := None)
    case Disconnect => s.(token := None, issuedAt := None)
  }

  function Run(c: Settings, s: Sessions, events: seq<Event>): Sessions
    decreases |events|
  {
    if events == [] then s else Run(c, Step(c, s, events[0]), events[1..])
  }

  function Idle(token: Option<Token>, issuedAt: Option<int>): Sessions {
    Sessions(token, issuedAt, None, false, None, None, map[])
  }

  // ---- One registered sign-in at a time ----

  ghost predicate SingleFlight(s: Sessions) {
    && (forall id :: id in s.calls && Registered(s.calls[id].kind) ==> s.flight == Some(id))
    && (s.flight.Some? ==> s.flight.value in s.calls && Registered(s.calls[s.flight.value].kind))
    && (forall id :: id in s.calls && s.calls[id].stage.Deleting? ==> s.calls[id].kind.Renewal?)
    && (forall id :: id in s.calls && Automatic(s.calls[id]) ==> Registered(s.calls[id].kind))
  }

  lemma {:induction false} StepKeepsSingleFlight(c: Settings, s: Sessions, e: Event)
    requires SingleFlight(s) && !e.Forget?
    ensures SingleFlight(Step(c, s, e))
  {
    if e.Ensure? || e.Renew? || e.Connect? {
      StartKeepsSingleFlight(c, s, e);
    } else if e.Reply? {
      ReplyKeepsSingleFlight(c, s, e);
    } else if e.Send? {
      SendKeepsSingleFlight(c, s, e);
    } else {
      hide Check, RecordFailure;
    }
  }

  lemma {:induction false} SendKeepsSingleFlight(c: Settings, s: Sessions, e: Event)
    requires SingleFlight(s) && e.Send?
    ensures SingleFlight(Step(c, s, e))
  {
    CheckLeavesCalls(s, e.stamp, e.now);
    hide Check;
  }

  lemma {:induction false} StartKeepsSingleFlight(c: Settings, s: Sessions, e: Event)
    requires SingleFlight(s) && (e.Ensure? || e.Renew? || e.Connect?)
    ensures SingleFlight(Step(c, s, e))
  {
    hide ShouldRefresh;
  }

  lemma {:induction false} ReplyKeepsSingleFlight(c: Settings, s: Sessions, e: Event)
    requires SingleFlight(s) && e.Reply?
    ensures SingleFlight(Step(c, s, e))
  {
    hide RecordFailure;
    if e.id in s.calls && s.calls[e.id].stage.Sent? && e.answer.Refused? {
      FailureLeavesCalls(s, s.calls[e.id].stage.stamp, e.answer.code, e.now);
    }
  }

  lemma FailureLeavesCalls(s: Sessions, stamp: Stamp, code: Option<string>, now: int)
    ensures var n := RecordFailure(s, stamp, code, now);
            n.calls == s.calls && n.flight == s.flight
  {}

  lemma CheckLeavesCalls(s: Sessions, stamp: Stamp, now: int)
    ensures var n := Check(s, stamp, now).0;
            n.calls == s.calls && n.flight == s.flight
  {}

  /** However requests, rejections, replies and user actions interleave, at most one sign-in besides Connect is under way. */
  lemma {:induction false} OneSignInAtATime(c: Settings, s: Sessions, events: seq<Event>)
    requires SingleFlight(s) && Forget !in events
    ensures SingleFlight(Run(c, s, events))
    decreases |events|
  {
    if events != [] {
      StepKeepsSingleFlight(c, s, events[0]);
      OneSignInAtATime(c, Step(c, s, events[0]), events[1..]);
    }
  }

  ghost predicate TwoUnderWay(s: Sessions) {
    exists i, j :: i in s.calls && j in s.calls && i != j && Registered(s.calls[i].kind) && Registered(s.calls[j].kind)
  }

  /** Forgetting a profile can lead to two sign-ins besides Connect at a time exactly when one was under way. */
  lemma {:induction false} ForgettingAllowsTwo(c: Settings, s: Sessions)
    requires SingleFlight(s)
    ensures (exists events :: Forget !in events && TwoUnderWay(Run(c, Step(c, s, Forget), events))) <==> s.flight.Some?
  {
    hide Run;
    var forgotten := Step(c, s, Forget);
    if s.flight.Some? {
      var id := FreshId(s.calls.Keys);
      OneMore(c, forgotten, s.flight.value, id);
      assert Forget !in [Ensure(id, None, 0, false, false)];
    } else {
      forall events: seq<Event> | Forget !in events ensures !TwoUnderWay(Run(c, forgotten, events)) {
        OneSignInAtATime(c, forgotten, events);
      }
    }
  }

  lemma {:induction false} OneMore(c: Settings, s: Sessions, first: nat, id: nat)
    requires s.flight.None? && first in s.calls && Registered(s.calls[first].kind) && id !in s.calls
    ensures TwoUnderWay(Run(c, s, [Ensure(id, None, 0, false, false)]))
  {
    var n := Step(c, s, Ensure(id, None, 0, false, false));
    assert n.calls == s.calls[id := Call(Missing, false, Starting)];
    assert Run(c, s, [Ensure(id, None, 0, false, false)]) == Run(c, n, []) == n;
    assert Registered(n.calls[first].kind) && Registered(n.calls[id].kind);
  }

  lemma {:induction false} FreshId(ids: set<nat>) returns (id: nat)
    ensures forall x :: x in ids ==> x < id
    decreases |ids|
  {
    if ids == {} {
      id := 0;
    } else {
      var x :| x in ids;
      var above := FreshId(ids - {x});
      id := Max(above, x + 1);
      forall y | y in ids ensures y < id {
        if y != x { assert y in ids - {x}; }
      }
    }
  }

  /** Two at a time, both sent: the profile is forgotten while a sign-in waits for its reply, and a request comes. */
  lemma {:induction false} TwoAreSentAfterForgetting(c: Settings, stamp: Stamp, now: int)
    ensures var end := Run(c, Idle(None, None),
                           [Ensure(1, None, now, false, false), Send(1, stamp, now), Forget,
                            Ensure(2, None, now, false, false), Send(2, stamp, now)]);
            Pending(end, 1) && Pending(end, 2) && Automatic(end.calls[1]) && Automatic(end.calls[2])
  {
    var s0 := Idle(None, None);
    var s1 := s0.(flight := Some(1), calls := map[1 := Call(Missing, false, Starting)]);
    var s2 := s1.(calls := map[1 := Call(Missing, false, Sent(stamp))]);
    var s3 := s2.(flight := None);
    var s4 := s3.(flight := Some(2), calls := s3.calls[2 := Call(Missing, false, Starting)]);
    var s5 := s4.(calls := s4.calls[2 := Call(Missing, false, Sent(stamp))]);
    assert Step(c, s0, Ensure(1, None, now, false, false)) == s1;
    assert Step(c, s1, Send(1, stamp, now)) == s2;
    assert Step(c, s2, Forget) == s3;
    assert Step(c, s3, Ensure(2, None, now, false, false)) == s4;
    assert Step(c, s4, Send(2, stamp, now)) == s5;
    hide Step;
    RunOne(c, s4, Send(2, stamp, now), []);
    RunOne(c, s3, Ensure(2, None, now, false, false), [Send(2, stamp, now)]);
    RunOne(c, s2, Forget, [Ensure(2, None, now, false, false), Send(2, stamp, now)]);
    RunOne(c, s1, Send(1, stamp, now), [Forget, Ensure(2, None, now, false, false), Send(2, stamp, now)]);
    RunOne(c, s0, Ensure(1, None, now, false, false), [Send(1, stamp, now), Forget, Ensure(2, None, now, false, false), Send(2, stamp, now)]);
  }

  lemma {:induction false} RunOne(c: Settings, s: Sessions, e: Event, rest: seq<Event>)
    ensures Run(c, s, [e] + rest) == Run(c, Step(c, s, e), rest)
  {
    assert ([e] + rest)[1..] == rest;
  }

  // ---- The lockout bound ----

  predicate Pending(s: Sessions, id: nat) { id in s.calls && s.calls[id].stage.Sent? }

  predicate CountsProactive(s: Sessions, e: Event) {
    e.Reply? && Pending(s, e.id) && Automatic(s.calls[e.id]) && Rejects(e.answer) && s.calls[e.id].kind.Proactive?
  }

  predicate CountsOrdinary(s: Sessions, e: Event) {
    e.Reply? && Pending(s, e.id) && Automatic(s.calls[e.id]) && Rejects(e.answer) && !s.calls[e.id].kind.Proactive?
  }

  /** Automatic sign-ins FileMaker rejects for their credentials during a run: ahead of expiry, and ordinary ones. */
  function Rejections(c: Settings, s: Sessions, events: seq<Event>): (nat, nat)
    decreases |events|
  {
    if events == [] then (0, 0)
    else
      var (p, o) := Rejections(c, Step(c, s, events[0]), events[1..]);
      (p + (if CountsProactive(s, events[0]) then 1 else 0), o + if CountsOrdinary(s, events[0]) then 1 else 0)
  }

  /** The same credentials throughout, and nothing that lifts a pause. */
  ghost predicate Undisturbed(events: seq<Event>, stamp: Stamp) {
    forall i :: 0 <= i < |events| ==> Quiet(events[i], stamp)
  }

  predicate Quiet(e: Event, stamp: Stamp) {
    && !e.ClearAuthPause? && !e.Forget?
    && (e.Send? ==> e.stamp == stamp)
    && (e.Reply? ==> !e.answer.Accepted?)
  }

  /** What is left of the two rejections: none ahead of expiry once renewals are suspended, none ordinary once paused. */
  ghost predicate Budget(s: Sessions, stamp: Stamp, proactive: nat, ordinary: nat) {
    && SingleFlight(s) && proactive <= 1 && ordinary <= 1
    && (forall id :: id in s.calls ==> Allowed(s.calls[id], stamp, proactive, ordinary))
    && (s.pause.Some? ==> s.pause.value.stamp == stamp)
    && (proactive == 0 ==> s.suspended || ProactiveFailing(s))
    && (ordinary == 0 ==> s.pause.Some?)
  }

  /** A sign-in that may still be rejected needs its rejection left in the budget. */
  predicate Allowed(call: Call, stamp: Stamp, proactive: nat, ordinary: nat) {
    && !call.stage.Storing? && !call.stage.Succeeded?
    && (call.stage.Sent? ==> call.stage.stamp == stamp)
    && (call.kind.Proactive? && (call.stage.Starting? || call.stage.Sent?) ==> proactive == 1)
    && (Automatic(call) && !call.kind.Proactive? && call.stage.Sent? ==> ordinary == 1)
  }

  ghost predicate ProactiveFailing(s: Sessions) {
    s.flight.Some? && s.flight.value in s.calls
    && s.calls[s.flight.value].kind.Proactive? && s.calls[s.flight.value].stage.Failed?
  }

  lemma StepSpends(c: Settings, s: Sessions, e: Event, stamp: Stamp, proactive: nat, ordinary: nat)
    returns (proactive': nat, ordinary': nat)
    requires Budget(s, stamp, proactive, ordinary) && Quiet(e, stamp)
    ensures Budget(Step(c, s, e), stamp, proactive', ordinary')
    ensures proactive == proactive' + (if CountsProactive(s, e) then 1 else 0)
    ensures ordinary == ordinary' + (if CountsOrdinary(s, e) then 1 else 0)
  {
    hide ShouldRefresh, IsCredentialRejection, Delay, Power2;
    proactive', ordinary' := proactive, ordinary;
    match e
    case Reply(id, answer, now) => proactive', ordinary' := ReplySpends(c, s, e, stamp, proactive, ordinary);
    case Send(id, sent, now) => SendSpends(c, s, e, stamp, proactive, ordinary);
    case Ensure(_, _, _, _, _) => StartSpends(c, s, e, stamp, proactive, ordinary);
    case Renew(_, _, _) => StartSpends(c, s, e, stamp, proactive, ordinary);
    case _ => StepKeepsSingleFlight(c, s, e);
  }

  lemma StartSpends(c: Settings, s: Sessions, e: Event, stamp: Stamp, proactive: nat, ordinary: nat)
    requires Budget(s, stamp, proactive, ordinary) && (e.Ensure? || e.Renew?)
    ensures Budget(Step(c, s, e), stamp, proactive, ordinary)
  {
    StepKeepsSingleFlight(c, s, e);
    hide ShouldRefresh;
  }

  lemma SendSpends(c: Settings, s: Sessions, e: Event, stamp: Stamp, proactive: nat, ordinary: nat)
    requires Budget(s, stamp, proactive, ordinary) && Quiet(e, stamp) && e.Send?
    ensures Budget(Step(c, s, e), stamp, proactive, ordinary)
  {
    StepKeepsSingleFlight(c, s, e);
    hide SingleFlight;
  }

  lemma ReplySpends(c: Settings, s: Sessions, e: Event, stamp: Stamp, proactive: nat, ordinary: nat)
    returns (proactive': nat, ordinary': nat)
    requires Budget(s, stamp, proactive, ordinary) && Quiet(e, stamp) && e.Reply?
    ensures Budget(Step(c, s, e), stamp, proactive', ordinary')
    ensures proactive == proactive' + (if CountsProactive(s, e) then 1 else 0)
    ensures ordinary == ordinary' + (if CountsOrdinary(s, e) then 1 else 0)
  {
    hide IsCredentialRejection, Delay, Power2, ShouldRefresh, Check;
    proactive' := if CountsProactive(s, e) then 0 else proactive;
    ordinary' := if CountsOrdinary(s, e) then 0 else ordinary;
    StepKeepsSingleFlight(c, s, e);
  }

  lemma {:induction false} RejectionsAreBounded(
    c: Settings, s: Sessions, events: seq<Event>, stamp: Stamp, proactive: nat, ordinary: nat)
    requires Budget(s, stamp, proactive, ordinary) && Undisturbed(events, stamp)
    ensures var (p, o) := Rejections(c, s, events); p <= proactive && o <= ordinary
    decreases |events|
  {
    if events != [] {
      var e := events[0];
      assert Quiet(e, stamp);
      var p', o' := StepSpends(c, s, e, stamp, proactive, ordinary);
      RejectionsAreBounded(c, Step(c, s, e), events[1..], stamp, p', o');
    }
  }

  /**
   * The lockout bound: with the same credentials and nothing that lifts a pause, FileMaker sees at most two
   * wrong automatic sign-ins, one ahead of expiry and one ordinary, over any run whatever.
   */
  lemma {:induction false} LockoutBound(c: Settings, token: Option<Token>, issuedAt: Option<int>, events: seq<Event>, stamp: Stamp)
    requires Undisturbed(events, stamp)
    ensures var (p, o) := Rejections(c, Idle(token, issuedAt), events); p <= 1 && o <= 1
  {
    RejectionsAreBounded(c, Idle(token, issuedAt), events, stamp, 1, 1);
  }

  /** Paused for these credentials, with nothing under way that could be accepted or was sent with others. */
  ghost predicate PausedFor(s: Sessions, stamp: Stamp) {
    && s.pause.Some? && s.pause.value.stamp == stamp
    && forall id :: id in s.calls ==> !s.calls[id].stage.Storing? && !s.calls[id].stage.Succeeded?
                                      && (s.calls[id].stage.Sent? ==> s.calls[id].stage.stamp == stamp)
  }

  lemma {:induction false} PauseStands(c: Settings, s: Sessions, e: Event, stamp: Stamp)
    requires PausedFor(s, stamp) && Quiet(e, stamp)
    ensures var n := Step(c, s, e);
            && PausedFor(n, stamp)
            && forall id :: Pending(n, id) && Automatic(n.calls[id]) ==> Pending(s, id) && s.calls[id] == n.calls[id]
  {
    hide ShouldRefresh, IsCredentialRejection, Delay, Power2;
  }

  /** Once a pause for these credentials stands, no run sends another automatic sign-in with them. */
  lemma {:induction false} NoneIsSentWhilePaused(c: Settings, s: Sessions, events: seq<Event>, stamp: Stamp)
    requires PausedFor(s, stamp) && Undisturbed(events, stamp)
    ensures var end := Run(c, s, events);
            && PausedFor(end, stamp)
            && forall id :: Pending(end, id) && Automatic(end.calls[id]) ==> Pending(s, id) && s.calls[id] == end.calls[id]
    decreases |events|
  {
    if events != [] {
      hide Step, Quiet, PausedFor;
      assert Quiet(events[0], stamp);
      PauseStands(c, s, events[0], stamp);
      NoneIsSentWhilePaused(c, Step(c, s, events[0]), events[1..], stamp);
    }
  }

  /** Both rejections can really happen: one ahead of expiry, then the one that sets the pause. */
  lemma {:induction false} BothRejectionsHappen(c: Settings, stamp: Stamp, token: Token, now: int)
    requires 0 < c.refreshLeadMs && 0 <= c.maxAgeMs
    ensures exists events :: Undisturbed(events, stamp)
              && Rejections(c, Idle(Some(token), Some(now - c.maxAgeMs)), events) == (1, 1)
  {
    var no := WrongPassword;
    var s0 := Idle(Some(token), Some(now - c.maxAgeMs));
    var first := [Ensure(1, Some(token), now, false, false), Send(1, stamp, now), Reply(1, no, now), Caught(1), Ended(1)];
    var second := [Renew(2, token, Some(token)), OldTokenDeleted(2), Send(2, stamp, now), Reply(2, no, now)];
    ProactiveRejection(c, stamp, token, now, second);
    RenewalRejection(c, stamp, s0.(suspended := true), token, now);
    assert Undisturbed(first + second, stamp);
  }

  const WrongPassword := Refused(Some("212"))

  lemma WrongPasswordRejects()
    ensures Rejects(WrongPassword)
  {}

  /** The states of a renewal ahead of expiry that is rejected. */
  lemma ProactiveStates(c: Settings, stamp: Stamp, token: Token, now: int)
    requires 0 < c.refreshLeadMs && 0 <= c.maxAgeMs
    ensures var s0 := Idle(Some(token), Some(now - c.maxAgeMs));
            var at := (stage: Stage) => s0.(flight := Some(1), calls := map[1 := Call(Proactive(token), false, stage)]);
            && Step(c, s0, Ensure(1, Some(token), now, false, false)) == at(Starting)
            && Step(c, at(Starting), Send(1, stamp, now)) == at(Sent(stamp))
            && Step(c, at(Sent(stamp)), Reply(1, WrongPassword, now)) == at(Failed)
            && Step(c, at(Failed), Caught(1)) == at(Settled).(suspended := true)
            && Step(c, at(Settled).(suspended := true), Ended(1)) == s0.(suspended := true)
  {
    hide IsCredentialRejection;
  }

  lemma {:induction false} ProactiveRejection(c: Settings, stamp: Stamp, token: Token, now: int, rest: seq<Event>)
    requires 0 < c.refreshLeadMs && 0 <= c.maxAgeMs
    ensures var s0 := Idle(Some(token), Some(now - c.maxAgeMs));
            var (p, o) := Rejections(c, s0.(suspended := true), rest);
            Rejections(c, s0, [Ensure(1, Some(token), now, false, false), Send(1, stamp, now), Reply(1, WrongPassword, now), Caught(1), Ended(1)] + rest)
            == (p + 1, o)
  {
    var s0 := Idle(Some(token), Some(now - c.maxAgeMs));
    ProactiveStates(c, stamp, token, now);
    WrongPasswordRejects();
    hide Step, Rejects, Rejections;
    var at := (stage: Stage) => s0.(flight := Some(1), calls := map[1 := Call(Proactive(token), false, stage)]);
    var t4 := Unroll(c, at(Settled).(suspended := true), Ended(1), rest);
    var t3 := Unroll(c, at(Failed), Caught(1), t4);
    var t2 := Unroll(c, at(Sent(stamp)), Reply(1, WrongPassword, now), t3);
    var t1 := Unroll(c, at(Starting), Send(1, stamp, now), t2);
    var t0 := Unroll(c, s0, Ensure(1, Some(token), now, false, false), t1);
    assert t0 == [Ensure(1, Some(token), now, false, false), Send(1, stamp, now), Reply(1, WrongPassword, now), Caught(1), Ended(1)] + rest;
  }

  lemma {:induction false} RenewalRejection(c: Settings, stamp: Stamp, s0: Sessions, token: Token, now: int)
    requires s0.token == Some(token) && s0.flight.None? && s0.calls == map[] && s0.pause.None? && s0.backoff.None?
    ensures Rejections(c, s0, [Renew(2, token, Some(token)), OldTokenDeleted(2), Send(2, stamp, now), Reply(2, WrongPassword, now)])
            == (0, 1)
  {
    var no := WrongPassword;
    var s1 := Step(c, s0, Renew(2, token, Some(token)));
    var s2 := Step(c, s1, OldTokenDeleted(2));
    var s3 := Step(c, s2, Send(2, stamp, now));
    assert s1 == s0.(flight := Some(2), calls := map[2 := Call(Renewal(token), false, Deleting)]);
    assert s2 == s1.(calls := map[2 := Call(Renewal(token), false, Starting)], token := None, issuedAt := None);
    assert s3 == s2.(calls := map[2 := Call(Renewal(token), false, Sent(stamp))]);
    WrongPasswordRejects();
    hide Step, Rejects;
    assert CountsOrdinary(s3, Reply(2, no, now));
    var t3 := Unroll(c, s3, Reply(2, no, now), []);
    var t2 := Unroll(c, s2, Send(2, stamp, now), t3);
    var t1 := Unroll(c, s1, OldTokenDeleted(2), t2);
    var t0 := Unroll(c, s0, Renew(2, token, Some(token)), t1);
    assert t0 == [Renew(2, token, Some(token)), OldTokenDeleted(2), Send(2, stamp, now), Reply(2, no, now)];
  }

  lemma Unroll(c: Settings, s: Sessions, e: Event, rest: seq<Event>) returns (all: seq<Event>)
    ensures all == [e] + rest
    ensures var (p, o) := Rejections(c, Step(c, s, e), rest);
            Rejections(c, s, all)
            == (p + (if CountsProactive(s, e) then 1 else 0), o + if CountsOrdinary(s, e) then 1 else 0)
  {
    all := [e] + rest;
    assert all[1..] == rest;
  }

  // ---- A rejected token is replaced once ----

  predicate Succeeds(s: Sessions, e: Event) {
    e.Reply? && Pending(s, e.id) && e.answer.Accepted? && Registered(s.calls[e.id].kind)
  }

  /** Sign-ins besides Connect that succeed during a run. */
  function Successes(c: Settings, s: Sessions, events: seq<Event>): nat
    decreases |events|
  {
    if events == [] then 0
    else Successes(c, Step(c, s, events[0]), events[1..]) + if Succeeds(s, events[0]) then 1 else 0
  }

  /** What a request has read still leads to the same decision as what is stored. */
  predicate Current(s: Sessions, e: Event) {
    && (e.Renew? ==> (e.read.Some? && e.read.value != e.rejected) || s.token.None? || s.token.value == e.rejected)
    && (e.Ensure? ==> e.read.Some? || s.token.None?)
  }

  /**
   * Only requests rejected with `t`, requests that find no token due for renewal, the sign-ins they cause, and sign-ins
   * by the user. A request goes on with what is current, or while a sign-in is registered, whatever it has read.
   */
  predicate About(c: Settings, s: Sessions, e: Event, t: Token) {
    && !e.Disconnect? && !e.Forget?
    && (e.Renew? ==> e.rejected == t)
    && (e.Ensure? && e.read.Some? ==> e.skipProactive || s.suspended || !ShouldRefresh(c, s.issuedAt, e.now))
    && (e.Reply? && e.answer.Accepted? ==> e.answer.token != t)
    && (Current(s, e) || s.flight.Some?)
  }

  ghost predicate AllAbout(c: Settings, s: Sessions, events: seq<Event>, t: Token)
    decreases |events|
  {
    events != [] ==> About(c, s, events[0], t) && AllAbout(c, Step(c, s, events[0]), events[1..], t)
  }

  /** After the replacement a token other than `t` is stored, and the only sign-in besides Connect is the one that did it. */
  ghost predicate Replacing(s: Sessions, t: Token, successes: nat) {
    && SingleFlight(s) && successes <= 1
    && (forall id :: id in s.calls && Registered(s.calls[id].kind) ==> InStep(s.calls[id], successes))
    && (successes == 1 ==> s.token.Some? && s.token.value != t)
  }

  predicate InStep(call: Call, successes: nat) {
    !call.kind.Proactive? && ((call.stage.Storing? || call.stage.Succeeded?) <==> successes == 1)
  }

  ghost predicate NoUser(s: Sessions) { forall id :: id in s.calls ==> !s.calls[id].kind.User? }

  predicate NoConnect(events: seq<Event>) { forall i :: 0 <= i < |events| ==> !events[i].Connect? }

  lemma {:induction false} ReplacedOnce(c: Settings, s: Sessions, events: seq<Event>, t: Token, successes: nat)
    requires Replacing(s, t, successes) && AllAbout(c, s, events, t)
    ensures Replacing(Run(c, s, events), t, successes + Successes(c, s, events))
    ensures successes == 1 && NoUser(s) && NoConnect(events) ==> Run(c, s, events).token == s.token
    decreases |events|
  {
    if events != [] {
      hide Step, About, Replacing, NoUser, Succeeds;
      var n := Step(c, s, events[0]);
      ReplacingStep(c, s, events[0], t, successes);
      ReplacedOnce(c, n, events[1..], t, successes + if Succeeds(s, events[0]) then 1 else 0);
    }
  }

  lemma {:induction false} ReplacingStep(c: Settings, s: Sessions, e: Event, t: Token, successes: nat)
    requires Replacing(s, t, successes) && About(c, s, e, t)
    ensures Replacing(Step(c, s, e), t, successes + if Succeeds(s, e) then 1 else 0)
    ensures successes == 1 && NoUser(s) && !e.Connect? ==> NoUser(Step(c, s, e)) && Step(c, s, e).token == s.token
  {
    if e.Ensure? || e.Renew? || e.Connect? {
      StartIsInStep(c, s, e, t, successes);
    } else if e.Reply? {
      ReplyIsInStep(c, s, e, t, successes);
    } else if e.Send? {
      SendIsInStep(c, s, e, t, successes);
    } else {
      StepKeepsSingleFlight(c, s, e);
      hide RecordFailure, Check, SingleFlight, ShouldRefresh;
    }
  }

  lemma {:induction false} SendIsInStep(c: Settings, s: Sessions, e: Event, t: Token, successes: nat)
    requires Replacing(s, t, successes) && e.Send?
    ensures Replacing(Step(c, s, e), t, successes)
    ensures Step(c, s, e).token == s.token && (NoUser(s) ==> NoUser(Step(c, s, e)))
  {
    StepKeepsSingleFlight(c, s, e);
    hide SingleFlight, Check;
    CheckKeepsCalls(s, e.stamp, e.now);
  }

  lemma {:induction false} StartIsInStep(c: Settings, s: Sessions, e: Event, t: Token, successes: nat)
    requires Replacing(s, t, successes) && About(c, s, e, t) && (e.Ensure? || e.Renew? || e.Connect?)
    ensures Replacing(Step(c, s, e), t, successes)
    ensures !e.Connect? && NoUser(s) ==> NoUser(Step(c, s, e))
    ensures Step(c, s, e).token == s.token
  {
    StepKeepsSingleFlight(c, s, e);
    hide ShouldRefresh;
  }

  lemma {:induction false} ReplyIsInStep(c: Settings, s: Sessions, e: Event, t: Token, successes: nat)
    requires Replacing(s, t, successes) && About(c, s, e, t) && e.Reply?
    ensures Replacing(Step(c, s, e), t, successes + if Succeeds(s, e) then 1 else 0)
    ensures successes == 1 && NoUser(s) ==> NoUser(Step(c, s, e)) && Step(c, s, e).token == s.token
  {
    StepKeepsSingleFlight(c, s, e);
    hide RecordFailure;
    FailureKeepsCalls(s, e.answer, e.now);
  }

  lemma FailureKeepsCalls(s: Sessions, a: Answer, now: int)
    ensures a.Refused? ==> forall stamp :: var n := RecordFailure(s, stamp, a.code, now);
                             n.calls == s.calls && n.token == s.token && n.flight == s.flight
  {}

  lemma CheckKeepsCalls(s: Sessions, stamp: Stamp, now: int)
    ensures var n := Check(s, stamp, now).0; n.calls == s.calls && n.token == s.token && n.flight == s.flight
  {}

  /**
   * However many requests are rejected with the same token, at most one sign-in besides Connect succeeds, and
   * from then on every one of them finds another token, the same one throughout unless the user signs in too.
   */
  lemma {:induction false} RejectedTokenIsReplacedOnce(
    c: Settings, t: Token, issuedAt: Option<int>, before: seq<Event>, after: seq<Event>)
    requires AllAbout(c, Idle(Some(t), issuedAt), before, t)
    requires AllAbout(c, Run(c, Idle(Some(t), issuedAt), before), after, t)
    ensures var s := Run(c, Idle(Some(t), issuedAt), before);
            var n := Successes(c, Idle(Some(t), issuedAt), before);
            && n <= 1
            && (n == 1 ==>
                  && var end := Run(c, s, after);
                  && Successes(c, s, after) == 0
                  && s.token.Some? && s.token.value != t && end.token.Some? && end.token.value != t
                  && (NoUser(s) && NoConnect(after) ==> end.token == s.token))
  {
    hide Run, Successes, AllAbout;
    ReplacedOnce(c, Idle(Some(t), issuedAt), before, t, 0);
    var s := Run(c, Idle(Some(t), issuedAt), before);
    ReplacedOnce(c, s, after, t, Successes(c, Idle(Some(t), issuedAt), before));
  }

  /**
   * After the replacement a request with nothing else in flight starts another sign-in exactly when it goes on with a
   * reading that is not current: the rejected token or none, though the new one is stored.
   */
  lemma {:induction false} OnlyStaleReadsRenewAgain(c: Settings, s: Sessions, e: Event, t: Token)
    requires Replacing(s, t, 1) && s.flight.None? && (e.Ensure? || e.Renew?) && e.id !in s.calls
    requires e.Renew? ==> e.rejected == t
    requires e.Ensure? && e.read.Some? ==> e.skipProactive || s.suspended || !ShouldRefresh(c, s.issuedAt, e.now)
    ensures Step(c, s, e) != s <==> !Current(s, e)
  {
    hide ShouldRefresh;
  }

  /** It can happen: a request reads the rejected token, the renewal of another ends, and the first goes on. */
  lemma {:induction false} StaleReadRenewsAgain(c: Settings, stamp: Stamp, t: Token, t1: Token, t2: Token, now: int)
    ensures Successes(c, Idle(Some(t), None), Renewing(1, t, stamp, t1, now) + Renewing(2, t, stamp, t2, now)) == 2
  {
    var rest := Renewing(2, t, stamp, t2, now);
    RenewalSucceeds(c, Idle(Some(t), None), 1, t, stamp, t1, now, rest);
    RenewalSucceeds(c, Idle(Some(t1), Some(now)), 2, t, stamp, t2, now, []);
    assert rest + [] == rest;
  }

  /** A renewal from the reading of the rejected token to its end. */
  function Renewing(id: nat, t: Token, stamp: Stamp, replacement: Token, now: int): seq<Event> {
    [Renew(id, t, Some(t)), OldTokenDeleted(id), Send(id, stamp, now), Reply(id, Accepted(replacement), now), Stored(id, now), Ended(id)]
  }

  function RenewalAt(s: Sessions, id: nat, t: Token, stage: Stage): Sessions {
    s.(flight := Some(id), calls := map[id := Call(Renewal(t), false, stage)])
  }

  lemma RenewalStates(c: Settings, s: Sessions, id: nat, t: Token, stamp: Stamp, replacement: Token, now: int)
    requires s.flight.None? && s.calls == map[] && s.pause.None? && s.backoff.None? && !s.suspended
    ensures var none := s.(token := None, issuedAt := None);
            var renewed := Idle(Some(replacement), Some(now));
            var accepted := renewed.(issuedAt := None);
            && Step(c, s, Renew(id, t, Some(t))) == RenewalAt(s, id, t, Deleting)
            && Step(c, RenewalAt(s, id, t, Deleting), OldTokenDeleted(id)) == RenewalAt(none, id, t, Starting)
            && Step(c, RenewalAt(none, id, t, Starting), Send(id, stamp, now)) == RenewalAt(none, id, t, Sent(stamp))
            && Step(c, RenewalAt(none, id, t, Sent(stamp)), Reply(id, Accepted(replacement), now)) == RenewalAt(accepted, id, t, Storing)
            && Step(c, RenewalAt(accepted, id, t, Storing), Stored(id, now)) == RenewalAt(renewed, id, t, Succeeded)
            && Step(c, RenewalAt(renewed, id, t, Succeeded), Ended(id)) == renewed
            && Succeeds(RenewalAt(none, id, t, Sent(stamp)), Reply(id, Accepted(replacement), now))
  {
    hide ShouldRefresh, IsCredentialRejection, Delay, Power2, RecordFailure;
  }

  lemma {:induction false} RenewalSucceeds(
    c: Settings, s: Sessions, id: nat, t: Token, stamp: Stamp, replacement: Token, now: int, rest: seq<Event>)
    requires s.flight.None? && s.calls == map[] && s.pause.None? && s.backoff.None? && !s.suspended
    ensures Successes(c, s, Renewing(id, t, stamp, replacement, now) + rest)
            == 1 + Successes(c, Idle(Some(replacement), Some(now)), rest)
  {
    RenewalStates(c, s, id, t, stamp, replacement, now);
    hide Step, Succeeds, RenewalAt;
    var none := s.(token := None, issuedAt := None);
    var renewed := Idle(Some(replacement), Some(now));
    var accepted := renewed.(issuedAt := None);
    var r5 := CountOne(c, RenewalAt(renewed, id, t, Succeeded), Ended(id), rest);
    var r4 := CountOne(c, RenewalAt(accepted, id, t, Storing), Stored(id, now), r5);
    var r3 := CountOne(c, RenewalAt(none, id, t, Sent(stamp)), Reply(id, Accepted(replacement), now), r4);
    var r2 := CountOne(c, RenewalAt(none, id, t, Starting), Send(id, stamp, now), r3);
    var r1 := CountOne(c, RenewalAt(s, id, t, Deleting), OldTokenDeleted(id), r2);
    var r0 := CountOne(c, s, Renew(id, t, Some(t)), r1);
    assert r0 == Renewing(id, t, stamp, replacement, now) + rest;
  }

  lemma CountOne(c: Settings, s: Sessions, e: Event, rest: seq<Event>) returns (all: seq<Event>)
    ensures all == [e] + rest
    ensures Successes(c, s, all) == Successes(c, Step(c, s, e), rest) + if Succeeds(s, e) then 1 else 0
    ensures Succeeds(s, e) ==> e.Reply?
  {
    all := [e] + rest;
    assert all[1..] == rest;
  }

  // ---- No free sessions ----

  /** Until the wait is over no automatic sign-in is sent, whatever requests arrive. */
  lemma {:induction false} WaitIsKept(c: Settings, s: Sessions, events: seq<Event>)
    requires s.backoff.Some? && forall id :: id in s.calls ==> !s.calls[id].stage.Sent? && !s.calls[id].stage.Storing?
    requires forall id :: id in s.calls ==> Automatic(s.calls[id])
    requires forall i :: 0 <= i < |events| ==>
               !events[i].Connect? && !events[i].ClearAuthPause? && !events[i].Forget? && (events[i].Ensure? ==> !events[i].asked)
               && (events[i].Send? ==> events[i].now < s.backoff.value.until)
    ensures var end := Run(c, s, events);
            end.backoff == s.backoff && forall id :: !Pending(end, id)
    decreases |events|
  {
    if events != [] { WaitIsKept(c, Step(c, s, events[0]), events[1..]); }
  }

  // ---- The object ----

  class SessionControl {
    const settings: Settings
    var token: Option<Token>
    var issuedAt: Option<int>
    var pause: Option<Pause>
    var suspended: bool
    var backoff: Option<Backoff>
    var flight: Option<nat>
    var calls: map<nat, Call>

    ghost function Contents(): Sessions
      reads this
    {
      Sessions(token, issuedAt, pause, suspended, backoff, flight, calls)
    }

    constructor (settings: Settings, token: Option<Token>)
      ensures this.settings == settings && Contents() == Idle(token, None)
    {
      this.settings, this.token := settings, token;
      issuedAt, pause, suspended, backoff, flight, calls := None, None, false, None, None, map[];
    }

    /** Returns the token to use now; none means the caller waits for the sign-in in flight. */
    method EnsureSessionToken(id: nat, existing: Option<Token>, now: int, skipProactive: bool, asked: bool) returns (ready: Option<Token>)
      requires id !in calls
      modifies this
      ensures Contents() == Step(settings, old(Contents()), Ensure(id, existing, now, skipProactive, asked))
      ensures ready.Some? ==> ready == existing && Contents() == old(Contents())
      ensures ready.None? ==> flight.Some?
    {
      if existing.Some? && (skipProactive || suspended || !ShouldRefresh(settings, issuedAt, now)) {
        return existing;
      }
      if flight.Some? { return None; }
      calls := calls[id := Call(if existing.Some? then Proactive(existing.value) else Missing, asked, Starting)];
      flight := Some(id);
      return None;
    }

    method RenewRejectedSession(id: nat, rejected: Token, current: Option<Token>)
      requires id !in calls
      modifies this
      ensures Contents() == Step(settings, old(Contents()), Renew(id, rejected, current))
    {
      if current.Some? && current.value != rejected { return; }
      if flight.Some? { return; }
      calls := calls[id := Call(Renewal(rejected), false, Deleting)];
      flight := Some(id);
    }

    /** False where the source throws: sign-in paused, or waiting for a free session. */
    method AssertAutomaticSignInAllowed(stamp: Stamp, now: int) returns (allowed: bool)
      modifies this`pause
      ensures (Contents(), allowed) == Check(old(Contents()), stamp, now)
    {
      if pause.Some? {
        if pause.value.stamp != stamp { pause := None; } else { return false; }
      }
      if backoff.Some? && backoff.value.until > now { return false; }
      return true;
    }

    method SendSignIn(id: nat, stamp: Stamp, now: int)
      requires id in calls && calls[id].stage.Starting?
      modifies this
      ensures Contents() == Step(settings, old(Contents()), Send(id, stamp, now))
    {
      var allowed := true;
      if !calls[id].asked { allowed := AssertAutomaticSignInAllowed(stamp, now); }
      calls := calls[id := calls[id].(stage := if allowed then Sent(stamp) else Failed)];
    }

    method RecordSignInFailure(stamp: Stamp, code: Option<string>, now: int)
      modifies this`pause, this`backoff
      ensures Contents() == RecordFailure(old(Contents()), stamp, code, now)
    {
      if code.Some? && IsCredentialRejection(code.value) {
        pause := Some(Pause(code.value, stamp));
      } else if code == Some("956") {
        var attempts := (if backoff.Some? then backoff.value.attempts else 0) + 1;
        backoff := Some(Backoff(now + Delay(attempts), attempts));
      }
    }

    method OnReply(id: nat, answer: Answer, now: int)
      requires id in calls && calls[id].stage.Sent?
      modifies this
      ensures Contents() == Step(settings, old(Contents()), Reply(id, answer, now))
    {
      if answer.Accepted? {
        token := Some(answer.token);
        calls := calls[id := calls[id].(stage := Storing)];
        return;
      }
      if !calls[id].kind.Proactive? { RecordSignInFailure(calls[id].stage.stamp, answer.code, now); }
      calls := calls[id := calls[id].(stage := Failed)];
    }

    method OnTokenStored(id: nat, now: int)
      requires id in calls && calls[id].stage.Storing?
      modifies this
      ensures Contents() == Step(settings, old(Contents()), Stored(id, now))
    {
      issuedAt := Some(now);
      pause, backoff, suspended := None, None, false;
      calls := calls[id := calls[id].(stage := Succeeded)];
    }

    method OnFailureCaught(id: nat)
      requires id in calls && calls[id].stage.Failed?
      modifies this
      ensures Contents() == Step(settings, old(Contents()), Caught(id))
    {
      if calls[id].kind.Proactive? { suspended := true; }
      calls := calls[id := calls[id].(stage := Settled)];
    }

    method OnEnded(id: nat)
      requires id in calls && (calls[id].stage.Succeeded? || calls[id].stage.Settled?)
      modifies this
      ensures Contents() == Step(settings, old(Contents()), Ended(id))
    {
      if !calls[id].kind.User? { flight := None; }
      calls := calls - {id};
    }

    method ClearPause()
      modifies this
      ensures Contents() == Step(settings, old(Contents()), ClearAuthPause)
    {
      pause, backoff, suspended := None, None, false;
    }

    method ForgetProfile()
      modifies this
      ensures Contents() == Step(settings, old(Contents()), Forget)
    {
      pause, backoff, suspended, issuedAt, flight := None, None, false, None, None;
    }
  }
}
