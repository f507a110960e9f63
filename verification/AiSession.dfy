/**
 * The limits of one AI session: a record quota reserved before each read, sliding windows over calls and
 * writes, and one consent dialog per layout. Calls and session resets interleave freely.
 */
module AiSession {
  import opened Common

  const RECORD_QUOTA := 500
  const CALLS_PER_MINUTE := 30
  const WRITES_PER_SESSION := 10
  const WRITES_PER_MINUTE := 3
  const MAX_CONSENT_PROMPTS := 20
  const MAX_REFUSAL_AUDIT_PER_MINUTE := 10
  const MINUTE_MS := 60000

  // ---- The record quota ----

  datatype Reservation = Reservation(reserved: int, generation: nat)

  /** The two counters, the reservations of calls still in flight, and what settled calls of this session kept. */
  datatype Quota = Quota(recordsUsed: int, generation: nat, open: seq<Reservation>, kept: int)

  const NewQuota := Quota(0, 0, [], 0)

  datatype QuotaEvent = Reserve(wanted: nat) | SettleCall(call: nat, returned: nat) | ResetQuota

  function OnReserve(q: Quota, wanted: nat): (Quota, Option<Reservation>) {
    var remaining := RECORD_QUOTA - q.recordsUsed;
    if remaining <= 0 then (q, None)
    else
      var r := Reservation(Min(wanted, remaining), q.generation);
      (q.(recordsUsed := q.recordsUsed + r.reserved, open := q.open + [r]), Some(r))
  }

  /** Gives back what was not returned; a reservation of an earlier session gives nothing back. */
  function OnSettle(q: Quota, call: nat, returned: nat): Quota
    requires call < |q.open|
  {
    var r := q.open[call];
    var rest := q.(open := q.open[..call] + q.open[call + 1..]);
    if r.generation != q.generation then rest
    else rest.(recordsUsed := q.recordsUsed - Max(0, r.reserved - returned), kept := q.kept + Min(r.reserved, returned))
  }

  function OnReset(q: Quota): Quota { Quota(0, q.generation + 1, q.open, 0) }

  function QuotaStep(q: Quota, e: QuotaEvent): Quota {
    match e
    case Reserve(wanted) => OnReserve(q, wanted).0
    case SettleCall(call, returned) => if call < |q.open| then OnSettle(q, call, returned) else q
    case ResetQuota => OnReset(q)
  }

  function QuotaRun(q: Quota, events: seq<QuotaEvent>): Quota
    decreases |events|
  {
    if events == [] then q else QuotaRun(QuotaStep(q, events[0]), events[1..])
  }

  /** Records reserved by calls of session `generation` that have not settled. */
  function Unsettled(open: seq<Reservation>, generation: nat): int {
    if open == [] then 0
    else Unsettled(open[..|open| - 1], generation)
         + if open[|open| - 1].generation == generation then open[|open| - 1].reserved else 0
  }

  ghost predicate QuotaValid(q: Quota) {
    && q.recordsUsed == Unsettled(q.open, q.generation) + q.kept
    && 0 <= q.kept && q.recordsUsed <= RECORD_QUOTA
    && forall i :: 0 <= i < |q.open| ==> 0 <= q.open[i].reserved && q.open[i].generation <= q.generation
  }

  lemma {:induction false} UnsettledSplits(a: seq<Reservation>, r: Reservation, b: seq<Reservation>, g: nat)
    ensures Unsettled(a + [r] + b, g) == Unsettled(a + b, g) + if r.generation == g then r.reserved else 0
    decreases |b|
  {
    if b == [] {
      assert a + [r] + b == a + [r] && a + b == a && (a + [r])[..|a|] == a;
    } else {
      var init := b[..|b| - 1];
      assert (a + [r] + b)[..|a| + |b|] == a + [r] + init;
      assert (a + b)[..|a| + |b| - 1] == a + init;
      UnsettledSplits(a, r, init, g);
    }
  }

  lemma {:induction false} UnsettledIsNatural(open: seq<Reservation>, g: nat)
    requires forall i :: 0 <= i < |open| ==> 0 <= open[i].reserved
    ensures 0 <= Unsettled(open, g)
    ensures (forall i :: 0 <= i < |open| ==> open[i].generation != g) ==> Unsettled(open, g) == 0
    decreases |open|
  {
    if open != [] {
      assert forall i :: 0 <= i < |open| - 1 ==> open[..|open| - 1][i] == open[i];
      UnsettledIsNatural(open[..|open| - 1], g);
    }
  }

  lemma QuotaStepKeeps(q: Quota, e: QuotaEvent)
    requires QuotaValid(q)
    ensures QuotaValid(QuotaStep(q, e))
  {
    match e
    case Reserve(wanted) =>
      var (n, r) := OnReserve(q, wanted);
      if r.Some? { assert n.open[..|q.open|] == q.open; }
    case SettleCall(call, returned) =>
      if call < |q.open| {
        var a, r, b := q.open[..call], q.open[call], q.open[call + 1..];
        assert q.open == a + [r] + b;
        hide Unsettled;
        UnsettledSplits(a, r, b, q.generation);
      }
    case ResetQuota => UnsettledIsNatural(q.open, q.generation + 1);
  }

  lemma {:induction false} QuotaRunKeeps(q: Quota, events: seq<QuotaEvent>)
    requires QuotaValid(q)
    ensures QuotaValid(QuotaRun(q, events))
    decreases |events|
  {
    if events != [] {
      QuotaStepKeeps(q, events[0]);
      QuotaRunKeeps(QuotaStep(q, events[0]), events[1..]);
    }
  }

  /**
   * For every interleaving of calls and resets the counter is exactly the reservations still open plus
   * what this session's settled calls kept, it stays within 0 and 500, and so does what was kept.
   */
  lemma {:induction false} QuotaIsExact(events: seq<QuotaEvent>)
    ensures var q := QuotaRun(NewQuota, events);
            && q.recordsUsed == Unsettled(q.open, q.generation) + q.kept
            && 0 <= q.recordsUsed <= RECORD_QUOTA && 0 <= q.kept <= RECORD_QUOTA
  {
    hide QuotaRun, QuotaValid, Unsettled;
    NewQuotaIsValid();
    QuotaRunKeeps(NewQuota, events);
    QuotaBounds(QuotaRun(NewQuota, events));
  }

  lemma NewQuotaIsValid()
    ensures QuotaValid(NewQuota)
  {}

  lemma QuotaBounds(q: Quota)
    requires QuotaValid(q)
    ensures q.recordsUsed == Unsettled(q.open, q.generation) + q.kept
    ensures 0 <= q.recordsUsed <= RECORD_QUOTA && 0 <= q.kept <= RECORD_QUOTA
  {
    UnsettledIsNatural(q.open, q.generation);
  }

  // ---- Sliding windows ----

  function Prune(times: seq<int>, now: int): seq<int>
    decreases |times|
  {
    if times != [] && now - times[0] >= MINUTE_MS then Prune(times[1..], now) else times
  }

  /** A slot is taken if fewer than `cap` of the times kept are left after pruning. */
  function Take(times: seq<int>, now: int, cap: nat): (seq<int>, bool) {
    var left := Prune(times, now);
    if |left| >= cap then (left, false) else (left + [now], true)
  }

  /** The times kept and every time ever taken in the session, after calls at `nows`. */
  function TakeRun(times: seq<int>, taken: seq<int>, nows: seq<int>, cap: nat): (seq<int>, seq<int>)
    decreases |nows|
  {
    if nows == [] then (times, taken)
    else
      var (left, ok) := Take(times, nows[0], cap);
      TakeRun(left, if ok then taken + [nows[0]] else taken, nows[1..], cap)
  }

  ghost predicate Sorted(times: seq<int>) { forall i, j :: 0 <= i <= j < |times| ==> times[i] <= times[j] }

  /** The times kept are the latest ones; what was dropped is at least a minute old; any `cap` + 1 span a minute. */
  ghost predicate WindowValid(times: seq<int>, taken: seq<int>, last: int, cap: nat) {
    && |times| <= |taken| && times == taken[|taken| - |times|..]
    && Sorted(taken) && (forall i :: 0 <= i < |taken| ==> taken[i] <= last)
    && (forall i :: 0 <= i < |taken| - |times| ==> last - taken[i] >= MINUTE_MS)
    && (forall i :: 0 <= i < |taken| - cap ==> taken[i + cap] - taken[i] >= MINUTE_MS)
  }

  lemma {:induction false} PruneIsSuffix(times: seq<int>, now: int)
    ensures var left := Prune(times, now);
            && |left| <= |times| && left == times[|times| - |left|..]
            && (forall i :: 0 <= i < |times| - |left| ==> now - times[i] >= MINUTE_MS)
            && (left != [] ==> now - left[0] < MINUTE_MS)
    decreases |times|
  {
    if times != [] && now - times[0] >= MINUTE_MS { PruneIsSuffix(times[1..], now); }
  }

  lemma TakeKeeps(times: seq<int>, taken: seq<int>, last: int, now: int, cap: nat)
    requires WindowValid(times, taken, last, cap) && last <= now
    ensures var (left, ok) := Take(times, now, cap);
            WindowValid(left, if ok then taken + [now] else taken, now, cap)
  {
    PruneKeeps(times, taken, last, now, cap);
    hide Prune, WindowValid;
    if |Prune(times, now)| < cap { AppendKeeps(Prune(times, now), taken, now, cap); }
  }

  lemma AppendKeeps(left: seq<int>, taken: seq<int>, now: int, cap: nat)
    requires WindowValid(left, taken, now, cap) && |left| < cap
    ensures WindowValid(left + [now], taken + [now], now, cap)
  {
    var all := taken + [now];
    var kept := left + [now];
    assert kept == all[|all| - |kept|..];
    assert Sorted(all);
    forall i | 0 <= i < |all| - cap ensures all[i + cap] - all[i] >= MINUTE_MS {
      if i + cap == |taken| { assert i < |taken| - |left|; } else { assert all[i + cap] == taken[i + cap]; }
    }
  }

  lemma {:induction false} PruneKeeps(times: seq<int>, taken: seq<int>, last: int, now: int, cap: nat)
    requires WindowValid(times, taken, last, cap) && last <= now
    ensures WindowValid(Prune(times, now), taken, now, cap)
  {
    PruneIsSuffix(times, now);
    var left := Prune(times, now);
    hide Prune;
    assert left == taken[|taken| - |left|..];
    forall i | 0 <= i < |taken| - |left| ensures now - taken[i] >= MINUTE_MS {
      if i >= |taken| - |times| { assert taken[i] == times[i - (|taken| - |times|)]; }
    }
  }

  /** How many of the times taken lie less than a minute before `now`. */
  function Recent(taken: seq<int>, now: int): nat {
    if taken == [] then 0
    else Recent(taken[..|taken| - 1], now) + if now - taken[|taken| - 1] < MINUTE_MS then 1 else 0
  }

  lemma {:induction false} RecentIsSuffix(taken: seq<int>, now: int, k: nat)
    requires k <= |taken|
    requires forall i :: 0 <= i < |taken| ==> (now - taken[i] < MINUTE_MS <==> i >= k)
    ensures Recent(taken, now) == |taken| - k
    decreases |taken|
  {
    if taken != [] {
      var init := taken[..|taken| - 1];
      assert forall i :: 0 <= i < |init| ==> init[i] == taken[i];
      if k < |taken| {
        RecentIsSuffix(init, now, k);
      } else {
        RecentIsSuffix(init, now, k - 1);
      }
    }
  }

  /** The window is exact: a slot is given if and only if fewer than `cap` were given in the minute before. */
  lemma {:induction false} WindowIsExact(times: seq<int>, taken: seq<int>, last: int, now: int, cap: nat)
    requires WindowValid(times, taken, last, cap) && last <= now
    ensures Take(times, now, cap).1 <==> Recent(taken, now) < cap
  {
    PruneIsSuffix(times, now);
    var left := Prune(times, now);
    var k := |taken| - |left|;
    forall i | 0 <= i < |taken| ensures now - taken[i] < MINUTE_MS <==> i >= k {
      if i >= k {
        assert left[0] == taken[k] <= taken[i];
      } else if i >= |taken| - |times| {
        assert taken[i] == times[i - (|taken| - |times|)];
      }
    }
    RecentIsSuffix(taken, now, k);
  }

  lemma {:induction false} TakeRunKeeps(times: seq<int>, taken: seq<int>, last: int, nows: seq<int>, cap: nat)
    requires WindowValid(times, taken, last, cap) && Sorted([last] + nows)
    ensures var (left, all) := TakeRun(times, taken, nows, cap);
            WindowValid(left, all, if nows == [] then last else nows[|nows| - 1], cap)
    decreases |nows|
  {
    if nows != [] {
      SortedTail(last, nows);
      hide Sorted, WindowValid, Take;
      TakeKeeps(times, taken, last, nows[0], cap);
      var (left, ok) := Take(times, nows[0], cap);
      TakeRunKeeps(left, if ok then taken + [nows[0]] else taken, nows[0], nows[1..], cap);
    }
  }

  /** In every run under a clock that never goes back, any `cap` + 1 slots given span at least a minute. */
  lemma {:induction false} SlotsAreSpaced(nows: seq<int>, cap: nat, i: nat)
    requires Sorted(nows)
    ensures var given := TakeRun([], [], nows, cap).1;
            i + cap < |given| ==> given[i + cap] - given[i] >= MINUTE_MS
  {
    if nows != [] {
      assert [nows[0]] + nows == [nows[0], nows[0]] + nows[1..];
      TakeRunKeeps([], [], nows[0], nows, cap);
    }
  }

  // ---- Calls, writes and refusals ----

  datatype Slots = Slots(callTimes: seq<int>, writeTimes: seq<int>, writesUsed: nat)

  /** takeWriteSlot: the session's cap comes before the minute's. */
  function OnWrite(s: Slots, now: int): (Slots, bool) {
    var left := Prune(s.writeTimes, now);
    if s.writesUsed >= WRITES_PER_SESSION || |left| >= WRITES_PER_MINUTE then (s.(writeTimes := left), false)
    else (s.(writeTimes := left + [now], writesUsed := s.writesUsed + 1), true)
  }

  /** The write attempts accepted among calls at `nows` in one session. */
  function Writes(s: Slots, nows: seq<int>): seq<int>
    decreases |nows|
  {
    if nows == [] then []
    else
      var (s', ok) := OnWrite(s, nows[0]);
      (if ok then [nows[0]] else []) + Writes(s', nows[1..])
  }

  lemma {:induction false} WritesKeep(s: Slots, taken: seq<int>, last: int, nows: seq<int>)
    requires WindowValid(s.writeTimes, taken, last, WRITES_PER_MINUTE) && Sorted([last] + nows)
    requires s.writesUsed == |taken| <= WRITES_PER_SESSION
    ensures var all := taken + Writes(s, nows);
            && |all| <= WRITES_PER_SESSION
            && (forall i :: 0 <= i < |all| - WRITES_PER_MINUTE ==> all[i + WRITES_PER_MINUTE] - all[i] >= MINUTE_MS)
    decreases |nows|
  {
    if nows == [] {
      assert taken + [] == taken;
    } else {
      hide OnWrite, WindowValid, Writes, Sorted;
      var now := nows[0];
      SortedTail(last, nows);
      WritesStep(s, taken, nows);
      var (s', ok) := OnWrite(s, now);
      WriteKeepsWindow(s, taken, last, now);
      WritesKeep(s', if ok then taken + [now] else taken, now, nows[1..]);
    }
  }

  lemma SortedTail(last: int, nows: seq<int>)
    requires Sorted([last] + nows) && nows != []
    ensures last <= nows[0] && Sorted([nows[0]] + nows[1..])
  {
    assert ([last] + nows)[0] <= ([last] + nows)[1];
    assert forall i :: 0 <= i < |nows| ==> nows[i] == ([last] + nows)[i + 1];
    assert [nows[0]] + nows[1..] == nows;
  }

  lemma {:induction false} WritesStep(s: Slots, taken: seq<int>, nows: seq<int>)
    requires nows != []
    ensures var (s', ok) := OnWrite(s, nows[0]);
            taken + Writes(s, nows) == (if ok then taken + [nows[0]] else taken) + Writes(s', nows[1..])
  {
    hide OnWrite;
    var (s', ok) := OnWrite(s, nows[0]);
    assert taken + ([nows[0]] + Writes(s', nows[1..])) == taken + [nows[0]] + Writes(s', nows[1..]);
  }

  lemma WriteKeepsWindow(s: Slots, taken: seq<int>, last: int, now: int)
    requires WindowValid(s.writeTimes, taken, last, WRITES_PER_MINUTE) && last <= now
    requires s.writesUsed == |taken| <= WRITES_PER_SESSION
    ensures var (s', ok) := OnWrite(s, now);
            var taken' := if ok then taken + [now] else taken;
            WindowValid(s'.writeTimes, taken', now, WRITES_PER_MINUTE) && s'.writesUsed == |taken'| <= WRITES_PER_SESSION
  {
    PruneKeeps(s.writeTimes, taken, last, now, WRITES_PER_MINUTE);
    hide Prune, WindowValid;
    var left := Prune(s.writeTimes, now);
    if |left| < WRITES_PER_MINUTE { AppendKeeps(left, taken, now, WRITES_PER_MINUTE); }
  }

  /** In one session at most ten writes are attempted, and any four of them span at least a minute. */
  lemma {:induction false} WritesAreCapped(nows: seq<int>, i: nat)
    requires Sorted(nows)
    ensures var written := Writes(Slots([], [], 0), nows);
            |written| <= 10 && (i + 3 < |written| ==> written[i + 3] - written[i] >= 60000)
  {
    if nows != [] {
      assert [nows[0]] + nows == [nows[0], nows[0]] + nows[1..];
      WritesKeep(Slots([], [], 0), [], nows[0], nows);
      assert [] + Writes(Slots([], [], 0), nows) == Writes(Slots([], [], 0), nows);
    }
  }

  /** Refusals of calls that touched no layout: logged at most ten a minute, each log entry telling how many were not. */
  datatype RefusalLog = RefusalLog(times: seq<int>, suppressed: nat, entries: seq<nat>)

  function OnRefusal(r: RefusalLog, now: int): RefusalLog {
    var (times, logged) := Take(r.times, now, MAX_REFUSAL_AUDIT_PER_MINUTE);
    if logged then RefusalLog(times, 0, r.entries + [r.suppressed])
    else RefusalLog(times, r.suppressed + 1, r.entries)
  }

  function Refusals(r: RefusalLog, nows: seq<int>): RefusalLog
    decreases |nows|
  {
    if nows == [] then r else Refusals(OnRefusal(r, nows[0]), nows[1..])
  }

  function Total(entries: seq<nat>): nat {
    if entries == [] then 0 else Total(entries[..|entries| - 1]) + entries[|entries| - 1]
  }

  /** No refusal goes missing: each is an entry, told of in a later entry, or still to be told of. */
  lemma {:induction false} EveryRefusalIsAccountedFor(r: RefusalLog, nows: seq<int>)
    ensures var end := Refusals(r, nows);
            |end.entries| + Total(end.entries) + end.suppressed
            == |r.entries| + Total(r.entries) + r.suppressed + |nows|
    decreases |nows|
  {
    if nows != [] {
      var n := OnRefusal(r, nows[0]);
      if n.entries != r.entries { assert n.entries[..|r.entries|] == r.entries; }
      EveryRefusalIsAccountedFor(n, nows[1..]);
    }
  }

  // ---- Consent ----

  type Key = string

  datatype Answer = Waiting | Said(yes: bool) | Broke

  /** A dialog that was opened, the session it was opened in, and whether its clean-up has run. */
  datatype Dialog = Dialog(key: Key, generation: nat, answer: Answer, cleaned: bool)

  /** A call that waits for a dialog, and the session it waits in. */
  datatype Waiter = Waiter(key: Key, dialog: nat, generation: nat)

  datatype Consent = Consent(
    generation: nat, consented: set<Key>, declined: set<Key>, inFlight: map<Key, nat>, prompts: nat,
    dialogs: seq<Dialog>, waiters: map<nat, Waiter>)

  datatype ConsentEvent =
    | UseLayout(call: nat, key: Key)
    | AnswerDialog(dialog: nat, answer: Answer)
    | CleanUp(dialog: nat)
    | Resume(call: nat, aborted: bool, refused: bool)
    | ResetConsent

  const NewConsent := Consent(0, {}, {}, map[], 0, [], map[])

  /** useLayout up to its await: joins the dialog already open for the layout or opens one. */
  function OnUseLayout(c: Consent, call: nat, key: Key): Consent {
    if key in c.consented || key in c.declined then c
    else if key in c.inFlight then c.(waiters := c.waiters[call := Waiter(key, c.inFlight[key], c.generation)])
    else if c.prompts >= MAX_CONSENT_PROMPTS then c
    else
      var id := |c.dialogs|;
      c.(prompts := c.prompts + 1, dialogs := c.dialogs + [Dialog(key, c.generation, Waiting, false)],
         inFlight := c.inFlight[key := id], waiters := c.waiters[call := Waiter(key, id, c.generation)])
  }

  /** The dialog's `finally`: it removes its own entry, not one opened for the same layout after a reset. */
  function OnCleanUp(c: Consent, dialog: nat): Consent
    requires dialog < |c.dialogs|
  {
    var d := c.dialogs[dialog];
    var own := d.key in c.inFlight && c.inFlight[d.key] == dialog;
    c.(dialogs := c.dialogs[dialog := d.(cleaned := true)], inFlight := if own then c.inFlight - {d.key} else c.inFlight)
  }

  /** useLayout after its await. */
  function OnResume(c: Consent, call: nat, aborted: bool, refused: bool): Consent
    requires call in c.waiters && c.waiters[call].dialog < |c.dialogs|
  {
    var w := c.waiters[call];
    var answer := c.dialogs[w.dialog].answer;
    var gone := c.(waiters := c.waiters - {call});
    if !answer.Said? || aborted || w.generation != c.generation then gone
    else if !answer.yes then gone.(declined := c.declined + {w.key})
    else if refused then gone
    else gone.(consented := c.consented + {w.key})
  }

  function ConsentStep(c: Consent, e: ConsentEvent): Consent {
    match e
    case UseLayout(call, key) => if call in c.waiters then c else OnUseLayout(c, call, key)
    case AnswerDialog(dialog, answer) =>
      if dialog < |c.dialogs| && c.dialogs[dialog].answer.Waiting?
      then c.(dialogs := c.dialogs[dialog := c.dialogs[dialog].(answer := answer)]) else c
    case CleanUp(dialog) =>
      if dialog < |c.dialogs| && !c.dialogs[dialog].answer.Waiting? && !c.dialogs[dialog].cleaned then OnCleanUp(c, dialog) else c
    case Resume(call, aborted, refused) =>
      if call in c.waiters && c.waiters[call].dialog < |c.dialogs| && c.dialogs[c.waiters[call].dialog].cleaned
      then OnResume(c, call, aborted, refused) else c
    case ResetConsent => c.(generation := c.generation + 1, consented := {}, declined := {}, inFlight := map[], prompts := 0)
  }

  function ConsentRun(c: Consent, events: seq<ConsentEvent>): Consent
    decreases |events|
  {
    if events == [] then c else ConsentRun(ConsentStep(c, events[0]), events[1..])
  }

  /** How many dialogs session `generation` has opened. */
  function Opened(dialogs: seq<Dialog>, generation: nat): nat {
    if dialogs == [] then 0
    else Opened(dialogs[..|dialogs| - 1], generation) + if dialogs[|dialogs| - 1].generation == generation then 1 else 0
  }

  ghost predicate AnsweredInSession(c: Consent, key: Key, yes: bool) {
    exists d :: 0 <= d < |c.dialogs| && c.dialogs[d].key == key && c.dialogs[d].generation == c.generation
                && c.dialogs[d].answer == Said(yes)
  }

  ghost predicate ConsentValid(c: Consent) {
    && c.prompts == Opened(c.dialogs, c.generation) && c.prompts <= MAX_CONSENT_PROMPTS
    && DialogsValid(c) && WaitersValid(c)
    && (forall key :: key in c.consented ==> AnsweredInSession(c, key, true))
    && (forall key :: key in c.declined ==> AnsweredInSession(c, key, false))
  }

  /** Every entry in flight was opened in this session, and every unfinished dialog of this session is the entry of its layout. */
  ghost predicate DialogsValid(c: Consent) {
    && (forall d :: 0 <= d < |c.dialogs| ==> c.dialogs[d].generation <= c.generation)
    && (forall d :: 0 <= d < |c.dialogs| && c.dialogs[d].cleaned ==> !c.dialogs[d].answer.Waiting?)
    && (forall key :: key in c.inFlight ==> Entry(c, key))
    && (forall d :: 0 <= d < |c.dialogs| && c.dialogs[d].generation == c.generation && !c.dialogs[d].cleaned ==>
          c.dialogs[d].key in c.inFlight && c.inFlight[c.dialogs[d].key] == d)
  }

  predicate Entry(c: Consent, key: Key)
    requires key in c.inFlight
  {
    var d := c.inFlight[key];
    d < |c.dialogs| && c.dialogs[d].key == key && c.dialogs[d].generation == c.generation && !c.dialogs[d].cleaned
  }

  ghost predicate WaitersValid(c: Consent) {
    forall call :: call in c.waiters ==> WaiterValid(c, c.waiters[call])
  }

  predicate WaiterValid(c: Consent, w: Waiter) {
    w.dialog < |c.dialogs| && c.dialogs[w.dialog].key == w.key && c.dialogs[w.dialog].generation == w.generation
  }

  lemma {:induction false} OpenedIgnoresAnswers(dialogs: seq<Dialog>, d: nat, changed: Dialog, generation: nat)
    requires d < |dialogs| && changed.generation == dialogs[d].generation
    ensures Opened(dialogs[d := changed], generation) == Opened(dialogs, generation)
    decreases |dialogs|
  {
    var init := dialogs[..|dialogs| - 1];
    if d == |dialogs| - 1 {
      assert dialogs[d := changed][..d] == init;
    } else {
      assert dialogs[d := changed][..|dialogs| - 1] == init[d := changed];
      OpenedIgnoresAnswers(init, d, changed, generation);
    }
  }

  lemma {:induction false} NoneOpenedYet(dialogs: seq<Dialog>, generation: nat)
    requires forall d :: 0 <= d < |dialogs| ==> dialogs[d].generation < generation
    ensures Opened(dialogs, generation) == 0
    decreases |dialogs|
  {
    if dialogs != [] {
      assert forall d :: 0 <= d < |dialogs| - 1 ==> dialogs[..|dialogs| - 1][d] == dialogs[d];
      NoneOpenedYet(dialogs[..|dialogs| - 1], generation);
    }
  }

  lemma ConsentStepKeeps(c: Consent, e: ConsentEvent)
    requires ConsentValid(c)
    ensures ConsentValid(ConsentStep(c, e))
  {
    match e
    case UseLayout(call, key) => if call !in c.waiters { UseLayoutKeeps(c, call, key); }
    case AnswerDialog(dialog, answer) =>
      if dialog < |c.dialogs| && c.dialogs[dialog].answer.Waiting? {
        ChangedDialogKeeps(c, dialog, c.dialogs[dialog].(answer := answer));
      }
    case CleanUp(dialog) =>
      if dialog < |c.dialogs| && !c.dialogs[dialog].answer.Waiting? && !c.dialogs[dialog].cleaned {
        CleanUpKeeps(c, dialog);
      }
    case Resume(call, aborted, refused) =>
      if call in c.waiters && c.waiters[call].dialog < |c.dialogs| && c.dialogs[c.waiters[call].dialog].cleaned {
        ResumeKeeps(c, call, aborted, refused);
      }
    case ResetConsent => NoneOpenedYet(c.dialogs, c.generation + 1);
  }

  lemma {:induction false} UseLayoutKeeps(c: Consent, call: nat, key: Key)
    requires ConsentValid(c)
    ensures ConsentValid(OnUseLayout(c, call, key))
  {
    hide DialogsValid, WaitersValid, AnsweredInSession, Opened;
    var n := OnUseLayout(c, call, key);
    if n.dialogs != c.dialogs {
      MoreDialogsAnswerMore(c, n);
      OpeningKeepsDialogs(c, call, key);
    } else {
      SameAnswers(c, n);
      JoiningKeepsDialogs(c, call, key);
    }
  }

  lemma SameAnswers(c: Consent, n: Consent)
    requires n.dialogs == c.dialogs && n.generation == c.generation
    ensures forall key, yes :: AnsweredInSession(n, key, yes) == AnsweredInSession(c, key, yes)
  {}

  lemma {:induction false} OpeningKeepsDialogs(c: Consent, call: nat, key: Key)
    requires DialogsValid(c) && WaitersValid(c) && OnUseLayout(c, call, key).dialogs != c.dialogs
    ensures var n := OnUseLayout(c, call, key);
            DialogsValid(n) && WaitersValid(n) && Opened(n.dialogs, n.generation) == Opened(c.dialogs, c.generation) + 1
  {
    assert OnUseLayout(c, call, key).dialogs[..|c.dialogs|] == c.dialogs;
  }

  lemma JoiningKeepsDialogs(c: Consent, call: nat, key: Key)
    requires DialogsValid(c) && WaitersValid(c) && OnUseLayout(c, call, key).dialogs == c.dialogs
    ensures DialogsValid(OnUseLayout(c, call, key)) && WaitersValid(OnUseLayout(c, call, key))
  {
    if key in c.inFlight { assert Entry(c, key); }
  }

  lemma {:induction false} MoreDialogsAnswerMore(c: Consent, n: Consent)
    requires c.dialogs <= n.dialogs && n.generation == c.generation
    ensures forall k, yes :: AnsweredInSession(c, k, yes) ==> AnsweredInSession(n, k, yes)
  {
    assert forall d :: 0 <= d < |c.dialogs| ==> n.dialogs[d] == c.dialogs[d];
  }

  lemma ChangedDialogKeeps(c: Consent, dialog: nat, changed: Dialog)
    requires ConsentValid(c) && dialog < |c.dialogs| && c.dialogs[dialog].answer.Waiting?
    requires changed == c.dialogs[dialog].(answer := changed.answer)
    ensures ConsentValid(c.(dialogs := c.dialogs[dialog := changed]))
  {
    OpenedIgnoresAnswers(c.dialogs, dialog, changed, c.generation);
    AnswersStay(c, dialog, changed);
    hide AnsweredInSession, Opened;
  }

  lemma AnswersStay(c: Consent, dialog: nat, changed: Dialog)
    requires dialog < |c.dialogs|
    requires changed.key == c.dialogs[dialog].key && changed.generation == c.dialogs[dialog].generation
    requires c.dialogs[dialog].answer.Waiting? || changed.answer == c.dialogs[dialog].answer
    ensures forall k, yes :: AnsweredInSession(c, k, yes) ==> AnsweredInSession(c.(dialogs := c.dialogs[dialog := changed]), k, yes)
  {
    var n := c.(dialogs := c.dialogs[dialog := changed]);
    forall k, yes | AnsweredInSession(c, k, yes) ensures AnsweredInSession(n, k, yes) {
      var d :| 0 <= d < |c.dialogs| && c.dialogs[d].key == k && c.dialogs[d].generation == c.generation
               && c.dialogs[d].answer == Said(yes);
      assert n.dialogs[d].answer == Said(yes);
    }
  }

  lemma CleanUpKeeps(c: Consent, dialog: nat)
    requires ConsentValid(c) && dialog < |c.dialogs| && !c.dialogs[dialog].answer.Waiting? && !c.dialogs[dialog].cleaned
    ensures ConsentValid(OnCleanUp(c, dialog))
  {
    var changed := c.dialogs[dialog].(cleaned := true);
    OpenedIgnoresAnswers(c.dialogs, dialog, changed, c.generation);
    AnswersStay(c, dialog, changed);
    var m := c.(dialogs := c.dialogs[dialog := changed]);
    var n := OnCleanUp(c, dialog);
    assert forall k, yes :: AnsweredInSession(m, k, yes) ==> AnsweredInSession(n, k, yes);
    hide AnsweredInSession, Opened;
  }

  lemma ResumeKeeps(c: Consent, call: nat, aborted: bool, refused: bool)
    requires ConsentValid(c) && call in c.waiters && c.waiters[call].dialog < |c.dialogs|
    ensures ConsentValid(OnResume(c, call, aborted, refused))
  {
    var w := c.waiters[call];
    assert WaiterValid(c, w);
    var n := OnResume(c, call, aborted, refused);
    var answer := c.dialogs[w.dialog].answer;
    if answer.Said? && w.generation == c.generation { assert AnsweredInSession(c, w.key, answer.yes); }
    assert forall k, yes :: AnsweredInSession(c, k, yes) ==> AnsweredInSession(n, k, yes);
    hide AnsweredInSession, Opened;
  }

  lemma {:induction false} ConsentRunKeeps(c: Consent, events: seq<ConsentEvent>)
    requires ConsentValid(c)
    ensures ConsentValid(ConsentRun(c, events))
    decreases |events|
  {
    hide ConsentStep, ConsentValid;
    if events != [] {
      ConsentStepKeeps(c, events[0]);
      ConsentRunKeeps(ConsentStep(c, events[0]), events[1..]);
    }
  }

  /**
   * Whatever calls, answers and resets interleave: a session opens at most twenty dialogs, never two at
   * once for a layout; a layout becomes readable only by a yes said to a dialog of this very session.
   */
  lemma {:induction false} ConsentIsSound(events: seq<ConsentEvent>, key: Key, a: nat, b: nat)
    ensures var c := ConsentRun(NewConsent, events);
            && Opened(c.dialogs, c.generation) <= 20
            && (key in c.inFlight ==> c.inFlight[key] < |c.dialogs| && c.dialogs[c.inFlight[key]].generation == c.generation)
            && (key in c.consented ==> AnsweredInSession(c, key, true))
            && (key in c.declined ==> AnsweredInSession(c, key, false))
            && (a < b < |c.dialogs| && !c.dialogs[a].cleaned && !c.dialogs[b].cleaned
                && c.dialogs[a].generation == c.dialogs[b].generation == c.generation
                ==> c.dialogs[a].key != c.dialogs[b].key)
  {
    NewConsentIsValid();
    ConsentRunKeeps(NewConsent, events);
    hide ConsentRun;
    ConsentMeans(ConsentRun(NewConsent, events), key, a, b);
  }

  lemma NewConsentIsValid()
    ensures ConsentValid(NewConsent)
  {}

  lemma ConsentMeans(c: Consent, key: Key, a: nat, b: nat)
    requires ConsentValid(c)
    ensures Opened(c.dialogs, c.generation) <= 20
    ensures key in c.inFlight ==> c.inFlight[key] < |c.dialogs| && c.dialogs[c.inFlight[key]].generation == c.generation
    ensures key in c.consented ==> AnsweredInSession(c, key, true)
    ensures key in c.declined ==> AnsweredInSession(c, key, false)
    ensures a < b < |c.dialogs| && !c.dialogs[a].cleaned && !c.dialogs[b].cleaned
            && c.dialogs[a].generation == c.dialogs[b].generation == c.generation
            ==> c.dialogs[a].key != c.dialogs[b].key
  {
    if key in c.inFlight { assert Entry(c, key); }
  }

  // ---- The object ----

  lemma ResetsAre(q: Quota, c: Consent)
    ensures QuotaStep(q, ResetQuota) == Quota(0, q.generation + 1, q.open, 0)
    ensures ConsentStep(c, ResetConsent) == Consent(c.generation + 1, {}, {}, map[], 0, c.dialogs, c.waiters)
  {}

  method PruneTimes(times: seq<int>, now: int) returns (left: seq<int>)
    ensures left == Prune(times, now)
  {
    left := times;
    while |left| > 0 && now - left[0] >= MINUTE_MS
      invariant Prune(left, now) == Prune(times, now)
    {
      left := left[1..];
    }
  }

  datatype LayoutStep = Readable | Denied | TooManyPrompts | WaitForDialog

  class AiToolService {
    var recordsUsed: int
    var generation: nat
    var writesUsed: nat
    var callTimes: seq<int>
    var writeTimes: seq<int>
    var consentPrompts: nat
    var consentInFlight: map<Key, nat>
    var consented: set<Key>
    var declined: set<Key>
    /** The dialogs of the user interface and the calls suspended at their await. */
    var dialogs: seq<Dialog>
    var waiters: map<nat, Waiter>
    /** The reservations held by calls in flight, and what settled calls of this session kept. */
    ghost var open: seq<Reservation>
    ghost var kept: int

    ghost function QuotaNow(): Quota
      reads this
    {
      Quota(recordsUsed, generation, open, kept)
    }

    ghost function SlotsNow(): Slots
      reads this
    {
      Slots(callTimes, writeTimes, writesUsed)
    }

    ghost function ConsentNow(): Consent
      reads this
    {
      Consent(generation, consented, declined, consentInFlight, consentPrompts, dialogs, waiters)
    }

    constructor ()
      ensures QuotaNow() == NewQuota && SlotsNow() == Slots([], [], 0) && ConsentNow() == NewConsent
    {
      recordsUsed, generation, writesUsed, callTimes, writeTimes, consentPrompts := 0, 0, 0, [], [], 0;
      consentInFlight, consented, declined, dialogs, waiters, open, kept := map[], {}, {}, [], map[], [], 0;
    }

    method ResetSession()
      modifies this
      ensures QuotaNow() == QuotaStep(old(QuotaNow()), ResetQuota)
      ensures SlotsNow() == Slots([], [], 0)
      ensures ConsentNow() == ConsentStep(old(ConsentNow()), ResetConsent)
    {
      hide QuotaStep, ConsentStep;
      ResetsAre(QuotaNow(), ConsentNow());
      generation := generation + 1;
      recordsUsed := 0;
      writesUsed := 0;
      callTimes, writeTimes := [], [];
      kept := 0;
      ForgetAnswers();
    }

    method ForgetAnswers()
      modifies this`consented, this`declined, this`consentPrompts, this`consentInFlight
      ensures ConsentNow() == Consent(generation, {}, {}, map[], 0, dialogs, waiters)
    {
      consented, declined := {}, {};
      consentPrompts := 0;
      consentInFlight := map[];
    }

    /** False where the source throws its rate limit error. */
    method TakeCallSlot(now: int) returns (ok: bool)
      modifies this`callTimes
      ensures (callTimes, ok) == Take(old(callTimes), now, CALLS_PER_MINUTE)
    {
      callTimes := PruneTimes(callTimes, now);
      if |callTimes| >= CALLS_PER_MINUTE { return false; }
      callTimes := callTimes + [now];
      ok := true;
    }

    method TakeWriteSlot(now: int) returns (ok: bool)
      modifies this`writeTimes, this`writesUsed
      ensures (SlotsNow(), ok) == OnWrite(old(SlotsNow()), now)
    {
      writeTimes := PruneTimes(writeTimes, now);
      if writesUsed >= WRITES_PER_SESSION { return false; }
      if |writeTimes| >= WRITES_PER_MINUTE { return false; }
      writesUsed := writesUsed + 1;
      writeTimes := writeTimes + [now];
      ok := true;
    }

    method ReserveRecords(wanted: nat) returns (r: Option<Reservation>)
      modifies this`recordsUsed, this`open
      ensures (QuotaNow(), r) == OnReserve(old(QuotaNow()), wanted)
    {
      var remaining := RECORD_QUOTA - recordsUsed;
      if remaining <= 0 { return None; }
      var reserved := Min(wanted, remaining);
      recordsUsed := recordsUsed + reserved;
      open := open + [Reservation(reserved, generation)];
      r := Some(Reservation(reserved, generation));
    }

    method SettleRecords(reservation: Reservation, returned: nat, ghost call: nat)
      requires call < |open| && open[call] == reservation
      modifies this`recordsUsed, this`open, this`kept
      ensures QuotaNow() == QuotaStep(old(QuotaNow()), SettleCall(call, returned))
    {
      open := open[..call] + open[call + 1..];
      if reservation.generation != generation { return; }
      recordsUsed := recordsUsed - Max(0, reservation.reserved - returned);
      kept := kept + Min(reservation.reserved, returned);
    }

    method BeginUseLayout(call: nat, key: Key) returns (r: LayoutStep)
      requires call !in waiters
      modifies this`consentPrompts, this`consentInFlight, this`dialogs, this`waiters
      ensures ConsentNow() == ConsentStep(old(ConsentNow()), UseLayout(call, key))
      ensures r == Readable <==> key in consented
      ensures r == WaitForDialog <==> call in waiters
    {
      if key in consented { return Readable; }
      if key in declined { return Denied; }
      if key !in consentInFlight {
        if consentPrompts >= MAX_CONSENT_PROMPTS { return TooManyPrompts; }
        consentPrompts := consentPrompts + 1;
        consentInFlight := consentInFlight[key := |dialogs|];
        dialogs := dialogs + [Dialog(key, generation, Waiting, false)];
      }
      waiters := waiters[call := Waiter(key, consentInFlight[key], generation)];
      r := WaitForDialog;
    }

    method OnDialogFinally(dialog: nat)
      requires dialog < |dialogs| && !dialogs[dialog].answer.Waiting? && !dialogs[dialog].cleaned
      modifies this`dialogs, this`consentInFlight
      ensures ConsentNow() == ConsentStep(old(ConsentNow()), CleanUp(dialog))
    {
      var key := dialogs[dialog].key;
      if key in consentInFlight && consentInFlight[key] == dialog {
        consentInFlight := consentInFlight - {key};
      }
      dialogs := dialogs[dialog := dialogs[dialog].(cleaned := true)];
    }

    method ResumeUseLayout(call: nat, aborted: bool, refused: bool) returns (readable: bool)
      requires call in waiters && waiters[call].dialog < |dialogs| && dialogs[waiters[call].dialog].cleaned
      modifies this`waiters, this`declined, this`consented
      ensures ConsentNow() == ConsentStep(old(ConsentNow()), Resume(call, aborted, refused))
      ensures readable ==> old(waiters[call].key) in consented
    {
      var w := waiters[call];
      var answer := dialogs[w.dialog].answer;
      waiters := waiters - {call};
      if !answer.Said? || aborted { return false; }
      if w.generation != generation { return false; }
      if !answer.yes {
        declined := declined + {w.key};
        return false;
      }
      if refused { return false; }
      consented := consented + {w.key};
      readable := true;
    }
  }
}
