/**
 * One row of a batch update: up to three attempts to send it to a server that may lose requests or
 * replies, and the reading back that settles a lost reply. A script decides everything the client
 * cannot: lost messages, refusals, other people's edits, cancellation. A property proved for every
 * script holds against every server and every interleaving.
 */
module RetryProtocol {
  import opened Common

  type Fields = map<string, string>

  /** Compares the value read back for a field with the value sent (line breaks, number formats). */
  type Same = (string, string, string) -> bool

  datatype Row = Row(modId: Option<nat>, fields: Fields, hasNul: bool)

  datatype Error =
    | FileMaker(code: Option<string>, status: Option<int>, isRetryable: bool, credentials: bool)
    | Plain

  predicate Coded(e: Error) { e.FileMaker? && e.code.Some? }

  predicate Is306(e: Error) { e.FileMaker? && e.code == Some("306") }

  predicate IsBatchRetryable(e: Error) {
    if !e.FileMaker? then false
    else if e.code == Some("306") then false
    else if e.code.Some? then e.isRetryable
    else e.isRetryable || (e.status.Some? && (e.status.value == 429 || e.status.value >= 500))
  }

  predicate IsServerTrouble(e: Error) {
    !e.FileMaker? || e.code.None? || e.code == Some("956") || e.code == Some("1701")
  }

  // ---- The server ----

  /** A record: its modification number, its values, and how many edits of this job it has taken. */
  datatype Server = Server(modId: nat, fields: Fields, byJob: nat)

  function EditedByOthers(s: Server, edits: seq<Fields>): Server
    decreases |edits|
  {
    if edits == [] then s
    else EditedByOthers(s.(modId := s.modId + 1, fields := s.fields + edits[0]), edits[1..])
  }

  datatype Fate =
    | NotDelivered(error: Error)
    | Refused(error: Error)
    | Processed(lost: Option<Error>)

  datatype ReadFate = ReadFails | ReadWorks

  datatype Turn = Turn(
    cancelledBefore: bool, othersFirst: seq<Fields>, fate: Fate,
    cancelledAfter: bool, othersLater: seq<Fields>, read: ReadFate)

  type Script = s: seq<Turn> | |s| >= 3 witness seq(3, _ => Turn(true, [], NotDelivered(Plain), true, [], ReadFails))

  const Conflict := FileMaker(Some("306"), Some(500), false, false)

  /** FileMaker takes an edit without a modId always, and one with a modId only if it is current. */
  predicate Takes(s: Server, row: Row) { row.modId.None? || row.modId.value == s.modId }

  /** The record after one request, and the reply the client gets (no error means success). */
  function Edit(s: Server, row: Row, fate: Fate): (Server, Option<Error>) {
    match fate
    case NotDelivered(error) => (s, Some(error))
    case Refused(error) => (s, Some(error))
    case Processed(lost) =>
      if Takes(s, row) then (Server(s.modId + 1, s.fields + row.fields, s.byJob + 1), lost)
      else (s, if lost.Some? then lost else Some(Conflict))
  }

  /** A coded answer means the edit was not written: a reply lost after processing carries no code. */
  predicate HonestFate(fate: Fate) {
    match fate
    case NotDelivered(error) => !Is306(error)
    case Refused(error) => Coded(error) && !Is306(error)
    case Processed(lost) => lost.Some? ==> !Coded(lost.value)
  }

  ghost predicate Honest(script: Script) { forall i :: 0 <= i < 3 ==> HonestFate(script[i].fate) }

  // ---- The client ----

  datatype Result = Returned | ThrewError(error: Error) | ThrewUnconfirmed | ThrewCancelled | ThrewNul

  datatype Signal = Good | Bad(status: Option<int>)

  /** The state when the row is done: its result, edits sent, the confirming read, what the breaker heard. */
  datatype Done = Done(server: Server, result: Result, sent: nat, readBack: Option<Fields>, signals: seq<Signal>)

  predicate Holds(same: Same, current: Fields, sent: Fields) {
    forall name :: name in sent ==> name in current && same(name, current[name], sent[name])
  }

  /** Attempts number `k`, `k + 1`, ... of the row. `unknown`: an earlier attempt ended without an answer. */
  function Attempts(same: Same, row: Row, s: Server, script: Script, k: nat, unknown: bool, last: Option<Error>): Done
    requires k < 3
    decreases 3 - k
  {
    var turn := script[k];
    if turn.cancelledBefore then
      Done(s, if last.Some? then ThrewError(last.value) else ThrewCancelled, 0, None, [])
    else
      var (after, reply) := Edit(EditedByOthers(s, turn.othersFirst), row, turn.fate);
      if reply.None? then Done(after, Returned, 1, None, [Good])
      else
        var error := reply.value;
        if unknown && Is306(error) then
          if turn.cancelledAfter then Done(after, ThrewUnconfirmed, 1, None, [])
          else
            var later := EditedByOthers(after, turn.othersLater);
            if turn.read.ReadWorks? && Holds(same, later.fields, row.fields)
            then Done(later, Returned, 1, Some(later.fields), [Good])
            else Done(later, ThrewUnconfirmed, 1, None, [])
        else
          var signals := if IsServerTrouble(error) then [Bad(if error.FileMaker? then error.status else None)] else [];
          if turn.cancelledAfter || !IsBatchRetryable(error) || k >= 2 then
            Done(after, ThrewError(error), 1, None, signals)
          else
            var rest := Attempts(same, row, after, script, k + 1, unknown || !Coded(error), Some(error));
            Prefixed(1, signals, rest)
  }

  function UpdateOne(same: Same, row: Row, s: Server, script: Script): Done {
    if row.hasNul then Done(s, ThrewNul, 0, None, [])
    else if row.fields == map[] then Done(s, Returned, 0, None, [])
    else Attempts(same, row, s, script, 0, false, None)
  }

  /** How the job reports the row. */
  datatype Report = Updated | NothingToUpdate | ChangedSinceExport | CouldNotConfirm | OtherFailure

  function ReportOf(row: Row, result: Result): Report {
    match result
    case Returned => if row.fields == map[] then NothingToUpdate else Updated
    case ThrewUnconfirmed => CouldNotConfirm
    case ThrewError(error) => if Is306(error) then ChangedSinceExport else OtherFailure
    case ThrewCancelled => OtherFailure
    case ThrewNul => OtherFailure
  }

  // ---- At most once ----

  lemma {:induction false} OthersOnlyAdd(s: Server, edits: seq<Fields>)
    ensures var e := EditedByOthers(s, edits); e.modId == s.modId + |edits| && e.byJob == s.byJob
    decreases |edits|
  {
    if edits != [] { OthersOnlyAdd(s.(modId := s.modId + 1, fields := s.fields + edits[0]), edits[1..]); }
  }

  /** Whatever the server, the network and other people do, a row with a modId is written at most once. */
  lemma {:induction false} WrittenAtMostOnce(
    same: Same, row: Row, s: Server, script: Script, k: nat, unknown: bool, last: Option<Error>)
    requires k < 3 && row.modId.Some?
    ensures var d := Attempts(same, row, s, script, k, unknown, last);
            && s.byJob <= d.server.byJob <= s.byJob + (if s.modId <= row.modId.value then 1 else 0)
            && s.modId <= d.server.modId
            && (d.server.byJob > s.byJob ==> d.server.modId > row.modId.value)
    decreases 3 - k
  {
    hide Holds, Is306, Coded, IsBatchRetryable, IsServerTrouble;
    var turn := script[k];
    if !turn.cancelledBefore {
      OthersOnlyAdd(s, turn.othersFirst);
      var (after, reply) := Edit(EditedByOthers(s, turn.othersFirst), row, turn.fate);
      OthersOnlyAdd(after, turn.othersLater);
      if reply.Some? && k < 2 {
        WrittenAtMostOnce(same, row, after, script, k + 1, unknown || !Coded(reply.value), reply);
      }
    }
  }

  lemma RowIsWrittenAtMostOnce(same: Same, row: Row, s: Server, script: Script)
    requires row.modId.Some?
    ensures s.byJob <= UpdateOne(same, row, s, script).server.byJob <= s.byJob + 1
  {
    if !row.hasNul && row.fields != map[] { WrittenAtMostOnce(same, row, s, script, 0, false, None); }
  }

  /** Without a modId only the number of attempts bounds the writes ... */
  lemma {:induction false} WrittenOncePerAttempt(
    same: Same, row: Row, s: Server, script: Script, k: nat, unknown: bool, last: Option<Error>)
    requires k < 3
    ensures var d := Attempts(same, row, s, script, k, unknown, last);
            s.byJob <= d.server.byJob <= s.byJob + d.sent && d.sent <= 3 - k
    decreases 3 - k
  {
    hide Holds, Is306, Coded, IsBatchRetryable, IsServerTrouble;
    var turn := script[k];
    if !turn.cancelledBefore {
      OthersOnlyAdd(s, turn.othersFirst);
      var (after, reply) := Edit(EditedByOthers(s, turn.othersFirst), row, turn.fate);
      OthersOnlyAdd(after, turn.othersLater);
      if reply.Some? && k < 2 {
        WrittenOncePerAttempt(same, row, after, script, k + 1, unknown || !Coded(reply.value), reply);
      }
    }
  }

  /** ... and three writes do happen when the first two replies are lost. */
  lemma ThreeWritesWithoutModId(same: Same, row: Row, s: Server)
    requires row.modId.None? && row.fields != map[] && !row.hasNul
    ensures exists script: Script :: Honest(script) && UpdateOne(same, row, s, script).server.byJob == s.byJob + 3
  {
    var lost := Turn(false, [], Processed(Some(FileMaker(None, None, true, false))), false, [], ReadFails);
    var script: Script := [lost, lost, lost];
    var s1 := Edit(s, row, lost.fate).0;
    var s2 := Edit(s1, row, lost.fate).0;
    assert Attempts(same, row, s2, script, 2, true, lost.fate.lost).server.byJob == s.byJob + 3;
    assert Attempts(same, row, s1, script, 1, true, lost.fate.lost).server.byJob == s.byJob + 3;
    assert UpdateOne(same, row, s, script).server.byJob == s.byJob + 3;
  }

  // ---- What the reports mean ----

  ghost predicate Reflexive(same: Same) { forall name, value :: same(name, value, value) }

  /**
   * Updated: when the client last saw the record it held every value of the row, and either this job
   * wrote it or a reply had been lost and the record was read back.
   */
  lemma {:induction false} UpdatedMeansHeld(
    same: Same, row: Row, s: Server, script: Script, k: nat, unknown: bool, last: Option<Error>)
    requires k < 3 && Reflexive(same)
    ensures var d := Attempts(same, row, s, script, k, unknown, last);
            d.result == Returned ==>
              && Holds(same, d.server.fields, row.fields)
              && (d.server.byJob > s.byJob || d.readBack == Some(d.server.fields))
    decreases 3 - k
  {
    var turn := script[k];
    if !turn.cancelledBefore {
      OthersOnlyAdd(s, turn.othersFirst);
      var (after, reply) := Edit(EditedByOthers(s, turn.othersFirst), row, turn.fate);
      if reply.Some? && k < 2 {
        var next := unknown || !Coded(reply.value);
        UpdatedMeansHeld(same, row, after, script, k + 1, next, reply);
        WrittenOncePerAttempt(same, row, after, script, k + 1, next, reply);
      }
    }
  }

  /**
   * Changed since the export: with an honest server nothing of this row was written, and the record's
   * modification number really is another one than the row's.
   */
  lemma {:induction false} ChangedMeansUntouched(same: Same, row: Row, s: Server, script: Script, k: nat, last: Option<Error>)
    requires k < 3 && Honest(script) && (last.Some? ==> !Is306(last.value))
    ensures var d := Attempts(same, row, s, script, k, false, last);
            ReportOf(row, d.result) == ChangedSinceExport ==>
              d.server.byJob == s.byJob && row.modId.Some? && row.modId.value != d.server.modId
    decreases 3 - k
  {
    hide Edit, IsServerTrouble, Holds, HonestFate, EditedByOthers;
    var turn := script[k];
    if !turn.cancelledBefore {
      OthersOnlyAdd(s, turn.othersFirst);
      var here := EditedByOthers(s, turn.othersFirst);
      var (after, reply) := Edit(here, row, turn.fate);
      AnswersTellTheTruth(here, row, turn.fate);
      if reply.Some? && k < 2 {
        if !Coded(reply.value) {
          DoubtIsNeverStale(same, row, after, script, k + 1, reply);
        } else if !Is306(reply.value) {
          ChangedMeansUntouched(same, row, after, script, k + 1, reply);
        }
      }
    }
  }

  /** A coded reply of an honest server leaves the record alone; a conflict means its number differs from the row's. */
  lemma AnswersTellTheTruth(s: Server, row: Row, fate: Fate)
    requires HonestFate(fate)
    ensures var (after, reply) := Edit(s, row, fate);
            && (reply.Some? && Coded(reply.value) ==> after == s)
            && (reply.Some? && Is306(reply.value) ==> row.modId.Some? && row.modId.value != s.modId)
  {}

  /** After a lost answer a conflict is read back or reported as unconfirmed, never as someone else's change. */
  lemma {:induction false} DoubtIsNeverStale(same: Same, row: Row, s: Server, script: Script, k: nat, last: Option<Error>)
    requires k < 3 && (last.Some? ==> !Is306(last.value))
    ensures ReportOf(row, Attempts(same, row, s, script, k, true, last).result) != ChangedSinceExport
    decreases 3 - k
  {
    var turn := script[k];
    if !turn.cancelledBefore {
      var (after, reply) := Edit(EditedByOthers(s, turn.othersFirst), row, turn.fate);
      if reply.Some? && k < 2 && !Is306(reply.value) {
        DoubtIsNeverStale(same, row, after, script, k + 1, reply);
      }
    }
  }

  /** Could not confirm is said only in real doubt: some request before the last one sent got no coded answer. */
  lemma {:induction false} UnconfirmedMeansDoubt(
    same: Same, row: Row, s: Server, script: Script, k: nat, unknown: bool, last: Option<Error>)
    requires k < 3
    ensures var d := Attempts(same, row, s, script, k, unknown, last);
            && d.sent <= 3 - k
            && (d.result == ThrewUnconfirmed ==>
                  d.sent >= 1 && (unknown || (exists i :: k <= i < k + d.sent - 1 && Ambiguous(script[i].fate))))
    decreases 3 - k
  {
    hide IsServerTrouble, Holds, EditedByOthers, Prefixed, Is306, IsBatchRetryable;
    var turn := script[k];
    if !turn.cancelledBefore {
      var (after, reply) := Edit(EditedByOthers(s, turn.othersFirst), row, turn.fate);
      if reply.Some? && k < 2 {
        var next := unknown || !Coded(reply.value);
        UnconfirmedMeansDoubt(same, row, after, script, k + 1, next, reply);
        PrefixedKeeps(Attempts(same, row, after, script, k + 1, next, reply));
        ConflictIsCoded();
        if !Coded(reply.value) { assert Ambiguous(script[k].fate); }
      }
    }
  }

  lemma ConflictIsCoded()
    ensures Coded(Conflict) && Is306(Conflict) && !IsBatchRetryable(Conflict)
  {}

  lemma PrefixedKeeps(rest: Done)
    ensures forall signals :: var d := Prefixed(1, signals, rest); d.result == rest.result && d.server == rest.server && d.sent == rest.sent + 1
  {}

  predicate Ambiguous(fate: Fate) {
    match fate
    case NotDelivered(error) => !Coded(error)
    case Refused(error) => !Coded(error)
    case Processed(lost) => lost.Some? && !Coded(lost.value)
  }

  /** A row that is written but not reported as updated had some request sent that got no coded answer. */
  lemma {:induction false} FailedMeansUnwrittenWithoutDoubt(
    same: Same, row: Row, s: Server, script: Script, k: nat, unknown: bool, last: Option<Error>)
    requires k < 3 && Honest(script)
    ensures var d := Attempts(same, row, s, script, k, unknown, last);
            && d.sent <= 3 - k && d.server.byJob >= s.byJob
            && (d.result != Returned && d.server.byJob > s.byJob ==>
                  exists i :: k <= i < k + d.sent && Ambiguous(script[i].fate))
    decreases 3 - k
  {
    hide IsServerTrouble, Holds, EditedByOthers, Prefixed, Is306, IsBatchRetryable;
    var turn := script[k];
    if !turn.cancelledBefore {
      assert HonestFate(turn.fate);
      OthersOnlyAdd(s, turn.othersFirst);
      var (after, reply) := Edit(EditedByOthers(s, turn.othersFirst), row, turn.fate);
      OthersOnlyAdd(after, turn.othersLater);
      WrittenMeansAmbiguous(EditedByOthers(s, turn.othersFirst), row, turn.fate);
      if reply.Some? && k < 2 {
        var next := unknown || !Coded(reply.value);
        FailedMeansUnwrittenWithoutDoubt(same, row, after, script, k + 1, next, reply);
        PrefixedKeeps(Attempts(same, row, after, script, k + 1, next, reply));
      }
    }
  }

  lemma WrittenMeansAmbiguous(s: Server, row: Row, fate: Fate)
    requires HonestFate(fate)
    ensures var (after, reply) := Edit(s, row, fate);
            reply.Some? && after.byJob > s.byJob ==> Ambiguous(fate)
  {}

  // ---- Exactly when a row is written, and when that is misreported ----

  /** The error the client is given, when the answer is not left to the server's decision. */
  function GivenError(fate: Fate): Option<Error> {
    match fate
    case NotDelivered(error) => Some(error)
    case Refused(error) => Some(error)
    case Processed(lost) => lost
  }

  /** How many edits other people make from attempt `k` up to the request of attempt `i`. */
  function EditsBefore(script: Script, k: nat, i: nat): nat
    requires k <= i < 3
    decreases i
  {
    |script[i].othersFirst| + if k < i then EditsBefore(script, k, i - 1) else 0
  }

  /** Attempt `i` reaches the record while its modification number is still the row's. */
  predicate Lands(row: Row, s: Server, script: Script, k: nat, i: nat)
    requires k <= i < 3
  {
    script[i].fate.Processed? && (row.modId.None? || s.modId + EditsBefore(script, k, i) == row.modId.value)
  }

  lemma {:induction false} EditsSplit(script: Script, k: nat, i: nat)
    requires k < i < 3
    ensures EditsBefore(script, k, i) == |script[k].othersFirst| + EditsBefore(script, k + 1, i)
    decreases i
  {
    if k + 1 < i { EditsSplit(script, k, i - 1); }
  }

  lemma {:induction false} LandsLater(row: Row, s: Server, after: Server, script: Script, k: nat, i: nat)
    requires k < i < 3 && after.modId == s.modId + |script[k].othersFirst|
    ensures Lands(row, s, script, k, i) <==> Lands(row, after, script, k + 1, i)
  {
    EditsSplit(script, k, i);
  }

  /** One attempt writes exactly when it lands; otherwise the record is left to other people. */
  lemma {:induction false} AttemptWrites(row: Row, s: Server, script: Script, k: nat)
    requires k < 3
    ensures var (after, reply) := Edit(EditedByOthers(s, script[k].othersFirst), row, script[k].fate);
            && after.byJob == s.byJob + (if Lands(row, s, script, k, k) then 1 else 0)
            && after.modId == s.modId + |script[k].othersFirst| + (if Lands(row, s, script, k, k) then 1 else 0)
            && (reply.None? ==> Lands(row, s, script, k, k))
            && (reply == GivenError(script[k].fate) || (reply == Some(Conflict) && script[k].fate == Processed(None)))
            && (script[k].fate == Processed(None) ==> (reply.None? <==> Lands(row, s, script, k, k)))
  {
    OthersOnlyAdd(s, script[k].othersFirst);
  }

  /** A row is written exactly when some request that was sent lands. */
  lemma {:induction false} WrittenWhenOneLands(
    same: Same, row: Row, s: Server, script: Script, k: nat, unknown: bool, last: Option<Error>)
    requires k < 3
    ensures var d := Attempts(same, row, s, script, k, unknown, last);
            && d.sent <= 3 - k && d.server.byJob >= s.byJob
            && (d.server.byJob > s.byJob <==> exists i :: k <= i < k + d.sent && Lands(row, s, script, k, i))
    decreases 3 - k
  {
    hide Edit, EditedByOthers, Prefixed, Holds, IsServerTrouble, IsBatchRetryable, Is306, Coded, Lands;
    var turn := script[k];
    if !turn.cancelledBefore {
      var (after, reply) := Edit(EditedByOthers(s, turn.othersFirst), row, turn.fate);
      AttemptWrites(row, s, script, k);
      OthersOnlyAdd(after, turn.othersLater);
      if reply.Some? && k < 2 {
        var next := unknown || !Coded(reply.value);
        var n := k + 1;
        WrittenWhenOneLands(same, row, after, script, n, next, reply);
        PrefixedKeeps(Attempts(same, row, after, script, n, next, reply));
        if !Lands(row, s, script, k, k) {
          forall i | k < i < 3 ensures Lands(row, s, script, k, i) <==> Lands(row, after, script, n, i) {
            LandsLater(row, s, after, script, k, i);
          }
        }
      }
    }
  }

  /** Attempt `i` is sent, fails in a way that is tried again, and nothing cancels the row meanwhile. */
  predicate Retried(script: Script, i: nat)
    requires i < 3
  {
    var turn := script[i];
    !turn.cancelledBefore && !turn.cancelledAfter && GivenError(turn.fate).Some? && IsBatchRetryable(GivenError(turn.fate).value)
  }

  predicate RetriedWithCode(script: Script, i: nat)
    requires i < 3
  {
    Retried(script, i) && Coded(GivenError(script[i].fate).value)
  }

  ghost predicate CodedRetries(script: Script, k: nat, j: nat)
    requires j < 3
  {
    forall m :: k <= m < j ==> RetriedWithCode(script, m)
  }

  /** Attempt `j` ends the row with a conflict, given that an attempt up to `i` has landed. */
  predicate Conflicts(row: Row, script: Script, i: nat, j: nat)
    requires i <= j < 3
  {
    && !script[j].cancelledBefore
    && if script[j].fate == Processed(None) then i < j && row.modId.Some? else Is306(GivenError(script[j].fate).value)
  }

  ghost predicate FalseChange(row: Row, s: Server, script: Script, k: nat) {
    exists i: nat, j: nat :: k <= i <= j < 3 && Lands(row, s, script, k, i)
                             && CodedRetries(script, k, j) && Conflicts(row, script, i, j)
  }

  /** After the row has landed, a conflict is reported exactly when coded retries lead up to one. */
  ghost predicate LateConflict(row: Row, script: Script, k: nat) {
    exists j: nat :: k <= j < 3 && CodedRetries(script, k, j) && Says306(row, script, j)
  }

  predicate Says306(row: Row, script: Script, j: nat)
    requires j < 3
  {
    && !script[j].cancelledBefore
    && if script[j].fate == Processed(None) then row.modId.Some? else Is306(GivenError(script[j].fate).value)
  }

  lemma {:induction false} LateConflictStep(row: Row, script: Script, k: nat)
    requires k < 3
    ensures LateConflict(row, script, k)
       <==> Says306(row, script, k) || (k < 2 && RetriedWithCode(script, k) && LateConflict(row, script, k + 1))
  {
    hide Says306, RetriedWithCode;
    if Says306(row, script, k) { assert CodedRetries(script, k, k); }
    if k < 2 && RetriedWithCode(script, k) && LateConflict(row, script, k + 1) {
      var j: nat :| k + 1 <= j < 3 && CodedRetries(script, k + 1, j) && Says306(row, script, j);
      assert CodedRetries(script, k, j);
    }
  }

  lemma SaysAndConflicts(row: Row, script: Script, i: nat, j: nat)
    requires i <= j < 3
    ensures Conflicts(row, script, i, j) <==> Says306(row, script, j) && (script[j].fate == Processed(None) ==> i < j)
  {}

  /** What the first attempt contributes to a false report. */
  lemma {:induction false} FalseChangeStep(row: Row, s: Server, after: Server, script: Script, k: nat)
    requires k < 3 && after.modId == s.modId + |script[k].othersFirst| + if Lands(row, s, script, k, k) then 1 else 0
    ensures FalseChange(row, s, script, k)
       <==> (Lands(row, s, script, k, k) && Conflicts(row, script, k, k))
            || (k < 2 && RetriedWithCode(script, k)
                && if Lands(row, s, script, k, k) then LateConflict(row, script, k + 1) else FalseChange(row, after, script, k + 1))
  {
    hide Says306, RetriedWithCode, Lands, Conflicts;
    forall i, j | k <= i <= j < 3 ensures Conflicts(row, script, i, j) <==> Says306(row, script, j) && (script[j].fate == Processed(None) ==> i < j) {
      SaysAndConflicts(row, script, i, j);
    }
    if !Lands(row, s, script, k, k) {
      forall i | k < i < 3 ensures Lands(row, s, script, k, i) <==> Lands(row, after, script, k + 1, i) {
        LandsLater(row, s, after, script, k, i);
      }
    }
    if FalseChange(row, s, script, k) {
      var i: nat, j: nat :| k <= i <= j < 3 && Lands(row, s, script, k, i)
                            && CodedRetries(script, k, j) && Conflicts(row, script, i, j);
      if j > k { assert RetriedWithCode(script, k); }
    }
    if Lands(row, s, script, k, k) && Conflicts(row, script, k, k) {
      assert CodedRetries(script, k, k);
    }
    if k < 2 && RetriedWithCode(script, k) {
      if Lands(row, s, script, k, k) {
        if j: nat :| k + 1 <= j < 3 && CodedRetries(script, k + 1, j) && Says306(row, script, j) {
          assert Conflicts(row, script, k, j) && CodedRetries(script, k, j);
        }
      } else if FalseChange(row, after, script, k + 1) {
        var i: nat, j: nat :| k + 1 <= i <= j < 3 && Lands(row, after, script, k + 1, i)
                              && CodedRetries(script, k + 1, j) && Conflicts(row, script, i, j);
        assert Lands(row, s, script, k, i) && CodedRetries(script, k, j);
      }
    }
  }

  predicate EndsIn306(r: Result) { r.ThrewError? && Is306(r.error) }

  lemma {:induction false} LateConflictIsReported(
    same: Same, row: Row, s: Server, script: Script, k: nat, last: Option<Error>)
    requires k < 3 && (last.Some? ==> !Is306(last.value)) && (row.modId.Some? ==> s.modId > row.modId.value)
    ensures EndsIn306(Attempts(same, row, s, script, k, false, last).result) <==> LateConflict(row, script, k)
    decreases 3 - k
  {
    hide Edit, EditedByOthers, Prefixed, Holds, IsServerTrouble, LateConflict, EditsBefore;
    var turn := script[k];
    LateConflictStep(row, script, k);
    if !turn.cancelledBefore {
      var (after, reply) := Edit(EditedByOthers(s, turn.othersFirst), row, turn.fate);
      AttemptWrites(row, s, script, k);
      ConflictIsCoded();
      if row.modId.Some? { OwnNumberIsPast(row, s, script, k); }
      if reply.Some? && k < 2 {
        if !Coded(reply.value) {
          DoubtIsNeverStale(same, row, after, script, k + 1, reply);
          PrefixedKeeps(Attempts(same, row, after, script, k + 1, true, reply));
        } else if !Is306(reply.value) {
          LateConflictIsReported(same, row, after, script, k + 1, reply);
          PrefixedKeeps(Attempts(same, row, after, script, k + 1, false, reply));
        }
      }
    }
  }

  lemma OwnNumberIsPast(row: Row, s: Server, script: Script, k: nat)
    requires k < 3 && row.modId.Some? && s.modId > row.modId.value
    ensures !Lands(row, s, script, k, k)
  {}

  lemma {:induction false} FalseChangeIsReported(
    same: Same, row: Row, s: Server, script: Script, k: nat, last: Option<Error>)
    requires k < 3 && (last.Some? ==> !Is306(last.value))
    ensures var d := Attempts(same, row, s, script, k, false, last);
            EndsIn306(d.result) && d.server.byJob > s.byJob <==> FalseChange(row, s, script, k)
    decreases 3 - k
  {
    hide Edit, EditedByOthers, Prefixed, Holds, IsServerTrouble, LateConflict, FalseChange, Lands;
    var turn := script[k];
    var (after, reply) := Edit(EditedByOthers(s, turn.othersFirst), row, turn.fate);
    AttemptWrites(row, s, script, k);
    FalseChangeStep(row, s, after, script, k);
    ConflictIsCoded();
    if !turn.cancelledBefore && reply.Some? && k < 2 {
      if !Coded(reply.value) {
        DoubtIsNeverStale(same, row, after, script, k + 1, reply);
        PrefixedKeeps(Attempts(same, row, after, script, k + 1, true, reply));
      } else if !Is306(reply.value) {
        PrefixedKeeps(Attempts(same, row, after, script, k + 1, false, reply));
        if Lands(row, s, script, k, k) {
          LandedIsPast(row, s, script, k, after);
          LateConflictIsReported(same, row, after, script, k + 1, reply);
          WrittenWhenOneLands(same, row, after, script, k + 1, false, reply);
        } else {
          FalseChangeIsReported(same, row, after, script, k + 1, reply);
        }
      }
    }
  }

  lemma LandedIsPast(row: Row, s: Server, script: Script, k: nat, after: Server)
    requires k < 3 && Lands(row, s, script, k, k) && after.modId == s.modId + |script[k].othersFirst| + 1
    ensures row.modId.Some? ==> after.modId > row.modId.value
  {}

  /**
   * Against any server at all, a row is written and still reported as changed by someone else exactly when one attempt
   * lands, every attempt before the last one sent is answered by a coded error that is tried again, and the last one
   * meets a conflict. With honest answers the landed attempt carries no code, so this never happens.
   */
  lemma {:induction false} ChangedAndWrittenExactly(same: Same, row: Row, s: Server, script: Script)
    requires !row.hasNul && row.fields != map[]
    ensures var d := UpdateOne(same, row, s, script);
            ReportOf(row, d.result) == ChangedSinceExport && d.server.byJob > s.byJob <==> FalseChange(row, s, script, 0)
    ensures Honest(script) ==> !FalseChange(row, s, script, 0)
  {
    hide Attempts;
    FalseChangeIsReported(same, row, s, script, 0, None);
    if Honest(script) { ChangedMeansUntouched(same, row, s, script, 0, None); }
  }

  /** Attempt `l` is the last one sent and ends the row with an error that is not a conflict. */
  predicate EndsPlainly(script: Script, l: nat)
    requires l < 3
  {
    var turn := script[l];
    && !turn.cancelledBefore && GivenError(turn.fate).Some? && !Is306(GivenError(turn.fate).value)
    && (turn.cancelledAfter || !IsBatchRetryable(GivenError(turn.fate).value) || l == 2 || script[l + 1].cancelledBefore)
  }

  /** The last attempt that is sent in a run of the attempts from `k` on that ends with an ordinary error. */
  ghost predicate PlainEnd(script: Script, k: nat, l: nat) {
    k <= l < 3 && (forall m :: k <= m < l ==> Retried(script, m)) && EndsPlainly(script, l)
  }

  ghost predicate EndsPlainlyLater(script: Script, k: nat) { exists l: nat :: PlainEnd(script, k, l) }

  lemma {:induction false} PlainEndStep(script: Script, k: nat)
    requires k < 3
    ensures EndsPlainlyLater(script, k)
       <==> EndsPlainly(script, k) || (k < 2 && Retried(script, k) && EndsPlainlyLater(script, k + 1))
  {
    hide EndsPlainly, Retried;
    if EndsPlainly(script, k) { assert PlainEnd(script, k, k); }
    if EndsPlainlyLater(script, k + 1) && Retried(script, k) {
      var l: nat :| PlainEnd(script, k + 1, l);
      assert PlainEnd(script, k, l);
    }
    if EndsPlainlyLater(script, k) {
      var l: nat :| PlainEnd(script, k, l);
      if l > k { assert PlainEnd(script, k + 1, l); }
    }
  }

  predicate OrdinaryError(r: Result) { r.ThrewError? && !Is306(r.error) }

  /** From a state in which the first attempt is sent, the row ends with an ordinary error exactly when the script says so. */
  lemma {:induction false} PlainEndIsReported(
    same: Same, row: Row, s: Server, script: Script, k: nat, unknown: bool, last: Option<Error>)
    requires k < 3 && !script[k].cancelledBefore
    ensures OrdinaryError(Attempts(same, row, s, script, k, unknown, last).result) <==> EndsPlainlyLater(script, k)
    ensures var r := Attempts(same, row, s, script, k, unknown, last).result; r != ThrewCancelled && r != ThrewNul
    ensures forall l: nat :: PlainEnd(script, k, l) ==> Attempts(same, row, s, script, k, unknown, last).sent == l - k + 1
    decreases 3 - k
  {
    hide Edit, EditedByOthers, Prefixed, Holds, IsServerTrouble, PlainEnd;
    var turn := script[k];
    var (after, reply) := Edit(EditedByOthers(s, turn.othersFirst), row, turn.fate);
    AttemptWrites(row, s, script, k);
    ConflictIsCoded();
    PlainEndStep(script, k);
    forall l: nat | PlainEnd(script, k, l) ensures l == k || (k < 2 && Retried(script, k) && PlainEnd(script, k + 1, l)) {
      PlainEndLater(script, k, l);
    }
    forall l: nat | PlainEnd(script, k, l) ensures l == k ==> EndsPlainly(script, k) { PlainEndLater(script, k, l); }
    if reply.Some? && k < 2 {
      var next := unknown || !Coded(reply.value);
      PrefixedKeeps(Attempts(same, row, after, script, k + 1, next, reply));
      if !script[k + 1].cancelledBefore {
        PlainEndIsReported(same, row, after, script, k + 1, next, reply);
      } else {
        CancelledHasNoEnd(script, k + 1);
      }
    }
  }

  lemma PlainEndLater(script: Script, k: nat, l: nat)
    requires PlainEnd(script, k, l)
    ensures k <= l < 3
    ensures l == k ==> EndsPlainly(script, k)
    ensures l > k ==> k < 2 && Retried(script, k) && PlainEnd(script, k + 1, l)
  {}

  lemma CancelledHasNoEnd(script: Script, k: nat)
    requires k < 3 && script[k].cancelledBefore
    ensures !EndsPlainlyLater(script, k)
  {
    forall l: nat ensures !PlainEnd(script, k, l) {
      if PlainEnd(script, k, l) { PlainEndLater(script, k, l); }
    }
  }

  /**
   * Against any server at all, a row is written and still reported as an ordinary failure exactly when one attempt lands
   * among those sent, each failing in a way that is tried again until the last, which ends with an ordinary error.
   */
  lemma {:induction false} FailedAndWrittenExactly(same: Same, row: Row, s: Server, script: Script)
    requires !row.hasNul && row.fields != map[]
    ensures var d := UpdateOne(same, row, s, script);
            ReportOf(row, d.result) == OtherFailure && d.server.byJob > s.byJob
            <==> exists i: nat, l: nat :: i <= l && PlainEnd(script, 0, l) && Lands(row, s, script, 0, i)
  {
    hide Edit, EditedByOthers, Holds, Prefixed, Lands, PlainEnd;
    var d := UpdateOne(same, row, s, script);
    WrittenWhenOneLands(same, row, s, script, 0, false, None);
    if script[0].cancelledBefore {
      CancelledHasNoEnd(script, 0);
    } else {
      PlainEndIsReported(same, row, s, script, 0, false, None);
      if OrdinaryError(d.result) && d.server.byJob > s.byJob {
        var l: nat :| PlainEnd(script, 0, l);
        var i :| 0 <= i < d.sent && Lands(row, s, script, 0, i);
        assert i <= l;
      }
    }
  }

  /** It does happen, against an honest server: the reply to a write is lost, and the second attempt is refused. */
  lemma WrittenRowMayBeReportedFailed(same: Same, row: Row, s: Server)
    requires row.modId == Some(s.modId) && row.fields != map[] && !row.hasNul
    ensures exists script: Script ::
              var d := UpdateOne(same, row, s, script);
              Honest(script) && ReportOf(row, d.result) == OtherFailure && d.server.byJob == s.byJob + 1
  {
    var lost := Turn(false, [], Processed(Some(FileMaker(None, None, true, false))), false, [], ReadFails);
    var denied := Turn(false, [], Refused(FileMaker(Some("200"), Some(500), false, false)), false, [], ReadFails);
    var script: Script := [lost, denied, denied];
    var s1 := Edit(s, row, lost.fate).0;
    assert Attempts(same, row, s1, script, 1, true, lost.fate.lost).result == ThrewError(denied.fate.error);
    var d := UpdateOne(same, row, s, script);
    assert Honest(script) && ReportOf(row, d.result) == OtherFailure && d.server.byJob == s.byJob + 1;
  }

  /** The reports of a row against an honest server, all together. */
  lemma ReportsAreTrue(same: Same, row: Row, s: Server, script: Script)
    requires Honest(script) && Reflexive(same)
    ensures var d := UpdateOne(same, row, s, script);
            var written := d.server.byJob - s.byJob;
            && d.sent <= 3 && 0 <= written <= d.sent && (row.modId.Some? ==> written <= 1)
            && match ReportOf(row, d.result)
               case Updated => Holds(same, d.server.fields, row.fields)
                               && (written > 0 || d.readBack == Some(d.server.fields))
               case NothingToUpdate => d.sent == 0
               case ChangedSinceExport => written == 0 && row.modId.Some? && row.modId.value != d.server.modId
               case CouldNotConfirm => exists i :: 0 <= i < d.sent - 1 && Ambiguous(script[i].fate)
               case OtherFailure => written == 0 || exists i :: 0 <= i < d.sent && Ambiguous(script[i].fate)
  {
    if !row.hasNul && row.fields != map[] {
      hide Attempts, Ambiguous, Holds;
      WrittenOncePerAttempt(same, row, s, script, 0, false, None);
      RowIsWrittenAtMostOnceIfChecked(same, row, s, script);
      UpdatedMeansHeld(same, row, s, script, 0, false, None);
      ChangedMeansUntouched(same, row, s, script, 0, None);
      UnconfirmedMeansDoubt(same, row, s, script, 0, false, None);
      FailedMeansUnwrittenWithoutDoubt(same, row, s, script, 0, false, None);
    }
  }

  lemma RowIsWrittenAtMostOnceIfChecked(same: Same, row: Row, s: Server, script: Script)
    ensures row.modId.Some? ==> UpdateOne(same, row, s, script).server.byJob <= s.byJob + 1
  {
    if row.modId.Some? { RowIsWrittenAtMostOnce(same, row, s, script); }
  }

  /** The breaker and the limit hear of a row at most once per request, and of a success exactly when it succeeded. */
  lemma {:induction false} SignalsFollowRequests(
    same: Same, row: Row, s: Server, script: Script, k: nat, unknown: bool, last: Option<Error>)
    requires k < 3
    ensures var d := Attempts(same, row, s, script, k, unknown, last);
            |d.signals| <= d.sent && (Good in d.signals <==> d.result == Returned)
    decreases 3 - k
  {
    hide Holds, Is306, Coded, IsBatchRetryable, IsServerTrouble, Edit, EditedByOthers, Prefixed;
    var turn := script[k];
    if !turn.cancelledBefore {
      var (after, reply) := Edit(EditedByOthers(s, turn.othersFirst), row, turn.fate);
      if reply.Some? && k < 2 {
        var next := unknown || !Coded(reply.value);
        SignalsFollowRequests(same, row, after, script, k + 1, next, reply);
        PrefixedSignals(Attempts(same, row, after, script, k + 1, next, reply), reply.value);
      }
    }
  }

  /** One more failed attempt in front, with or without a bad signal. */
  lemma PrefixedSignals(rest: Done, error: Error)
    requires |rest.signals| <= rest.sent && (Good in rest.signals <==> rest.result == Returned)
    ensures var signals := if IsServerTrouble(error) then [Bad(if error.FileMaker? then error.status else None)] else [];
            var d := Prefixed(1, signals, rest);
            |d.signals| <= d.sent && (Good in d.signals <==> d.result == Returned)
  {
    hide IsServerTrouble;
  }

  lemma {:induction false} SignalsOfOneRow(same: Same, row: Row, s: Server, script: Script)
    ensures var d := UpdateOne(same, row, s, script);
            |d.signals| <= 3 && (row.hasNul || row.fields == map[] ==> d.signals == [])
  {
    hide Attempts;
    SignalsFollowRequests(same, row, s, script, 0, false, None);
    WrittenOncePerAttempt(same, row, s, script, 0, false, None);
  }

  /** After a cancellation is seen before an attempt, nothing more is sent. */
  lemma {:induction false} CancellationStopsSending(
    same: Same, row: Row, s: Server, script: Script, k: nat, unknown: bool, last: Option<Error>, c: nat)
    requires k <= c < 3 && script[c].cancelledBefore
    ensures Attempts(same, row, s, script, k, unknown, last).sent <= c - k
    decreases 3 - k
  {
    var turn := script[k];
    if !turn.cancelledBefore {
      var (after, reply) := Edit(EditedByOthers(s, turn.othersFirst), row, turn.fate);
      if reply.Some? && k < 2 {
        CancellationStopsSending(same, row, after, script, k + 1, unknown || !Coded(reply.value), reply, c);
      }
    }
  }

  // ---- The loop ----

  class Record {
    var state: Server

    constructor (state: Server)
      ensures this.state == state
    {
      this.state := state;
    }

    method Edited(row: Row, fate: Fate) returns (reply: Option<Error>)
      modifies this
      ensures (state, reply) == Edit(old(state), row, fate)
    {
      var (s, r) := Edit(state, row, fate);
      state, reply := s, r;
    }

    method ChangedByOthers(edits: seq<Fields>)
      modifies this
      ensures state == EditedByOthers(old(state), edits)
    {
      var i := 0;
      while i < |edits|
        invariant 0 <= i <= |edits|
        invariant EditedByOthers(state, edits[i..]) == EditedByOthers(old(state), edits)
      {
        assert edits[i..][1..] == edits[i + 1..];
        state := state.(modId := state.modId + 1, fields := state.fields + edits[i]);
        i := i + 1;
      }
    }
  }

  /** A run together with what had been sent and signalled before it. */
  function Prefixed(sent: nat, signals: seq<Signal>, rest: Done): Done {
    rest.(sent := sent + rest.sent, signals := signals + rest.signals)
  }

  lemma PrefixedIs(sent: nat, signals: seq<Signal>, d: Done)
    ensures Prefixed(sent, signals, d) == Done(d.server, d.result, sent + d.sent, d.readBack, signals + d.signals)
    ensures sent == 0 && signals == [] ==> Prefixed(sent, signals, d) == d
    ensures signals + [] == signals
  {}

  lemma PrefixedTwice(sent: nat, signals: seq<Signal>, now: seq<Signal>, rest: Done)
    ensures Prefixed(sent, signals, Prefixed(1, now, rest)) == Prefixed(sent + 1, signals + now, rest)
  {
    assert signals + (now + rest.signals) == signals + now + rest.signals;
  }

  /** The retry loop over the three attempts, against a record that obeys the script. */
  method UpdateOneWithRetry(same: Same, row: Row, record: Record, script: Script)
    returns (result: Result, ghost sent: nat, ghost readBack: Option<Fields>, signals: seq<Signal>)
    modifies record
    ensures Done(record.state, result, sent, readBack, signals) == UpdateOne(same, row, old(record.state), script)
  {
    hide Edit, EditedByOthers, IsBatchRetryable, IsServerTrouble, Holds, Is306, Coded, Prefixed;
    sent, readBack, signals := 0, None, [];
    if row.hasNul { result := ThrewNul; return; }
    if row.fields == map[] { result := Returned; return; }
    PrefixedIs(0, [], Attempts(same, row, record.state, script, 0, false, None));
    var attempt := 0;
    var lastFailure: Option<Error> := None;
    var outcomeUnknown := false;
    while attempt < 3
      invariant 0 <= attempt <= 2
      invariant readBack == None
      invariant Prefixed(sent, signals, Attempts(same, row, record.state, script, attempt, outcomeUnknown, lastFailure))
                == Attempts(same, row, old(record.state), script, 0, false, None)
      decreases 3 - attempt
    {
      var turn := script[attempt];
      ghost var priorSent, prior := sent, signals;
      PrefixedIs(sent, signals, Attempts(same, row, record.state, script, attempt, outcomeUnknown, lastFailure));
      if turn.cancelledBefore {
        result := if lastFailure.Some? then ThrewError(lastFailure.value) else ThrewCancelled;
        return;
      }
      record.ChangedByOthers(turn.othersFirst);
      var reply := record.Edited(row, turn.fate);
      sent := sent + 1;
      if reply.None? {
        signals := signals + [Good];
        result := Returned;
        return;
      }
      var error := reply.value;
      if outcomeUnknown && Is306(error) {
        if turn.cancelledAfter { result := ThrewUnconfirmed; return; }
        record.ChangedByOthers(turn.othersLater);
        if turn.read.ReadWorks? {
          var current := record.state.fields;
          if Holds(same, current, row.fields) {
            readBack := Some(current);
            signals := signals + [Good];
            result := Returned;
            return;
          }
        }
        result := ThrewUnconfirmed;
        return;
      }
      lastFailure := reply;
      if IsServerTrouble(error) {
        signals := signals + [Bad(if error.FileMaker? then error.status else None)];
      }
      if turn.cancelledAfter || !IsBatchRetryable(error) || attempt >= 2 {
        result := ThrewError(error);
        return;
      }
      if !Coded(error) { outcomeUnknown := true; }
      attempt := attempt + 1;
      PrefixedTwice(priorSent, prior, signals[|prior|..],
                    Attempts(same, row, record.state, script, attempt, outcomeUnknown, lastFailure));
    }
    assert false;
    result := Returned;
  }
}
