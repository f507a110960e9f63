/**
 * Shrinking the activity log of the AI tools to half its cap. Lines that are not write attempts go first, oldest first;
 * write attempts go only when all the others are gone.
 */
module AuditTrim {

  /** A line that is not empty; `bytes` is its length in UTF-8. */
  datatype Line = Line(text: string, bytes: nat, write: bool)

  /** A line costs its line break too. */
  function Cost(l: Line): nat { l.bytes + 1 }

  /** The cost of the lines that are kept. */
  function Total(lines: seq<Line>, keep: seq<bool>): nat
    requires |keep| == |lines|
  {
    if lines == [] then 0
    else
      var n := |lines| - 1;
      Total(lines[..n], keep[..n]) + if keep[n] then Cost(lines[n]) else 0
  }

  lemma {:induction false} DroppingOne(lines: seq<Line>, keep: seq<bool>, i: nat)
    requires |keep| == |lines| && i < |lines| && keep[i]
    ensures Total(lines, keep[i := false]) == Total(lines, keep) - Cost(lines[i])
  {
    var n := |lines| - 1;
    if i < n {
      DroppingOne(lines[..n], keep[..n], i);
      assert keep[i := false][..n] == keep[..n][i := false];
    } else {
      assert keep[i := false][..n] == keep[..n];
    }
  }

  lemma {:induction false} NothingKept(lines: seq<Line>, keep: seq<bool>)
    requires |keep| == |lines| && forall i :: 0 <= i < |keep| ==> !keep[i]
    ensures Total(lines, keep) == 0
  {
    if lines != [] { NothingKept(lines[..|lines| - 1], keep[..|lines| - 1]); }
  }

  lemma {:induction false} KeepingMoreCostsMore(lines: seq<Line>, keep: seq<bool>, more: seq<bool>)
    requires |keep| == |more| == |lines| && forall i :: 0 <= i < |keep| ==> keep[i] ==> more[i]
    ensures Total(lines, keep) <= Total(lines, more)
  {
    if lines != [] {
      var n := |lines| - 1;
      assert forall i :: 0 <= i < n ==> keep[..n][i] == keep[i] && more[..n][i] == more[i];
      KeepingMoreCostsMore(lines[..n], keep[..n], more[..n]);
    }
  }

  // ---- The order of dropping ----

  /** Whether line `i` goes before line `j`. */
  predicate Sooner(lines: seq<Line>, i: nat, j: nat)
    requires i < |lines| && j < |lines|
  {
    if lines[i].write == lines[j].write then i < j else lines[j].write
  }

  /** What is dropped is a start of the order of dropping. */
  ghost predicate DropsAStart(lines: seq<Line>, keep: seq<bool>)
    requires |keep| == |lines|
  {
    forall i, j :: 0 <= i < |lines| && 0 <= j < |lines| && Sooner(lines, i, j) && !keep[j] ==> !keep[i]
  }

  /** A start of the order is dropped, as long as it must be and no longer. */
  ghost predicate Trimmed(lines: seq<Line>, keep: seq<bool>, cap: nat) {
    && |keep| == |lines|
    && 2 * Total(lines, keep) <= cap
    && DropsAStart(lines, keep)
    && Needed(lines, keep, cap)
  }

  ghost predicate LastDropped(lines: seq<Line>, keep: seq<bool>, j: nat)
    requires |keep| == |lines| && j < |lines|
  {
    !keep[j] && forall i :: 0 <= i < |lines| && Sooner(lines, j, i) ==> keep[i]
  }

  // ---- AuditLog.trim ----

  /** What has been dropped when pass `p` (0: lines that are not writes, 1: writes) has come to line `k`. */
  predicate Reached(lines: seq<Line>, p: nat, k: nat, i: nat)
    requires i < |lines|
  {
    if lines[i].write then p == 1 && i < k else p == 1 || i < k
  }

  ghost predicate DroppedTo(lines: seq<Line>, keep: seq<bool>, p: nat, k: nat) {
    |keep| == |lines| && p <= 1 && forall i :: 0 <= i < |lines| ==> (keep[i] <==> !Reached(lines, p, k, i))
  }

  /** The last line dropped so far was needed. */
  ghost predicate Needed(lines: seq<Line>, keep: seq<bool>, cap: nat) {
    |keep| == |lines|
    && forall j :: 0 <= j < |lines| && LastDropped(lines, keep, j) ==> 2 * (Total(lines, keep) + Cost(lines[j])) > cap
  }

  /** One pass over the lines. It stops as soon as the rest fits. */
  method Pass(lines: seq<Line>, keep: array<bool>, cap: nat, total: nat, p: nat) returns (rest: nat)
    requires keep.Length == |lines| && p <= 1 && total == Total(lines, keep[..])
    requires DroppedTo(lines, keep[..], p, 0) && Needed(lines, keep[..], cap)
    modifies keep
    ensures rest == Total(lines, keep[..]) && Needed(lines, keep[..], cap)
    ensures exists k: nat :: k <= |lines| && DroppedTo(lines, keep[..], p, k) && (2 * rest > cap ==> k == |lines|)
  {
    rest := total;
    var index := 0;
    while index < |lines| && 2 * rest > cap
      invariant 0 <= index <= |lines|
      invariant DroppedTo(lines, keep[..], p, index) && Needed(lines, keep[..], cap) && rest == Total(lines, keep[..])
    {
      if keep[index] && (p == 1 || !lines[index].write) {
        ghost var before := keep[..];
        DroppingOne(lines, before, index);
        keep[index] := false;
        assert keep[..] == before[index := false];
        rest := rest - Cost(lines[index]);
        DropIsNeeded(lines, before, cap, p, index);
      }
      index := index + 1;
    }
  }

  lemma {:induction false} DropIsNeeded(lines: seq<Line>, keep: seq<bool>, cap: nat, p: nat, k: nat)
    requires DroppedTo(lines, keep, p, k) && k < |lines| && keep[k] && (p == 1 || !lines[k].write)
    requires 2 * Total(lines, keep) > cap
    ensures DroppedTo(lines, keep[k := false], p, k + 1) && Needed(lines, keep[k := false], cap)
  {
    var after := keep[k := false];
    DroppingOne(lines, keep, k);
    forall j | 0 <= j < |lines| && LastDropped(lines, after, j) ensures j == k {
      assert !after[k] && (j != k ==> Sooner(lines, j, k));
    }
  }

  /** Pass 0 that ends with too much left has dropped exactly what pass 1 starts from. */
  lemma NextPass(lines: seq<Line>, keep: seq<bool>)
    requires DroppedTo(lines, keep, 0, |lines|)
    ensures DroppedTo(lines, keep, 1, 0)
  {
  }

  lemma {:induction false} DroppedIsAStart(lines: seq<Line>, keep: seq<bool>, p: nat, k: nat, i: nat, j: nat)
    requires DroppedTo(lines, keep, p, k) && i < |lines| && j < |lines| && Sooner(lines, i, j) && !keep[j]
    ensures !keep[i]
  {
  }

  /** Which lines stay when a log of more than `cap` bytes is shrunk. */
  method Trim(lines: seq<Line>, cap: nat) returns (keep: seq<bool>)
    ensures Trimmed(lines, keep, cap)
  {
    var flags := new bool[|lines|](_ => true);
    var total := Total(lines, flags[..]);
    total := Pass(lines, flags, cap, total, 0);
    ghost var p: nat, k: nat := 0, 0;
    k :| 0 <= k <= |lines| && DroppedTo(lines, flags[..], 0, k) && (2 * total > cap ==> k == |lines|);
    if 2 * total > cap {
      NextPass(lines, flags[..]);
      total := Pass(lines, flags, cap, total, 1);
      p := 1;
      k :| 0 <= k <= |lines| && DroppedTo(lines, flags[..], 1, k) && (2 * total > cap ==> k == |lines|);
      if 2 * total > cap { NothingKept(lines, flags[..]); }
    }
    keep := flags[..];
    forall i, j | 0 <= i < |lines| && 0 <= j < |lines| && Sooner(lines, i, j) && !keep[j] ensures !keep[i] {
      DroppedIsAStart(lines, keep, p, k, i, j);
    }
  }

  lemma {:induction false} SomethingIsLast(lines: seq<Line>, keep: seq<bool>, i: nat) returns (d: nat)
    requires |keep| == |lines| && i < |lines| && !keep[i]
    ensures d < |lines| && LastDropped(lines, keep, d) && (d == i || Sooner(lines, i, d))
    decreases if lines[i].write then 0 else 1, |lines| - i
  {
    if j :| 0 <= j < |lines| && Sooner(lines, i, j) && !keep[j] {
      d := SomethingIsLast(lines, keep, j);
    } else {
      d := i;
    }
  }

  lemma {:induction false} KeepsTheOthers(lines: seq<Line>, keep: seq<bool>, other: seq<bool>, i: nat, j: nat)
    requires |keep| == |other| == |lines| && i < |lines| && j < |lines|
    requires DropsAStart(lines, keep) && DropsAStart(lines, other)
    requires keep[i] && !other[i] && (other[j] || j == i || Sooner(lines, i, j))
    ensures keep[j]
  {
  }

  lemma {:induction false} DropsTooMuch(lines: seq<Line>, keep: seq<bool>, other: seq<bool>, cap: nat, i: nat)
    requires Trimmed(lines, keep, cap) && Trimmed(lines, other, cap) && i < |lines| && keep[i]
    ensures other[i]
  {
    hide DropsAStart, Sooner, Total;
    if !other[i] {
      var d := SomethingIsLast(lines, other, i);
      var more := other[d := true];
      assert more[d := false] == other;
      DroppingOne(lines, more, d);
      forall j | 0 <= j < |lines| && more[j] ensures keep[j] {
        KeepsTheOthers(lines, keep, other, i, j);
      }
      KeepingMoreCostsMore(lines, more, keep);
    }
  }

  /** The rule leaves no choice: two trimmed logs of the same lines are the same. */
  lemma {:induction false} TrimmingIsDetermined(lines: seq<Line>, keep: seq<bool>, other: seq<bool>, cap: nat)
    requires Trimmed(lines, keep, cap) && Trimmed(lines, other, cap)
    ensures keep == other
  {
    if keep != other {
      var i :| 0 <= i < |lines| && keep[i] != other[i];
      if keep[i] { DropsTooMuch(lines, keep, other, cap, i); } else { DropsTooMuch(lines, other, keep, cap, i); }
    }
  }
}
