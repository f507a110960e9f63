/** The stored text of a checkbox set: one selected option to a line, with the order and the breaks it was stored with. */
module Checkboxes {

  const CR := '\r'
  const LF := '\n'

  predicate IsBreak(c: char) { c == CR || c == LF }

  predicate OneLine(s: string) { forall i :: 0 <= i < |s| ==> !IsBreak(s[i]) }

  function FirstBreak(s: string): (n: nat)
    ensures n <= |s| && OneLine(s[..n]) && (n < |s| ==> IsBreak(s[n]))
  {
    if s == "" || IsBreak(s[0]) then 0
    else
      var n := FirstBreak(s[1..]);
      assert s[..n + 1] == [s[0]] + s[1..][..n];
      n + 1
  }

  /** A line and the break after it; the last line has none. */
  datatype Part = Part(line: string, end: string)

  function BreakWidth(s: string, n: nat): (w: nat)
    requires n < |s|
    ensures 1 <= w <= 2 && n + w <= |s|
  {
    if n + 1 < |s| && s[n] == CR && s[n + 1] == LF then 2 else 1
  }

  /** split(/(\r\n|\r|\n)/) */
  function Split(s: string): (parts: seq<Part>)
    ensures parts != []
    decreases |s|
  {
    var n := FirstBreak(s);
    if n == |s| then [Part(s, "")]
    else
      var w := BreakWidth(s, n);
      [Part(s[..n], s[n..n + w])] + Split(s[n + w..])
  }

  /** The lines that are not empty. */
  function Lines(parts: seq<Part>): set<string> {
    if parts == [] then {} else (if parts[0].line == "" then {} else {parts[0].line}) + Lines(parts[1..])
  }

  function LinesOf(text: string): set<string> { Lines(Split(text)) }

  // ---- checkboxValue ----

  /** new Set(values.filter(value => value !== '')), in insertion order. */
  function Selected(values: seq<string>): (r: seq<string>)
    ensures forall v :: v in r <==> v in values && v != ""
    ensures forall i, j :: 0 <= i < j < |r| ==> r[i] != r[j]
  {
    if values == [] then []
    else
      var init, last := values[..|values| - 1], values[|values| - 1];
      var r := Selected(init);
      assert values == init + [last];
      if last == "" || last in r then r else r + [last]
  }

  function AsSet(s: seq<string>): set<string> { set v | v in s }

  /** The stored lines that are empty or selected, each with its break. */
  function Kept(parts: seq<Part>, selected: set<string>): string {
    if parts == [] then ""
    else
      (if parts[0].line == "" || parts[0].line in selected then parts[0].line + parts[0].end else "")
      + Kept(parts[1..], selected)
  }

  function Without(s: seq<string>, before: set<string>): (r: seq<string>)
    ensures forall v :: v in r <==> v in s && v !in before
  {
    if s == [] then []
    else (if s[0] in before then [] else [s[0]]) + Without(s[1..], before)
  }

  /** The break at the very end of a text. */
  function Trailing(s: string): string {
    if |s| > 1 && s[|s| - 2] == CR && s[|s| - 1] == LF then [CR, LF]
    else if s != "" && IsBreak(s[|s| - 1]) then [s[|s| - 1]]
    else ""
  }

  function Join(lines: seq<string>, separator: string): string {
    if lines == [] then "" else if |lines| == 1 then lines[0] else lines[0] + (separator + Join(lines[1..], separator))
  }

  function Separator(trailing: string, original: string): (r: string)
    ensures trailing == "" || IsBreak(trailing[0]) ==> r != "" && IsBreak(r[0])
  {
    if trailing != "" then trailing
    else
      var n := FirstBreak(original);
      if n < |original| then original[n..n + BreakWidth(original, n)] else [CR]
  }

  function WithAdded(kept: string, original: string, added: seq<string>): string {
    if added == [] then kept
    else
      var trailing := Trailing(if kept != "" then kept else original);
      var separator := Separator(trailing, original);
      kept + ((if kept != "" && trailing == "" then separator else "") + (Join(added, separator) + trailing))
  }

  predicate SameSelection(selected: set<string>, before: set<string>) {
    |selected| == |before| && forall v :: v in selected ==> v in before
  }

  function CheckboxValue(original: string, values: seq<string>): string {
    var selected := Selected(values);
    var before := LinesOf(original);
    if SameSelection(AsSet(selected), before) then original
    else if selected == [] then ""
    else WithAdded(Kept(Split(original), AsSet(selected)), original, Without(selected, before))
  }

  method KeepLines(parts: seq<Part>, selected: set<string>) returns (result: string)
    ensures result == Kept(parts, selected)
  {
    result := "";
    for index := 0 to |parts|
      invariant result + Kept(parts[index..], selected) == Kept(parts, selected)
    {
      assert parts[index..][1..] == parts[index + 1..];
      if parts[index].line == "" || parts[index].line in selected {
        result := result + (parts[index].line + parts[index].end);
      }
    }
  }

  // ---- The lines of a joined text ----

  /** The runs of characters that are not breaks. */
  function Runs(s: string): set<string>
    decreases |s|
  {
    var n := FirstBreak(s);
    (if n == 0 then {} else {s[..n]}) + if n == |s| then {} else Runs(s[n + 1..])
  }

  lemma {:induction false} SplitStep(s: string)
    ensures var n := FirstBreak(s);
            n < |s| ==>
              var w := BreakWidth(s, n);
              Split(s)[0] == Part(s[..n], s[n..n + w]) && Split(s)[1..] == Split(s[n + w..])
    ensures FirstBreak(s) == |s| ==> Split(s) == [Part(s, "")]
  {
    hide FirstBreak;
    var n := FirstBreak(s);
    if n < |s| {
      var rest := Split(s[n + BreakWidth(s, n)..]);
      assert Split(s) == [Part(s[..n], s[n..n + BreakWidth(s, n)])] + rest;
    }
  }

  lemma {:induction false} LinesAreRuns(s: string)
    ensures LinesOf(s) == Runs(s)
    decreases |s|
  {
    hide FirstBreak, OneLine, Split, Runs, Lines, BreakWidth;
    var n := FirstBreak(s);
    SplitStep(s);
    LinesStep(Split(s));
    if n < |s| {
      LinesAreRuns(s[n + BreakWidth(s, n)..]);
      RunsStep(s, n);
      RunsOfBreak(s, n);
    } else {
      assert s[..n] == s && Split(s)[1..] == [];
      RunsEnd(s);
      NoLines();
    }
  }

  lemma NoLines()
    ensures Lines([]) == {}
  {
  }

  lemma RunsOfBreak(s: string, n: nat)
    requires n < |s| && IsBreak(s[n])
    ensures Runs(s[n + 1..]) == Runs(s[n + BreakWidth(s, n)..])
  {
    if BreakWidth(s, n) == 2 {
      hide Runs;
      assert s[n + 1..][..0] == "" && s[n + 1..][1..] == s[n + 2..];
      RunsStep(s[n + 1..], 0);
    }
  }

  lemma {:induction false} FirstBreakIs(s: string, n: nat)
    requires n <= |s| && OneLine(s[..n]) && (n < |s| ==> IsBreak(s[n]))
    ensures FirstBreak(s) == n
  {
    var m := FirstBreak(s);
    assert forall i :: 0 <= i < n ==> s[i] == s[..n][i];
    assert forall i :: 0 <= i < m ==> s[i] == s[..m][i];
  }

  lemma {:induction false} RunsStep(s: string, n: nat)
    requires n < |s| && OneLine(s[..n]) && IsBreak(s[n])
    ensures Runs(s) == (if n == 0 then {} else {s[..n]}) + Runs(s[n + 1..])
  {
    FirstBreakIs(s, n);
  }

  lemma {:induction false} RunsEnd(s: string)
    requires OneLine(s)
    ensures Runs(s) == if s == "" then {} else {s}
  {
    assert s[..|s|] == s;
    FirstBreakIs(s, |s|);
  }

  /** A break separates: the runs of both sides are the runs of the whole. */
  lemma {:induction false} RunsAround(s: string, c: char, t: string)
    requires IsBreak(c)
    ensures Runs(s + ([c] + t)) == Runs(s) + Runs(t)
    decreases |s|
  {
    hide OneLine, Runs, IsBreak;
    var n := FirstBreak(s);
    var u := s + ([c] + t);
    assert u[..n] == s[..n];
    assert u[n] == if n < |s| then s[n] else c;
    RunsStep(u, n);
    if n == |s| {
      assert s[..n] == s && u[n + 1..] == t;
      RunsEnd(s);
    } else {
      assert u[n + 1..] == s[n + 1..] + ([c] + t);
      RunsStep(s, n);
      RunsAround(s[n + 1..], c, t);
    }
  }

  lemma {:induction false} NoRuns()
    ensures Runs("") == {}
  {
  }

  ghost predicate BreakText(s: string) { s == [CR] || s == [LF] || s == [CR, LF] }

  lemma {:induction false} RunsAroundBreak(s: string, e: string, t: string)
    requires BreakText(e)
    ensures Runs(s + (e + t)) == Runs(s) + Runs(t)
  {
    if |e| == 2 {
      assert s + (e + t) == s + ([CR] + ([LF] + t));
      RunsAround(s, CR, [LF] + t);
      RunsAround("", LF, t);
      assert "" + ([LF] + t) == [LF] + t;
      NoRuns();
    } else {
      RunsAround(s, e[0], t);
      assert e == [e[0]];
    }
  }

  // ---- The lines of the new value ----

  /** Every part but the last ends in a break, and the last has none. */
  ghost predicate Ended(parts: seq<Part>) {
    && (forall i :: 0 <= i < |parts| ==> OneLine(parts[i].line))
    && (forall i :: 0 <= i < |parts| - 1 ==> BreakText(parts[i].end))
    && (parts != [] ==> parts[|parts| - 1].end == "")
  }

  lemma {:induction false} SplitIsEnded(s: string)
    ensures Ended(Split(s))
    decreases |s|
  {
    hide OneLine, BreakText, FirstBreak;
    var n := FirstBreak(s);
    if n < |s| {
      var rest := s[n + BreakWidth(s, n)..];
      SplitIsEnded(rest);
      BreakIsBreakText(s, n);
      EndedGrows(Part(s[..n], s[n..n + BreakWidth(s, n)]), Split(rest));
    } else {
      assert s[..n] == s;
    }
  }

  lemma EndedGrows(p: Part, parts: seq<Part>)
    requires Ended(parts) && parts != [] && OneLine(p.line) && BreakText(p.end)
    ensures Ended([p] + parts)
  {
    hide OneLine, BreakText;
  }

  lemma BreakIsBreakText(s: string, n: nat)
    requires n < |s| && IsBreak(s[n])
    ensures BreakText(s[n..n + BreakWidth(s, n)])
  {
    var w := BreakWidth(s, n);
    assert s[n..n + w] == if w == 2 then [s[n], s[n + 1]] else [s[n]];
  }

  lemma {:induction false} KeptStep(parts: seq<Part>, selected: set<string>)
    requires parts != []
    ensures Kept(parts, selected)
         == if parts[0].line == "" || parts[0].line in selected
            then parts[0].line + (parts[0].end + Kept(parts[1..], selected)) else Kept(parts[1..], selected)
    ensures |parts| == 1 ==> Kept(parts[1..], selected) == ""
  {
  }

  lemma EndedStep(parts: seq<Part>)
    requires Ended(parts) && parts != []
    ensures Ended(parts[1..]) && OneLine(parts[0].line) && if |parts| == 1 then parts[0].end == "" else BreakText(parts[0].end)
  {
    assert forall i :: 0 <= i < |parts| - 1 ==> parts[1..][i] == parts[i + 1];
  }

  lemma {:induction false} RunsOfKept(parts: seq<Part>, selected: set<string>)
    requires Ended(parts)
    ensures Runs(Kept(parts, selected)) == Lines(parts) * selected
  {
    NoRuns();
    if parts != [] {
      hide Ended, Kept, Runs, BreakText, OneLine;
      var p, rest := parts[0], parts[1..];
      EndedStep(parts);
      RunsOfKept(rest, selected);
      KeptStep(parts, selected);
      RunsEnd(p.line);
      if p.line == "" || p.line in selected {
        if |parts| == 1 {
          assert p.line + ("" + "") == p.line;
        } else {
          RunsAroundBreak(p.line, p.end, Kept(rest, selected));
        }
      }
    }
  }

  lemma {:induction false} RunsOfJoin(lines: seq<string>, separator: string)
    requires BreakText(separator) && forall v :: v in lines ==> OneLine(v) && v != ""
    ensures Runs(Join(lines, separator)) == AsSet(lines)
  {
    NoRuns();
    if lines != [] {
      RunsEnd(lines[0]);
      assert lines == [lines[0]] + lines[1..];
      RunsOfJoin(lines[1..], separator);
      if |lines| > 1 { RunsAroundBreak(lines[0], separator, Join(lines[1..], separator)); }
    }
  }

  lemma {:induction false} TrailingIsBreak(s: string)
    ensures var e := Trailing(s);
            e == "" || (BreakText(e) && |e| <= |s| && s == s[..|s| - |e|] + (e + ""))
  {
  }

  lemma {:induction false} SeparatorIsBreak(trailing: string, original: string)
    requires trailing == "" || BreakText(trailing)
    ensures BreakText(Separator(trailing, original))
  {
    var n := FirstBreak(original);
    if n < |original| {
      BreakIsBreakText(original, n);
    }
  }

  /** The added options, and the trailing break behind them. */
  lemma {:induction false} RunsOfAdded(added: seq<string>, separator: string, trailing: string)
    requires BreakText(separator) && (trailing == "" || BreakText(trailing))
    requires forall v :: v in added ==> OneLine(v) && v != ""
    ensures Runs(Join(added, separator) + trailing) == AsSet(added)
  {
    hide Runs, Join, BreakText;
    NoRuns();
    RunsOfJoin(added, separator);
    var lines := Join(added, separator);
    if trailing != "" {
      RunsAroundBreak(lines, trailing, "");
      assert trailing + "" == trailing;
    } else {
      assert lines + trailing == lines;
    }
  }

  lemma {:induction false} RunsBehindKept(kept: string, trailing: string, separator: string, end: string)
    requires kept != "" && trailing == Trailing(kept) && BreakText(separator)
    ensures Runs(kept + ((if trailing == "" then separator else "") + end)) == Runs(kept) + Runs(end)
  {
    hide Runs, Trailing;
    NoRuns();
    TrailingIsBreak(kept);
    if trailing == "" {
      RunsAroundBreak(kept, separator, end);
    } else {
      var start := kept[..|kept| - |trailing|];
      assert kept == start + (trailing + "");
      assert kept + ("" + end) == start + (trailing + end);
      RunsAroundBreak(start, trailing, end);
      RunsAroundBreak(start, trailing, "");
    }
  }

  lemma {:induction false} RunsWithAdded(kept: string, original: string, added: seq<string>)
    requires forall v :: v in added ==> OneLine(v) && v != ""
    ensures Runs(WithAdded(kept, original, added)) == Runs(kept) + AsSet(added)
  {
    hide Runs, Join, Trailing, Separator, OneLine, BreakText;
    if added != [] {
      NoRuns();
      var trailing := Trailing(if kept != "" then kept else original);
      TrailingIsBreak(if kept != "" then kept else original);
      var separator := Separator(trailing, original);
      SeparatorIsBreak(trailing, original);
      RunsOfAdded(added, separator, trailing);
      var end := Join(added, separator) + trailing;
      if kept == "" {
        assert "" + ("" + end) == end;
      } else {
        RunsBehindKept(kept, trailing, separator, end);
      }
    }
  }

  lemma {:induction false} RunsAreLines(s: string, v: string)
    requires v in Runs(s)
    ensures OneLine(v) && v != ""
    decreases |s|
  {
    var n := FirstBreak(s);
    if n < |s| && v in Runs(s[n + 1..]) { RunsAreLines(s[n + 1..], v); }
  }

  lemma SmallerOrSame(a: set<string>, b: set<string>)
    requires a <= b
    ensures |a| <= |b| && (|a| == |b| <==> a == b)
  {
    assert b == a + (b - a);
    assert |b| == |a| + |b - a|;
  }

  /** The lines of the new value are exactly the selected options, provided no option holds a line break. */
  lemma {:induction false} LinesAreTheSelection(original: string, values: seq<string>)
    ensures LinesOf(CheckboxValue(original, values)) == AsSet(Selected(values))
       <==> forall v :: v in values ==> OneLine(v)
  {
    hide Runs, Split, Kept, Lines, WithAdded;
    var selected, before := Selected(values), LinesOf(original);
    var chosen := AsSet(selected);
    var result := CheckboxValue(original, values);
    LinesAreRuns(result);
    LinesAreRuns(original);
    forall v | v in Runs(result) ensures OneLine(v) { RunsAreLines(result, v); }
    if forall v :: v in values ==> OneLine(v) {
      if SameSelection(chosen, before) {
        SmallerOrSame(chosen, before);
      } else if selected == [] {
        NoRuns();
      } else {
        var added := Without(selected, before);
        SplitIsEnded(original);
        RunsOfKept(Split(original), chosen);
        RunsWithAdded(Kept(Split(original), chosen), original, added);
        assert before * chosen + AsSet(added) == chosen;
      }
    } else {
      var v :| v in values && !OneLine(v);
      assert v in chosen;
    }
  }

  /** An option that holds a line break comes back as something else. */
  lemma OptionWithBreakIsLost()
    ensures LinesOf(CheckboxValue("", ["a\nb"])) != AsSet(Selected(["a\nb"]))
  {
    LinesAreTheSelection("", ["a\nb"]);
    var option := "a\nb";
    assert IsBreak(option[1]) && option in ["a\nb"];
    assert !OneLine(option);
  }

  lemma {:induction false} SplitJoins(s: string, selected: set<string>)
    requires Lines(Split(s)) <= selected
    ensures Kept(Split(s), selected) == s
    decreases |s|
  {
    hide Split, FirstBreak, BreakWidth, Kept, Lines;
    var n := FirstBreak(s);
    SplitStep(s);
    LinesStep(Split(s));
    KeptStep(Split(s), selected);
    if n < |s| {
      var w := BreakWidth(s, n);
      SplitJoins(s[n + w..], selected);
      assert s == s[..n] + (s[n..n + w] + s[n + w..]);
    } else {
      assert s == s + ("" + "");
    }
  }

  lemma {:induction false} LinesStep(parts: seq<Part>)
    requires parts != []
    ensures Lines(parts) == (if parts[0].line == "" then {} else {parts[0].line}) + Lines(parts[1..])
  {
  }

  /** When nothing is deselected, the stored text stays as it was and the new options follow it. */
  lemma {:induction false} AddingKeepsTheText(original: string, values: seq<string>)
    requires LinesOf(original) <= AsSet(Selected(values))
    ensures original <= CheckboxValue(original, values)
    ensures LinesOf(original) == AsSet(Selected(values)) ==> CheckboxValue(original, values) == original
  {
    hide Split, Kept, Lines;
    var selected := Selected(values);
    SplitJoins(original, AsSet(selected));
    SmallerOrSame(LinesOf(original), AsSet(selected));
    if selected == [] { assert AsSet(selected) == {}; }
  }
}
