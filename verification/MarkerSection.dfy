/** Putting a generated section between markers into a file that may hold other text, and replacing it later. */
module MarkerSection {
  import opened Common

  const CR := '\r'
  const LF := '\n'
  const START := "<!-- filemaker-ai-context:start -->"
  const END := "<!-- filemaker-ai-context:end -->"

  predicate Marker(m: string) { m == START || m == END }

  // ---- Occurrences ----

  predicate At(text: string, m: string, i: nat) { i + |m| <= |text| && text[i..i + |m|] == m }

  ghost predicate Nowhere(text: string, m: string) { forall i: nat :: !At(text, m, i) }

  ghost predicate OnlyAt(text: string, m: string, k: nat) { forall i: nat :: At(text, m, i) <==> i == k }

  /** The first occurrence at or after `from`. */
  function IndexOf(text: string, m: string, from: nat): (r: Option<nat>)
    requires from <= |text|
    ensures r.None? ==> forall i: nat :: from <= i ==> !At(text, m, i) || m == ""
    ensures r.Some? ==> from <= r.value && r.value + |m| <= |text| && At(text, m, r.value)
    ensures r.Some? ==> forall i: nat :: from <= i < r.value ==> !At(text, m, i)
    decreases |text| - from
  {
    if At(text, m, from) then Some(from) else if from == |text| then None else IndexOf(text, m, from + 1)
  }

  /** Occurrences that do not overlap, from left to right. */
  function Count(text: string, m: string, from: nat): nat
    requires m != "" && from <= |text|
    decreases |text| - from
  {
    match IndexOf(text, m, from)
    case None => 0
    case Some(i) => 1 + Count(text, m, i + |m|)
  }

  method CountOccurrences(text: string, m: string) returns (count: nat)
    requires m != ""
    ensures count == Count(text, m, 0)
  {
    hide At;
    count := 0;
    var from := 0;
    var index := IndexOf(text, m, 0);
    while index.Some?
      invariant from <= |text| && index == IndexOf(text, m, from)
      invariant count + Count(text, m, from) == Count(text, m, 0)
      decreases |text| - from
    {
      count := count + 1;
      from := index.value + |m|;
      index := IndexOf(text, m, from);
    }
  }

  /** A marker holds no line break, and `<` only as its first character. */
  lemma MarkerCharacters(m: string)
    requires Marker(m)
    ensures |m| > 1 && m[0] == '<'
    ensures forall j :: 0 <= j < |m| ==> m[j] != CR && m[j] != LF && (j > 0 ==> m[j] != '<')
  {
  }

  lemma AtCharacter(text: string, m: string, i: nat, j: nat)
    requires At(text, m, i) && j < |m|
    ensures text[i + j] == m[j]
  {
    assert text[i..i + |m|][j] == text[i + j];
  }

  /** Two occurrences of markers do not overlap. */
  lemma {:induction false} MarkersDoNotOverlap(text: string, m: string, n: string, i: nat, j: nat)
    requires Marker(m) && Marker(n) && At(text, m, i) && At(text, n, j)
    ensures i < j ==> i + |m| <= j
  {
    MarkerCharacters(m);
    MarkerCharacters(n);
    if i < j < i + |m| {
      AtCharacter(text, m, i, j - i);
      AtCharacter(text, n, j, 0);
    }
  }

  /** Counting none is finding none; counting one is finding exactly one. */
  lemma {:induction false} CountTells(text: string, m: string)
    requires Marker(m)
    ensures Count(text, m, 0) == 0 <==> Nowhere(text, m)
    ensures Count(text, m, 0) == 1 <==> IndexOf(text, m, 0).Some? && OnlyAt(text, m, IndexOf(text, m, 0).value)
  {
    hide At;
    MarkerCharacters(m);
    var first := IndexOf(text, m, 0);
    if first.Some? {
      var k := first.value;
      AtFits(text, m, k);
      var second := IndexOf(text, m, k + |m|);
      forall i: nat | At(text, m, i) ensures i == k || k + |m| <= i {
        MarkersDoNotOverlap(text, m, m, k, i);
      }
      assert Count(text, m, 0) == 1 + Count(text, m, k + |m|);
      if second.None? {
        assert Count(text, m, k + |m|) == 0;
      } else {
        assert Count(text, m, k + |m|) >= 1;
      }
    }
  }

  lemma AtFits(text: string, m: string, i: nat)
    requires At(text, m, i)
    ensures i + |m| <= |text|
  {
  }

  // ---- Line ends ----

  /** Whether the first line feed of the text is preceded by a carriage return. */
  predicate UsesCrLf(text: string) {
    var i := IndexOf(text, [LF], 0);
    i.Some? && i.value > 0 && text[i.value - 1] == CR
  }

  /** Every line feed with or without a carriage return becomes both. */
  function CrLfEverywhere(text: string): string {
    if text == "" then ""
    else if text[0] == LF then [CR, LF] + CrLfEverywhere(text[1..])
    else if |text| > 1 && text[0] == CR && text[1] == LF then [CR, LF] + CrLfEverywhere(text[2..])
    else [text[0]] + CrLfEverywhere(text[1..])
  }

  function ToEol(text: string, crlf: bool): string { if crlf then CrLfEverywhere(text) else text }

  function Eol(crlf: bool): string { if crlf then [CR, LF] else [LF] }

  // ---- applyMarkerSection ----

  datatype Mode = Created | Replaced | Appended

  datatype Outcome = Written(text: string, mode: Mode) | MarkersMissing | Malformed

  predicate EndsWith(text: string, end: string) { |end| <= |text| && text[|text| - |end|..] == end }

  function AppendSeparator(existing: string, crlf: bool): string {
    if EndsWith(existing, [LF, LF]) then "" else if EndsWith(existing, [LF]) then Eol(crlf) else Eol(crlf) + Eol(crlf)
  }

  /** Where the text after the section starts: behind the line break that follows the end marker. */
  function TailStart(text: string, after: nat): (r: nat)
    requires after <= |text|
    ensures after <= r <= |text|
  {
    if after + 1 < |text| && text[after] == CR && text[after + 1] == LF then after + 2
    else if after < |text| && text[after] == LF then after + 1
    else after
  }

  /** The line end of the old section; when that has no CRLF, the line end of the file. */
  predicate SectionUsesCrLf(existing: string, start: nat, end: nat)
    requires start <= end <= |existing|
  {
    UsesCrLf(existing[start..end]) || UsesCrLf(existing)
  }

  function Apply(existing: Option<string>, wrapped: string, allowAppend: bool): Outcome {
    if existing.None? || existing.value == "" then Written(wrapped, Created)
    else
      var text := existing.value;
      var starts, ends := Count(text, START, 0), Count(text, END, 0);
      if starts == 0 && ends == 0 then
        if !allowAppend then MarkersMissing
        else
          var crlf := UsesCrLf(text);
          Written(text + AppendSeparator(text, crlf) + ToEol(wrapped, crlf), Appended)
      else
        var start, end := IndexOf(text, START, 0), IndexOf(text, END, 0);
        if starts != 1 || ends != 1 || start.None? || end.None? || end.value < start.value then Malformed
        else
          var section := ToEol(wrapped, SectionUsesCrLf(text, start.value, end.value));
          Written(text[..start.value] + section + text[TailStart(text, end.value + |END|)..], Replaced)
  }

  method ApplyMarkerSection(existing: Option<string>, wrapped: string, allowAppend: bool) returns (r: Outcome)
    ensures r == Apply(existing, wrapped, allowAppend)
  {
    hide At, Count, UsesCrLf, ToEol, TailStart, AppendSeparator;
    if existing.None? || existing.value == "" {
      return Written(wrapped, Created);
    }
    var text := existing.value;
    var starts := CountOccurrences(text, START);
    var ends := CountOccurrences(text, END);
    if starts == 0 && ends == 0 {
      if !allowAppend {
        return MarkersMissing;
      }
      var crlf := UsesCrLf(text);
      return Written(text + AppendSeparator(text, crlf) + ToEol(wrapped, crlf), Appended);
    }
    var start, end := IndexOf(text, START, 0), IndexOf(text, END, 0);
    if starts != 1 || ends != 1 || start.None? || end.None? || end.value < start.value {
      return Malformed;
    }
    var crlf := UsesCrLf(text[start.value..end.value]);
    if !crlf {
      crlf := UsesCrLf(text);
    }
    var tailStart := TailStart(text, end.value + |END|);
    r := Written(text[..start.value] + ToEol(wrapped, crlf) + text[tailStart..], Replaced);
  }

  // ---- Markers in a joined text ----

  /** No marker can lie across the seam: it would hold a line break, or a `<` that is not its first character. */
  predicate Seam(x: string, y: string) {
    || x == "" || y == ""
    || x[|x| - 1] == CR || x[|x| - 1] == LF
    || y[0] == '<' || y[0] == CR || y[0] == LF
  }

  lemma {:induction false} AtJoined(x: string, y: string, m: string, i: nat)
    requires Marker(m) && Seam(x, y)
    ensures At(x + y, m, i) <==> At(x, m, i) || (i >= |x| && At(y, m, i - |x|))
  {
    MarkerCharacters(m);
    var t := x + y;
    if i + |m| <= |x| {
      assert t[i..i + |m|] == x[i..i + |m|];
    } else if i >= |x| {
      if i + |m| <= |t| { assert t[i..i + |m|] == y[i - |x|..i - |x| + |m|]; }
    } else if At(t, m, i) {
      AtCharacter(t, m, i, |x| - i);
      AtCharacter(t, m, i, |x| - i - 1);
    }
  }

  lemma {:induction false} NowhereJoined(x: string, y: string, m: string)
    requires Marker(m) && Seam(x, y) && Nowhere(x, m) && Nowhere(y, m)
    ensures Nowhere(x + y, m)
  {
    hide At;
    forall i: nat ensures !At(x + y, m, i) { AtJoined(x, y, m, i); }
  }

  lemma {:induction false} OnlyInFirst(x: string, y: string, m: string, k: nat)
    requires Marker(m) && Seam(x, y) && OnlyAt(x, m, k) && Nowhere(y, m)
    ensures OnlyAt(x + y, m, k)
  {
    hide At;
    forall i: nat ensures At(x + y, m, i) <==> i == k { AtJoined(x, y, m, i); }
  }

  lemma {:induction false} OnlyInSecond(x: string, y: string, m: string, k: nat)
    requires Marker(m) && Seam(x, y) && Nowhere(x, m) && OnlyAt(y, m, k)
    ensures OnlyAt(x + y, m, |x| + k)
  {
    hide At;
    AtJoined(x, y, m, |x| + k);
    forall i: nat ensures At(x + y, m, i) <==> i == |x| + k {
      AtJoined(x, y, m, i);
      if i < |x| { assert !At(x, m, i); }
    }
  }

  lemma {:induction false} NowhereBefore(text: string, m: string, k: nat, s: nat)
    requires Marker(m) && OnlyAt(text, m, k) && s <= k && s <= |text|
    ensures Nowhere(text[..s], m)
  {
    MarkerCharacters(m);
    forall i: nat ensures !At(text[..s], m, i) {
      if At(text[..s], m, i) {
        assert text[..s][i..i + |m|] == text[i..i + |m|];
        assert At(text, m, i);
      }
    }
  }

  lemma {:induction false} NowhereAfter(text: string, m: string, k: nat, s: nat)
    requires Marker(m) && OnlyAt(text, m, k) && k < s <= |text|
    ensures Nowhere(text[s..], m)
  {
    forall i: nat ensures !At(text[s..], m, i) {
      if At(text[s..], m, i) {
        assert text[s..][i..i + |m|] == text[s + i..s + i + |m|];
        assert At(text, m, s + i);
      }
    }
  }

  lemma MarkersAreApart()
    ensures OnlyAt(START, START, 0) && OnlyAt(END, END, 0) && Nowhere(START, END) && Nowhere(END, START)
  {
    assert START[26] == 's' && END[26] == 'e';
    MarkerCharacters(START);
    MarkerCharacters(END);
    forall i: nat ensures At(START, START, i) <==> i == 0 { assert START[0..|START|] == START; }
    forall i: nat ensures At(END, END, i) <==> i == 0 { assert END[0..|END|] == END; }
    forall i: nat ensures !At(START, END, i) {
      if At(START, END, i) {
        AtCharacter(START, END, i, 0);
        AtCharacter(START, END, i, 26);
      }
    }
  }

  // ---- A section inside a file ----

  /** The markers with the body between them; what the renderer wraps has a line break before the end marker in the body. */
  function Section(body: string, crlf: bool): string { START + (Eol(crlf) + (body + (END + Eol(crlf)))) }

  ghost predicate MarkerFree(text: string) { Nowhere(text, START) && Nowhere(text, END) }

  ghost predicate OneSection(text: string, start: nat, end: nat) {
    OnlyAt(text, START, start) && OnlyAt(text, END, end) && start + |START| <= end
  }

  lemma ShortTextIsMarkerFree(crlf: bool)
    ensures MarkerFree(Eol(crlf)) && MarkerFree("")
  {
    assert |START| > 2 && |END| > 2;
  }

  function EndIndex(head: string, body: string, crlf: bool): nat { |head| + (|START| + (|Eol(crlf)| + |body|)) }

  function InFile(head: string, body: string, crlf: bool, tail: string): string {
    head + (START + (Eol(crlf) + (body + (END + (Eol(crlf) + tail)))))
  }

  /** A section between texts without markers is the only one in the file. */
  lemma {:induction false} InFileIsOneSection(head: string, body: string, crlf: bool, tail: string)
    requires MarkerFree(head) && MarkerFree(body) && MarkerFree(tail)
    ensures OneSection(InFile(head, body, crlf, tail), |head|, EndIndex(head, body, crlf))
    ensures InFile(head, body, crlf, tail) == head + Section(body, crlf) + tail
  {
    hide At, Nowhere, OnlyAt;
    var e := Eol(crlf);
    ShortTextIsMarkerFree(crlf);
    MarkersAreApart();
    var t1 := e + tail;
    NowhereJoined(e, tail, START);
    NowhereJoined(e, tail, END);
    var t2 := END + t1;
    NowhereJoined(END, t1, START);
    OnlyInFirst(END, t1, END, 0);
    var t3 := body + t2;
    NowhereJoined(body, t2, START);
    OnlyInSecond(body, t2, END, 0);
    var t4 := e + t3;
    NowhereJoined(e, t3, START);
    OnlyInSecond(e, t3, END, |body|);
    var t5 := START + t4;
    OnlyInFirst(START, t4, START, 0);
    OnlyInSecond(START, t4, END, |e| + |body|);
    OnlyInSecond(head, t5, START, 0);
    OnlyInSecond(head, t5, END, |START| + (|e| + |body|));
    assert InFile(head, body, crlf, tail) == head + Section(body, crlf) + tail;
  }

  // ---- Line ends of a section ----

  lemma {:induction false} CrLfSteps(c: char, r: string)
    ensures c == LF ==> CrLfEverywhere([LF] + r) == [CR, LF] + CrLfEverywhere(r)
    ensures c != LF && (c != CR || r == "" || r[0] != LF) ==> CrLfEverywhere([c] + r) == [c] + CrLfEverywhere(r)
    ensures CrLfEverywhere([CR, LF] + r) == [CR, LF] + CrLfEverywhere(r)
  {
    assert ([c] + r)[1..] == r && ([CR, LF] + r)[2..] == r;
  }

  lemma {:induction false} CrLfAfterPair(r: string, y: string)
    requires CrLfEverywhere(r + y) == CrLfEverywhere(r) + CrLfEverywhere(y)
    ensures CrLfEverywhere([CR, LF] + r + y) == CrLfEverywhere([CR, LF] + r) + CrLfEverywhere(y)
  {
    hide CrLfEverywhere;
    CrLfSteps(CR, r);
    CrLfSteps(CR, r + y);
    assert [CR, LF] + r + y == [CR, LF] + (r + y);
  }

  lemma {:induction false} CrLfAfterOne(c: char, r: string, y: string)
    requires CrLfEverywhere(r + y) == CrLfEverywhere(r) + CrLfEverywhere(y)
    requires c == CR ==> (r == "" || r[0] != LF) && (r + y == "" || (r + y)[0] != LF)
    ensures CrLfEverywhere([c] + r + y) == CrLfEverywhere([c] + r) + CrLfEverywhere(y)
  {
    hide CrLfEverywhere;
    CrLfSteps(c, r);
    CrLfSteps(c, r + y);
    assert [c] + r + y == [c] + (r + y);
  }

  lemma {:induction false} CrLfJoined(x: string, y: string)
    requires x == "" || y == "" || x[|x| - 1] != CR || y[0] != LF
    ensures CrLfEverywhere(x + y) == CrLfEverywhere(x) + CrLfEverywhere(y)
    decreases |x|
  {
    if x == "" {
      assert x + y == y && CrLfEverywhere("") == "";
    } else {
      hide CrLfEverywhere;
      if |x| > 1 && x[0] == CR && x[1] == LF {
        assert x == [CR, LF] + x[2..];
        CrLfJoined(x[2..], y);
        CrLfAfterPair(x[2..], y);
      } else {
        assert x == [x[0]] + x[1..];
        CrLfJoined(x[1..], y);
        CrLfAfterOne(x[0], x[1..], y);
      }
    }
  }

  lemma {:induction false} CrLfLeavesLines(m: string)
    requires forall j :: 0 <= j < |m| ==> m[j] != CR && m[j] != LF
    ensures CrLfEverywhere(m) == m
  {
    if m != "" { CrLfLeavesLines(m[1..]); }
  }

  lemma CrLfOfBreak()
    ensures CrLfEverywhere([LF]) == [CR, LF]
  {
    assert CrLfEverywhere("") == "";
  }

  lemma {:induction false} SectionWithCrLf(body: string)
    ensures CrLfEverywhere(Section(body, false)) == Section(CrLfEverywhere(body), true)
  {
    hide CrLfEverywhere;
    MarkerCharacters(START);
    MarkerCharacters(END);
    CrLfLeavesLines(START);
    CrLfLeavesLines(END);
    CrLfOfBreak();
    CrLfJoined(END, [LF]);
    CrLfJoined(body, END + [LF]);
    CrLfJoined([LF], body + (END + [LF]));
    CrLfJoined(START, [LF] + (body + (END + [LF])));
  }

  lemma SectionWithEol(body: string, crlf: bool)
    ensures ToEol(Section(body, false), crlf) == Section(ToEol(body, crlf), crlf)
  {
    if crlf { SectionWithCrLf(body); }
  }

  /** A start without line breaks is a start of the text before its line ends were changed. */
  lemma {:induction false} StartSurvivesCrLf(text: string, m: string)
    requires forall j :: 0 <= j < |m| ==> m[j] != CR && m[j] != LF
    requires m <= CrLfEverywhere(text)
    ensures m <= text
  {
    if m != "" {
      assert CrLfEverywhere(text)[0] == m[0];
      assert CrLfEverywhere(text)[1..] == CrLfEverywhere(text[1..]);
      StartSurvivesCrLf(text[1..], m[1..]);
      assert m == [m[0]] + m[1..] && text == [text[0]] + text[1..];
    }
  }

  lemma {:induction false} AtShifted(p: string, w: string, m: string, i: nat)
    ensures At(p + w, m, |p| + i) <==> At(w, m, i)
  {
    if i + |m| <= |w| { assert (p + w)[|p| + i..|p| + i + |m|] == w[i..i + |m|]; }
  }

  /** The first step of the conversion: what it reads, what it writes, and what is left. */
  lemma CrLfFirst(text: string) returns (read: string, written: string, rest: string)
    requires text != ""
    ensures text == read + rest && CrLfEverywhere(text) == written + CrLfEverywhere(rest) && read != ""
    ensures written == [CR, LF] || written == read == [text[0]]
  {
    if text[0] == LF {
      read, written, rest := [LF], [CR, LF], text[1..];
    } else if |text| > 1 && text[0] == CR && text[1] == LF {
      read, written, rest := [CR, LF], [CR, LF], text[2..];
    } else {
      read, written, rest := [text[0]], [text[0]], text[1..];
    }
  }

  lemma {:induction false} CrLfAddsNoMarker(text: string, m: string, i: nat) returns (j: nat)
    requires Marker(m) && At(CrLfEverywhere(text), m, i)
    ensures At(text, m, j)
    decreases |text|
  {
    MarkerCharacters(m);
    var c := CrLfEverywhere(text);
    AtCharacter(c, m, i, 0);
    assert text != "";
    hide CrLfEverywhere;
    var read, written, rest := CrLfFirst(text);
    var w := CrLfEverywhere(rest);
    if i >= |written| {
      AtShifted(written, w, m, i - |written|);
      var k := CrLfAddsNoMarker(rest, m, i - |written|);
      j := |read| + k;
      AtShifted(read, rest, m, k);
    } else {
      assert c[i] == written[i] == '<';
      assert i == 0;
      assert m <= c;
      StartSurvivesCrLf(text, m);
      j := 0;
    }
  }

  lemma {:induction false} EolKeepsMarkerFree(text: string, crlf: bool)
    requires MarkerFree(text)
    ensures MarkerFree(ToEol(text, crlf))
  {
    hide At;
    if crlf {
      forall m: string, i: nat | Marker(m) ensures !At(CrLfEverywhere(text), m, i) {
        if At(CrLfEverywhere(text), m, i) { var j := CrLfAddsNoMarker(text, m, i); }
      }
    }
  }

  lemma {:induction false} LfAt(text: string, i: nat)
    ensures At(text, [LF], i) <==> i < |text| && text[i] == LF
  {
    if i < |text| { assert text[i..i + 1] == [text[i]]; }
  }

  lemma {:induction false} UsesCrLfAt(text: string, k: nat)
    requires k < |text| && text[k] == LF && LF !in text[..k]
    ensures UsesCrLf(text) <==> k > 0 && text[k - 1] == CR
  {
    hide At;
    LfAt(text, k);
    forall i: nat | i < k ensures !At(text, [LF], i) {
      LfAt(text, i);
      assert text[i] == text[..k][i];
    }
  }

  /** Without a line feed before it, the first break of a text decides. */
  lemma FirstBreakDecides(x: string, crlf: bool, y: string)
    requires LF !in x && x != ""
    ensures UsesCrLf(x + (Eol(crlf) + y)) <==> crlf || x[|x| - 1] == CR
  {
    var t := x + (Eol(crlf) + y);
    var k := if crlf then |x| + 1 else |x|;
    assert t[..k] == x + Eol(crlf)[..|Eol(crlf)| - 1];
    UsesCrLfAt(t, k);
  }

  lemma {:induction false} FirstLf(text: string) returns (k: nat)
    requires LF in text
    ensures k < |text| && text[k] == LF && LF !in text[..k]
  {
    if text[0] == LF {
      k := 0;
    } else {
      assert text == [text[0]] + text[1..];
      var h := FirstLf(text[1..]);
      k := h + 1;
      assert text[..k] == [text[0]] + text[1..][..h];
    }
  }

  /** With a line feed in it, the first part of a text decides. */
  lemma FirstPartDecides(x: string, y: string)
    requires LF in x
    ensures UsesCrLf(x + y) <==> UsesCrLf(x)
  {
    hide UsesCrLf;
    var k := FirstLf(x);
    assert (x + y)[..k] == x[..k];
    UsesCrLfAt(x, k);
    UsesCrLfAt(x + y, k);
  }

  lemma NoLfNoCrLf(text: string)
    requires LF !in text
    ensures !UsesCrLf(text)
  {
    hide At;
    var i := IndexOf(text, [LF], 0);
    if i.Some? { LfAt(text, i.value); }
  }

  // ---- What a successful write leaves ----

  /** Which files are accepted, and which are not. */
  lemma {:induction false} OutcomeIsExact(text: string, wrapped: string, allowAppend: bool)
    requires text != ""
    ensures var r := Apply(Some(text), wrapped, allowAppend);
            && (MarkerFree(text) <==> r.MarkersMissing? || (r.Written? && r.mode == Appended))
            && (MarkerFree(text) ==> (r.Written? <==> allowAppend))
            && (r.Written? && r.mode == Replaced ==>
                  IndexOf(text, START, 0).Some? && IndexOf(text, END, 0).Some?
                  && OneSection(text, IndexOf(text, START, 0).value, IndexOf(text, END, 0).value))
  {
    hide At, Count, UsesCrLf, ToEol, TailStart;
    CountTells(text, START);
    CountTells(text, END);
    var s, e := IndexOf(text, START, 0), IndexOf(text, END, 0);
    if s.Some? && e.Some? {
      assert At(text, START, s.value) && At(text, END, e.value);
      MarkersDoNotOverlap(text, START, END, s.value, e.value);
      NotBothAt(text, s.value);
    }
  }

  /** A file with one well-formed section is accepted, and that section is the one found. */
  lemma {:induction false} OneSectionIsReplaced(text: string, wrapped: string, allowAppend: bool, start: nat, end: nat)
    requires OneSection(text, start, end)
    ensures end + |END| <= |text|
    ensures Apply(Some(text), wrapped, allowAppend)
         == Written(text[..start] + ToEol(wrapped, SectionUsesCrLf(text, start, end)) + text[TailStart(text, end + |END|)..], Replaced)
  {
    hide At, Count, UsesCrLf, ToEol, TailStart;
    assert At(text, START, start) && At(text, END, end);
    AtFits(text, START, start);
    AtFits(text, END, end);
    CountTells(text, START);
    CountTells(text, END);
    var s, e := IndexOf(text, START, 0), IndexOf(text, END, 0);
    assert s == Some(start) && e == Some(end);
  }

  lemma NotBothAt(text: string, i: nat)
    ensures !(At(text, START, i) && At(text, END, i))
  {
    if At(text, START, i) && At(text, END, i) {
      assert START[26] == 's' && END[26] == 'e';
      AtCharacter(text, START, i, 26);
      AtCharacter(text, END, i, 26);
    }
  }

  /** What a successful write leaves: the text before and after, and one section with the line ends chosen for it. */
  lemma {:induction false} WritesOneSection(existing: Option<string>, body: string, allowAppend: bool)
    returns (head: string, tail: string, crlf: bool)
    requires MarkerFree(body) && Apply(existing, Section(body, false), allowAppend).Written?
    ensures var r := Apply(existing, Section(body, false), allowAppend);
            var b := ToEol(body, crlf);
            && MarkerFree(head) && MarkerFree(b) && MarkerFree(tail)
            && r.text == InFile(head, b, crlf, tail) == head + Section(b, crlf) + tail
            && OneSection(r.text, |head|, EndIndex(head, b, crlf))
    ensures var r := Apply(existing, Section(body, false), allowAppend);
            match r.mode
            case Created => (existing.None? || existing.value == "") && head == "" && tail == "" && !crlf
            case Appended => existing.Some? && MarkerFree(existing.value) && tail == "" && crlf == UsesCrLf(existing.value)
                             && head == existing.value + AppendSeparator(existing.value, crlf)
            case Replaced => exists start: nat, end: nat ::
              existing.Some? && OneSection(existing.value, start, end) && end + |END| <= |existing.value|
              && head == existing.value[..start] && tail == existing.value[TailStart(existing.value, end + |END|)..]
              && crlf == SectionUsesCrLf(existing.value, start, end)
  {
    hide At, Count, UsesCrLf, ToEol, TailStart, InFile, Section, AppendSeparator, Nowhere;
    var wrapped := Section(body, false);
    var r := Apply(existing, wrapped, allowAppend);
    ShortTextIsMarkerFree(false);
    if r.mode == Created {
      head, tail, crlf := "", "", false;
      LfStays(body);
      LfStays(wrapped);
      assert wrapped == "" + wrapped + "";
    } else {
      var text := existing.value;
      OutcomeIsExact(text, wrapped, allowAppend);
      if r.mode == Appended {
        crlf := UsesCrLf(text);
        head, tail := text + AppendSeparator(text, crlf), "";
        SeparatorIsMarkerFree(text, crlf);
        SectionWithEol(body, crlf);
        assert r.text == head + ToEol(wrapped, crlf) + tail;
      } else {
        var start, end := IndexOf(text, START, 0).value, IndexOf(text, END, 0).value;
        OneSectionIsReplaced(text, wrapped, allowAppend, start, end);
        crlf := SectionUsesCrLf(text, start, end);
        head, tail := text[..start], text[TailStart(text, end + |END|)..];
        AroundIsMarkerFree(text, start, end);
        SectionWithEol(body, crlf);
      }
    }
    EolKeepsMarkerFree(body, crlf);
    InFileIsOneSection(head, ToEol(body, crlf), crlf, tail);
  }

  lemma LfStays(text: string)
    ensures ToEol(text, false) == text
  {
  }

  lemma {:induction false} SeparatorIsMarkerFree(text: string, crlf: bool)
    requires MarkerFree(text)
    ensures MarkerFree(text + AppendSeparator(text, crlf))
  {
    hide At;
    var separator := AppendSeparator(text, crlf);
    ShortTextIsMarkerFree(crlf);
    NowhereJoined(Eol(crlf), Eol(crlf), START);
    NowhereJoined(Eol(crlf), Eol(crlf), END);
    NowhereJoined(text, separator, START);
    NowhereJoined(text, separator, END);
  }

  lemma {:induction false} AroundIsMarkerFree(text: string, start: nat, end: nat)
    requires OneSection(text, start, end) && end + |END| <= |text|
    ensures MarkerFree(text[..start]) && MarkerFree(text[TailStart(text, end + |END|)..])
  {
    hide At, TailStart;
    MarkerCharacters(START);
    MarkerCharacters(END);
    var t := TailStart(text, end + |END|);
    NowhereBefore(text, START, start, start);
    NowhereBefore(text, END, end, start);
    NowhereAfter(text, START, start, t);
    NowhereAfter(text, END, end, t);
  }

  // ---- Writing twice ----

  /** Reading a written file finds the start of the section, and the text after it, again. */
  lemma {:induction false} SectionIsFoundAgain(head: string, body: string, crlf: bool, tail: string)
    ensures var t, end := InFile(head, body, crlf, tail), EndIndex(head, body, crlf);
            && end + |END| <= |t| && t[..|head|] == head && |head| <= end
            && t[|head|..end] == START + (Eol(crlf) + body)
            && t[TailStart(t, end + |END|)..] == tail
  {
    var t, end := InFile(head, body, crlf, tail), EndIndex(head, body, crlf);
    hide TailStart, Eol;
    Pieces(head, START, Eol(crlf), body, END, tail);
    TailIsFound(t, end + |END|, crlf, tail);
  }

  lemma Pieces(a: string, b: string, c: string, d: string, e: string, f: string)
    ensures var t, end := a + (b + (c + (d + (e + (c + f))))), |a| + (|b| + (|c| + |d|));
            end + |e| <= |t| && t[..|a|] == a && t[|a|..end] == b + (c + d) && t[end + |e|..] == c + f
  {
    Regroup(a, b, c, d, e, c + f);
    SplitFour(a, b + (c + d), e, c + f);
  }

  lemma Regroup(a: string, b: string, c: string, d: string, e: string, f: string)
    ensures a + (b + (c + (d + (e + f)))) == a + (b + (c + d)) + e + f
  {
    assert b + (c + (d + (e + f))) == (b + (c + d)) + (e + f);
  }

  lemma SplitFour(a: string, b: string, c: string, d: string)
    ensures var t := a + b + c + d;
            t[..|a|] == a && t[|a|..|a| + |b|] == b && t[|a| + |b| + |c|..] == d
  {
  }

  lemma TailIsFound(t: string, k: nat, crlf: bool, tail: string)
    requires k <= |t| && t[k..] == Eol(crlf) + tail
    ensures t[TailStart(t, k)..] == tail
  {
    var n := |Eol(crlf)|;
    assert forall i :: 0 <= i < n ==> t[k + i] == t[k..][i] == Eol(crlf)[i];
    assert t[k + n..] == t[k..][n..] == tail;
  }

  /** The section of a written file shows its own line end. */
  lemma SectionShowsItsEol(body: string, crlf: bool)
    ensures UsesCrLf(START + (Eol(crlf) + body)) == crlf
  {
    MarkerCharacters(START);
    assert START[|START| - 1] == '>';
    assert LF !in START;
    FirstBreakDecides(START, crlf, body);
  }

  lemma {:induction false} EolsDiffer(body: string, b: bool, c: bool)
    ensures ToEol(Section(body, false), b) == ToEol(Section(body, false), c) <==> b == c
  {
    hide ToEol, CrLfEverywhere;
    SectionWithEol(body, b);
    SectionWithEol(body, c);
    assert Section(ToEol(body, b), b)[|START|] == if b then CR else LF;
    assert Section(ToEol(body, c), c)[|START|] == if c then CR else LF;
  }

  /** The line end of a whole written file, when its section uses plain line feeds. */
  lemma {:induction false} FileWithPlainSection(head: string, body: string, tail: string)
    ensures LF in head ==> UsesCrLf(InFile(head, body, false, tail)) == UsesCrLf(head)
    ensures LF !in head ==> !UsesCrLf(InFile(head, body, false, tail))
  {
    hide UsesCrLf;
    var t := InFile(head, body, false, tail);
    if LF in head {
      FirstPartDecides(head, START + (Eol(false) + (body + (END + (Eol(false) + tail)))));
    } else {
      MarkerCharacters(START);
      assert START[|START| - 1] == '>';
      var rest := body + (END + (Eol(false) + tail));
      assert t == (head + START) + (Eol(false) + rest);
      FirstBreakDecides(head + START, false, rest);
    }
  }

  /** The one file a second write changes: text appended to was without line feeds and ended in a carriage return. */
  predicate EndsInLoneReturn(text: string) { LF !in text && EndsWith(text, [CR]) }

  lemma SeparatorWithoutLf(text: string)
    requires LF !in text
    ensures AppendSeparator(text, false) == [LF, LF]
  {
    assert text != "" ==> text[|text| - 1] in text;
  }

  lemma {:induction false} AppendedFileLineEnd(text: string, body: string)
    requires text != "" && !UsesCrLf(text)
    ensures UsesCrLf(InFile(text + AppendSeparator(text, false), body, false, "")) <==> EndsInLoneReturn(text)
  {
    hide UsesCrLf;
    var head := text + AppendSeparator(text, false);
    FileWithPlainSection(head, body, "");
    if LF in text {
      FirstPartDecides(text, AppendSeparator(text, false));
    } else {
      SeparatorWithoutLf(text);
      assert head == text + (Eol(false) + [LF]);
      FirstBreakDecides(text, false, [LF]);
    }
  }

  /**
   * Writing the same section again changes nothing, unless the first write appended it to a text without line feeds
   * that ends in a carriage return: then the line feed added behind it makes the file look like one with CRLF.
   */
  lemma {:induction false} WritingTwiceIsWritingOnce(
    existing: Option<string>, body: string, allowAppend: bool, again: bool)
    requires MarkerFree(body) && Apply(existing, Section(body, false), allowAppend).Written?
    ensures var wrapped := Section(body, false);
            var r := Apply(existing, wrapped, allowAppend);
            Apply(Some(r.text), wrapped, again) == Written(r.text, Replaced)
            <==> !(r.mode == Appended && EndsInLoneReturn(existing.value))
  {
    hide At, Count, UsesCrLf, ToEol, TailStart, InFile, Section, AppendSeparator, MarkerFree, OnlyAt, Apply, EndIndex, EndsInLoneReturn;
    var wrapped := Section(body, false);
    var r := Apply(existing, wrapped, allowAppend);
    var head, tail, crlf := WritesOneSection(existing, body, allowAppend);
    var b := ToEol(body, crlf);
    var start, end := |head|, EndIndex(head, b, crlf);
    OneSectionIsReplaced(r.text, wrapped, again, start, end);
    SectionIsFoundAgain(head, b, crlf, tail);
    SectionShowsItsEol(b, crlf);
    SectionWithEol(body, crlf);
    var second := SectionUsesCrLf(r.text, start, end);
    var t2 := head + ToEol(wrapped, second) + tail;
    assert Apply(Some(r.text), wrapped, again) == Written(t2, Replaced);
    EolsDiffer(body, crlf, second);
    SameMiddle(head, ToEol(wrapped, crlf), ToEol(wrapped, second), tail);
    assert t2 == r.text <==> crlf == second;
    LineEndStays(existing, body, allowAppend, r, head, tail, crlf);
  }

  /** It happens: a text that ends in a lone carriage return gets a section, and writing it again changes the line ends. */
  lemma {:induction false} LoneReturnIsWrittenTwice()
    ensures var wrapped := Section("x\n", false);
            var r := Apply(Some("a\r"), wrapped, true);
            r.Written? && r.mode == Appended && Apply(Some(r.text), wrapped, true) != Written(r.text, Replaced)
  {
    NoAngleIsMarkerFree("x\n");
    NoAngleIsMarkerFree("a\r");
    CountTells("a\r", START);
    CountTells("a\r", END);
    assert EndsInLoneReturn("a\r");
    hide Section;
    WritingTwiceIsWritingOnce(Some("a\r"), "x\n", true, true);
  }

  lemma NoAngleIsMarkerFree(text: string)
    requires '<' !in text
    ensures MarkerFree(text)
  {
    forall i: nat, m | Marker(m) ensures !At(text, m, i) {
      if At(text, m, i) { MarkersOpen(text, m, i); }
    }
  }

  lemma MarkersOpen(text: string, m: string, i: nat)
    requires Marker(m) && At(text, m, i)
    ensures '<' in text
  {
    assert text[i] == text[i..i + |m|][0];
  }

  lemma {:induction false} SameMiddle(x: string, y: string, z: string, w: string)
    ensures x + y + w == x + z + w <==> y == z
  {
    if x + y + w == x + z + w {
      assert |y| == |z|;
      assert (x + y + w)[|x|..|x| + |y|] == y;
      assert (x + z + w)[|x|..|x| + |z|] == z;
    }
  }

  /** Whether the whole file looks like CRLF after a write, for the case that the section does not. */
  lemma {:induction false} LineEndStays(
    existing: Option<string>, body: string, allowAppend: bool, r: Outcome, head: string, tail: string, crlf: bool)
    requires r == Apply(existing, Section(body, false), allowAppend) && r.Written?
    requires r.text == InFile(head, ToEol(body, crlf), crlf, tail)
    requires match r.mode
             case Created => (existing.None? || existing.value == "") && head == "" && tail == "" && !crlf
             case Appended => existing.Some? && MarkerFree(existing.value) && tail == "" && crlf == UsesCrLf(existing.value)
                              && head == existing.value + AppendSeparator(existing.value, crlf)
             case Replaced => exists start: nat, end: nat ::
               existing.Some? && OneSection(existing.value, start, end) && end + |END| <= |existing.value|
               && head == existing.value[..start] && tail == existing.value[TailStart(existing.value, end + |END|)..]
               && crlf == SectionUsesCrLf(existing.value, start, end)
    ensures !crlf ==> (UsesCrLf(r.text) <==> r.mode == Appended && EndsInLoneReturn(existing.value))
    ensures crlf && r.mode == Appended ==> !EndsInLoneReturn(existing.value)
  {
    hide At, Count, UsesCrLf, ToEol, TailStart, InFile, Section, AppendSeparator, MarkerFree, OnlyAt, Apply;
    match r.mode
    case Created => if !crlf { FileWithPlainSection(head, ToEol(body, crlf), tail); }
    case Appended =>
      AppendedIsNotEmpty(existing, body, allowAppend);
      if !crlf { AppendedFileLineEnd(existing.value, ToEol(body, crlf)); }
      if LF !in existing.value { NoLfNoCrLf(existing.value); }
    case Replaced =>
      if !crlf {
        FileWithPlainSection(head, ToEol(body, crlf), tail);
        var start: nat, end: nat :| OneSection(existing.value, start, end) && end + |END| <= |existing.value|
          && head == existing.value[..start] && crlf == SectionUsesCrLf(existing.value, start, end);
        assert existing.value == head + existing.value[start..];
        if LF in head { FirstPartDecides(head, existing.value[start..]); }
      }
  }

  lemma AppendedIsNotEmpty(existing: Option<string>, body: string, allowAppend: bool)
    requires var r := Apply(existing, Section(body, false), allowAppend); r.Written? && r.mode == Appended
    ensures existing.Some? && existing.value != ""
  {
  }
}
