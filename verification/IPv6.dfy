/** One canonical text for every spelling of an IPv6 address (section 2.2 of RFC 4291). */
module IPv6 {
  import opened Common

  // ---- Splitting and joining ----

  function Split(s: string, sep: char): (r: seq<string>)
    ensures r != []
    ensures forall i :: 0 <= i < |r| ==> sep !in r[i]
    ensures sep !in s ==> r == [s]
  {
    if s == "" then [""]
    else
      var rest := Split(s[1..], sep);
      assert sep !in s ==> sep !in s[1..] && [s[0]] + s[1..] == s && rest[1..] == [];
      if s[0] == sep then [""] + rest else [[s[0]] + rest[0]] + rest[1..]
  }

  function Join(parts: seq<string>, sep: char): string {
    if parts == [] then "" else if |parts| == 1 then parts[0] else parts[0] + ([sep] + Join(parts[1..], sep))
  }

  lemma {:induction false} SplitAt(x: string, y: string, sep: char)
    ensures Split(x + ([sep] + y), sep) == Split(x, sep) + Split(y, sep)
  {
    var t := x + ([sep] + y);
    if x == "" {
      assert t == [sep] + y && t[1..] == y;
    } else {
      assert t[1..] == x[1..] + ([sep] + y);
      SplitAt(x[1..], y, sep);
    }
  }

  lemma {:induction false} SplitUndoesJoin(parts: seq<string>, sep: char)
    requires parts != [] && forall i :: 0 <= i < |parts| ==> sep !in parts[i]
    ensures Split(Join(parts, sep), sep) == parts
  {
    if |parts| > 1 {
      SplitUndoesJoin(parts[1..], sep);
      SplitAt(parts[0], Join(parts[1..], sep), sep);
    }
  }

  lemma {:induction false} JoinUndoesSplit(s: string, sep: char)
    ensures Join(Split(s, sep), sep) == s
  {
    if s != "" {
      JoinUndoesSplit(s[1..], sep);
      var rest := Split(s[1..], sep);
      if s[0] == sep {
        assert ([""] + rest)[1..] == rest;
      } else {
        var r := [[s[0]] + rest[0]] + rest[1..];
        assert r[1..] == rest[1..];
      }
    }
  }

  lemma {:induction false} JoinAppends(a: seq<string>, b: seq<string>, sep: char)
    requires a != [] && b != []
    ensures Join(a + b, sep) == Join(a, sep) + ([sep] + Join(b, sep))
  {
    if |a| == 1 {
      assert (a + b)[1..] == b;
    } else {
      assert (a + b)[1..] == a[1..] + b;
      JoinAppends(a[1..], b, sep);
    }
  }

  // ---- Characters ----

  predicate HexDigit(c: char) { Digit(c) || 'a' <= c <= 'f' }

  function LowerChar(c: char): char { if 'A' <= c <= 'Z' then c - 'A' + 'a' else c }

  function Lower(s: string): (r: string)
    ensures |r| == |s|
  {
    seq(|s|, i requires 0 <= i < |s| => LowerChar(s[i]))
  }

  predicate Group(g: string) { 1 <= |g| <= 4 && forall i :: 0 <= i < |g| ==> HexDigit(g[i]) }

  predicate Groups(gs: seq<string>) { forall k :: 0 <= k < |gs| ==> Group(gs[k]) }

  predicate Octet(o: string) { 1 <= |o| <= 3 && forall i :: 0 <= i < |o| ==> Digit(o[i]) }

  function Decimal(s: string): nat
    requires forall i :: 0 <= i < |s| ==> Digit(s[i])
  {
    if s == "" then 0
    else
      assert Digit(s[|s| - 1]);
      10 * Decimal(s[..|s| - 1]) + (s[|s| - 1] as int - '0' as int)
  }

  function HexChar(d: nat): char
    requires d < 16
  {
    if d < 10 then '0' + d as char else 'a' + (d - 10) as char
  }

  /** toString(16) */
  function HexText(n: nat): string {
    if n < 16 then [HexChar(n)] else HexText(n / 16) + [HexChar(n % 16)]
  }

  lemma {:induction false} HexTextIsGroup(n: nat, width: nat)
    requires n < 65536 && 1 <= width <= 4
    requires width < 4 ==> n < if width == 1 then 16 else if width == 2 then 256 else 4096
    ensures Group(HexText(n)) && |HexText(n)| <= width
  {
    if n >= 16 { HexTextIsGroup(n / 16, width - 1); }
  }

  /** padStart(4, '0') */
  function Padded(g: string): (r: string)
    ensures |g| <= 4 ==> |r| == 4
    ensures Group(g) ==> Group(r)
    decreases 4 - |g|
  {
    if |g| < 4 then Padded(['0'] + g) else g
  }

  function PaddedAll(groups: seq<string>): (r: seq<string>)
    ensures |r| == |groups| && forall i :: 0 <= i < |r| ==> r[i] == Padded(groups[i])
  {
    seq(|groups|, i requires 0 <= i < |groups| => Padded(groups[i]))
  }

  // ---- canonicalIPv6 ----

  /** The groups at full width, between colons. */
  function Form(groups: seq<string>): string { Join(PaddedAll(groups), ':') }

  /** Where the first `::` is, and the length of the text when there is none. */
  function FirstPair(s: string): (r: nat)
    ensures r <= |s| && (r < |s| ==> r + 1 < |s| && s[r] == ':' && s[r + 1] == ':')
    ensures forall i :: 0 <= i < r && i + 1 < |s| ==> !(s[i] == ':' && s[i + 1] == ':')
  {
    if s == "" then 0
    else if |s| > 1 && s[0] == ':' && s[1] == ':' then 0
    else
      var r := FirstPair(s[1..]);
      assert forall i :: 1 <= i < |s| ==> s[i] == s[1..][i - 1];
      r + 1
  }

  /** How many times `::` occurs, without overlap. */
  function PairCount(s: string): nat
    decreases |s|
  {
    var i := FirstPair(s);
    if i == |s| then 0 else 1 + PairCount(s[i + 2..])
  }

  predicate HasTriple(s: string) {
    exists i :: 0 <= i < |s| - 2 && s[i] == ':' && s[i + 1] == ':' && s[i + 2] == ':'
  }

  predicate AddressCharacters(s: string) { s != "" && forall i :: 0 <= i < |s| ==> HexDigit(s[i]) || s[i] == ':' }

  function Parts(s: string): seq<string> { if s == "" then [] else Split(s, ':') }

  function Zeros(n: nat): (z: seq<string>)
    ensures |z| == n && forall i :: 0 <= i < n ==> z[i] == "0"
  {
    seq(n, i => "0")
  }

  /** An address without an IPv4 tail. */
  function Grouped(text: string): Option<string> {
    if !AddressCharacters(text) || PairCount(text) > 1 || HasTriple(text) then None
    else
      var i := FirstPair(text);
      var compressed := i < |text|;
      var left := Parts(text[..i]);
      var right := if compressed then Parts(text[i + 2..]) else [];
      var missing := 8 - |left| - |right|;
      if (if compressed then missing < 1 else |left| != 8) then None
      else
        var groups := if compressed then left + Zeros(missing) + right else left;
        if Groups(groups) then Some(Form(groups)) else None
  }

  datatype Dotted = Dotted(prefix: string, octets: seq<string>)

  /** Where the text after the last colon starts. */
  function AfterLastColon(s: string): (r: nat)
    ensures r <= |s| && ':' !in s[r..] && (r > 0 ==> s[r - 1] == ':')
  {
    if s == "" then 0
    else if s[|s| - 1] == ':' then |s|
    else
      var r := AfterLastColon(s[..|s| - 1]);
      assert s[r..] == s[..|s| - 1][r..] + [s[|s| - 1]];
      r
  }

  /** An IPv4 tail behind a colon. */
  function DottedTail(s: string): (r: Option<Dotted>)
    ensures r.Some? ==> |r.value.octets| == 4 && forall k :: 0 <= k < 4 ==> Octet(r.value.octets[k])
  {
    var i := AfterLastColon(s);
    var octets := Split(s[i..], '.');
    if i > 0 && |octets| == 4 && forall k :: 0 <= k < 4 ==> Octet(octets[k]) then Some(Dotted(s[..i], octets)) else None
  }

  predicate OctetsFit(octets: seq<string>) {
    |octets| == 4 && forall k :: 0 <= k < 4 ==> Octet(octets[k]) && Decimal(octets[k]) <= 255
  }

  /** The two groups an IPv4 tail stands for. */
  function TailGroups(octets: seq<string>): seq<string>
    requires OctetsFit(octets)
  {
    [HexText(Decimal(octets[0]) * 256 + Decimal(octets[1])), HexText(Decimal(octets[2]) * 256 + Decimal(octets[3]))]
  }

  function CanonicalIPv6(address: string): Option<string> {
    var lower := Lower(address);
    var dotted := DottedTail(lower);
    if dotted.None? then Grouped(lower)
    else if !OctetsFit(dotted.value.octets) then None
    else Grouped(dotted.value.prefix + Join(TailGroups(dotted.value.octets), ':'))
  }

  // ---- Spellings ----

  function TailWritten(octets: seq<string>): string { Join(octets, '.') }

  /**
   * A spelling in lower case: groups of one to four digits, at most one `::` that stands for one or more groups of
   * zeros, and possibly the last two groups as an IPv4 address.
   */
  datatype Spelling = Spelling(left: seq<string>, compressed: bool, right: seq<string>, tail: Option<seq<string>>) {
    function Width(): nat { |left| + |right| + if tail.Some? then 2 else 0 }

    ghost predicate Valid() {
      && Groups(left) && Groups(right)
      && (tail.Some? ==> OctetsFit(tail.value))
      && (if compressed then Width() <= 7 else Width() == 8 && right == [])
    }

    function TailText(): seq<string> { if tail.Some? then [TailWritten(tail.value)] else [] }

    function Written(): string {
      if compressed then Join(left, ':') + ("::" + Join(right + TailText(), ':')) else Join(left + TailText(), ':')
    }

    function TailAsGroups(): seq<string>
      requires tail.Some? ==> OctetsFit(tail.value)
    {
      if tail.Some? then TailGroups(tail.value) else []
    }

    /** The eight groups it stands for. */
    function Eight(): seq<string>
      requires tail.Some? ==> OctetsFit(tail.value)
      requires Width() <= 8
    {
      left + Zeros(8 - Width()) + right + TailAsGroups()
    }

    /** The same address without an IPv4 tail. */
    function Plain(): Spelling
      requires tail.Some? ==> OctetsFit(tail.value)
    {
      if compressed then Spelling(left, true, right + TailAsGroups(), None)
      else Spelling(left + TailAsGroups(), false, right, None)
    }
  }

  // ---- Reading a spelling without an IPv4 tail ----

  ghost predicate NoPair(s: string) { forall i :: 0 <= i < |s| - 1 ==> !(s[i] == ':' && s[i + 1] == ':') }

  /** What joined groups look like: digits and single colons, none at either end. */
  lemma {:induction false} JoinShape(groups: seq<string>)
    requires Groups(groups)
    ensures var j := Join(groups, ':');
            && (j == "" <==> groups == [])
            && (j != "" ==> AddressCharacters(j) && HexDigit(j[0]) && HexDigit(j[|j| - 1]))
            && NoPair(j)
  {
    if |groups| > 1 { JoinShape(groups[1..]); }
  }

  lemma {:induction false} PartsUndoJoin(groups: seq<string>)
    requires Groups(groups)
    ensures Parts(Join(groups, ':')) == groups
  {
    hide Split, Join;
    JoinShape(groups);
    if groups != [] {
      forall i | 0 <= i < |groups| ensures ':' !in groups[i] { GroupHasNoColon(groups[i]); }
      SplitUndoesJoin(groups, ':');
    }
  }

  lemma GroupHasNoColon(g: string)
    requires Group(g)
    ensures ':' !in g && '.' !in g
  {
  }

  lemma {:induction false} PartsJoin(s: string)
    ensures Join(Parts(s), ':') == s
  {
    JoinUndoesSplit(s, ':');
  }

  lemma {:induction false} FirstPairIs(t: string, k: nat)
    requires k + 1 < |t| && t[k] == ':' && t[k + 1] == ':'
    requires forall i :: 0 <= i < k ==> !(t[i] == ':' && t[i + 1] == ':')
    ensures FirstPair(t) == k
  {
  }

  lemma {:induction false} OnePairCharacters(l: string, r: string)
    requires NoPair(l) && NoPair(r) && (l == "" || l[|l| - 1] != ':') && (r == "" || r[0] != ':')
    ensures var t, k := l + ("::" + r), |l|;
            && t[..k] == l && t[k + 2..] == r && t[k] == ':' && t[k + 1] == ':'
            && forall i :: 0 <= i < |t| - 1 && i != k ==> !(t[i] == ':' && t[i + 1] == ':')
  {
    var t, k := l + ("::" + r), |l|;
    forall i | 0 <= i < |t| - 1 && i != k ensures !(t[i] == ':' && t[i + 1] == ':') {
      if i < k {
        assert t[i] == l[i];
        assert i + 1 < k ==> t[i + 1] == l[i + 1];
      } else if i == k + 1 {
        assert t[i + 1] == r[0];
      } else {
        assert t[i] == r[i - (k + 2)] && t[i + 1] == r[i - (k + 2) + 1];
      }
    }
    assert t[k + 2..] == r;
  }

  lemma OnlyPairIsNoTriple(t: string, k: nat)
    requires forall i :: 0 <= i < |t| - 1 && i != k ==> !(t[i] == ':' && t[i + 1] == ':')
    ensures !HasTriple(t)
  {
  }

  /** The only `::` of a compressed spelling is the one between the two halves. */
  lemma {:induction false} OnePair(l: string, r: string)
    requires NoPair(l) && NoPair(r) && (l == "" || l[|l| - 1] != ':') && (r == "" || r[0] != ':')
    ensures var t := l + ("::" + r);
            FirstPair(t) == |l| && t[..|l|] == l && t[|l| + 2..] == r && PairCount(t) == 1 && !HasTriple(t)
  {
    hide PairCount, HasTriple, FirstPair, NoPair;
    var t := l + ("::" + r);
    OnePairCharacters(l, r);
    FirstPairIs(t, |l|);
    OnlyPairIsNoTriple(t, |l|);
    NoPairMeansNone(r);
    PairCountStep(t);
  }

  lemma {:induction false} PairCountStep(t: string)
    requires FirstPair(t) < |t|
    ensures PairCount(t) == 1 + PairCount(t[FirstPair(t) + 2..])
  {
  }

  lemma {:induction false} NoPairMeansNone(s: string)
    requires NoPair(s)
    ensures FirstPair(s) == |s| && PairCount(s) == 0 && !HasTriple(s)
  {
  }

  lemma {:induction false} CompressedIsRead(left: seq<string>, right: seq<string>)
    requires Groups(left) && Groups(right) && |left| + |right| <= 7
    ensures Grouped(Join(left, ':') + ("::" + Join(right, ':'))) == Some(Form(left + Zeros(8 - |left| - |right|) + right))
  {
    hide Join, FirstPair, PairCount, HasTriple, Parts, AddressCharacters, NoPair, Form, Groups, HexDigit;
    hide Grouped;
    var l, r := Join(left, ':'), Join(right, ':');
    JoinShape(left);
    JoinShape(right);
    PartsUndoJoin(left);
    PartsUndoJoin(right);
    NotColon(l);
    NotColon(r);
    OnePair(l, r);
    CompressedCharacters(l, r);
    GroupsAround(left, 8 - |left| - |right|, right);
    GroupedOfHalves(l + ("::" + r), |l|, left, right);
  }

  lemma {:induction false} GroupedOfHalves(text: string, i: nat, left: seq<string>, right: seq<string>)
    requires AddressCharacters(text) && PairCount(text) == 1 && !HasTriple(text) && FirstPair(text) == i < |text|
    requires Parts(text[..i]) == left && Parts(text[i + 2..]) == right && |left| + |right| <= 7
    requires Groups(left + Zeros(8 - |left| - |right|) + right)
    ensures Grouped(text) == Some(Form(left + Zeros(8 - |left| - |right|) + right))
  {
    hide Join, FirstPair, PairCount, HasTriple, Parts, AddressCharacters, Form, Groups;
  }

  lemma NotColon(s: string)
    ensures s != "" && HexDigit(s[0]) ==> s[0] != ':'
    ensures s != "" && HexDigit(s[|s| - 1]) ==> s[|s| - 1] != ':'
  {
  }

  lemma {:induction false} UncompressedIsRead(groups: seq<string>)
    requires Groups(groups) && |groups| == 8
    ensures Grouped(Join(groups, ':')) == Some(Form(groups))
  {
    hide Join, FirstPair, PairCount, HasTriple, Parts, AddressCharacters, NoPair, Form, Groups, HexDigit;
    var text := Join(groups, ':');
    JoinShape(groups);
    PartsUndoJoin(groups);
    NoPairMeansNone(text);
    assert text[..|text|] == text;
  }

  lemma {:induction false} PlainSpellingIsRead(sp: Spelling)
    requires sp.Valid() && sp.tail.None?
    ensures Grouped(sp.Written()) == Some(Form(sp.Eight()))
  {
    hide Grouped, Form, Groups, Join;
    if sp.compressed {
      assert sp.right + sp.TailText() == sp.right;
      assert sp.Eight() == sp.left + Zeros(8 - sp.Width()) + sp.right;
      CompressedIsRead(sp.left, sp.right);
    } else {
      assert sp.left + sp.TailText() == sp.left;
      assert sp.Eight() == sp.left;
      UncompressedIsRead(sp.left);
    }
  }

  lemma CompressedCharacters(l: string, r: string)
    requires (l == "" || AddressCharacters(l)) && (r == "" || AddressCharacters(r))
    ensures AddressCharacters(l + ("::" + r))
  {
  }

  /** What is accepted without an IPv4 tail is a spelling. */
  lemma {:induction false} GroupedTextIsSpelling(text: string) returns (sp: Spelling)
    requires Grouped(text).Some?
    ensures sp.Valid() && sp.tail.None? && sp.Written() == text && Grouped(text) == Some(Form(sp.Eight()))
    ensures sp.compressed <==> FirstPair(text) < |text|
    ensures if sp.compressed then sp.left == Parts(text[..FirstPair(text)]) && sp.right == Parts(text[FirstPair(text) + 2..])
            else sp.left == Parts(text)
  {
    hide Join, FirstPair, PairCount, HasTriple, Parts, AddressCharacters, PaddedAll, Groups, Form;
    var i := FirstPair(text);
    if i < |text| {
      var left, right := Parts(text[..i]), Parts(text[i + 2..]);
      sp := Spelling(left, true, right, None);
      PartsJoin(text[..i]);
      PartsJoin(text[i + 2..]);
      assert right + sp.TailText() == right;
      assert text == text[..i] + ("::" + text[i + 2..]);
      GroupsAround(left, 8 - |left| - |right|, right);
      assert sp.Eight() == left + Zeros(8 - |left| - |right|) + right;
    } else {
      assert text[..i] == text;
      NoGroups();
      sp := Spelling(Parts(text), false, [], None);
      PartsJoin(text);
      assert sp.left + sp.TailText() == sp.left;
      assert sp.Eight() == sp.left;
    }
  }

  lemma NoGroups()
    ensures Groups([])
  {
  }

  lemma GroupsAround(left: seq<string>, n: nat, right: seq<string>)
    ensures Groups(left + Zeros(n) + right) <==> Groups(left) && Groups(right)
  {
    var groups := left + Zeros(n) + right;
    assert Group("0");
    assert forall k :: 0 <= k < |left| ==> groups[k] == left[k];
    assert forall k :: |left| <= k < |left| + n ==> groups[k] == "0";
    assert forall k :: 0 <= k < |right| ==> groups[|left| + n + k] == right[k];
    assert forall k :: |left| + n <= k < |groups| ==> groups[k] == right[k - |left| - n];
  }

  // ---- The IPv4 tail ----

  lemma {:induction false} TailIsSplit(octets: seq<string>)
    requires OctetsFit(octets)
    ensures Split(TailWritten(octets), '.') == octets
    ensures ':' !in TailWritten(octets)
  {
    forall k | 0 <= k < 4 ensures '.' !in octets[k] && ':' !in octets[k] { OctetCharacters(octets[k]); }
    SplitUndoesJoin(octets, '.');
    NoColonInJoin(octets);
  }

  lemma OctetCharacters(o: string)
    requires Octet(o)
    ensures '.' !in o && ':' !in o
  {
  }

  lemma {:induction false} NoColonInJoin(parts: seq<string>)
    requires forall k :: 0 <= k < |parts| ==> ':' !in parts[k]
    ensures ':' !in Join(parts, '.')
  {
    if |parts| > 1 { NoColonInJoin(parts[1..]); }
  }

  lemma InSuffix(s: string, r: nat, k: nat)
    requires r <= k < |s|
    ensures s[k] in s[r..]
  {
    assert s[r..][k - r] == s[k];
  }

  lemma {:induction false} LastColonIs(x: string, v: string)
    requires x != "" && x[|x| - 1] == ':' && ':' !in v
    ensures AfterLastColon(x + v) == |x|
  {
    var s := x + v;
    var r := AfterLastColon(s);
    assert forall i :: |x| <= i < |s| ==> s[i] == v[i - |x|];
    if r < |x| { InSuffix(s, r, |x| - 1); }
  }

  lemma {:induction false} TailIsFound(x: string, octets: seq<string>)
    requires x != "" && x[|x| - 1] == ':' && OctetsFit(octets)
    ensures DottedTail(x + TailWritten(octets)) == Some(Dotted(x, octets))
  {
    hide Split, Join, Octet, TailWritten, AfterLastColon;
    var v := TailWritten(octets);
    TailIsSplit(octets);
    LastColonIs(x, v);
    assert (x + v)[|x|..] == v && (x + v)[..|x|] == x;
  }

  lemma NoDotsNoTail(s: string)
    requires '.' !in s
    ensures DottedTail(s).None?
  {
    var i := AfterLastColon(s);
    assert '.' !in s[i..];
  }

  lemma {:induction false} TailGroupsAreGroups(octets: seq<string>)
    requires OctetsFit(octets)
    ensures Groups(TailGroups(octets)) && |TailGroups(octets)| == 2
  {
    HexTextIsGroup(Decimal(octets[0]) * 256 + Decimal(octets[1]), 4);
    HexTextIsGroup(Decimal(octets[2]) * 256 + Decimal(octets[3]), 4);
  }

  lemma GroupsJoined(a: seq<string>, b: seq<string>)
    ensures Groups(a + b) <==> Groups(a) && Groups(b)
  {
    assert forall k :: 0 <= k < |a| ==> (a + b)[k] == a[k];
    assert forall k :: 0 <= k < |b| ==> (a + b)[|a| + k] == b[k];
    assert forall k :: |a| <= k < |a| + |b| ==> (a + b)[k] == b[k - |a|];
  }

  /** The text before the IPv4 tail, which is the same when the tail is written as two groups. */
  lemma {:induction false} BeforeTail(sp: Spelling) returns (x: string)
    requires sp.Valid() && sp.tail.Some?
    ensures x != "" && x[|x| - 1] == ':'
    ensures sp.Written() == x + TailWritten(sp.tail.value)
    ensures sp.Plain().Valid() && sp.Plain().Written() == x + Join(TailGroups(sp.tail.value), ':')
    ensures sp.Plain().Eight() == sp.Eight()
  {
    hide Join, Groups, TailGroups, OctetsFit;
    var v, groups := [TailWritten(sp.tail.value)], TailGroups(sp.tail.value);
    TailGroupsAreGroups(sp.tail.value);
    JoinOne(TailWritten(sp.tail.value));
    var plain := sp.Plain();
    GroupsJoined(sp.left, groups);
    GroupsJoined(sp.right, groups);
    NoGroups();
    if sp.compressed {
      assert plain.right + plain.TailText() == sp.right + groups;
      assert plain.Eight() == sp.Eight();
      if sp.right == [] {
        assert sp.right + v == v && sp.right + groups == groups;
        x := Join(sp.left, ':') + "::";
        assert sp.Written() == Join(sp.left, ':') + ("::" + Join(v, ':'));
      } else {
        JoinAppends(sp.right, v, ':');
        JoinAppends(sp.right, groups, ':');
        x := Join(sp.left, ':') + ("::" + (Join(sp.right, ':') + ":"));
        assert sp.Written() == Join(sp.left, ':') + ("::" + (Join(sp.right, ':') + (":" + Join(v, ':'))));
        assert plain.Written() == Join(sp.left, ':') + ("::" + (Join(sp.right, ':') + (":" + Join(groups, ':'))));
      }
    } else {
      assert plain.left + plain.TailText() == sp.left + groups;
      assert plain.Eight() == sp.Eight();
      JoinAppends(sp.left, v, ':');
      JoinAppends(sp.left, groups, ':');
      x := Join(sp.left, ':') + ":";
    }
  }

  lemma JoinOne(s: string)
    ensures Join([s], ':') == s
  {
  }

  lemma {:induction false} PlainHasNoDots(sp: Spelling)
    requires sp.Valid() && sp.tail.None?
    ensures '.' !in sp.Written()
  {
    hide Join;
    PlainSpellingIsRead(sp);
    AcceptedCharacters(sp.Written());
  }

  lemma AcceptedCharacters(text: string)
    requires Grouped(text).Some?
    ensures '.' !in text
  {
  }

  /** Every spelling of an address is accepted, in either letter case, and gives the eight padded groups it stands for. */
  lemma {:induction false} EverySpellingIsAccepted(address: string, sp: Spelling)
    requires sp.Valid() && Lower(address) == sp.Written()
    ensures CanonicalIPv6(address) == Some(Form(sp.Eight()))
  {
    hide Join, Groups, TailGroups, Grouped, Form, DottedTail, Lower;
    if sp.tail.None? {
      PlainHasNoDots(sp);
      NoDotsNoTail(sp.Written());
      PlainSpellingIsRead(sp);
    } else {
      var x := BeforeTail(sp);
      TailIsFound(x, sp.tail.value);
      PlainSpellingIsRead(sp.Plain());
    }
  }

  // ---- Every accepted text is a spelling ----

  lemma {:induction false} DottedParts(lower: string)
    requires DottedTail(lower).Some?
    ensures var d := DottedTail(lower).value;
            d.prefix != "" && d.prefix[|d.prefix| - 1] == ':' && lower == d.prefix + TailWritten(d.octets)
  {
    hide Join, Split;
    var i := AfterLastColon(lower);
    JoinUndoesSplit(lower[i..], '.');
    assert lower == lower[..i] + lower[i..];
  }

  /** What follows the first `::` when two groups are the end of the text. */
  lemma {:induction false} FirstPairBeforeTail(x: string, h: string)
    requires x != "" && x[|x| - 1] == ':' && NoPair(h) && h != "" && h[0] != ':'
    ensures FirstPair(x + h) < |x + h| ==> FirstPair(x + h) + 2 <= |x|
  {
    var t := x + h;
    assert forall i :: |x| <= i < |t| ==> t[i] == h[i - |x|];
  }

  /** Splitting at colons, with the two groups of the tail at the end. */
  lemma {:induction false} PartsBeforeTail(y: string, groups: seq<string>)
    requires Groups(groups) && |groups| == 2
    requires y == "" || y[|y| - 1] == ':'
    ensures var parts := Parts(y + Join(groups, ':'));
            parts == (if y == "" then [] else Split(y[..|y| - 1], ':')) + groups
  {
    hide Split, Join;
    PartsUndoJoin(groups);
    JoinShape(groups);
    var h := Join(groups, ':');
    if y == "" {
      assert y + h == h;
    } else {
      assert y + h == y[..|y| - 1] + ([':'] + h);
      SplitAt(y[..|y| - 1], h, ':');
    }
  }

  lemma {:induction false} JoinBeforeTail(y: string, v: string)
    requires y == "" || y[|y| - 1] == ':'
    ensures Join((if y == "" then [] else Split(y[..|y| - 1], ':')) + [v], ':') == y + v
  {
    hide Split, Join;
    JoinOne(v);
    if y == "" {
      assert [] + [v] == [v] && y + v == v;
    } else {
      var parts := Split(y[..|y| - 1], ':');
      JoinAppends(parts, [v], ':');
      JoinUndoesSplit(y[..|y| - 1], ':');
      assert y == y[..|y| - 1] + [':'];
      assert y[..|y| - 1] + ([':'] + v) == y + v;
    }
  }

  lemma AroundPair(x: string, h: string, v: string, i: nat)
    requires i + 2 <= |x| && x[i] == ':' && x[i + 1] == ':'
    ensures (x + h)[..i] == x[..i] && (x + h)[i + 2..] == x[i + 2..] + h
    ensures x[..i] + ("::" + (x[i + 2..] + v)) == x + v
    ensures x[i + 2..] == "" || x[i + 2..][|x| - i - 3] == x[|x| - 1]
  {
    assert x == x[..i] + ("::" + x[i + 2..]);
  }

  lemma {:induction false} CompressedTailIsSpelling(x: string, octets: seq<string>, plain: Spelling) returns (sp: Spelling)
    requires x != "" && x[|x| - 1] == ':' && OctetsFit(octets)
    requires plain.Valid() && plain.tail.None? && plain.compressed
    requires var text := x + Join(TailGroups(octets), ':');
             var i := FirstPair(text);
             i < |text| && plain.left == Parts(text[..i]) && plain.right == Parts(text[i + 2..])
    ensures sp.Valid() && sp.Written() == x + TailWritten(octets) && sp.Eight() == plain.Eight()
  {
    hide Join, Split, Groups, TailGroups, Grouped, Form, Parts, FirstPair, NoPair, OctetsFit, HexDigit, AddressCharacters, TailWritten;
    var groups := TailGroups(octets);
    TailGroupsAreGroups(octets);
    var h, v := Join(groups, ':'), TailWritten(octets);
    JoinShape(groups);
    NotColon(h);
    var text := x + h;
    FirstPairBeforeTail(x, h);
    var i := FirstPair(text);
    var y := x[i + 2..];
    assert text[i] == x[i] && text[i + 1] == x[i + 1];
    AroundPair(x, h, v, i);
    PartsBeforeTail(y, groups);
    var right := if y == "" then [] else Split(y[..|y| - 1], ':');
    GroupsJoined(right, groups);
    sp := Spelling(plain.left, true, right, Some(octets));
    PartsJoin(x[..i]);
    JoinBeforeTail(y, v);
    assert sp.Eight() == plain.Eight();
  }

  lemma {:induction false} UncompressedTailIsSpelling(x: string, octets: seq<string>, plain: Spelling) returns (sp: Spelling)
    requires x != "" && x[|x| - 1] == ':' && OctetsFit(octets)
    requires plain.Valid() && plain.tail.None? && !plain.compressed && plain.left == Parts(x + Join(TailGroups(octets), ':'))
    ensures sp.Valid() && sp.Written() == x + TailWritten(octets) && sp.Eight() == plain.Eight()
  {
    hide Join, Split, Groups, TailGroups, Grouped, Form, Parts, FirstPair, NoPair, OctetsFit, TailWritten;
    var groups := TailGroups(octets);
    TailGroupsAreGroups(octets);
    PartsBeforeTail(x, groups);
    var left := Split(x[..|x| - 1], ':');
    GroupsJoined(left, groups);
    NoGroups();
    sp := Spelling(left, false, [], Some(octets));
    JoinBeforeTail(x, TailWritten(octets));
    assert sp.Eight() == plain.Eight();
  }

  lemma {:induction false} TailTextIsSpelling(x: string, octets: seq<string>) returns (sp: Spelling)
    requires x != "" && x[|x| - 1] == ':' && OctetsFit(octets)
    requires Grouped(x + Join(TailGroups(octets), ':')).Some?
    ensures sp.Valid() && sp.Written() == x + TailWritten(octets)
    ensures Grouped(x + Join(TailGroups(octets), ':')) == Some(Form(sp.Eight()))
  {
    hide Join, Split, Groups, TailGroups, Grouped, Form, Parts, FirstPair, OctetsFit, TailWritten;
    var plain := GroupedTextIsSpelling(x + Join(TailGroups(octets), ':'));
    if plain.compressed {
      sp := CompressedTailIsSpelling(x, octets, plain);
    } else {
      sp := UncompressedTailIsSpelling(x, octets, plain);
    }
  }

  /** Every accepted text is, letter case aside, a spelling, and its canonical text is the eight padded groups. */
  lemma {:induction false} EveryAcceptedTextIsSpelling(address: string) returns (sp: Spelling)
    requires CanonicalIPv6(address).Some?
    ensures sp.Valid() && Lower(address) == sp.Written() && CanonicalIPv6(address) == Some(Form(sp.Eight()))
  {
    hide Join, Groups, TailGroups, Grouped, Form, DottedTail, Lower;
    var lower := Lower(address);
    var dotted := DottedTail(lower);
    if dotted.None? {
      sp := GroupedTextIsSpelling(lower);
    } else {
      DottedParts(lower);
      sp := TailTextIsSpelling(dotted.value.prefix, dotted.value.octets);
    }
  }

  // ---- The canonical text ----

  lemma {:induction false} EightAreGroups(sp: Spelling)
    requires sp.Valid()
    ensures |sp.Eight()| == 8 && Groups(sp.Eight())
  {
    hide Groups, TailGroups;
    GroupsAround(sp.left, 8 - sp.Width(), sp.right);
    if sp.tail.Some? { TailGroupsAreGroups(sp.tail.value); }
    NoGroups();
    GroupsJoined(sp.left + Zeros(8 - sp.Width()) + sp.right, sp.TailAsGroups());
  }

  lemma PaddedAreGroups(groups: seq<string>)
    requires Groups(groups)
    ensures Groups(PaddedAll(groups)) && PaddedAll(PaddedAll(groups)) == PaddedAll(groups)
  {
  }

  lemma {:induction false} FormIsLowerCase(groups: seq<string>)
    requires Groups(groups)
    ensures Lower(Join(groups, ':')) == Join(groups, ':')
  {
    JoinShape(groups);
    var j := Join(groups, ':');
    assert forall i :: 0 <= i < |j| ==> LowerChar(j[i]) == j[i];
  }

  /** The canonical text is its own canonical text. */
  lemma {:induction false} CanonicalTwiceIsCanonicalOnce(address: string)
    requires CanonicalIPv6(address).Some?
    ensures var c := CanonicalIPv6(address).value;
            CanonicalIPv6(c) == Some(c)
  {
    hide Join, Groups, CanonicalIPv6, PaddedAll, Lower;
    var sp := EveryAcceptedTextIsSpelling(address);
    EightAreGroups(sp);
    var groups := PaddedAll(sp.Eight());
    PaddedAreGroups(sp.Eight());
    NoGroups();
    var again := Spelling(groups, false, [], None);
    assert again.Written() == Join(groups, ':') by { assert groups + again.TailText() == groups; }
    assert again.Eight() == groups by { assert Zeros(0) == []; }
    FormIsLowerCase(groups);
    EverySpellingIsAccepted(Join(groups, ':'), again);
  }

  // ---- The same address ----

  function HexDigitValue(c: char): nat
    requires HexDigit(c)
  {
    if Digit(c) then c as int - '0' as int else c as int - 'a' as int + 10
  }

  function HexValue(s: string): nat
    requires forall i :: 0 <= i < |s| ==> HexDigit(s[i])
  {
    if s == "" then 0
    else
      assert HexDigit(s[|s| - 1]);
      16 * HexValue(s[..|s| - 1]) + HexDigitValue(s[|s| - 1])
  }

  lemma {:induction false} LeadingZero(s: string)
    requires forall i :: 0 <= i < |s| ==> HexDigit(s[i])
    ensures HexValue(['0'] + s) == HexValue(s)
  {
    var t := ['0'] + s;
    if s == "" {
      assert t[..0] == "";
    } else {
      assert t[..|t| - 1] == ['0'] + s[..|s| - 1];
      LeadingZero(s[..|s| - 1]);
    }
  }

  lemma {:induction false} PaddingKeepsValue(g: string)
    requires Group(g)
    ensures Group(Padded(g)) && HexValue(Padded(g)) == HexValue(g)
    decreases 4 - |g|
  {
    if |g| < 4 {
      LeadingZero(g);
      PaddingKeepsValue(['0'] + g);
    }
  }

  lemma {:induction false} SameLengthSameValue(a: string, b: string)
    requires |a| == |b| && (forall i :: 0 <= i < |a| ==> HexDigit(a[i]) && HexDigit(b[i]))
    ensures HexValue(a) == HexValue(b) <==> a == b
  {
    if a != "" {
      var n := |a| - 1;
      SameLengthSameValue(a[..n], b[..n]);
      assert a == a[..n] + [a[n]] && b == b[..n] + [b[n]];
      LastDigit(HexValue(a[..n]), HexDigitValue(a[n]), HexValue(b[..n]), HexDigitValue(b[n]));
    }
  }

  lemma LastDigit(p: nat, c: nat, q: nat, d: nat)
    requires c < 16 && d < 16
    ensures 16 * p + c == 16 * q + d <==> p == q && c == d
  {
  }

  /** Hexadecimal text means the number it was made from. */
  lemma {:induction false} HexTextMeans(n: nat)
    ensures (forall i :: 0 <= i < |HexText(n)| ==> HexDigit(HexText(n)[i])) && HexValue(HexText(n)) == n
  {
    hide HexChar, HexDigit, HexDigitValue;
    HexCharMeans(n % 16);
    if n >= 16 {
      HexTextMeans(n / 16);
      LastHexDigit(HexText(n / 16), HexChar(n % 16));
    } else {
      LastHexDigit("", HexChar(n));
    }
  }

  lemma HexCharMeans(d: nat)
    requires d < 16
    ensures HexDigit(HexChar(d)) && HexDigitValue(HexChar(d)) == d
  {
  }

  lemma {:induction false} LastHexDigit(s: string, c: char)
    requires HexDigit(c) && forall i :: 0 <= i < |s| ==> HexDigit(s[i])
    ensures var t := s + [c];
            (forall i :: 0 <= i < |t| ==> HexDigit(t[i])) && HexValue(t) == 16 * HexValue(s) + HexDigitValue(c)
  {
    hide HexDigit, HexDigitValue;
    assert (s + [c])[..|s|] == s;
  }

  /** The numbers of the eight groups. */
  ghost predicate SameAddress(a: seq<string>, b: seq<string>)
    requires Groups(a) && Groups(b) && |a| == |b|
  {
    forall i :: 0 <= i < |a| ==> HexValue(a[i]) == HexValue(b[i])
  }

  /** Two spellings get the same canonical text exactly when their groups are the same numbers. */
  lemma {:induction false} SameTextMeansSameAddress(a: seq<string>, b: seq<string>)
    requires Groups(a) && Groups(b) && |a| == |b| == 8
    ensures Form(a) == Form(b) <==> SameAddress(a, b)
  {
    hide Join, Groups, HexValue, Padded;
    PaddedAreGroups(a);
    PaddedAreGroups(b);
    PartsUndoJoin(PaddedAll(a));
    PartsUndoJoin(PaddedAll(b));
    forall i | 0 <= i < 8 ensures PaddedAll(a)[i] == PaddedAll(b)[i] <==> SameNumber(a[i], b[i]) {
      OneOfGroups(a, i);
      OneOfGroups(b, i);
      PaddingKeepsValue(a[i]);
      PaddingKeepsValue(b[i]);
      SameLengthSameValue(Padded(a[i]), Padded(b[i]));
    }
    assert PaddedAll(a) == PaddedAll(b) <==> forall i :: 0 <= i < 8 ==> PaddedAll(a)[i] == PaddedAll(b)[i];
    NumbersAgree(a, b);
  }

  predicate SameNumber(g: string, h: string) { Group(g) && Group(h) && HexValue(g) == HexValue(h) }

  lemma NumbersAgree(a: seq<string>, b: seq<string>)
    requires Groups(a) && Groups(b) && |a| == |b|
    ensures SameAddress(a, b) <==> forall i :: 0 <= i < |a| ==> SameNumber(a[i], b[i])
  {
  }

  lemma OneOfGroups(a: seq<string>, i: nat)
    requires Groups(a) && i < |a|
    ensures Group(a[i])
  {
  }

  /** The two groups of an IPv4 tail are its four octets, two to a group. */
  lemma {:induction false} TailGroupsMean(octets: seq<string>)
    requires OctetsFit(octets)
    ensures Groups(TailGroups(octets))
    ensures HexValue(TailGroups(octets)[0]) == Decimal(octets[0]) * 256 + Decimal(octets[1])
    ensures HexValue(TailGroups(octets)[1]) == Decimal(octets[2]) * 256 + Decimal(octets[3])
  {
    TailGroupsAreGroups(octets);
    HexTextMeans(Decimal(octets[0]) * 256 + Decimal(octets[1]));
    HexTextMeans(Decimal(octets[2]) * 256 + Decimal(octets[3]));
  }
}
